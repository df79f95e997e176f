/**
  No request is ever dropped, spoiled or not: while it is not Done, and while not all of its stages were
  advanced, some live task will bring it further.
 */
module ClusterCompletion {
  import opened Counting
  import opened Tasks
  import opened Stages
  import opened Cluster
  import opened ClusterNode
  import opened ClusterSafety
  import opened ClusterTheorems
  import opened ClusterOrigins
  import opened ClusterRequests

  // ---------------------------------------------------------------- what keeps a request going

  /** The stages of request `r` below `k` were all advanced. */
  ghost predicate LoggedBelow(j: Jobs, r: nat, k: nat) {
    forall m: nat {:trigger Advance(r, m)} :: m < k ==> Advance(r, m) in j.advances
  }

  /** Entry `id` carries a stage of `r`; if `logged`, the stages before it were advanced. */
  ghost predicate Drives(x: Node, id: nat, r: nat, logged: bool) {
    && Carries(x, id, r) && Pending(x.ledger[id]).value.stage <= POSTPROCESS
    && (logged ==> LoggedBelow(x.jobs, r, Pending(x.ledger[id]).value.stage))
  }

  /** Request `r` is Done or, if `logged`, all four of its stages were advanced. */
  ghost predicate Over(x: Node, r: nat, logged: bool) {
    if logged then LoggedBelow(x.jobs, r, 4) else r in x.jobs.done && x.jobs.done[r]
  }

  ghost predicate StillDriven(x: Node, logged: bool) {
    forall r: nat :: r in x.jobs.done && r !in x.jobs.opening && !Over(x, r, logged) ==>
      exists id :: Drives(x, id, r, logged)
  }

  /** Every stage an entry carries is carried still, that of entry `from` by entry `to`. */
  ghost predicate PendingMoves(l: Ledger, l': Ledger, from: nat, to: nat) {
    forall i :: i in l && Pending(l[i]).Some? ==>
      var i' := if i == from then to else i;
      i' in l' && Pending(l'[i']) == Pending(l[i])
  }

  lemma MovedStillDrives(x: Node, x': Node, from: nat, to: nat, i: nat, r: nat, logged: bool)
    requires Drives(x, i, r, logged) && PendingMoves(x.ledger, x'.ledger, from, to)
    requires x'.jobs.advances == x.jobs.advances
    ensures Drives(x', if i == from then to else i, r, logged)
  {
    hide Pending;
  }

  lemma MovedStillDriven(x: Node, x': Node, from: nat, to: nat, logged: bool)
    requires StillDriven(x, logged) && PendingMoves(x.ledger, x'.ledger, from, to)
    requires x'.jobs.advances == x.jobs.advances
    requires x'.jobs.done == x.jobs.done && x'.jobs.opening == x.jobs.opening
    ensures StillDriven(x', logged)
  {
    hide Drives, PendingMoves;
    forall r: nat | r in x'.jobs.done && r !in x'.jobs.opening && !Over(x', r, logged)
      ensures exists id :: Drives(x', id, r, logged)
    {
      var i :| Drives(x, i, r, logged);
      MovedStillDrives(x, x', from, to, i, r, logged);
    }
  }

  // ---------------------------------------------------------------- steps that leave requests alone

  /** No entry of any node has the id that is issued next. */
  ghost predicate FreshIds(s: State) {
    forall m :: 0 <= m < |s.nodes| ==> s.nodes[m].nextId !in s.nodes[m].ledger
  }

  lemma FreshIdsOf(s: State)
    requires Inv(s)
    ensures FreshIds(s)
  {
    hide Inv, NodeOk;
    forall m | 0 <= m < |s.nodes|
      ensures s.nodes[m].nextId !in s.nodes[m].ledger
    {
      NodeAt(s, m);
      FreshIdUnused(s.nodes[m]);
    }
  }

  ghost predicate Undisturbed(x: Node, x': Node) {
    && PendingMoves(x.ledger, x'.ledger, 0, 0) && x'.jobs.advances == x.jobs.advances
    && x'.jobs.done == x.jobs.done && x'.jobs.opening == x.jobs.opening
  }

  ghost predicate UndisturbedAt(s: State, s': State, n: nat) {
    n < |s.nodes| == |s'.nodes| && Undisturbed(s.nodes[n], s'.nodes[n])
  }

  lemma SubmitUndisturbed(s: State, a: Action, n: nat)
    requires n < |s.nodes| && FreshIds(s) && (a.SubmitPortable? || a.SubmitClosure?)
    ensures UndisturbedAt(s, Next(s, a), n)
  {
    hide SeenStage;
  }

  lemma SendUndisturbed(s: State, a: Action, n: nat)
    requires n < |s.nodes| && FreshIds(s) && (a.TrackAndSend? || a.DeliverOffer? || a.LoseOffer?)
    ensures UndisturbedAt(s, Next(s, a), n)
  {
    hide SeenStage;
  }

  lemma RunUndisturbed(s: State, a: Action, n: nat)
    requires n < |s.nodes| && (a.RunTask? || a.DeliverResult?)
    ensures UndisturbedAt(s, Next(s, a), n)
  {
    hide SeenStage;
  }

  lemma MoveUndisturbed(s: State, a: Action, n: nat)
    requires n < |s.nodes|
    requires a.PushTask? || a.StartTask? || a.PopForThief? || a.CountExecuted? || a.CollectTask?
    ensures UndisturbedAt(s, Next(s, a), n)
  {
    hide SeenStage;
  }

  lemma FinishUndisturbed(s: State, a: Action, n: nat)
    requires n < |s.nodes| && a.FinishTask?
    ensures UndisturbedAt(s, Next(s, a), n)
  {
    hide SeenStage;
  }

  // ---------------------------------------------------------------- steps of a request

  lemma OpenDriven(x: Node, logged: bool)
    requires StillDriven(x, logged)
    ensures StillDriven(Cluster.Open(x), logged)
  {
    hide Pending;
    var x' := Cluster.Open(x);
    forall r: nat | r in x'.jobs.done && r !in x'.jobs.opening && !Over(x', r, logged)
      ensures exists id :: Drives(x', id, r, logged)
    {
      assert !Over(x, r, logged);
      var i :| Drives(x, i, r, logged);
      assert Drives(x', i, r, logged);
    }
  }

  lemma FirstStageDriven(x: Node, p: StagePayload, logged: bool)
    requires StillDriven(x, logged) && p.stage == DECODE && x.nextId !in x.ledger
    ensures StillDriven(FirstStage(x, p), logged)
  {
    var x' := FirstStage(x, p);
    FirstStageJobs(x, p);
    FirstStageEntry(x, p);
    hide Pending, StageWork, FirstStage, Carries;
    forall r: nat | r in x'.jobs.done && r !in x'.jobs.opening && !Over(x', r, logged)
      ensures exists id :: Drives(x', id, r, logged)
    {
      if r == p.requestId {
        FirstStageDrives(x', x.nextId, p, logged);
      } else {
        assert !Over(x, r, logged);
        var i :| Drives(x, i, r, logged);
        StillCarries(x, x', i, r);
        assert Drives(x', i, r, logged);
      }
    }
  }

  lemma FirstStageEntry(x: Node, p: StagePayload)
    ensures FirstStage(x, p).ledger == x.ledger[x.nextId := Entry(Entering(true), StageWork(p))]
  {
    hide EncodedStage;
  }

  lemma FirstStageDrives(x: Node, id: nat, p: StagePayload, logged: bool)
    requires id in x.ledger && x.ledger[id] == Entry(Entering(true), StageWork(p)) && p.stage == DECODE
    ensures Drives(x, id, p.requestId, logged)
  {
    StageEntry(p);
    hide Pending, StageWork;
  }

  lemma StillCarries(x: Node, x': Node, id: nat, r: nat)
    requires Carries(x, id, r)
    requires forall i :: i in x.ledger ==> i in x'.ledger && x'.ledger[i] == x.ledger[i]
    ensures Carries(x', id, r) && x'.ledger[id] == x.ledger[id]
  {
    hide Pending;
  }

  lemma FirstStageJobs(x: Node, p: StagePayload)
    ensures var j, j' := x.jobs, FirstStage(x, p).jobs;
            j'.done == j.done && j'.advances == j.advances && j'.opening == j.opening - {p.requestId}
  {
    hide EncodedStage;
  }

  lemma ReassignDriven(x: Node, id: nat, logged: bool)
    requires StillDriven(x, logged) && Reassignable(x, id) && id < x.nextId && x.nextId !in x.ledger
    ensures StillDriven(Reassign(x, id), logged)
  {
    var x' := Reassign(x, id);
    ReassignParts(x, id);
    hide Pending, Reassign, StillDriven, Again, Blank;
    assert PendingMoves(x.ledger, x'.ledger, id, x.nextId);
    MovedStillDriven(x, x', id, x.nextId, logged);
  }

  lemma ObserveLedger(x: Node, id: nat)
    requires id in x.ledger && x.ledger[id].place.Settling?
    ensures var seen := SeenStage(x.ledger[id].work);
            var observed := x.ledger[id := x.ledger[id].(place := Observed)];
            Observe(x, id).ledger
            == if seen.Some? && seen.value.stage < POSTPROCESS then
                 observed[x.nextId := Entry(Entering(true), StageWork(seen.value.(stage := seen.value.stage + 1)))]
               else observed
  {
    hide SeenStage, EncodedStage;
  }

  /** The observer never takes Done back, and the last stage of a recorded request makes it Done. */
  lemma ObserveDone(x: Node, id: nat)
    requires id in x.ledger
    ensures var seen, j, j' := SeenStage(x.ledger[id].work), x.jobs, Observe(x, id).jobs;
            && j'.opening == j.opening && j'.done.Keys == j.done.Keys
            && (forall q :: q in j.done && j.done[q] ==> j'.done[q])
            && (seen.None? ==> j'.advances == j.advances)
            && (seen.Some? && seen.value.stage == POSTPROCESS && seen.value.requestId in j.done ==>
                  j'.done[seen.value.requestId])
  {
    hide SeenStage, EncodedStage;
  }

  lemma LoggedMore(j: Jobs, j': Jobs, r: nat, k: nat)
    requires LoggedBelow(j, r, k) && j'.advances == j.advances + [Advance(r, k)]
    ensures LoggedBelow(j', r, k + 1)
  {}

  lemma LoggedStill(j: Jobs, j': Jobs, r: nat, k: nat)
    requires LoggedBelow(j, r, k) && j.advances <= j'.advances
    ensures LoggedBelow(j', r, k)
  {}

  /** An entry that is not the one observed goes on driving its request. */
  lemma OtherDrives(x: Node, id: nat, r: nat, i: nat, logged: bool)
    requires id in x.ledger && x.ledger[id].place.Settling? && x.nextId !in x.ledger
    requires i != id && Drives(x, i, r, logged)
    ensures Drives(Observe(x, id), i, r, logged)
  {
    var x' := Observe(x, id);
    ObserveLedger(x, id);
    ObserveDone(x, id);
    if SeenStage(x.ledger[id].work).Some? {
      ObserveLogs(x, id);
    }
    hide Observe, SeenStage, LoggedBelow, StageWork, Pending;
    assert x'.ledger[i] == x.ledger[i];
    if logged {
      LoggedStill(x.jobs, x'.jobs, r, Pending(x.ledger[i]).value.stage);
    }
  }

  /** The entry that is observed hands its request on to the next stage, or the request is over. */
  lemma ObservedHandsOn(x: Node, id: nat, r: nat, logged: bool)
    requires id in x.ledger && x.ledger[id].place.Settling? && x.nextId !in x.ledger
    requires r in x.jobs.done && Drives(x, id, r, logged)
    ensures Over(Observe(x, id), r, logged) || Drives(Observe(x, id), x.nextId, r, logged)
  {
    hide Observe, LoggedBelow, StageWork, StageOf;
    if SeenStage(x.ledger[id].work).value.stage < POSTPROCESS {
      ObservedNextDrives(x, id, r, logged);
    } else {
      ObservedLastEnds(x, id, r, logged);
    }
  }

  lemma ObservedNextDrives(x: Node, id: nat, r: nat, logged: bool)
    requires id in x.ledger && x.ledger[id].place.Settling? && x.nextId !in x.ledger
    requires Drives(x, id, r, logged) && Pending(x.ledger[id]).value.stage < POSTPROCESS
    ensures Drives(Observe(x, id), x.nextId, r, logged)
  {
    var p := Pending(x.ledger[id]).value;
    hide Observe, Drives, StageWork, StageOf;
    ObservedNext(x, id, p);
    NextDrives(x, Observe(x, id), id, r, p, logged);
  }

  lemma ObservedNext(x: Node, id: nat, p: StagePayload)
    requires id in x.ledger && x.ledger[id].place.Settling? && Pending(x.ledger[id]) == Some(p)
    requires p.stage < POSTPROCESS
    ensures x.nextId in Observe(x, id).ledger
    ensures Observe(x, id).ledger[x.nextId] == Entry(Entering(true), StageWork(p.(stage := p.stage + 1)))
    ensures Observe(x, id).jobs.advances == x.jobs.advances + [Advance(p.requestId, p.stage)]
  {
    ObserveLedger(x, id);
    ObserveLogs(x, id);
    hide Observe, StageWork, StageOf;
  }

  lemma NextDrives(x: Node, x': Node, id: nat, r: nat, p: StagePayload, logged: bool)
    requires Drives(x, id, r, logged) && Pending(x.ledger[id]) == Some(p) && p.stage < POSTPROCESS
    requires x.nextId in x'.ledger
    requires x'.ledger[x.nextId] == Entry(Entering(true), StageWork(p.(stage := p.stage + 1)))
    requires x'.jobs.advances == x.jobs.advances + [Advance(p.requestId, p.stage)]
    ensures Drives(x', x.nextId, r, logged)
  {
    StageEntry(p.(stage := p.stage + 1));
    hide LoggedBelow, StageWork, Pending;
    if logged {
      LoggedMore(x.jobs, x'.jobs, r, p.stage);
    }
  }

  lemma ObservedLastEnds(x: Node, id: nat, r: nat, logged: bool)
    requires id in x.ledger && x.ledger[id].place.Settling? && r in x.jobs.done
    requires Drives(x, id, r, logged) && Pending(x.ledger[id]).value.stage == POSTPROCESS
    ensures Over(Observe(x, id), r, logged)
  {
    var x', p := Observe(x, id), SeenStage(x.ledger[id].work).value;
    assert Pending(x.ledger[id]) == Some(p);
    ObserveDone(x, id);
    ObserveLogs(x, id);
    hide Observe, SeenStage, LoggedBelow, Pending;
    if logged {
      LoggedMore(x.jobs, x'.jobs, r, p.stage);
    }
  }

  lemma OverStays(x: Node, id: nat, r: nat, logged: bool)
    requires id in x.ledger && Over(x, r, logged)
    ensures Over(Observe(x, id), r, logged)
  {
    ObserveDone(x, id);
    if SeenStage(x.ledger[id].work).Some? {
      ObserveLogs(x, id);
    }
    hide Observe, SeenStage;
  }

  lemma ObserveDriven(x: Node, id: nat, logged: bool)
    requires StillDriven(x, logged) && id in x.ledger && x.ledger[id].place.Settling? && x.nextId !in x.ledger
    ensures StillDriven(Observe(x, id), logged)
  {
    var x' := Observe(x, id);
    ObserveDone(x, id);
    hide Observe, SeenStage, Over, Drives;
    forall r: nat | r in x'.jobs.done && r !in x'.jobs.opening && !Over(x', r, logged)
      ensures exists i :: Drives(x', i, r, logged)
    {
      if Over(x, r, logged) {
        OverStays(x, id, r, logged);
      }
      var i :| Drives(x, i, r, logged);
      if i == id {
        ObservedHandsOn(x, id, r, logged);
      } else {
        OtherDrives(x, id, r, i, logged);
      }
    }
  }

  // ---------------------------------------------------------------- every run

  lemma UndisturbedDriven(s: State, s': State, n: nat, logged: bool)
    requires UndisturbedAt(s, s', n) && StillDriven(s.nodes[n], logged)
    ensures StillDriven(s'.nodes[n], logged)
  {
    hide StillDriven, PendingMoves;
    MovedStillDriven(s.nodes[n], s'.nodes[n], 0, 0, logged);
  }

  lemma SameUndisturbed(s: State, n: nat)
    requires n < |s.nodes|
    ensures UndisturbedAt(s, s, n)
  {
    hide Pending;
  }

  lemma NextFirstStage(s: State, n: nat, p: StagePayload)
    requires Enabled(s, SubmitFirstStage(n, p))
    ensures Next(s, SubmitFirstStage(n, p)) == SetNode(s, n, FirstStage(s.nodes[n], p))
  {
    hide FirstStage;
  }

  lemma NextOpens(s: State, n: nat)
    requires n < |s.nodes|
    ensures Next(s, OpenRequest(n)) == SetNode(s, n, Cluster.Open(s.nodes[n]))
  {}

  lemma NotEnabled(s: State, a: Action)
    requires !Enabled(s, a)
    ensures Next(s, a) == s
  {}

  lemma ReassignStepDriven(s: State, n: nat, id: nat, logged: bool)
    requires n < |s.nodes| && StillDriven(s.nodes[n], logged) && Reassignable(s.nodes[n], id)
    requires Inv(s)
    ensures StillDriven(Reassign(s.nodes[n], id), logged)
  {
    hide Inv, NodeOk, StillDriven, Reassign;
    NodeAt(s, n);
    FreshIdUnused(s.nodes[n]);
    ReassignableId(s.nodes[n], id);
    ReassignDriven(s.nodes[n], id, logged);
  }

  lemma OpenStepDriven(s: State, m: nat, n: nat, logged: bool)
    requires n < |s.nodes| && m < |s.nodes| && StillDriven(s.nodes[n], logged)
    ensures n < |Next(s, OpenRequest(m)).nodes| && StillDriven(Next(s, OpenRequest(m)).nodes[n], logged)
  {
    hide Next, StillDriven, Cluster.Open;
    NextOpens(s, m);
    OpenDriven(s.nodes[n], logged);
  }

  lemma FirstStageStepDriven(s: State, m: nat, p: StagePayload, n: nat, logged: bool)
    requires n < |s.nodes| && FreshIds(s) && StillDriven(s.nodes[n], logged)
    requires Enabled(s, SubmitFirstStage(m, p))
    ensures n < |Next(s, SubmitFirstStage(m, p)).nodes|
    ensures StillDriven(Next(s, SubmitFirstStage(m, p)).nodes[n], logged)
  {
    hide Next, StillDriven, FirstStage;
    NextFirstStage(s, m, p);
    FirstStageDriven(s.nodes[n], p, logged);
  }

  lemma ObserveStepDriven(s: State, m: nat, id: nat, n: nat, logged: bool)
    requires n < |s.nodes| && FreshIds(s) && StillDriven(s.nodes[n], logged) && At(s, m, id, Settling)
    ensures n < |Next(s, ObserveTask(m, id)).nodes|
    ensures StillDriven(Next(s, ObserveTask(m, id)).nodes[n], logged)
  {
    hide Next, StillDriven, Observe;
    NextObserves(s, m, id);
    if m == n {
      ObserveDriven(s.nodes[n], id, logged);
    }
  }

  lemma StepDriven(s: State, a: Action, n: nat, logged: bool)
    requires n < |s.nodes| && StillDriven(s.nodes[n], logged)
    requires Inv(s)
    ensures n < |Next(s, a).nodes| && StillDriven(Next(s, a).nodes[n], logged)
  {
    hide Inv, Next, StillDriven, FreshIds, Reassign;
    FreshIdsOf(s);
    if !Enabled(s, a) {
      NotEnabled(s, a);
    } else if a.OpenRequest? {
      OpenStepDriven(s, a.n, n, logged);
    } else if a.SubmitFirstStage? {
      FirstStageStepDriven(s, a.n, a.stage, n, logged);
    } else if a.ReassignTask? {
      NextReassigns(s, a.n, a.id);
      if a.n == n {
        ReassignStepDriven(s, n, a.id, logged);
      }
    } else if a.ObserveTask? {
      ObserveStepDriven(s, a.n, a.id, n, logged);
    } else {
      hide Enabled;
      QuietlyDriven(s, a, n, logged);
    }
  }

  lemma QuietlyDriven(s: State, a: Action, n: nat, logged: bool)
    requires n < |s.nodes| && StillDriven(s.nodes[n], logged) && FreshIds(s)
    requires !a.OpenRequest? && !a.SubmitFirstStage? && !a.ReassignTask? && !a.ObserveTask?
    ensures n < |Next(s, a).nodes| && StillDriven(Next(s, a).nodes[n], logged)
  {
    hide Next, StillDriven, Undisturbed, FreshIds;
    if a.SubmitPortable? || a.SubmitClosure? {
      SubmitUndisturbed(s, a, n);
    } else if a.TrackAndSend? || a.DeliverOffer? || a.LoseOffer? {
      SendUndisturbed(s, a, n);
    } else if a.RunTask? || a.DeliverResult? {
      RunUndisturbed(s, a, n);
    } else if a.FinishTask? {
      FinishUndisturbed(s, a, n);
    } else {
      MoveUndisturbed(s, a, n);
    }
    UndisturbedDriven(s, Next(s, a), n, logged);
  }

  lemma NothingDriven(s: State, n: nat, logged: bool)
    requires Init(s) && n < |s.nodes|
    ensures StillDriven(s.nodes[n], logged)
  {}

  /** In every run every recorded request that is neither over nor inside `submit` has a driver. */
  lemma {:induction false} RunDriven(s: State, steps: seq<Action>, n: nat, logged: bool)
    requires Init(s) && n < |s.nodes|
    ensures n < |Run(s, steps).nodes| && StillDriven(Run(s, steps).nodes[n], logged)
    decreases |steps|
  {
    hide Next, StillDriven, Inv;
    if steps == [] {
      NothingDriven(s, n, logged);
    } else {
      var last := |steps| - 1;
      RunDriven(s, steps[..last], n, logged);
      RunInv(s, steps[..last]);
      StepDriven(Run(s, steps[..last]), steps[last], n, logged);
    }
  }

  lemma {:induction false} SameNodeCount(s: State, steps: seq<Action>)
    ensures |Run(s, steps).nodes| == |s.nodes|
    decreases |steps|
  {
    hide Next;
    if steps != [] {
      SameNodeCount(s, steps[..|steps| - 1]);
      StepRemembers(Run(s, steps[..|steps| - 1]), steps[|steps| - 1]);
    }
  }

  // ---------------------------------------------------------------- live stages

  /**
    At its origin an unfinished request always has a live stage, wherever it is: queued, executing, with
    a thief, in the reaper's hands or re-running.  If nothing has spoiled the request it has exactly
    one, and none once it is Done.
   */
  lemma OneLiveStage(s: State, steps: seq<Action>, n: nat, r: nat)
    requires n < |Run(s, steps).nodes| && r in Run(s, steps).nodes[n].jobs.done
    requires Init(s)
    ensures var x := Run(s, steps).nodes[n];
            && (!x.jobs.done[r] && r !in x.jobs.opening ==> exists id :: Carries(x, id, r))
            && (r !in x.jobs.spoiled ==> OneLive(x, r))
  {
    hide *;
    SameNodeCount(s, steps);
    RunInv(s, steps);
    NodeAt(Run(s, steps), n);
    RunDriven(s, steps, n, false);
    DrivenCarries(Run(s, steps).nodes[n], r);
    if r !in Run(s, steps).nodes[n].jobs.spoiled {
      LiveStageOf(Run(s, steps).nodes[n], r);
    }
  }

  lemma DrivenCarries(x: Node, r: nat)
    requires StillDriven(x, false) && r in x.jobs.done
    ensures !x.jobs.done[r] && r !in x.jobs.opening ==> exists id :: Carries(x, id, r)
  {
    hide Carries;
    if !x.jobs.done[r] && r !in x.jobs.opening {
      assert !Over(x, r, false);
      var id :| Drives(x, id, r, false);
      assert Carries(x, id, r);
    }
  }

  // ---------------------------------------------------------------- wait_all

  /**
    When `wait_all` may return nothing is live, and JobManager's own count is the number of requests
    that are Done.  Every recorded request that no thread is still submitting is Done, and each of its
    four stages was advanced, whatever else was submitted; one that nothing has spoiled is not Done
    earlier than that.
   */
  lemma WaitAllMeansDone(s: State, steps: seq<Action>, n: nat)
    requires n < |Run(s, steps).nodes| && WaitAllReturns(Run(s, steps).nodes[n])
    requires Init(s)
    ensures var x := Run(s, steps).nodes[n];
            && x.ledger == map[]
            && x.jobs.completed == |DoneRequests(x.jobs.done)|
            && (forall r :: r in x.jobs.done && r !in x.jobs.opening ==>
                  x.jobs.done[r] && LoggedBelow(x.jobs, r, 4))
            && (x.jobs.opening == {} ==> x.jobs.completed == |x.jobs.done|)
            && (forall r :: r in x.jobs.done && r !in x.jobs.spoiled && x.jobs.done[r] ==> r !in x.jobs.opening)
  {
    hide *;
    SameNodeCount(s, steps);
    RunInv(s, steps);
    NodeAt(Run(s, steps), n);
    RunDriven(s, steps, n, false);
    RunDriven(s, steps, n, true);
    EmptyLedgerMeansDone(Run(s, steps).nodes[n]);
  }

  lemma EmptyLedger(x: Node)
    requires NodeOk(x) && x.counts.completed >= x.counts.submitted
    ensures x.ledger == map[]
  {
    hide PipelineOk, RunsAccounted, DoneCounted, LedgerOk, HistoryOk, OpenIds;
  }

  lemma NothingLeft(x: Node, logged: bool)
    requires x.ledger == map[] && StillDriven(x, logged)
    ensures forall r: nat :: r in x.jobs.done && r !in x.jobs.opening ==> Over(x, r, logged)
  {
    forall r: nat, id
      ensures !Drives(x, id, r, logged)
    {}
    hide Drives, Over;
  }

  lemma EmptyLedgerMeansDone(x: Node)
    requires NodeOk(x) && WaitAllReturns(x) && StillDriven(x, false) && StillDriven(x, true)
    ensures x.ledger == map[]
    ensures x.jobs.completed == |DoneRequests(x.jobs.done)|
    ensures forall r :: r in x.jobs.done && r !in x.jobs.opening ==> x.jobs.done[r] && LoggedBelow(x.jobs, r, 4)
    ensures x.jobs.opening == {} ==> x.jobs.completed == |x.jobs.done|
    ensures forall r :: r in x.jobs.done && r !in x.jobs.spoiled && x.jobs.done[r] ==> r !in x.jobs.opening
  {
    EmptyLedger(x);
    NothingLeft(x, false);
    NothingLeft(x, true);
    hide StillDriven, LoggedBelow;
    forall r | r in x.jobs.done && r !in x.jobs.opening
      ensures x.jobs.done[r] && LoggedBelow(x.jobs, r, 4)
    {
      assert Over(x, r, false) && Over(x, r, true);
    }
    forall r | r in x.jobs.done && r !in x.jobs.spoiled && x.jobs.done[r]
      ensures r !in x.jobs.opening
    {
      JobsOfNode(x, r);
    }
    hide BooksOk, RunsAccounted, PipelineOk;
    if x.jobs.opening == {} {
      assert DoneRequests(x.jobs.done) == x.jobs.done.Keys;
      assert |x.jobs.done.Keys| == |x.jobs.done|;
    }
  }
}
