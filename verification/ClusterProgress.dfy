/**
  No task of the cluster is ever stuck: from every reachable state, with whatever was lost so far, the
  nodes can still finish everything.
 */
module ClusterProgress {
  import opened Tasks
  import opened Stages
  import opened Cluster
  import opened ClusterNode
  import opened ClusterSafety
  import opened ClusterCompletion
  import opened ClusterRequests
  import opened ClusterTheorems

  // ---------------------------------------------------------------- how far a task is from its end

  /** A lost task still has a whole re-run before it, and its own settling. */
  function Rank(p: Place): nat {
    match p
    case Observed => 1
    case Settling => 2
    case Ran => 3
    case Running => 4
    case InPool => 5
    case InQueue => 5
    case Entering(_) => 6
    case Collected => 9
    case Outstanding => 10
    case InHand => 11
  }

  /** The stages that will follow the one an entry carries. */
  ghost function StagesAhead(e: Entry): nat {
    match Pending(e)
    case None => 0
    case Some(p) => if p.stage <= POSTPROCESS then POSTPROCESS - p.stage else 0
  }

  ghost function Weight(e: Entry): nat {
    Rank(e.place) + 8 * StagesAhead(e)
  }

  ghost function LedgerWeight(l: Ledger): nat
    decreases |l|
  {
    if l == map[] then 0
    else
      var id :| id in l;
      Smaller(l, id);
      Weight(l[id]) + LedgerWeight(l - {id})
  }

  lemma Smaller(l: Ledger, id: nat)
    requires id in l
    ensures |l - {id}| == |l| - 1
  {
    assert l.Keys == (l - {id}).Keys + {id};
  }

  lemma {:induction false} TakeOut(l: Ledger, id: nat)
    requires id in l
    ensures LedgerWeight(l) == Weight(l[id]) + LedgerWeight(l - {id})
    decreases |l|
  {
    hide Weight;
    var x :| x in l && LedgerWeight(l) == Weight(l[x]) + LedgerWeight(l - {x});
    if x != id {
      Smaller(l, x);
      TakeOut(l - {x}, id);
      assert (l - {x}) - {id} == (l - {id}) - {x};
      Smaller(l, id);
      TakeOut(l - {id}, x);
    }
  }

  lemma PutBack(l: Ledger, id: nat, e: Entry)
    ensures LedgerWeight(l[id := e]) == Weight(e) + LedgerWeight(l - {id})
  {
    hide Weight, LedgerWeight;
    TakeOut(l[id := e], id);
    assert l[id := e] - {id} == l - {id};
  }

  lemma Lighter(l: Ledger, id: nat, e: Entry)
    requires id in l && Weight(e) < Weight(l[id])
    ensures LedgerWeight(l[id := e]) < LedgerWeight(l)
  {
    hide Weight, LedgerWeight;
    TakeOut(l, id);
    PutBack(l, id, e);
  }

  lemma LighterPair(l: Ledger, id: nat, e: Entry, id': nat, e': Entry)
    requires id in l && id' !in l && Weight(e) + Weight(e') < Weight(l[id])
    ensures LedgerWeight(l[id := e][id' := e']) < LedgerWeight(l)
  {
    hide Weight, LedgerWeight;
    TakeOut(l, id);
    PutBack(l, id, e);
    PutBack(l[id := e], id', e');
    assert l[id := e] - {id'} == l[id := e];
  }

  // ---------------------------------------------------------------- one step of one task

  /** A step that is open to the task wherever it is; what is out on a thief is given up on. */
  function StepFor(n: nat, id: nat, p: Place): Action {
    match p
    case Entering(_) => PushTask(n, id)
    case InPool => StartTask(n, id)
    case InQueue => StartTask(n, id)
    case InHand => TrackAndSend(n, id, n)
    case Running => RunTask(n, id, false)
    case Ran => CountExecuted(n, id)
    case Outstanding => CollectTask(n, id)
    case Collected => ReassignTask(n, id)
    case Settling => ObserveTask(n, id)
    case Observed => FinishTask(n, id)
  }

  /** Node `n` has less left to do and the other nodes hold what they held. */
  ghost predicate Nearer(s: State, s': State, n: nat) {
    && n < |s.nodes| == |s'.nodes|
    && LedgerWeight(s'.nodes[n].ledger) < LedgerWeight(s.nodes[n].ledger)
    && forall i :: 0 <= i < |s.nodes| && i != n ==> s'.nodes[i] == s.nodes[i]
  }

  /** Entry `id` has moved to a place nearer to the end, and nothing else has changed in the ledgers. */
  ghost predicate MovedOn(s: State, s': State, n: nat, id: nat, p: Place) {
    && n < |s.nodes| == |s'.nodes| && id in s.nodes[n].ledger
    && (forall i :: 0 <= i < |s.nodes| && i != n ==> s'.nodes[i] == s.nodes[i])
    && s'.nodes[n].ledger == s.nodes[n].ledger[id := s.nodes[n].ledger[id].(place := p)]
    && Rank(p) < Rank(s.nodes[n].ledger[id].place) && !p.Observed?
  }

  predicate Waiting(p: Place) {
    p.Entering? || p.InPool? || p.InQueue?
  }

  predicate Under(p: Place) {
    p.InHand? || p.Running? || p.Ran? || p.Outstanding?
  }

  lemma WaitingMoves(s: State, n: nat, id: nat, from: Place)
    requires At(s, n, id, from) && Waiting(from)
    ensures var p := if from.Entering? then (if from.shared then InPool else InQueue) else Running;
            MovedOn(s, Next(s, StepFor(n, id, from)), n, id, p)
  {
    hide SeenStage;
  }

  lemma UnderMoves(s: State, n: nat, id: nat, from: Place)
    requires At(s, n, id, from) && Under(from)
    requires from.InHand? ==> s.nodes[n].ledger[id].work.Portable?
    ensures var p := match from
                     case InHand => Outstanding
                     case Running => Ran
                     case Ran => Settling
                     case _ => Collected;
            MovedOn(s, Next(s, StepFor(n, id, from)), n, id, p)
  {
    hide SeenStage;
  }

  lemma MovedIsNearer(s: State, s': State, n: nat, id: nat, p: Place)
    requires MovedOn(s, s', n, id, p) && !s.nodes[n].ledger[id].place.Observed?
    ensures Nearer(s, s', n)
  {
    hide SeenStage, LedgerWeight;
    Lighter(s.nodes[n].ledger, id, s.nodes[n].ledger[id].(place := p));
  }

  lemma MoveNearer(s: State, n: nat, id: nat, from: Place)
    requires At(s, n, id, from) && (Waiting(from) || Under(from))
    requires from.InHand? ==> s.nodes[n].ledger[id].work.Portable?
    ensures Nearer(s, Next(s, StepFor(n, id, from)), n)
  {
    hide Next, StepFor, MovedOn, Nearer;
    var s' := Next(s, StepFor(n, id, from));
    if Waiting(from) {
      WaitingMoves(s, n, id, from);
      MovedIsNearer(s, s', n, id, if from.Entering? then (if from.shared then InPool else InQueue) else Running);
    } else {
      UnderMoves(s, n, id, from);
      MovedIsNearer(s, s', n, id, if from.InHand? then Outstanding else if from.Running? then Ran
                                  else if from.Ran? then Settling else Collected);
    }
  }

  lemma FinishNearer(s: State, n: nat, id: nat)
    requires At(s, n, id, Observed)
    ensures Nearer(s, Next(s, FinishTask(n, id)), n)
  {
    TakeOut(s.nodes[n].ledger, id);
    hide SeenStage, LedgerWeight;
  }

  lemma ReassignNearer(s: State, n: nat, id: nat)
    requires At(s, n, id, Collected) && s.nodes[n].ledger[id].work.Portable?
    requires id < s.nodes[n].nextId && s.nodes[n].nextId !in s.nodes[n].ledger
    ensures Nearer(s, Next(s, ReassignTask(n, id)), n)
  {
    NextReassigns(s, n, id);
    hide Next, Reassign, LedgerWeight, SeenStage;
    ReassignParts(s.nodes[n], id);
    LighterPair(s.nodes[n].ledger, id, Blank(), s.nodes[n].nextId, Again(s.nodes[n], id));
  }

  /** Observing a stage is worth more than what is left of the task and the stage it submits. */
  lemma NextStageIsLighter(e: Entry, p: StagePayload)
    requires e.place.Settling? && SeenStage(e.work) == Some(p) && p.stage < POSTPROCESS
    ensures Weight(e.(place := Observed)) + Weight(Entry(Entering(true), StageWork(p.(stage := p.stage + 1))))
          < Weight(e)
  {
    hide SeenStage, EncodedStage, StageWork;
    StageEntry(p.(stage := p.stage + 1));
  }

  lemma ObservedIsLighter(e: Entry)
    requires e.place.Settling?
    ensures Weight(e.(place := Observed)) < Weight(e)
  {
    hide SeenStage;
  }

  lemma ObserveNearer(s: State, n: nat, id: nat)
    requires At(s, n, id, Settling) && s.nodes[n].nextId !in s.nodes[n].ledger
    ensures Nearer(s, Next(s, ObserveTask(n, id)), n)
  {
    hide Next, LedgerWeight, Weight, SeenStage, Observe, StageWork, EncodedStage;
    NextObserves(s, n, id);
    var x := s.nodes[n];
    var e := x.ledger[id];
    var seen := SeenStage(e.work);
    ObserveLedger(x, id);
    ObservedIsLighter(e);
    if seen.Some? && seen.value.stage < POSTPROCESS {
      NextStageIsLighter(e, seen.value);
      LighterPair(x.ledger, id, e.(place := Observed), x.nextId,
                  Entry(Entering(true), StageWork(seen.value.(stage := seen.value.stage + 1))));
    } else {
      Lighter(x.ledger, id, e.(place := Observed));
    }
  }

  /** In every reachable state every live task has a step that brings its node nearer to the end. */
  lemma NoTaskIsStuck(s: State, n: nat, id: nat)
    requires n < |s.nodes| && id in s.nodes[n].ledger
    requires Inv(s)
    ensures Nearer(s, Next(s, StepFor(n, id, s.nodes[n].ledger[id].place)), n)
  {
    hide Next, Nearer, EntryOk, StolenOk, HistoryOk, NodeOk, Inv;
    NodeAt(s, n);
    FreshIdUnused(s.nodes[n]);
    EntryAt(s, n, id);
    var e := s.nodes[n].ledger[id];
    if OnlyPortable(e.place) {
      EntryPortable(s.nodes[n].hist, s.nodes[n].nextId, id, e);
    }
    match e.place
    case Collected =>
      ReassignableId(s.nodes[n], id);
      ReassignNearer(s, n, id);
    case Settling => ObserveNearer(s, n, id);
    case Observed => FinishNearer(s, n, id);
    case _ => MoveNearer(s, n, id, e.place);
  }

  // ---------------------------------------------------------------- finishing everything

  /** No thread is inside `submit` on any node. */
  ghost predicate NothingOpening(s: State) {
    forall i :: 0 <= i < |s.nodes| ==> s.nodes[i].jobs.opening == {}
  }

  /** Letting a `submit` go on: its first stage is submitted. */
  lemma SubmitsOn(s: State, k: nat, r: u64) returns (a: Action)
    requires k < |s.nodes| && r in s.nodes[k].jobs.opening
    ensures a == SubmitFirstStage(k, StagePayload(r, 0, DECODE, 0, 0, 0))
    ensures |Next(s, a).nodes| == |s.nodes|
    ensures Next(s, a).nodes[k].jobs.opening == s.nodes[k].jobs.opening - {r}
    ensures forall i :: 0 <= i < |s.nodes| && i != k ==> Next(s, a).nodes[i] == s.nodes[i]
  {
    hide FirstStage;
    var p := StagePayload(r, 0, DECODE, 0, 0, 0);
    a := SubmitFirstStage(k, p);
    NextFirstStage(s, k, p);
    FirstStageJobs(s.nodes[k], p);
  }

  lemma {:induction false} LetIn(s: State, k: nat) returns (more: seq<Action>)
    requires k <= |s.nodes| && forall i :: 0 <= i < k ==> s.nodes[i].jobs.opening == {}
    requires Inv(s)
    ensures Inv(Steps(s, more)) && NothingOpening(Steps(s, more))
    decreases |s.nodes| - k, if k < |s.nodes| then |s.nodes[k].jobs.opening| else 0
  {
    hide Inv, Next;
    if k == |s.nodes| {
      return [];
    }
    if s.nodes[k].jobs.opening == {} {
      more := LetIn(s, k + 1);
      return;
    }
    var r :| r in s.nodes[k].jobs.opening;
    var a := SubmitsOn(s, k, r);
    StepInv(s, a);
    var rest := LetIn(Next(s, a), k);
    more := [a] + rest;
    assert more[0] == a && more[1..] == rest;
  }

  /** Bringing a task further opens no request. */
  lemma StepOpensNothing(s: State, n: nat, id: nat, from: Place, i: nat)
    requires i < |s.nodes|
    ensures |Next(s, StepFor(n, id, from)).nodes| == |s.nodes|
    ensures Next(s, StepFor(n, id, from)).nodes[i].jobs.opening == s.nodes[i].jobs.opening
  {
    var a := StepFor(n, id, from);
    hide Reassign, Observe, SeenStage;
    if a.ObserveTask? {
      if Enabled(s, a) {
        NextObserves(s, n, id);
        ObserveDone(s.nodes[n], id);
      }
    } else if a.ReassignTask? {
      if Enabled(s, a) {
        NextReassigns(s, n, id);
        ReassignOpening(s.nodes[n], id);
      }
    } else if a.TrackAndSend? || a.RunTask? {
      NetworkKeepsJobs(s, a, i);
    } else {
      MoveKeepsJobs(s, a, i);
    }
  }

  lemma ReassignOpening(x: Node, id: nat)
    requires id in x.ledger && x.ledger[id].work.Portable?
    ensures Reassign(x, id).jobs.opening == x.jobs.opening
  {
    hide SeenStage;
  }

  /** The nodes below `k` have nothing left, and no thread is inside `submit`. */
  ghost predicate Drained(s: State, k: nat) {
    NothingOpening(s) && k <= |s.nodes| && forall i :: 0 <= i < k ==> s.nodes[i].ledger == map[]
  }

  lemma {:induction false} DrainNode(s: State, k: nat) returns (more: seq<Action>)
    requires Drained(s, k) && k < |s.nodes|
    requires Inv(s)
    ensures Inv(Steps(s, more)) && Drained(Steps(s, more), k + 1)
    ensures |Steps(s, more).nodes| == |s.nodes|
    decreases LedgerWeight(s.nodes[k].ledger)
  {
    hide Inv, Next, LedgerWeight, StepFor;
    if s.nodes[k].ledger == map[] {
      return [];
    }
    var id :| id in s.nodes[k].ledger;
    var a := StepFor(k, id, s.nodes[k].ledger[id].place);
    NoTaskIsStuck(s, k, id);
    forall i | 0 <= i < |s.nodes|
      ensures Next(s, a).nodes[i].jobs.opening == {}
    {
      StepOpensNothing(s, k, id, s.nodes[k].ledger[id].place, i);
    }
    StepInv(s, a);
    var rest := DrainNode(Next(s, a), k);
    more := [a] + rest;
    assert more[0] == a && more[1..] == rest;
    assert Steps(s, more) == Steps(Next(s, a), rest);
  }

  lemma {:induction false} StepsAppend(s: State, a: seq<Action>, b: seq<Action>)
    ensures Steps(s, a + b) == Steps(Steps(s, a), b)
    decreases |a|
  {
    hide Next;
    if a == [] {
      assert a + b == b;
    } else {
      StepsAppend(Next(s, a[0]), a[1..], b);
      assert (a + b)[1..] == a[1..] + b;
    }
  }

  lemma {:induction false} DrainFrom(s: State, k: nat) returns (more: seq<Action>)
    requires Drained(s, k)
    requires Inv(s)
    ensures Quiescent(Steps(s, more)) && NothingOpening(Steps(s, more))
    decreases |s.nodes| - k
  {
    hide Inv;
    if k == |s.nodes| {
      return [];
    }
    var first := DrainNode(s, k);
    var rest := DrainFrom(Steps(s, first), k + 1);
    more := first + rest;
    StepsAppend(s, first, rest);
  }

  /** Nothing is live anywhere, no `submit` is under way, and every request is Done with all its stages advanced. */
  ghost predicate Finished(s: State) {
    && Quiescent(s) && NothingOpening(s)
    && forall n, r :: 0 <= n < |s.nodes| && r in s.nodes[n].jobs.done ==>
         s.nodes[n].jobs.done[r] && LoggedBelow(s.nodes[n].jobs, r, 4)
  }

  lemma QuiescentIsFinished(s: State, steps: seq<Action>)
    requires Quiescent(Run(s, steps)) && NothingOpening(Run(s, steps))
    requires Init(s)
    ensures Finished(Run(s, steps))
  {
    hide Run, StillDriven, LoggedBelow;
    var r := Run(s, steps);
    SameNodeCount(s, steps);
    forall n, q | 0 <= n < |r.nodes| && q in r.nodes[n].jobs.done
      ensures r.nodes[n].jobs.done[q] && LoggedBelow(r.nodes[n].jobs, q, 4)
    {
      RunDriven(s, steps, n, false);
      RunDriven(s, steps, n, true);
      NothingLeft(r.nodes[n], false);
      NothingLeft(r.nodes[n], true);
      assert Over(r.nodes[n], q, false) && Over(r.nodes[n], q, true);
    }
  }

  lemma FinishAll(r: State) returns (more: seq<Action>)
    requires Inv(r)
    ensures Quiescent(Steps(r, more)) && NothingOpening(Steps(r, more))
  {
    hide Inv, Next, Steps;
    var first := LetIn(r, 0);
    assert Drained(Steps(r, first), 0);
    var rest := DrainFrom(Steps(r, first), 0);
    more := first + rest;
    StepsAppend(r, first, rest);
  }

  /**
    Whatever has happened, thieves that vanished and messages that were lost included, the run can go
    on to a state in which nothing is live on any node and every request is Done, so that `wait_all`
    can return everywhere.
   */
  lemma CanAlwaysFinish(s: State, steps: seq<Action>)
    requires Init(s)
    ensures exists more :: Finished(Run(s, steps + more))
  {
    RunInv(s, steps);
    var more := FinishAll(Run(s, steps));
    hide *;
    RunInTwo(s, steps, more);
    QuiescentIsFinished(s, steps + more);
  }
}
