/** What is run, and how often, told from the steps of a run instead of from what the nodes remember. */
module ClusterPayloads {
  import opened Tasks
  import opened Stages
  import opened Cluster
  import opened ClusterNode
  import opened ClusterSafety
  import opened ClusterTheorems
  import opened ClusterOrigins
  import opened ClusterRequests

  // ---------------------------------------------------------------- what a step submits

  /** The payload that step `a` submits at node `n`, which is `x` before the step: the application's own, the
      first stage of a request, or the successor of the stage that the observer is shown. */
  ghost function Submits(x: Node, a: Action, n: nat): Option<Bytes> {
    match a
    case SubmitPortable(m, payload) => if m == n then Some(payload) else None
    case SubmitFirstStage(m, p) =>
      if m == n && p.requestId in x.jobs.opening && p.stage == DECODE then Some(EncodedStage(p)) else None
    case ObserveTask(m, id) =>
      if m == n && id in x.ledger && x.ledger[id].place == Settling then NextStage(x.ledger[id].work) else None
    case _ => None
  }

  ghost function NextStage(work: Work): Option<Bytes> {
    var p :- SeenStage(work);
    if p.stage < POSTPROCESS then Some(EncodedStage(p.(stage := p.stage + 1))) else None
  }

  ghost function PayloadsAfter(x: Node, o: Option<Bytes>): map<nat, Bytes> {
    if o.Some? then x.hist.payloads[x.nextId := o.value] else x.hist.payloads
  }

  ghost predicate SubmitsAt(s: State, a: Action, n: nat) {
    && n < |s.nodes| == |Next(s, a).nodes|
    && Next(s, a).nodes[n].hist.payloads == PayloadsAfter(s.nodes[n], Submits(s.nodes[n], a, n))
  }

  lemma MovesSubmitNothing(s: State, a: Action, n: nat)
    requires n < |s.nodes|
    requires a.PushTask? || a.StartTask? || a.PopForThief? || a.CollectTask?
    ensures SubmitsAt(s, a, n)
  {
    hide SeenStage;
  }

  lemma CountsSubmitNothing(s: State, a: Action, n: nat)
    requires n < |s.nodes| && (a.OpenRequest? || a.SubmitClosure? || a.CountExecuted? || a.FinishTask?)
    ensures SubmitsAt(s, a, n)
  {
    hide SeenStage;
  }

  lemma NetworkSubmitsNothing(s: State, a: Action, n: nat)
    requires n < |s.nodes| && (a.TrackAndSend? || a.DeliverOffer? || a.LoseOffer? || a.RunTask? || a.DeliverResult?)
    ensures SubmitsAt(s, a, n)
  {
    hide SeenStage;
  }

  lemma AppSubmits(s: State, a: Action, n: nat)
    requires n < |s.nodes| && (a.SubmitPortable? || a.SubmitFirstStage?)
    ensures SubmitsAt(s, a, n)
  {
    hide SeenStage, EncodedStage;
  }

  lemma ObservePayloads(x: Node, id: nat)
    requires id in x.ledger
    ensures Observe(x, id).hist.payloads == PayloadsAfter(x, NextStage(x.ledger[id].work))
  {
    hide SeenStage, EncodedStage;
  }

  lemma ReassignPayloads(x: Node, id: nat)
    requires id in x.ledger && x.ledger[id].work.Portable?
    ensures Reassign(x, id).hist.payloads == x.hist.payloads
  {
    hide SeenStage;
  }

  lemma ObserverSubmits(s: State, a: Action, n: nat)
    requires n < |s.nodes| && (a.ObserveTask? || a.ReassignTask?)
    ensures SubmitsAt(s, a, n)
  {
    hide SeenStage, NextStage, Observe, Reassign;
    if Enabled(s, a) && a.ObserveTask? {
      ObservePayloads(s.nodes[a.n], a.id);
    } else if Enabled(s, a) {
      ReassignPayloads(s.nodes[a.n], a.id);
    }
  }

  lemma StepSubmits(s: State, a: Action, n: nat)
    requires n < |s.nodes|
    ensures SubmitsAt(s, a, n)
  {
    hide SubmitsAt;
    match a
    case SubmitPortable(_, _) => AppSubmits(s, a, n);
    case SubmitFirstStage(_, _) => AppSubmits(s, a, n);
    case ObserveTask(_, _) => ObserverSubmits(s, a, n);
    case ReassignTask(_, _) => ObserverSubmits(s, a, n);
    case TrackAndSend(_, _, _) => NetworkSubmitsNothing(s, a, n);
    case DeliverOffer(_) => NetworkSubmitsNothing(s, a, n);
    case LoseOffer(_) => NetworkSubmitsNothing(s, a, n);
    case RunTask(_, _, _) => NetworkSubmitsNothing(s, a, n);
    case DeliverResult(_) => NetworkSubmitsNothing(s, a, n);
    case OpenRequest(_) => CountsSubmitNothing(s, a, n);
    case SubmitClosure(_) => CountsSubmitNothing(s, a, n);
    case CountExecuted(_, _) => CountsSubmitNothing(s, a, n);
    case FinishTask(_, _) => CountsSubmitNothing(s, a, n);
    case _ => MovesSubmitNothing(s, a, n);
  }

  /** The task of node `n` with id `id` was submitted with this payload, by step `k` of the run. */
  ghost predicate SubmittedIn(s: State, steps: seq<Action>, n: nat, id: nat, payload: Bytes, k: nat)
    requires k < |steps|
  {
    var r := Run(s, steps[..k]);
    n < |r.nodes| && r.nodes[n].nextId == id && Submits(r.nodes[n], steps[k], n) == Some(payload)
  }

  /** What a node remembers of its submissions is what the steps submitted. */
  lemma {:induction false} RememberedWasSubmitted(s: State, steps: seq<Action>, n: nat, id: nat) returns (k: nat)
    requires Init(s) && n < |Run(s, steps).nodes| && id in Run(s, steps).nodes[n].hist.payloads
    ensures k < |steps| && SubmittedIn(s, steps, n, id, Run(s, steps).nodes[n].hist.payloads[id], k)
    decreases |steps|
  {
    hide Next, Submits;
    if steps == [] {
      assert false;
    } else {
      var last := |steps| - 1;
      var r := Run(s, steps[..last]);
      StepRemembers(r, steps[last]);
      StepSubmits(r, steps[last], n);
      if id in r.nodes[n].hist.payloads && !(Submits(r.nodes[n], steps[last], n).Some? && id == r.nodes[n].nextId) {
        k := RememberedWasSubmitted(s, steps[..last], n, id);
        assert steps[..last][..k] == steps[..k] && steps[..last][k] == steps[k];
      } else {
        k := last;
      }
    }
  }

  lemma {:induction false} SubmissionIsRemembered(s: State, steps: seq<Action>, n: nat, id: nat, payload: Bytes, k: nat)
    requires Init(s) && k < |steps| && SubmittedIn(s, steps, n, id, payload, k)
    ensures n < |Run(s, steps).nodes| && id in Run(s, steps).nodes[n].hist.payloads
    ensures Run(s, steps).nodes[n].hist.payloads[id] == payload
    decreases |steps|
  {
    hide Next, Submits, Inv;
    var last := |steps| - 1;
    var r := Run(s, steps[..last]);
    RunInv(s, steps[..last]);
    if k == last {
      StepSubmits(r, steps[last], n);
    } else {
      assert steps[..last][..k] == steps[..k] && steps[..last][k] == steps[k];
      SubmissionIsRemembered(s, steps[..last], n, id, payload, k);
      StepGrows(r, steps[last], n);
    }
  }

  /** Wherever a task is run, on its node, on a thief or again after a timeout, its handler is given the
      payload that some step of the run submitted under the task's id at its node. */
  lemma PayloadIsKept(s: State, steps: seq<Action>, n: nat, id: nat)
    requires n < |Run(s, steps).nodes| && id in Run(s, steps).nodes[n].ledger
    requires Init(s)
    ensures var w := Run(s, steps).nodes[n].ledger[id].work;
            w.Portable? || w.Stolen? || w.Rerun? ==>
              var k, payload := RootOf(n, id, w), if w.Stolen? then w.handed else w.payload;
              exists j: nat :: j < |steps| && SubmittedIn(s, steps, k.node, k.id, payload, j)
  {
    hide *;
    RunInv(s, steps);
    EntryAt(Run(s, steps), n, id);
    EntryKeepsPayload(Run(s, steps), n, id);
    var w := Run(s, steps).nodes[n].ledger[id].work;
    if w.Portable? || w.Stolen? || w.Rerun? {
      var k, payload := RootOf(n, id, w), if w.Stolen? then w.handed else w.payload;
      PayloadAt(Run(s, steps), k, payload);
      var j := RememberedWasSubmitted(s, steps, k.node, k.id);
    }
  }

  lemma PayloadAt(r: State, k: Key, payload: Bytes)
    requires PayloadIs(r, k, payload)
    ensures k.node < |r.nodes| && k.id in r.nodes[k.node].hist.payloads
    ensures r.nodes[k.node].hist.payloads[k.id] == payload
  {}

  lemma EntryKeepsPayload(r: State, n: nat, id: nat)
    requires n < |r.nodes| && id in r.nodes[n].ledger
    requires EntryOk(r.nodes[n].hist, r.nodes[n].nextId, id, r.nodes[n].ledger[id])
    requires StolenOk(r, n, id, r.nodes[n].ledger[id])
    ensures var w := r.nodes[n].ledger[id].work;
            && (w.Portable? ==> PayloadIs(r, RootOf(n, id, w), w.payload))
            && (w.Stolen? ==> PayloadIs(r, RootOf(n, id, w), w.handed))
            && (w.Rerun? ==> PayloadIs(r, RootOf(n, id, w), w.payload))
  {}

  // ---------------------------------------------------------------- the calls of a handler

  /** The task whose handler step `a` calls. */
  ghost function Calls(s: State, a: Action): multiset<Key> {
    if a.RunTask? && At(s, a.n, a.id, Running) then multiset{RootOf(a.n, a.id, s.nodes[a.n].ledger[a.id].work)}
    else multiset{}
  }

  ghost function HandlerCalls(s: State, steps: seq<Action>): multiset<Key>
    decreases |steps|
  {
    if steps == [] then multiset{}
    else HandlerCalls(s, steps[..|steps| - 1]) + Calls(Run(s, steps[..|steps| - 1]), steps[|steps| - 1])
  }

  lemma StepCalls(s: State, a: Action)
    ensures Next(s, a).runs == s.runs + Calls(s, a)
  {
    hide SeenStage, Observe, Reassign, SubmitApp, FirstStage;
  }

  /** The count of executions that the bounds speak of is the number of steps that call the handler. */
  lemma {:induction false} RunsAreCalls(s: State, steps: seq<Action>)
    requires Init(s)
    ensures Run(s, steps).runs == HandlerCalls(s, steps)
    decreases |steps|
  {
    hide Next, Calls;
    if steps != [] {
      RunsAreCalls(s, steps[..|steps| - 1]);
      StepCalls(Run(s, steps[..|steps| - 1]), steps[|steps| - 1]);
    }
  }

  /** When `wait_all` may return at a node, the handler of every task that a step of the run submitted there
      has been called: twice if a thief ran the task and the reaper gave up on the thief, and once if not. */
  lemma EverySubmissionRuns(s: State, steps: seq<Action>, n: nat, id: nat, payload: Bytes, k: nat)
    requires k < |steps| && SubmittedIn(s, steps, n, id, payload, k)
    requires n < |Run(s, steps).nodes| && WaitAllReturns(Run(s, steps).nodes[n])
    requires Init(s)
    ensures HandlerCalls(s, steps)[Key(n, id)] == if RunOnBothSides(Run(s, steps), Key(n, id)) then 2 else 1
  {
    hide *;
    SubmissionIsRemembered(s, steps, n, id, payload, k);
    SubmissionCounts(Run(s, steps), n, id);
    WaitAllMeansRun(s, steps, Key(n, id));
    RunsAreCalls(s, steps);
  }

  lemma SubmissionCounts(r: State, n: nat, id: nat)
    requires n < |r.nodes| && id in r.nodes[n].hist.payloads
    ensures SubmittedBy(r, Key(n, id))
  {}

  // ---------------------------------------------------------------- the stages of one request

  /** All stages of request `r` submitted here agree in everything but the stage. */
  ghost predicate FieldsAgree(x: Node, r: nat) {
    forall i, j :: i in x.hist.payloads && j in x.hist.payloads
                   && ReadsAs(x.hist.payloads[i], r) && ReadsAs(x.hist.payloads[j], r) ==>
      SameRequest(x.hist.payloads[i], x.hist.payloads[j])
  }

  ghost predicate SameRequest(a: Bytes, b: Bytes) {
    && StageOf(a).Some? && StageOf(b).Some?
    && StageOf(b).value == StageOf(a).value.(stage := StageOf(b).value.stage)
  }

  /** No stage of `r` has been submitted. */
  ghost predicate NoStages(x: Node, r: nat) {
    forall i :: i in x.hist.payloads ==> !ReadsAs(x.hist.payloads[i], r)
  }

  /** Request `r` is unknown, or `submit` has not yet submitted its first stage. */
  ghost predicate NotBegun(x: Node, r: nat) {
    r !in x.jobs.done || r in x.jobs.opening
  }

  ghost predicate StagesOk(x: Node, r: nat) {
    r !in x.jobs.spoiled ==> FieldsAgree(x, r) && (NotBegun(x, r) ==> NoStages(x, r))
  }

  /** A step that submits nothing for `r` and does not make it unknown keeps its stages in order. */
  lemma SameStages(x: Node, x': Node, r: nat)
    requires StagesOk(x, r)
    requires x'.hist.payloads == x.hist.payloads
             || (exists b :: x'.hist.payloads == x.hist.payloads[x.nextId := b] && !ReadsAs(b, r))
    requires r !in x'.jobs.spoiled ==> r !in x.jobs.spoiled && (NotBegun(x', r) ==> NotBegun(x, r))
    ensures StagesOk(x', r)
  {
    hide ReadsAs, SameRequest;
    if r !in x'.jobs.spoiled && x'.hist.payloads != x.hist.payloads {
      var b :| x'.hist.payloads == x.hist.payloads[x.nextId := b] && !ReadsAs(b, r);
      assert forall i :: i in x'.hist.payloads && ReadsAs(x'.hist.payloads[i], r) ==>
          i in x.hist.payloads && x'.hist.payloads[i] == x.hist.payloads[i];
    }
  }

  lemma EncodedReads(p: StagePayload, r: nat)
    ensures StageOf(EncodedStage(p)) == Some(p)
    ensures ReadsAs(EncodedStage(p), r) <==> p.requestId == r
  {
    StageRoundTrip(p);
    StageLayoutIff(EncodedStage(p), p);
    hide StageOf, EncodedStage;
  }

  /** The first stage of `r` is submitted when there was none. */
  lemma FirstStageAgrees(x: Node, x': Node, r: nat, b: Bytes)
    requires NoStages(x, r) && x'.hist.payloads == x.hist.payloads[x.nextId := b]
    requires !NotBegun(x', r) && StageOf(b).Some?
    ensures StagesOk(x', r)
  {
    hide ReadsAs, StageOf;
  }

  /** The next stage of `r` is that of the one observed, which was submitted here. */
  lemma NextStageAgrees(x: Node, x': Node, r: nat, i: nat, b: Bytes)
    requires FieldsAgree(x, r) && i in x.hist.payloads && ReadsAs(x.hist.payloads[i], r)
    requires x'.hist.payloads == x.hist.payloads[x.nextId := b] && SameRequest(x.hist.payloads[i], b)
    requires !NotBegun(x', r)
    ensures StagesOk(x', r)
  {
    hide StageOf;
  }

  ghost predicate BegunStaysAt(s: State, a: Action, n: nat, r: nat) {
    && n < |s.nodes| == |Next(s, a).nodes|
    && (r !in Next(s, a).nodes[n].jobs.spoiled ==>
          r !in s.nodes[n].jobs.spoiled && (NotBegun(Next(s, a).nodes[n], r) ==> NotBegun(s.nodes[n], r)))
  }

  lemma ObserveBegun(x: Node, id: nat, r: nat)
    requires id in x.ledger
    ensures Observe(x, id).jobs.spoiled == x.jobs.spoiled
    ensures NotBegun(Observe(x, id), r) <==> NotBegun(x, r)
  {
    hide SeenStage, EncodedStage;
  }

  lemma ReassignBegun(x: Node, id: nat, r: nat)
    requires id in x.ledger && x.ledger[id].work.Portable?
    ensures Reassign(x, id).jobs.spoiled == x.jobs.spoiled
    ensures NotBegun(Reassign(x, id), r) <==> NotBegun(x, r)
  {
    hide SeenStage;
  }

  lemma BegunStays(s: State, a: Action, n: nat, r: nat)
    requires n < |s.nodes|
    ensures BegunStaysAt(s, a, n, r)
  {
    hide SeenStage, EncodedStage, Observe, Reassign;
    if a.TrackAndSend? || a.DeliverOffer? || a.LoseOffer? || a.RunTask? || a.DeliverResult? {
      NetworkKeepsJobs(s, a, n);
      hide Next;
    } else if a.PushTask? || a.StartTask? || a.PopForThief? || a.CountExecuted? || a.CollectTask? || a.FinishTask? {
      MoveKeepsJobs(s, a, n);
      hide Next;
    } else if a.ObserveTask? {
      if Enabled(s, a) {
        ObserveBegun(s.nodes[a.n], a.id, r);
        hide NotBegun;
      }
    } else if a.ReassignTask? {
      if Enabled(s, a) {
        ReassignBegun(s.nodes[a.n], a.id, r);
        hide NotBegun;
      }
    }
  }

  lemma OpeningIsKnown(x: Node, r: u64)
    requires NodeOk(x) && r in x.jobs.opening && r !in x.jobs.spoiled
    ensures r in x.jobs.done
  {
    hide BooksOk, RunsAccounted, DoneCounted, ChainOk, AdvancesOk;
  }

  lemma FirstStageBegins(s: State, n: nat, p: StagePayload)
    requires n < |s.nodes| && p.requestId in s.nodes[n].jobs.opening && p.stage == DECODE
    requires p.requestId in s.nodes[n].jobs.done
    ensures n < |Next(s, SubmitFirstStage(n, p)).nodes|
    ensures !NotBegun(Next(s, SubmitFirstStage(n, p)).nodes[n], p.requestId)
  {
    hide EncodedStage;
  }

  lemma FirstStageStep(s: State, n: nat, p: StagePayload, r: nat)
    requires n < |s.nodes| && Submits(s.nodes[n], SubmitFirstStage(n, p), n).Some? && StagesOk(s.nodes[n], r)
    requires r == p.requestId
    requires Inv(s)
    ensures n < |Next(s, SubmitFirstStage(n, p)).nodes|
    ensures StagesOk(Next(s, SubmitFirstStage(n, p)).nodes[n], r)
  {
    hide Inv, NodeOk, Next, NoStages, FieldsAgree, EncodedStage, StageOf;
    var x, a := s.nodes[n], SubmitFirstStage(n, p);
    BegunStays(s, a, n, r);
    StepSubmits(s, a, n);
    if r !in Next(s, a).nodes[n].jobs.spoiled {
      NodeAt(s, n);
      OpeningIsKnown(x, p.requestId);
      FirstStageBegins(s, n, p);
      EncodedReads(p, r);
      FirstStageAgrees(x, Next(s, a).nodes[n], r, EncodedStage(p));
    }
  }

  /** What the observer is shown was submitted here. */
  lemma SeenWasSubmitted(h: History, nextId: nat, id: nat, e: Entry) returns (i: nat)
    requires EntryOk(h, nextId, id, e) && SeenStage(e.work).Some?
    ensures i in h.payloads && StageOf(h.payloads[i]) == SeenStage(e.work)
    ensures ReadsAs(h.payloads[i], SeenStage(e.work).value.requestId)
  {
    i := if e.work.Rerun? then e.work.root else id;
    StageIffLong(TaskPayload(e.work));
    hide StageOf;
  }

  lemma ObserveStep(s: State, n: nat, id: nat, r: nat)
    requires n < |s.nodes| && StagesOk(s.nodes[n], r)
    requires var b := Submits(s.nodes[n], ObserveTask(n, id), n); b.Some? && ReadsAs(b.value, r)
    requires Inv(s)
    ensures n < |Next(s, ObserveTask(n, id)).nodes|
    ensures StagesOk(Next(s, ObserveTask(n, id)).nodes[n], r)
  {
    hide Inv, NodeOk, Next, EncodedStage, StageOf, SeenStage, EntryOk, StolenOk, NotBegun, FieldsAgree, ReadsAs;
    var x, a := s.nodes[n], ObserveTask(n, id);
    BegunStays(s, a, n, r);
    StepSubmits(s, a, n);
    EntryAt(s, n, id);
    var p := SeenStage(x.ledger[id].work).value;
    var next := p.(stage := p.stage + 1);
    EncodedReads(next, r);
    var i := SeenWasSubmitted(x.hist, x.nextId, id, x.ledger[id]);
    if r !in Next(s, a).nodes[n].jobs.spoiled {
      NextStageAgrees(x, Next(s, a).nodes[n], r, i, EncodedStage(next));
    }
  }

  lemma StepStages(s: State, a: Action, n: nat, r: nat)
    requires n < |s.nodes| && StagesOk(s.nodes[n], r)
    requires Inv(s)
    ensures n < |Next(s, a).nodes| && StagesOk(Next(s, a).nodes[n], r)
  {
    hide Inv, Next, NotBegun, StagesOk, EncodedStage, NextStage, ReadsAs;
    BegunStays(s, a, n, r);
    StepSubmits(s, a, n);
    var b := Submits(s.nodes[n], a, n);
    if b.None? || !ReadsAs(b.value, r) {
      SameStages(s.nodes[n], Next(s, a).nodes[n], r);
    } else if a.SubmitPortable? {
      SpoilStep(s, a, n, r);
      Spoiled(Next(s, a).nodes[n], r);
    } else if a.SubmitFirstStage? {
      EncodedReads(a.stage, r);
      FirstStageStep(s, n, a.stage, r);
    } else {
      ObserveStep(s, n, a.id, r);
    }
  }

  lemma Spoiled(x: Node, r: nat)
    requires r in x.jobs.spoiled
    ensures StagesOk(x, r)
  {}

  lemma NothingSubmitted(s: State, n: nat, r: nat)
    requires Init(s) && n < |s.nodes|
    ensures StagesOk(s.nodes[n], r)
  {}

  lemma {:induction false} RunStages(s: State, steps: seq<Action>, n: nat, r: nat)
    requires Init(s) && n < |s.nodes|
    ensures n < |Run(s, steps).nodes| && StagesOk(Run(s, steps).nodes[n], r)
    decreases |steps|
  {
    hide Next, StagesOk, Inv;
    if steps == [] {
      NothingSubmitted(s, n, r);
    } else {
      var last := |steps| - 1;
      RunStages(s, steps[..last], n, r);
      RunInv(s, steps[..last]);
      StepStages(Run(s, steps[..last]), steps[last], n, r);
    }
  }

  lemma AgreeAt(x: Node, r: nat, i: nat, j: nat)
    requires StagesOk(x, r) && r !in x.jobs.spoiled
    requires i in x.hist.payloads && ReadsAs(x.hist.payloads[i], r)
    requires j in x.hist.payloads && ReadsAs(x.hist.payloads[j], r)
    ensures SameRequest(x.hist.payloads[i], x.hist.payloads[j])
  {
    hide ReadsAs, SameRequest, NoStages;
  }

  /** If step `k` submits the first stage `p` of a request, as task `i`, then every stage of an unspoiled request
      of this id that any step submits, as task `j`, has the kind, the sizes and the batch of `p`. */
  lemma StagesShareTheirRequest(s: State, steps: seq<Action>, n: nat, p: StagePayload, i: nat, k: nat,
                                j: nat, payload: Bytes, l: nat)
    requires k < |steps| && steps[k] == SubmitFirstStage(n, p) && SubmittedIn(s, steps, n, i, EncodedStage(p), k)
    requires l < |steps| && SubmittedIn(s, steps, n, j, payload, l) && ReadsAs(payload, p.requestId)
    requires n < |s.nodes| && n < |Run(s, steps).nodes| && p.requestId !in Run(s, steps).nodes[n].jobs.spoiled
    requires Init(s)
    ensures StageOf(payload).Some? && StageOf(payload).value == p.(stage := StageOf(payload).value.stage)
  {
    hide Run, StageOf, EncodedStage, StagesOk, SubmittedIn, ReadsAs;
    RunStages(s, steps, n, p.requestId);
    SubmissionIsRemembered(s, steps, n, i, EncodedStage(p), k);
    SubmissionIsRemembered(s, steps, n, j, payload, l);
    EncodedReads(p, p.requestId);
    AgreeAt(Run(s, steps).nodes[n], p.requestId, i, j);
  }
}
