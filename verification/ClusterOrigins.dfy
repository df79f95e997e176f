/** Whose requests a node advances. */
module ClusterOrigins {
  import opened Tasks
  import opened Stages
  import opened Cluster
  import opened ClusterNode
  import opened ClusterSafety
  import opened ClusterTheorems

  /** Nothing that JobManager knows of the progress of requests has changed. */
  ghost predicate SameProgress(x: Node, x': Node) {
    x'.jobs.advances == x.jobs.advances && x'.jobs.completed == x.jobs.completed && x'.jobs.progress == x.jobs.progress
  }

  ghost predicate SameProgressAt(s: State, s': State, n: nat) {
    n < |s.nodes| == |s'.nodes| && SameProgress(s.nodes[n], s'.nodes[n])
  }

  /** A task of the node's own, first or second run, that carries a stage to the observer. */
  ghost predicate OwnStage(x: Node, id: nat) {
    id in x.ledger && SeenStage(x.ledger[id].work).Some? && (x.ledger[id].work.Portable? || x.ledger[id].work.Rerun?)
  }

  lemma SameElsewhere(s: State, m: nat, node: Node, n: nat)
    requires n < |s.nodes| && m < |s.nodes| && (m == n ==> SameProgress(s.nodes[n], node))
    ensures SameProgressAt(s, SetNode(s, m, node), n)
  {}

  lemma ReassignSameProgress(x: Node, id: nat)
    requires id in x.ledger && x.ledger[id].work.Portable?
    ensures SameProgress(x, Reassign(x, id))
  {
    hide SeenStage;
  }

  lemma ObserveOther(x: Node, id: nat)
    requires id in x.ledger && !OwnStage(x, id)
    ensures SameProgress(x, Observe(x, id))
  {
    hide StageOf;
  }

  /**
    A request advances only at the node it was submitted to, and only when the observer is called with
    a task of that node which carries a stage.  Accepting, running and finishing a stolen stage leaves
    the thief's own requests alone, even one with the same request id.
   */
  lemma OnlyOwnStagesAdvance(s: State, a: Action, n: nat)
    requires n < |s.nodes|
    requires !a.OpenRequest? && !(a.ObserveTask? && a.n == n && OwnStage(s.nodes[n], a.id))
    ensures SameProgressAt(s, Next(s, a), n)
  {
    hide SeenStage, Observe, Reassign, EncodedStage, SameProgressAt;
    if !Enabled(s, a) {
      SameElsewhere(s, n, s.nodes[n], n);
      assert SetNode(s, n, s.nodes[n]) == s;
      return;
    }
    match a
    case SubmitPortable(m, payload) => SameElsewhere(s, m, SubmitApp(s.nodes[m], Portable(payload)), n);
    case SubmitClosure(m) => SameElsewhere(s, m, SubmitApp(s.nodes[m], Closure), n);
    case PushTask(m, id) => SameElsewhere(s, m, Push(s.nodes[m], id), n);
    case SubmitFirstStage(m, p) => SameElsewhere(s, m, FirstStage(s.nodes[m], p), n);
    case StartTask(m, id) => SameElsewhere(s, m, MoveTo(s.nodes[m], id, Running), n);
    case PopForThief(m, id) => SameElsewhere(s, m, MoveTo(s.nodes[m], id, InHand), n);
    case TrackAndSend(m, id, thief) => NetworkSameProgress(s, a, n);
    case DeliverOffer(key) => NetworkSameProgress(s, a, n);
    case LoseOffer(key) => NetworkSameProgress(s, a, n);
    case RunTask(m, id, report) => RunSameProgress(s, m, id, report, n);
    case CountExecuted(m, id) => SameElsewhere(s, m, Executed(s.nodes[m], id), n);
    case DeliverResult(key) => SameElsewhere(s, key.node, Resolve(s.nodes[key.node], key.id), n);
    case CollectTask(m, id) => SameElsewhere(s, m, MoveTo(s.nodes[m], id, Collected), n);
    case ReassignTask(m, id) =>
      ReassignSameProgress(s.nodes[m], id);
      SameElsewhere(s, m, Reassign(s.nodes[m], id), n);
    case ObserveTask(m, id) =>
      if m == n {
        ObserveOther(s.nodes[m], id);
      }
      SameElsewhere(s, m, Observe(s.nodes[m], id), n);
    case FinishTask(m, id) => SameElsewhere(s, m, Finish(s.nodes[m], id), n);
  }

  lemma NetworkSameProgress(s: State, a: Action, n: nat)
    requires n < |s.nodes| && (a.TrackAndSend? || a.DeliverOffer? || a.LoseOffer?)
    ensures SameProgressAt(s, Next(s, a), n)
  {}

  lemma RunSameProgress(s: State, m: nat, id: nat, report: bool, n: nat)
    requires n < |s.nodes|
    ensures SameProgressAt(s, Next(s, RunTask(m, id, report)), n)
  {}

  // ---------------------------------------------------------------- every advance has a submission

  /** Some task that node `x` itself submitted carried stage `a.stage` of request `a.request`. */
  ghost predicate SubmittedHere(x: Node, a: Advance) {
    exists id :: id in x.hist.payloads && IsStageOf(x.hist.payloads[id], a)
  }

  ghost predicate IsStageOf(payload: Bytes, a: Advance) {
    payload != [] && StageOf(payload).Some?
    && StageOf(payload).value.requestId == a.request && StageOf(payload).value.stage == a.stage
  }

  ghost predicate OwnAdvances(x: Node) {
    forall a :: a in x.jobs.advances ==> SubmittedHere(x, a)
  }

  ghost predicate PayloadsGrow(x: Node, x': Node) {
    forall id :: id in x.hist.payloads ==> id in x'.hist.payloads && x'.hist.payloads[id] == x.hist.payloads[id]
  }

  ghost predicate PayloadsGrowAt(s: State, s': State, n: nat) {
    n < |s.nodes| == |s'.nodes| && PayloadsGrow(s.nodes[n], s'.nodes[n])
  }

  lemma GrowElsewhere(s: State, m: nat, node: Node, n: nat)
    requires n < |s.nodes| && m < |s.nodes| && PayloadsGrow(s.nodes[m], node)
    ensures PayloadsGrowAt(s, SetNode(s, m, node), n)
  {}

  lemma QuietGrows(x: Node, x': Node)
    requires Quiet(x, x')
    ensures PayloadsGrow(x, x')
  {
    hide NoNewStolen;
  }

  lemma NetworkGrows(s: State, a: Action, n: nat)
    requires n < |s.nodes| && (a.TrackAndSend? || a.DeliverOffer? || a.LoseOffer? || a.RunTask? || a.DeliverResult?)
    ensures PayloadsGrowAt(s, Next(s, a), n)
  {}

  lemma MovesGrow(s: State, a: Action, n: nat)
    requires n < |s.nodes|
    requires a.PushTask? || a.OpenRequest? || a.StartTask? || a.PopForThief? || a.CountExecuted?
             || a.CollectTask? || a.FinishTask?
    ensures PayloadsGrowAt(s, Next(s, a), n)
  {}

  lemma SubmitGrows(x: Node, work: Work)
    requires NodeOk(x) && !work.Stolen?
    ensures PayloadsGrow(x, SubmitApp(x, work))
  {
    hide NodeOk, Quiet, PayloadsGrow;
    SubmitAppIsQuiet(x, work);
    QuietGrows(x, SubmitApp(x, work));
  }

  /** No submitted payload is ever forgotten or replaced. */
  lemma StepGrows(s: State, a: Action, n: nat)
    requires n < |s.nodes|
    requires Inv(s)
    ensures PayloadsGrowAt(s, Next(s, a), n)
  {
    hide Inv, NodeOk, Quiet, PayloadsGrow, PayloadsGrowAt, SeenStage, Observe, Reassign, FirstStage, SubmitApp;
    if !Enabled(s, a) {
      GrowSame(s, n);
      return;
    }
    match a
    case SubmitPortable(m, payload) =>
      NodeAt(s, m);
      SubmitGrows(s.nodes[m], Portable(payload));
      GrowElsewhere(s, m, SubmitApp(s.nodes[m], Portable(payload)), n);
    case SubmitClosure(m) =>
      NodeAt(s, m);
      SubmitGrows(s.nodes[m], Closure);
      GrowElsewhere(s, m, SubmitApp(s.nodes[m], Closure), n);
    case SubmitFirstStage(m, p) =>
      NodeAt(s, m);
      FirstStageIsQuiet(s.nodes[m], p);
      QuietGrows(s.nodes[m], FirstStage(s.nodes[m], p));
      GrowElsewhere(s, m, FirstStage(s.nodes[m], p), n);
    case ReassignTask(m, id) =>
      NodeAt(s, m);
      ReassignableId(s.nodes[m], id);
      ReassignIsQuiet(s.nodes[m], id);
      QuietGrows(s.nodes[m], Reassign(s.nodes[m], id));
      GrowElsewhere(s, m, Reassign(s.nodes[m], id), n);
    case ObserveTask(m, id) =>
      NodeAt(s, m);
      ObserveIsQuiet(s.nodes[m], id);
      QuietGrows(s.nodes[m], Observe(s.nodes[m], id));
      GrowElsewhere(s, m, Observe(s.nodes[m], id), n);
    case PushTask(_, _) => MovesGrow(s, a, n);
    case OpenRequest(_) => MovesGrow(s, a, n);
    case StartTask(_, _) => MovesGrow(s, a, n);
    case PopForThief(_, _) => MovesGrow(s, a, n);
    case CountExecuted(_, _) => MovesGrow(s, a, n);
    case CollectTask(_, _) => MovesGrow(s, a, n);
    case FinishTask(_, _) => MovesGrow(s, a, n);
    case _ => NetworkGrows(s, a, n);
  }

  lemma GrowSame(s: State, n: nat)
    requires n < |s.nodes|
    ensures PayloadsGrowAt(s, s, n)
  {}

  lemma OwnAdvancesGrow(x: Node, x': Node)
    requires OwnAdvances(x) && PayloadsGrow(x, x') && x'.jobs.advances == x.jobs.advances
    ensures OwnAdvances(x')
  {
    hide IsStageOf;
    forall a | a in x'.jobs.advances
      ensures SubmittedHere(x', a)
    {
      assert SubmittedHere(x, a);
    }
  }

  /** What the observer advances is a stage that the node submitted, by its first run or by a re-run. */
  lemma ObservedWasSubmitted(h: History, nextId: nat, id: nat, e: Entry, x: Node)
    requires EntryOk(h, nextId, id, e) && x.hist == h
    requires SeenStage(e.work).Some? && (e.work.Portable? || e.work.Rerun?)
    ensures SubmittedHere(x, Advance(SeenStage(e.work).value.requestId, SeenStage(e.work).value.stage))
  {
    hide StageOf;
    var payload := TaskPayload(e.work);
    var a := Advance(SeenStage(e.work).value.requestId, SeenStage(e.work).value.stage);
    assert IsStageOf(payload, a);
    hide IsStageOf;
    if e.work.Portable? {
      assert id in x.hist.payloads;
    } else {
      assert e.work.root in x.hist.payloads;
    }
  }

  lemma ObserveLogs(x: Node, id: nat)
    requires id in x.ledger && SeenStage(x.ledger[id].work).Some?
    ensures Observe(x, id).jobs.advances == x.jobs.advances
              + [Advance(SeenStage(x.ledger[id].work).value.requestId, SeenStage(x.ledger[id].work).value.stage)]
  {
    hide SeenStage, EncodedStage;
  }

  lemma ObserveOwn(s: State, n: nat, id: nat)
    requires n < |s.nodes| && At(s, n, id, Settling) && OwnStage(s.nodes[n], id) && OwnAdvances(s.nodes[n])
    requires Inv(s)
    ensures OwnAdvances(Observe(s.nodes[n], id))
  {
    hide Inv, NodeOk, Quiet, EntryOk, StolenOk, HistoryOk, SeenStage, Observe, SubmittedHere, PayloadsGrow;
    var x, x' := s.nodes[n], Observe(s.nodes[n], id);
    NodeAt(s, n);
    EntryAt(s, n, id);
    ObservedWasSubmitted(x.hist, x.nextId, id, x.ledger[id], x);
    ObserveLogs(x, id);
    ObserveIsQuiet(x, id);
    QuietGrows(x, x');
    forall a | a in x'.jobs.advances
      ensures SubmittedHere(x', a)
    {
      assert SubmittedHere(x, a);
      StillSubmitted(x, x', a);
    }
  }

  lemma StillSubmitted(x: Node, x': Node, a: Advance)
    requires SubmittedHere(x, a) && PayloadsGrow(x, x')
    ensures SubmittedHere(x', a)
  {
    hide IsStageOf;
  }

  lemma OpenLogsNothing(s: State, m: nat, n: nat)
    requires n < |s.nodes|
    ensures |Next(s, OpenRequest(m)).nodes| == |s.nodes|
    ensures Next(s, OpenRequest(m)).nodes[n].jobs.advances == s.nodes[n].jobs.advances
  {}

  lemma StepOwn(s: State, a: Action, n: nat)
    requires n < |s.nodes| && OwnAdvances(s.nodes[n])
    requires Inv(s)
    ensures n < |Next(s, a).nodes| && OwnAdvances(Next(s, a).nodes[n])
  {
    hide Inv, Next, OwnAdvances, PayloadsGrow, OwnStage, Observe;
    StepGrows(s, a, n);
    if a.OpenRequest? {
      OpenLogsNothing(s, a.n, n);
      OwnAdvancesGrow(s.nodes[n], Next(s, a).nodes[n]);
    } else if a.ObserveTask? && a.n == n && OwnStage(s.nodes[n], a.id) && At(s, n, a.id, Settling) {
      ObserveOwn(s, n, a.id);
      NextObserves(s, n, a.id);
    } else if a.ObserveTask? && a.n == n && OwnStage(s.nodes[n], a.id) {
      NotYetObserved(s, n, a.id);
    } else {
      OnlyOwnStagesAdvance(s, a, n);
      OwnAdvancesGrow(s.nodes[n], Next(s, a).nodes[n]);
    }
  }

  lemma NotYetObserved(s: State, n: nat, id: nat)
    requires !At(s, n, id, Settling)
    ensures Next(s, ObserveTask(n, id)) == s
  {}

  /**
    In every run, whatever tasks a node stole and ran and whatever request ids they carried, it has only
    advanced stages that it submitted itself.
   */
  lemma {:induction false} AdvancesAreOwn(s: State, steps: seq<Action>, n: nat)
    requires Init(s) && n < |s.nodes|
    ensures n < |Run(s, steps).nodes| && OwnAdvances(Run(s, steps).nodes[n])
    decreases |steps|
  {
    hide Next, OwnAdvances, Inv;
    if steps == [] {
      NoAdvances(s, n);
    } else {
      var last := |steps| - 1;
      AdvancesAreOwn(s, steps[..last], n);
      RunInv(s, steps[..last]);
      StepOwn(Run(s, steps[..last]), steps[last], n);
    }
  }

  lemma NoAdvances(s: State, n: nat)
    requires Init(s) && n < |s.nodes|
    ensures OwnAdvances(s.nodes[n])
  {}
}
