/** Runs that show where the cluster's guarantees end. */
module ClusterWitnesses {
  import opened Tasks
  import opened Stages
  import opened Cluster
  import opened ClusterCompletion
  import opened ClusterNode
  import opened ClusterTheorems

  // ---------------------------------------------------------------- a handler that runs twice

  /** Two nodes that have done nothing yet. */
  const TWO_NODES: State := State([FRESH_NODE, FRESH_NODE], map[], {}, map[], {}, multiset{})

  const HAND_OUT: seq<Action> := [SubmitPortable(0, []), PushTask(0, 1), PopForThief(0, 1), TrackAndSend(0, 1, 1)]

  const STOLEN_RUN: seq<Action> := [DeliverOffer(Key(0, 1)), PushTask(1, 1), StartTask(1, 1), RunTask(1, 1, true)]

  const RECOVERY: seq<Action> :=
    [CollectTask(0, 1), ReassignTask(0, 1), PushTask(0, 2), StartTask(0, 2), RunTask(0, 2, false)]

  ghost predicate HandedTo(s: State) {
    && |s.nodes| == 2 && s.nodes[0].nextId == 2 && s.nodes[1].nextId == 1 && s.runs == multiset{}
    && s.nodes[0].ledger == map[1 := Entry(Outstanding, Portable([]))] && s.nodes[1].ledger == map[]
    && s.offers == map[Key(0, 1) := Offer(1, [])]
  }

  ghost predicate RanOnThief(s: State) {
    && |s.nodes| == 2 && s.nodes[0].nextId == 2 && s.runs == multiset{Key(0, 1)}
    && s.nodes[0].ledger == map[1 := Entry(Outstanding, Portable([]))]
  }

  lemma FourSteps(s: State, a: seq<Action>)
    requires |a| == 4
    ensures Steps(s, a) == Next(Next(Next(Next(s, a[0]), a[1]), a[2]), a[3])
  {
    hide Next;
    var s1 := Next(s, a[0]);
    var s2 := Next(s1, a[1]);
    assert Steps(s, a) == Steps(s1, a[1..]);
    assert a[1..][1..] == a[2..];
    assert Steps(s1, a[1..]) == Steps(s2, a[2..]);
    var s3 := Next(s2, a[2]);
    assert a[2..][1..] == a[3..];
    assert Steps(s2, a[2..]) == Steps(s3, a[3..]);
    var s4 := Next(s3, a[3]);
    assert a[3..][1..] == [];
    assert Steps(s3, a[3..]) == Steps(s4, []);
    assert Steps(s4, []) == s4;
  }

  lemma NextPush(s: State, n: nat, id: nat, shared: bool)
    requires At(s, n, id, Entering(shared))
    ensures Next(s, PushTask(n, id)) == SetNode(s, n, MoveTo(s.nodes[n], id, if shared then InPool else InQueue))
  {}

  lemma NextStart(s: State, n: nat, id: nat)
    requires At(s, n, id, InQueue)
    ensures Next(s, StartTask(n, id)) == SetNode(s, n, MoveTo(s.nodes[n], id, Running))
  {}

  lemma NextCollect(s: State, n: nat, id: nat)
    requires At(s, n, id, Outstanding)
    ensures Next(s, CollectTask(n, id)) == SetNode(s, n, MoveTo(s.nodes[n], id, Collected))
  {}

  lemma NextReassign(s: State, n: nat, id: nat)
    requires At(s, n, id, Collected) && s.nodes[n].ledger[id].work == Portable([])
    ensures var s' := Next(s, ReassignTask(n, id));
            && s' == SetNode(s, n, s'.nodes[n])
            && s'.nodes[n].ledger == s.nodes[n].ledger[s.nodes[n].nextId := Entry(Entering(false), Rerun(id, []))]
                                                      [id := Entry(Settling, Settled)]
  {}

  lemma NextRun(s: State, n: nat, id: nat, report: bool)
    requires At(s, n, id, Running)
    ensures var s' := Next(s, RunTask(n, id, report));
            && s'.runs == s.runs + multiset{RootOf(n, id, s.nodes[n].ledger[id].work)}
            && |s'.nodes| == |s.nodes| && forall i :: 0 <= i < |s.nodes| && i != n ==> s'.nodes[i] == s.nodes[i]
  {}

  lemma HandOut()
    ensures HandedTo(Steps(TWO_NODES, HAND_OUT))
  {
    FourSteps(TWO_NODES, HAND_OUT);
    hide Steps, StageOf;
    var s1 := Next(TWO_NODES, HAND_OUT[0]);
    assert s1.nodes[0].ledger == map[1 := Entry(Entering(true), Portable([]))];
    var s2 := Next(s1, HAND_OUT[1]);
    assert s2.nodes[0].ledger == map[1 := Entry(InPool, Portable([]))];
    var s3 := Next(s2, HAND_OUT[2]);
    assert s3.nodes[0].ledger == map[1 := Entry(InHand, Portable([]))];
    var s4 := Next(s3, HAND_OUT[3]);
    assert s4.nodes[0].ledger == map[1 := Entry(Outstanding, Portable([]))];
  }

  lemma StolenRun(s: State)
    requires HandedTo(s)
    ensures RanOnThief(Steps(s, STOLEN_RUN))
  {
    FourSteps(s, STOLEN_RUN);
    var s1 := Next(s, STOLEN_RUN[0]);
    assert s1.nodes[1].ledger == map[1 := Entry(Entering(false), Stolen(Key(0, 1), []))];
    hide Steps, Next;
    NextPush(s1, 1, 1, false);
    var s2 := Next(s1, STOLEN_RUN[1]);
    NextStart(s2, 1, 1);
    var s3 := Next(s2, STOLEN_RUN[2]);
    NextRun(s3, 1, 1, true);
  }

  lemma Recovery(s: State)
    requires RanOnThief(s)
    ensures Steps(s, RECOVERY).runs[Key(0, 1)] == 2
  {
    hide Next;
    LastStep(s, RECOVERY);
    FourSteps(s, RECOVERY[..4]);
    hide Steps;
    NextCollect(s, 0, 1);
    var s1 := Next(s, RECOVERY[0]);
    NextReassign(s1, 0, 1);
    var s2 := Next(s1, RECOVERY[1]);
    NextPush(s2, 0, 2, false);
    var s3 := Next(s2, RECOVERY[2]);
    NextStart(s3, 0, 2);
    var s4 := Next(s3, RECOVERY[3]);
    NextRun(s4, 0, 2, false);
  }

  lemma {:induction false} LastStep(s: State, a: seq<Action>)
    requires a != []
    ensures Steps(s, a) == Next(Steps(s, a[..|a| - 1]), a[|a| - 1])
    decreases |a|
  {
    hide Next;
    if |a| > 1 {
      LastStep(Next(s, a[0]), a[1..]);
      assert a[1..][..|a| - 2] == a[..|a| - 1][1..];
    }
  }

  /** The bound of two is met: the thief runs the task after the reaper has given up on it. */
  lemma TwiceCanHappen()
    ensures Init(TWO_NODES) && Run(TWO_NODES, HAND_OUT + STOLEN_RUN + RECOVERY).runs[Key(0, 1)] == 2
  {
    assert Init(TWO_NODES);
    hide *;
    RunInThree(TWO_NODES, HAND_OUT, STOLEN_RUN, RECOVERY);
    HandOut();
    StolenRun(Steps(TWO_NODES, HAND_OUT));
    Recovery(Steps(Steps(TWO_NODES, HAND_OUT), STOLEN_RUN));
  }

  lemma RunInThree(s: State, a: seq<Action>, b: seq<Action>, c: seq<Action>)
    ensures Run(s, a + b + c) == Steps(Steps(Steps(s, a), b), c)
  {
    assert Run(s, []) == s;
    hide *;
    RunInTwo(s, [], a);
    assert [] + a == a;
    RunInTwo(s, a, b);
    RunInTwo(s, a + b, c);
  }

  // ---------------------------------------------------------------- a task run where it was submitted

  const LOCAL_RUN: seq<Action> := [PushTask(0, 1), StartTask(0, 1), RunTask(0, 1, false), CountExecuted(0, 1)]

  ghost predicate Only(s: State, place: Place, work: Work, jobs: Jobs, submitted: nat, completed: nat) {
    && |s.nodes| == 2 && s.nodes[0].ledger == map[1 := Entry(place, work)] && s.nodes[0].jobs == jobs
    && s.nodes[0].counts.submitted == submitted && s.nodes[0].counts.completed == completed
    && s.nodes[0].nextId == 2
  }

  lemma OnlyPushed(s: State, shared: bool, work: Work, jobs: Jobs)
    requires Only(s, Entering(shared), work, jobs, 1, 0)
    ensures Only(Next(s, PushTask(0, 1)), if shared then InPool else InQueue, work, jobs, 1, 0)
  {
    hide SeenStage;
  }

  lemma OnlyStarted(s: State, place: Place, work: Work, jobs: Jobs)
    requires Only(s, place, work, jobs, 1, 0) && (place.InPool? || place.InQueue?)
    ensures Only(Next(s, StartTask(0, 1)), Running, work, jobs, 1, 0)
  {
    hide SeenStage;
  }

  lemma OnlyRan(s: State, work: Work, jobs: Jobs)
    requires Only(s, Running, work, jobs, 1, 0)
    ensures Only(Next(s, RunTask(0, 1, false)), Ran, work, jobs, 1, 0)
  {
    hide SeenStage;
  }

  lemma OnlyCounted(s: State, work: Work, jobs: Jobs)
    requires Only(s, Ran, work, jobs, 1, 0)
    ensures Only(Next(s, CountExecuted(0, 1)), Settling, work, jobs, 1, 0)
  {
    hide SeenStage;
  }

  lemma LocalRun(s: State, shared: bool, work: Work, jobs: Jobs)
    requires Only(s, Entering(shared), work, jobs, 1, 0)
    ensures Only(Steps(s, LOCAL_RUN), Settling, work, jobs, 1, 0)
  {
    hide Next, Only;
    FourSteps(s, LOCAL_RUN);
    OnlyPushed(s, shared, work, jobs);
    var s1 := Next(s, PushTask(0, 1));
    OnlyStarted(s1, if shared then InPool else InQueue, work, jobs);
    var s2 := Next(s1, StartTask(0, 1));
    OnlyRan(s2, work, jobs);
    OnlyCounted(Next(s2, RunTask(0, 1, false)), work, jobs);
  }

  lemma {:induction false} OneStep(s: State, a: Action)
    ensures Steps(s, [a]) == Next(s, a)
  {
    hide Next;
    assert [a][1..] == [];
    assert Steps(Next(s, a), []) == Next(s, a);
  }

  lemma TwoSteps(s: State, a: Action, b: Action)
    ensures Steps(s, [a, b]) == Next(Next(s, a), b)
  {
    hide Next;
    assert [a, b][1..] == [b];
    OneStep(Next(s, a), b);
  }

  lemma ThreeSteps(s: State, a: Action, b: Action, c: Action)
    ensures Steps(s, [a, b, c]) == Next(Next(Next(s, a), b), c)
  {
    hide Next;
    assert [a, b, c][1..] == [b, c];
    TwoSteps(Next(s, a), b, c);
  }

  // ---------------------------------------------------------------- wait_all returning early

  const ONE_CLOSURE: seq<Action> := [SubmitClosure(0)]

  const THEN_OPEN: seq<Action> := [ObserveTask(0, 1), FinishTask(0, 1), OpenRequest(0)]

  lemma ClosureSubmitted()
    ensures Only(Steps(TWO_NODES, ONE_CLOSURE), Entering(false), Closure, FRESH_NODE.jobs, 1, 0)
  {
    OneStep(TWO_NODES, SubmitClosure(0));
    hide Steps, StageOf;
  }

  lemma NextSubmits(s: State, n: nat, payload: Bytes)
    requires n < |s.nodes|
    ensures Next(s, SubmitPortable(n, payload)) == SetNode(s, n, SubmitApp(s.nodes[n], Portable(payload)))
  {
    hide SubmitApp;
  }

  lemma NextFinishes(s: State, n: nat, id: nat)
    requires At(s, n, id, Observed)
    ensures Next(s, FinishTask(n, id)) == SetNode(s, n, Finish(s.nodes[n], id))
  {}

  lemma ClosureFinished(s: State)
    requires Only(s, Settling, Closure, FRESH_NODE.jobs, 1, 0)
    ensures var r := Steps(s, THEN_OPEN);
            |r.nodes| == 2 && WaitAllReturns(r.nodes[0]) && r.nodes[0].jobs.done == map[1 := false]
            && r.nodes[0].jobs.spoiled == {}
  {
    hide Next, Steps, StageOf;
    ThreeSteps(s, ObserveTask(0, 1), FinishTask(0, 1), OpenRequest(0));
    NextObserves(s, 0, 1);
    var s1 := Next(s, ObserveTask(0, 1));
    assert s1.nodes[0] == MoveTo(s.nodes[0], 1, Observed);
    NextFinishes(s1, 0, 1);
    var s2 := Next(s1, FinishTask(0, 1));
    NextOpens(s2, 0);
  }

  /** `wait_all` can return while a request that is recorded has not even been started. */
  lemma WaitAllCanReturnEarly()
    ensures Init(TWO_NODES)
    ensures var r := Run(TWO_NODES, ONE_CLOSURE + LOCAL_RUN + THEN_OPEN);
            |r.nodes| == 2 && WaitAllReturns(r.nodes[0]) && r.nodes[0].jobs.done == map[1 := false]
            && r.nodes[0].jobs.spoiled == {}
  {
    assert Init(TWO_NODES);
    hide *;
    RunInThree(TWO_NODES, ONE_CLOSURE, LOCAL_RUN, THEN_OPEN);
    ClosureSubmitted();
    LocalRun(Steps(TWO_NODES, ONE_CLOSURE), false, Closure, FRESH_NODE.jobs);
    ClosureFinished(Steps(Steps(TWO_NODES, ONE_CLOSURE), LOCAL_RUN));
  }

  // ---------------------------------------------------------------- a payload that reads as a stage

  const LAST_STAGE := StagePayload(1, 0, POSTPROCESS, 0, 0, 0)

  ghost const LOOKALIKE: seq<Action> := [OpenRequest(0), SubmitPortable(0, EncodedStage(LAST_STAGE))]

  const THEN_OBSERVE: seq<Action> := [ObserveTask(0, 1)]

  const SPOILED_JOBS := Jobs(2, map[1 := false], 0, {1}, map[], map[1 := 0], [], {1})

  lemma LookalikeSubmitted()
    ensures Only(Steps(TWO_NODES, LOOKALIKE), Entering(true), StageWork(LAST_STAGE), SPOILED_JOBS, 1, 0)
  {
    hide Next, Steps, StageOf, EncodedStage, SubmitApp, Cluster.Open;
    var b := EncodedStage(LAST_STAGE);
    OpenedNode();
    TwoSteps(TWO_NODES, OpenRequest(0), SubmitPortable(0, b));
    NextOpens(TWO_NODES, 0);
    var s1 := Next(TWO_NODES, OpenRequest(0));
    NextSubmits(s1, 0, b);
    StageRoundTrip(LAST_STAGE);
    var x := s1.nodes[0];
    assert x == FRESH_NODE.(jobs := Jobs(2, map[1 := false], 0, {1}, map[], map[1 := 0], [], {}));
    LookalikeNode(x, b);
  }

  lemma OpenedNode()
    ensures Cluster.Open(FRESH_NODE)
         == FRESH_NODE.(jobs := Jobs(2, map[1 := false], 0, {1}, map[], map[1 := 0], [], {}))
  {}

  lemma LookalikeNode(x: Node, payload: Bytes)
    requires x == FRESH_NODE.(jobs := Jobs(2, map[1 := false], 0, {1}, map[], map[1 := 0], [], {}))
    requires payload != [] && StageOf(payload) == Some(LAST_STAGE)
    ensures var x' := SubmitApp(x, Portable(payload));
            && x'.ledger == map[1 := Entry(Entering(true), Portable(payload))] && x'.jobs == SPOILED_JOBS
            && x'.counts.submitted == 1 && x'.counts.completed == 0 && x'.nextId == 2
  {
    hide StageOf;
  }

  lemma LookalikeObserved(s: State)
    requires Only(s, Settling, StageWork(LAST_STAGE), SPOILED_JOBS, 1, 0)
    ensures var r := Steps(s, THEN_OBSERVE);
            |r.nodes| == 2 && r.nodes[0].jobs.done == map[1 := true] && 1 in r.nodes[0].jobs.opening
            && r.nodes[0].jobs.completed == 1
  {
    hide Next, Steps, StageOf, EncodedStage, Observe;
    OneStep(s, ObserveTask(0, 1));
    NextObserves(s, 0, 1);
    StageEntry(LAST_STAGE);
    ObserveParts(s.nodes[0], 1, LAST_STAGE);
  }

  /** A task of the application whose payload reads as a stage marks a request Done that was never started. */
  lemma PayloadCanFinishRequest()
    ensures Init(TWO_NODES)
    ensures var r := Run(TWO_NODES, LOOKALIKE + LOCAL_RUN + THEN_OBSERVE);
            |r.nodes| == 2 && r.nodes[0].jobs.done == map[1 := true] && 1 in r.nodes[0].jobs.opening
            && r.nodes[0].jobs.completed == 1
  {
    assert Init(TWO_NODES);
    hide *;
    RunInThree(TWO_NODES, LOOKALIKE, LOCAL_RUN, THEN_OBSERVE);
    LookalikeSubmitted();
    LocalRun(Steps(TWO_NODES, LOOKALIKE), true, StageWork(LAST_STAGE), SPOILED_JOBS);
    LookalikeObserved(Steps(Steps(TWO_NODES, LOOKALIKE), LOCAL_RUN));
  }
}
