/** The cluster's guarantees, for every number of nodes and every run. */
module ClusterTheorems {
  import opened Counting
  import opened Tasks
  import opened Stages
  import opened Cluster
  import opened ClusterNode
  import opened ClusterSafety

  // ---------------------------------------------------------------- accounting

  /** The places of a live task, as a maintainer would list them. */
  datatype Shelf = Queued | InServingHand | Executing | WithThief | InReaperHand | Uncounted

  function ShelfOf(p: Place): Shelf {
    match p
    case Entering(_) => Queued
    case InPool => Queued
    case InQueue => Queued
    case InHand => InServingHand
    case Running => Executing
    case Ran => Executing
    case Outstanding => WithThief
    case Collected => InReaperHand
    case Settling => Uncounted
    case Observed => Uncounted
  }

  function OnShelf(l: Ledger, k: Shelf): set<nat> {
    set id | id in l && ShelfOf(l[id].place) == k
  }

  lemma ShelvesCover(l: Ledger)
    ensures l.Keys == OnShelf(l, Queued) + OnShelf(l, InServingHand) + OnShelf(l, Executing)
                      + OnShelf(l, WithThief) + OnShelf(l, InReaperHand) + OnShelf(l, Uncounted)
  {
    forall id | id in l
      ensures id in OnShelf(l, ShelfOf(l[id].place))
    {}
    hide ShelfOf;
  }

  lemma ShelvesDisjoint(l: Ledger, j: Shelf, k: Shelf)
    requires j != k
    ensures OnShelf(l, j) !! OnShelf(l, k)
  {
    hide ShelfOf;
  }

  lemma UnionSize<T>(a: set<T>, b: set<T>)
    requires a !! b
    ensures |a + b| == |a| + |b|
  {}

  lemma ShelvesPartition(l: Ledger)
    ensures |l| == |OnShelf(l, Queued)| + |OnShelf(l, InServingHand)| + |OnShelf(l, Executing)|
                 + |OnShelf(l, WithThief)| + |OnShelf(l, InReaperHand)| + |OnShelf(l, Uncounted)|
  {
    var a, b, c := OnShelf(l, Queued), OnShelf(l, InServingHand), OnShelf(l, Executing);
    var d, e, f := OnShelf(l, WithThief), OnShelf(l, InReaperHand), OnShelf(l, Uncounted);
    forall j, k | j != k
      ensures OnShelf(l, j) !! OnShelf(l, k)
    {
      ShelvesDisjoint(l, j, k);
    }
    ShelvesCover(l);
    hide OnShelf;
    UnionSize(a, b);
    UnionSize(a + b, c);
    UnionSize(a + b + c, d);
    UnionSize(a + b + c + d, e);
    UnionSize(a + b + c + d + e, f);
    assert |l.Keys| == |l|;
  }

  /**
    In every reachable state, what a node has counted as submitted and not as completed is exactly
    what is queued, popped by a serving thread, executing, with a thief, collected by the reaper, or
    observed and not yet counted.  So `completed_` never passes `submitted_`, and meets it only when
    nothing is live.
   */
  lemma PendingIsAccountedFor(s: State, steps: seq<Action>, n: nat)
    requires n < |Run(s, steps).nodes|
    requires Init(s)
    ensures var x := Run(s, steps).nodes[n];
            var l := x.ledger;
            && x.counts.completed <= x.counts.submitted
            && x.counts.submitted - x.counts.completed
               == |OnShelf(l, Queued)| + |OnShelf(l, InServingHand)| + |OnShelf(l, Executing)|
                  + |OnShelf(l, WithThief)| + |OnShelf(l, InReaperHand)| + |OnShelf(l, Uncounted)|
            && (x.counts.completed == x.counts.submitted <==> l == map[])
  {
    RunInv(s, steps);
    NodeAt(Run(s, steps), n);
    ShelvesPartition(Run(s, steps).nodes[n].ledger);
    hide Run, Inv, ChainOk, JobsOk, LedgerOk, HistoryOk, OnShelf, OpenIds;
  }

  /** `wait_all` may return at a node exactly when some task was given an id there and nothing is live. */
  lemma WaitAllReturnsIff(s: State, steps: seq<Action>, n: nat)
    requires n < |Run(s, steps).nodes|
    requires Init(s)
    ensures var x := Run(s, steps).nodes[n]; WaitAllReturns(x) <==> x.nextId > 1 && x.ledger == map[]
  {
    PendingIsAccountedFor(s, steps, n);
    RunInv(s, steps);
    NodeAt(Run(s, steps), n);
    hide Run, Inv, ChainOk, JobsOk, LedgerOk, HistoryOk, OnShelf, OpenIds;
  }

  /**
    What was handed to thieves is resolved, reassigned, still outstanding, or in the reaper's hands; at
    the boundary of a reaper pass the last is empty.
   */
  lemma StolenOutBalance(s: State, steps: seq<Action>, n: nat)
    requires n < |Run(s, steps).nodes|
    requires Init(s)
    ensures var x := Run(s, steps).nodes[n];
            x.counts.stolenOut == x.counts.resolved + x.counts.reassigned
                                  + |OnShelf(x.ledger, WithThief)| + |OnShelf(x.ledger, InReaperHand)|
  {
    RunInv(s, steps);
    NodeAt(Run(s, steps), n);
    hide Run, Inv;
    HandedSplit(Run(s, steps).nodes[n]);
  }

  lemma HandedSplit(x: Node)
    requires NodeOk(x)
    ensures x.counts.stolenOut == x.counts.resolved + x.counts.reassigned
                                  + |OnShelf(x.ledger, WithThief)| + |OnShelf(x.ledger, InReaperHand)|
  {
    var h, away, reaped := x.hist, OnShelf(x.ledger, WithThief), OnShelf(x.ledger, InReaperHand);
    HandedParts(x);
    hide ChainOk, JobsOk, LedgerOk, HistoryOk, OnShelf, OpenIds;
    UnionSize(h.resolved, h.rerunAs.Keys);
    UnionSize(h.resolved + h.rerunAs.Keys, away);
    UnionSize(h.resolved + h.rerunAs.Keys + away, reaped);
  }

  lemma HandedParts(x: Node)
    requires NodeOk(x)
    ensures x.hist.handed == x.hist.resolved + x.hist.rerunAs.Keys
                             + OnShelf(x.ledger, WithThief) + OnShelf(x.ledger, InReaperHand)
    ensures x.hist.resolved !! x.hist.rerunAs.Keys
    ensures (x.hist.resolved + x.hist.rerunAs.Keys) !! OnShelf(x.ledger, WithThief)
    ensures (x.hist.resolved + x.hist.rerunAs.Keys + OnShelf(x.ledger, WithThief)) !! OnShelf(x.ledger, InReaperHand)
  {
    hide ChainOk, JobsOk, CountsOk;
    ShelvesDisjoint(x.ledger, WithThief, InReaperHand);
    var away, reaped := OnShelf(x.ledger, WithThief), OnShelf(x.ledger, InReaperHand);
    OwedShelves(x);
    OwedSplit(x);
    hide NodeOk, OnShelf, StillOwed;
    forall id | id in x.hist.handed
      ensures id in x.hist.resolved || id in x.hist.rerunAs.Keys || id in away || id in reaped
    {
      OwedIsNeither(x, id);
    }
  }

  /** What is still owed sits on one of two shelves. */
  lemma OwedShelves(x: Node)
    ensures forall id :: StillOwed(x.ledger, id)
                   <==> id in OnShelf(x.ledger, WithThief) || id in OnShelf(x.ledger, InReaperHand)
  {}

  lemma OwedSplit(x: Node)
    requires NodeOk(x)
    ensures forall id :: StillOwed(x.ledger, id) ==>
              id in x.hist.handed && id !in x.hist.resolved && id !in x.hist.rerunAs
    ensures x.hist.resolved <= x.hist.handed && x.hist.rerunAs.Keys <= x.hist.handed
    ensures x.hist.resolved !! x.hist.rerunAs.Keys
  {
    hide ChainOk, JobsOk, CountsOk;
    assert forall id :: StillOwed(x.ledger, id) ==> EntryOk(x.hist, x.nextId, id, x.ledger[id]);
  }

  /** An id given to a thief is resolved, or reassigned, or still owed: exactly one of the three. */
  lemma HandedOutOnce(s: State, steps: seq<Action>, n: nat, id: nat)
    requires n < |Run(s, steps).nodes| && id in Run(s, steps).nodes[n].hist.handed
    requires Init(s)
    ensures var x := Run(s, steps).nodes[n];
            var resolved, reassigned, owed := id in x.hist.resolved, id in x.hist.rerunAs, StillOwed(x.ledger, id);
            && (resolved || reassigned || owed)
            && !(resolved && reassigned) && !(resolved && owed) && !(reassigned && owed)
  {
    RunInv(s, steps);
    NodeAt(Run(s, steps), n);
    hide Run, Inv;
    OwedIsNeither(Run(s, steps).nodes[n], id);
  }

  lemma OwedIsNeither(x: Node, id: nat)
    requires NodeOk(x)
    ensures StillOwed(x.ledger, id) ==> id !in x.hist.resolved && id !in x.hist.rerunAs
    ensures id in x.hist.handed ==> id in x.hist.resolved || id in x.hist.rerunAs || StillOwed(x.ledger, id)
    ensures !(id in x.hist.resolved && id in x.hist.rerunAs)
  {
    if StillOwed(x.ledger, id) {
      assert EntryOk(x.hist, x.nextId, id, x.ledger[id]);
    }
    hide ChainOk, JobsOk, CountsOk, EntryOk, LedgerOk;
  }

  /** A result for a task that is already resolved or reassigned, late or repeated, changes nothing at all. */
  lemma LateResultChangesNothing(s: State, steps: seq<Action>, k: Key)
    requires k.node < |Run(s, steps).nodes|
    requires k.id in Run(s, steps).nodes[k.node].hist.resolved || k.id in Run(s, steps).nodes[k.node].hist.rerunAs
    requires Init(s)
    ensures Next(Run(s, steps), DeliverResult(k)) == Run(s, steps)
  {
    RunInv(s, steps);
    var r := Run(s, steps);
    NodeAt(r, k.node);
    hide Run, Inv, NodeOk;
    OwedIsNeither(r.nodes[k.node], k.id);
    UnknownResult(r.nodes[k.node], k.id);
    NextDeliver(r, k);
    hide Next, Resolve;
  }

  lemma NextDeliver(s: State, k: Key)
    requires k.node < |s.nodes| && Resolve(s.nodes[k.node], k.id) == s.nodes[k.node]
    ensures Next(s, DeliverResult(k)) == s
  {
    hide Resolve;
  }

  /** What a node remembers of the ids it handed out and of the stages it advanced is only added to. */
  ghost predicate Remembers(x: Node, x': Node) {
    && x.hist.handed <= x'.hist.handed && x.hist.resolved <= x'.hist.resolved
    && x.hist.rerunAs.Keys <= x'.hist.rerunAs.Keys
    && x.jobs.advances <= x'.jobs.advances
  }

  ghost predicate AllRemember(s: State, s': State) {
    |s'.nodes| == |s.nodes| && forall i :: 0 <= i < |s.nodes| ==> Remembers(s.nodes[i], s'.nodes[i])
  }

  lemma OneRemembers(s: State, n: nat, node: Node)
    requires n < |s.nodes| && Remembers(s.nodes[n], node)
    ensures AllRemember(s, SetNode(s, n, node))
  {}

  lemma ObserveRemembers(x: Node, id: nat)
    requires id in x.ledger
    ensures Remembers(x, Observe(x, id))
  {
    hide SeenStage, EncodedStage;
  }

  lemma ReassignRemembers(x: Node, id: nat)
    requires id in x.ledger && x.ledger[id].work.Portable?
    ensures Remembers(x, Reassign(x, id))
  {
    hide SeenStage;
  }

  lemma StepRemembers(s: State, a: Action)
    ensures AllRemember(s, Next(s, a))
  {
    hide AllRemember, SeenStage, Observe, Reassign, EncodedStage;
    if Enabled(s, a) {
      match a
      case SubmitPortable(n, payload) => OneRemembers(s, n, SubmitApp(s.nodes[n], Portable(payload)));
      case SubmitClosure(n) => OneRemembers(s, n, SubmitApp(s.nodes[n], Closure));
      case PushTask(n, id) => OneRemembers(s, n, Push(s.nodes[n], id));
      case OpenRequest(n) => OneRemembers(s, n, Cluster.Open(s.nodes[n]));
      case SubmitFirstStage(n, p) => OneRemembers(s, n, FirstStage(s.nodes[n], p));
      case StartTask(n, id) => OneRemembers(s, n, MoveTo(s.nodes[n], id, Running));
      case PopForThief(n, id) => OneRemembers(s, n, MoveTo(s.nodes[n], id, InHand));
      case TrackAndSend(n, id, thief) => TrackRemembers(s, n, id, thief);
      case DeliverOffer(key) => AcceptRemembers(s, key);
      case LoseOffer(key) => SameNodes(s, s.(offers := s.offers - {key}));
      case RunTask(n, id, report) => RunRemembers(s, n, id, report);
      case CountExecuted(n, id) => OneRemembers(s, n, Executed(s.nodes[n], id));
      case DeliverResult(key) => OneRemembers(s, key.node, Resolve(s.nodes[key.node], key.id));
      case CollectTask(n, id) => OneRemembers(s, n, MoveTo(s.nodes[n], id, Collected));
      case ReassignTask(n, id) => ReassignRemembers(s.nodes[n], id); OneRemembers(s, n, Reassign(s.nodes[n], id));
      case ObserveTask(n, id) => ObserveRemembers(s.nodes[n], id); OneRemembers(s, n, Observe(s.nodes[n], id));
      case FinishTask(n, id) => OneRemembers(s, n, Finish(s.nodes[n], id));
    } else {
      SameNodes(s, s);
    }
  }

  lemma SameNodes(s: State, s': State)
    requires s'.nodes == s.nodes
    ensures AllRemember(s, s')
  {}

  lemma TrackRemembers(s: State, n: nat, id: nat, thief: nat)
    requires Enabled(s, TrackAndSend(n, id, thief))
    ensures AllRemember(s, Next(s, TrackAndSend(n, id, thief)))
  {}

  lemma AcceptRemembers(s: State, k: Key)
    requires Enabled(s, DeliverOffer(k))
    ensures AllRemember(s, Next(s, DeliverOffer(k)))
  {}

  lemma RunRemembers(s: State, n: nat, id: nat, report: bool)
    requires Enabled(s, RunTask(n, id, report))
    ensures AllRemember(s, Next(s, RunTask(n, id, report)))
  {}

  lemma RemembersTwice(a: State, b: State, c: State)
    requires AllRemember(a, b) && AllRemember(b, c)
    ensures AllRemember(a, c)
  {}

  lemma RunOneMore(s: State, steps: seq<Action>)
    requires steps != []
    ensures Run(s, steps) == Next(Run(s, steps[..|steps| - 1]), steps[|steps| - 1])
  {
    hide Next;
  }

  lemma {:induction false} RunRemembersAll(s: State, steps: seq<Action>, more: seq<Action>)
    ensures AllRemember(Run(s, steps), Run(s, steps + more))
    decreases |more|
  {
    hide *;
    if more == [] {
      assert steps + more == steps;
      SameNodes(Run(s, steps), Run(s, steps));
    } else {
      var last := |more| - 1;
      assert (steps + more)[..|steps| + last] == steps + more[..last];
      RunRemembersAll(s, steps, more[..last]);
      StepRemembers(Run(s, steps + more[..last]), more[last]);
      RunOneMore(s, steps + more);
      RemembersTwice(Run(s, steps), Run(s, steps + more[..last]), Run(s, steps + more));
    }
  }

  /**
    Once an id has left the outstanding table it never comes back: however the run goes on, it stays
    resolved or reassigned, as it was, and is never owed again.
   */
  lemma NeverOwedAgain(s: State, steps: seq<Action>, more: seq<Action>, n: nat, id: nat)
    requires n < |Run(s, steps).nodes|
    requires id in Run(s, steps).nodes[n].hist.handed && !StillOwed(Run(s, steps).nodes[n].ledger, id)
    requires Init(s)
    ensures n < |Run(s, steps + more).nodes|
    ensures var x, x' := Run(s, steps).nodes[n], Run(s, steps + more).nodes[n];
            && !StillOwed(x'.ledger, id)
            && (id in x'.hist.resolved <==> id in x.hist.resolved)
            && (id in x'.hist.rerunAs <==> id in x.hist.rerunAs)
  {
    RunRemembersAll(s, steps, more);
    HandedOutOnce(s, steps, n, id);
    HandedOutOnce(s, steps + more, n, id);
    hide Run;
  }

  // ---------------------------------------------------------------- how often a task runs

  /**
    The handler of a task runs at most twice in any run of the cluster, and twice exactly when a thief
    has run it and its re-run has run as well.
   */
  lemma AtMostTwice(s: State, steps: seq<Action>, k: Key)
    requires Init(s)
    ensures var r := Run(s, steps);
            && r.runs[k] <= 2
            && (r.runs[k] == 2 <==> k in r.stolenRan && k.node < |r.nodes| && k.id in r.nodes[k.node].hist.reran)
  {
    RunInv(s, steps);
    var r := Run(s, steps);
    hide Run;
    assert r.runs[k] == RunsOf(r, k);
    if k.node < |r.nodes| {
      NodeAt(r, k.node);
      RanOrHanded(r.nodes[k.node], k.id);
    }
    hide NodeOk;
    StolenWasHanded(r, k);
    hide ThievesOk, RunsOk, NetworkOk;
  }

  lemma StolenWasHanded(r: State, k: Key)
    requires NetworkOk(r)
    ensures k in r.stolenRan ==> HandedOut(r, k)
  {
    hide HandedOut, OffersOk;
  }

  lemma ResolvedWasRun(r: State, k: Key)
    requires NetworkOk(r)
    ensures k.node < |r.nodes| && k.id in r.nodes[k.node].hist.resolved ==> k in r.stolenRan
  {
    hide OffersOk, AcceptedOk;
  }

  /** A task that ran where it was submitted was never handed out. */
  lemma RanOrHanded(x: Node, id: nat)
    requires NodeOk(x)
    ensures id in x.hist.ran ==> id !in x.hist.handed && id !in x.hist.rerunAs
    ensures id in x.hist.reran ==> id in x.hist.rerunAs
  {
    hide PipelineOk, DoneCounted, RunsAccounted, LedgerOk, CountsOk;
  }

  lemma NextReassigns(s: State, n: nat, id: nat)
    requires At(s, n, id, Collected) && s.nodes[n].ledger[id].work.Portable?
    ensures Next(s, ReassignTask(n, id)) == SetNode(s, n, Reassign(s.nodes[n], id))
  {
    hide Reassign;
  }

  lemma NextObserves(s: State, n: nat, id: nat)
    requires At(s, n, id, Settling)
    ensures Next(s, ObserveTask(n, id)) == SetNode(s, n, Observe(s.nodes[n], id))
  {
    hide Observe;
  }

  ghost function Steps(s: State, a: seq<Action>): State
    decreases |a|
  {
    if a == [] then s else Steps(Next(s, a[0]), a[1..])
  }

  lemma {:induction false} RunInTwo(s: State, a: seq<Action>, b: seq<Action>)
    ensures Run(s, a + b) == Steps(Run(s, a), b)
    decreases |b|
  {
    hide Next;
    if b == [] {
      assert a + b == a;
    } else {
      RunInTwo(s, a + [b[0]], b[1..]);
      assert a + [b[0]] + b[1..] == a + b;
      assert (a + [b[0]])[..|a|] == a;
      RunOneMore(s, a + [b[0]]);
    }
  }

  function Apps(x: Node): nat {
    x.counts.apps
  }

  function Executions(x: Node): nat {
    x.counts.executed
  }

  function Reassignments(x: Node): nat {
    x.counts.reassigned
  }

  function Resolutions(x: Node): nat {
    x.counts.resolved
  }

  function StolenOut(x: Node): nat {
    x.counts.stolenOut
  }

  ghost predicate Quiescent(s: State) {
    forall i :: 0 <= i < |s.nodes| ==> s.nodes[i].ledger == map[]
  }

  /** The application submitted the task at its node, as a payload or as a closure. */
  ghost predicate SubmittedBy(s: State, k: Key) {
    k.node < |s.nodes| && (k.id in s.nodes[k.node].hist.payloads || k.id in s.nodes[k.node].hist.closures)
  }

  /** A task was both run by a thief and given up on: the one way to run twice. */
  ghost predicate RunOnBothSides(s: State, k: Key) {
    k in s.stolenRan && k.node < |s.nodes| && k.id in s.nodes[k.node].hist.rerunAs
  }

  /** Neither the task nor its re-run is live at its own node; what other nodes do does not matter. */
  ghost predicate NotLive(x: Node, id: nat) {
    id !in x.ledger && (id in x.hist.rerunAs ==> x.hist.rerunAs[id] !in x.ledger)
  }

  lemma SettledTask(x: Node, id: nat)
    requires NotLive(x, id) && (id in x.hist.payloads || id in x.hist.closures)
    requires NodeOk(x)
    ensures id in x.hist.ran || (id in x.hist.handed && (id in x.hist.resolved || id in x.hist.reran))
    ensures id in x.hist.rerunAs <==> id in x.hist.reran
    ensures id in x.hist.closures ==> id in x.hist.ran
  {
    hide PipelineOk, DoneCounted, LedgerOk, CountsOk;
  }

  /**
    Execution is at least once, task by task, and exactly once but for one case.  Once a submitted task
    is no longer live at its own node it has run; it has run twice if a thief ran it and the reaper gave
    up on the thief, and once if not.  A closure has run once.
   */
  lemma ExactlyHowOften(s: State, steps: seq<Action>, k: Key)
    requires SubmittedBy(Run(s, steps), k) && NotLive(Run(s, steps).nodes[k.node], k.id)
    requires Init(s)
    ensures var r := Run(s, steps);
            && r.runs[k] == (if RunOnBothSides(r, k) then 2 else 1)
            && (k.id in r.nodes[k.node].hist.closures ==> r.runs[k] == 1)
  {
    RunInv(s, steps);
    var r := Run(s, steps);
    hide Run;
    assert r.runs[k] == RunsOf(r, k);
    NodeAt(r, k.node);
    SettledTask(r.nodes[k.node], k.id);
    RanOrHanded(r.nodes[k.node], k.id);
    hide NodeOk;
    StolenWasHanded(r, k);
    ResolvedWasRun(r, k);
    hide ThievesOk, RunsOk, NetworkOk;
  }

  /** So when `wait_all` may return at a node, every task submitted there has run, and that often. */
  lemma WaitAllMeansRun(s: State, steps: seq<Action>, k: Key)
    requires SubmittedBy(Run(s, steps), k) && WaitAllReturns(Run(s, steps).nodes[k.node])
    requires Init(s)
    ensures Run(s, steps).runs[k] == if RunOnBothSides(Run(s, steps), k) then 2 else 1
  {
    PendingIsAccountedFor(s, steps, k.node);
    hide Run, OnShelf;
    ExactlyHowOften(s, steps, k);
  }

  /** On a quiescent node every task is executed here, resolved or reassigned, and came from one of three sources. */
  lemma QuiescentNode(x: Node)
    requires NodeOk(x) && x.ledger == map[]
    ensures x.counts.executed + x.counts.resolved == x.counts.apps + x.counts.stolenIn
    ensures x.counts.stolenOut == x.counts.resolved + x.counts.reassigned
    ensures |x.hist.resolved| == x.counts.resolved && |x.hist.handed| == x.counts.stolenOut
  {
    hide ChainOk, JobsOk;
    assert OpenIds(x.ledger) == {};
    HandedSplit(x);
    assert OnShelf(x.ledger, WithThief) == {} && OnShelf(x.ledger, InReaperHand) == {};
  }

  function ResolvedIds(x: Node): set<nat> {
    x.hist.resolved
  }

  function HandedIds(x: Node): set<nat> {
    x.hist.handed
  }

  lemma {:induction false} QuiescentTotals(nodes: seq<Node>)
    requires forall i :: 0 <= i < |nodes| ==> NodeOk(nodes[i]) && nodes[i].ledger == map[]
    ensures Total(nodes, Executions) + Total(nodes, Resolutions) == Total(nodes, Apps) + Total(nodes, StolenIn)
    ensures Total(nodes, StolenOut) == Total(nodes, Resolutions) + Total(nodes, Reassignments)
  {
    hide NodeOk;
    if nodes != [] {
      QuiescentTotals(nodes[..|nodes| - 1]);
      QuiescentNode(nodes[|nodes| - 1]);
    }
  }

  /**
    Exactly-once work on top of at-least-once execution.  Once every node is quiescent, the executions
    of all nodes together are at least the tasks the application submitted and at most that plus the
    reassignments; with no reassignment they are equal.
   */
  lemma ExecutionBounds(s: State, steps: seq<Action>)
    requires Quiescent(Run(s, steps))
    requires Init(s)
    ensures var nodes := Run(s, steps).nodes;
            && Total(nodes, Apps) <= Total(nodes, Executions) <= Total(nodes, Apps) + Total(nodes, Reassignments)
            && (Total(nodes, Reassignments) == 0 ==> Total(nodes, Executions) == Total(nodes, Apps))
  {
    RunInv(s, steps);
    var r := Run(s, steps);
    hide Run;
    ResolvedFewerThanAccepted(r);
    AcceptedFewerThanHanded(r);
    forall i | 0 <= i < |r.nodes|
      ensures NodeOk(r.nodes[i]) && r.nodes[i].ledger == map[]
    {
      NodeAt(r, i);
    }
    hide NodeOk, Inv;
    QuiescentTotals(r.nodes);
  }

  lemma ResolvedWasAccepted(r: State)
    requires ResultsOk(r)
    ensures Keys(r.nodes, ResolvedIds) <= r.accepted.Keys
  {}

  lemma ResolvedFewerThanAccepted(r: State)
    requires Inv(r)
    ensures Total(r.nodes, Resolutions) <= Total(r.nodes, StolenIn)
  {
    forall i | 0 <= i < |r.nodes|
      ensures Resolutions(r.nodes[i]) == |ResolvedIds(r.nodes[i])|
    {
      NodeAt(r, i);
    }
    hide NodesOk, NodeOk, ThievesOk, RunsOk, OffersOk, AcceptedOk;
    KeysCount(r.nodes, ResolvedIds, Resolutions);
    ResolvedWasAccepted(r);
    hide ResultsOk, Total;
    SubsetSize(Keys(r.nodes, ResolvedIds), r.accepted.Keys);
    assert |r.accepted.Keys| == |r.accepted|;
  }

  lemma AcceptedWasHanded(r: State)
    requires AcceptedOk(r)
    ensures r.accepted.Keys <= Keys(r.nodes, HandedIds)
  {
    forall k | k in r.accepted
      ensures k in Keys(r.nodes, HandedIds)
    {
      assert HandedOut(r, k);
    }
  }

  lemma AcceptedFewerThanHanded(r: State)
    requires Inv(r)
    ensures Total(r.nodes, StolenIn) <= Total(r.nodes, StolenOut)
  {
    forall i | 0 <= i < |r.nodes|
      ensures StolenOut(r.nodes[i]) == |HandedIds(r.nodes[i])|
    {
      NodeAt(r, i);
    }
    hide NodesOk, NodeOk, ThievesOk, RunsOk, OffersOk, ResultsOk;
    KeysCount(r.nodes, HandedIds, StolenOut);
    AcceptedWasHanded(r);
    hide AcceptedOk, Total;
    SubsetSize(r.accepted.Keys, Keys(r.nodes, HandedIds));
    assert |r.accepted.Keys| == |r.accepted|;
  }
}
