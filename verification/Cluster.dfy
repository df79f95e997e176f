/**
  The task ledger of a cluster as a transition system: src/cluster/Node.cpp, src/runtime/Runtime.cpp,
  src/runtime/Worker.cpp and src/inference/JobManager.cpp on any number of nodes.

  A node's `ledger` holds every task the node has counted as submitted and not yet counted as
  completed, with the place it is in.  The network may lose, delay and reorder steal responses, and
  may lose, delay, reorder and duplicate results.  A timeout may strike any outstanding task at any
  time.  Every node has the same handler table.
 */
module Cluster {
  import opened Tasks
  import opened Stages

  /** A task of the cluster: the node that first submitted it and the id it got there. */
  datatype Key = Key(node: nat, id: nat)

  /**
    What a task is made of.  `Stolen` is the closure a thief wraps around a task it received; the task
    that carries the closure has no payload.  `Rerun` is a recovered task: its `fn` is set, so it is no
    longer portable, and it keeps the payload; `root`, the id it had before, is only for the proofs.
    `Settled` is the blank task with which the reaper closes the books on the original.
   */
  datatype Work =
    | Portable(payload: Bytes)
    | Closure
    | Stolen(origin: Key, handed: Bytes)
    | Rerun(root: nat, payload: Bytes)
    | Settled

  /** Where a task is.  `Entering` is counted but not yet pushed; `InHand` is popped by a serving thread
      but not yet recorded; `Ran` has run its body; `Settling` waits for the observer; `Observed` waits
      to be counted. */
  datatype Place =
    | Entering(shared: bool)
    | InPool
    | InQueue
    | InHand
    | Running
    | Ran
    | Outstanding
    | Collected
    | Settling
    | Observed

  datatype Entry = Entry(place: Place, work: Work)

  type Ledger = map<nat, Entry>

  /** The counters of Runtime and Node; `apps` counts what the application itself submitted. */
  datatype Counts = Counts(
    submitted: nat,
    completed: nat,
    executed: nat,
    apps: nat,
    stolenIn: nat,
    stolenOut: nat,
    resolved: nat,
    reassigned: nat)

  /** History, read only by the proofs: which ids were handed out, resolved, reassigned and run here, and
      what was submitted here. */
  datatype History = History(
    handed: set<nat>,
    resolved: set<nat>,
    rerunAs: map<nat, nat>,
    ran: set<nat>,
    reran: set<nat>,
    payloads: map<nat, Bytes>,
    closures: set<nat>)

  datatype Advance = Advance(request: nat, stage: nat)

  /** JobManager.  `opening` are the requests recorded by `submit` whose first stage is not yet submitted;
      `carrier`, `progress` and `advances` are history.  So is `spoiled`: the requests for which the
      application has submitted a payload that reads as one of their stages, and the request ids that have
      come round again. */
  datatype Jobs = Jobs(
    nextRequest: u64,
    done: map<nat, bool>,
    completed: nat,
    opening: set<u64>,
    carrier: map<nat, nat>,
    progress: map<nat, nat>,
    advances: seq<Advance>,
    spoiled: set<nat>)

  datatype Node = Node(nextId: nat, ledger: Ledger, counts: Counts, hist: History, jobs: Jobs)

  const FRESH_NODE := Node(1, map[], Counts(0, 0, 0, 0, 0, 0, 0, 0), History({}, {}, map[], {}, {}, map[], {}),
                          Jobs(1, map[], 0, {}, map[], map[], [], {}))

  // ---------------------------------------------------------------- operations of one node

  function MoveTo(n: Node, id: nat, place: Place): Node
    requires id in n.ledger
  {
    n.(ledger := n.ledger[id := n.ledger[id].(place := place)])
  }

  /** `next_id_++`, `submitted_.fetch_add(1)`; the push comes later. */
  function Issue(n: Node, work: Work, shared: bool): Node {
    n.(nextId := n.nextId + 1,
       ledger := n.ledger[n.nextId := Entry(Entering(shared), work)],
       counts := n.counts.(submitted := n.counts.submitted + 1),
       hist := if work.Portable? then n.hist.(payloads := n.hist.payloads[n.nextId := work.payload])
               else if work.Closure? then n.hist.(closures := n.hist.closures + {n.nextId})
               else n.hist)
  }

  function IssueApp(n: Node, work: Work): Node {
    var n' := Issue(n, work, work.Portable?);
    n'.(counts := n'.counts.(apps := n'.counts.apps + 1))
  }

  /** The request that the observer will advance for a task, if any. */
  ghost function Named(work: Work): set<nat> {
    if SeenStage(work).Some? then {SeenStage(work).value.requestId} else {}
  }

  /** What the application submits itself, whatever its payload. */
  ghost function SubmitApp(n: Node, work: Work): Node {
    var n' := IssueApp(n, work);
    n'.(jobs := n'.jobs.(spoiled := n.jobs.spoiled + Named(work)))
  }

  function Push(n: Node, id: nat): Node
    requires id in n.ledger && n.ledger[id].place.Entering?
  {
    MoveTo(n, id, if n.ledger[id].place.shared then InPool else InQueue)
  }

  /** `track_outstanding`, with its share of the `stolen_out_` count. */
  function Track(n: Node, id: nat): Node
    requires id in n.ledger
  {
    MoveTo(n, id, Outstanding).(
      counts := n.counts.(stolenOut := n.counts.stolenOut + 1),
      hist := n.hist.(handed := n.hist.handed + {id}))
  }

  /** `accept_stolen_task`: a local closure that will report home. */
  function Accept(n: Node, origin: Key, payload: Bytes): Node {
    var n' := Issue(n, Stolen(origin, payload), false);
    n'.(counts := n'.counts.(stolenIn := n'.counts.stolenIn + 1))
  }

  /** The task's body: the registered handler, once. */
  function RunBody(n: Node, id: nat): Node
    requires id in n.ledger
  {
    var work := n.ledger[id].work;
    MoveTo(n, id, Ran).(
      hist := if work.Rerun? then n.hist.(reran := n.hist.reran + {work.root})
              else if work.Stolen? then n.hist
              else n.hist.(ran := n.hist.ran + {id}))
  }

  /** `on_task_complete` up to the observer. */
  function Executed(n: Node, id: nat): Node
    requires id in n.ledger
  {
    MoveTo(n, id, Settling).(counts := n.counts.(executed := n.counts.executed + 1))
  }

  /** `resolve_outstanding`: an id that is not outstanding is ignored. */
  function Resolve(n: Node, id: nat): Node {
    if id in n.ledger && n.ledger[id].place.Outstanding? then
      MoveTo(n, id, Settling).(
        counts := n.counts.(resolved := n.counts.resolved + 1),
        hist := n.hist.(resolved := n.hist.resolved + {id}))
    else n
  }

  /** One turn of the reaper's second loop: re-submit under a new id, then settle the original. */
  ghost function Reassign(n: Node, id: nat): Node
    requires id in n.ledger && n.ledger[id].work.Portable?
  {
    var newId := n.nextId;
    var n1 := n.(counts := n.counts.(reassigned := n.counts.reassigned + 1));
    var n2 := Issue(n1, Rerun(id, n.ledger[id].work.payload), false);
    n2.(ledger := n2.ledger[id := Entry(Settling, Settled)],
        hist := n2.hist.(rerunAs := n2.hist.rerunAs[id := newId]),
        jobs := match SeenStage(n.ledger[id].work)
                case None => n.jobs
                case Some(p) => n.jobs.(carrier := n.jobs.carrier[p.requestId := newId]))
  }

  /** The payload field of the task; a closure's is empty, and so is that of the closure around stolen work. */
  function TaskPayload(w: Work): Bytes {
    match w
    case Portable(payload) => payload
    case Closure => []
    case Stolen(_, _) => []
    case Rerun(_, payload) => payload
    case Settled => []
  }

  /** What the observer makes of a task: nothing if its payload is empty, else the stage it decodes to. */
  ghost function SeenStage(w: Work): Option<StagePayload> {
    if TaskPayload(w) == [] then None else StageOf(TaskPayload(w))
  }

  ghost function StageWork(p: StagePayload): Work {
    Portable(EncodedStage(p))
  }

  /** `JobManager::submit` up to `submit_stage`.  Request ids wrap; `emplace` keeps a record that is there. */
  function Open(n: Node): Node {
    var r := n.jobs.nextRequest;
    var counted := n.jobs.(nextRequest := (r + 1) % 0x1_0000_0000_0000_0000, opening := n.jobs.opening + {r});
    n.(jobs := if r in n.jobs.done then counted.(spoiled := n.jobs.spoiled + {r})
               else counted.(done := n.jobs.done[r := false], progress := n.jobs.progress[r := 0]))
  }

  /** The first `submit_stage` of a request. */
  ghost function FirstStage(n: Node, p: StagePayload): Node {
    var n' := IssueApp(n, StageWork(p));
    n'.(jobs := n'.jobs.(opening := n'.jobs.opening - {p.requestId},
                         carrier := n'.jobs.carrier[p.requestId := n.nextId]))
  }

  /** The observer and `on_stage_done`, run before the task is counted as completed. */
  ghost function Observe(n: Node, id: nat): Node
    requires id in n.ledger
  {
    match SeenStage(n.ledger[id].work)
    case None => MoveTo(n, id, Observed)
    case Some(p) => OnStageDone(MoveTo(n, id, Observed), p)
  }

  ghost function OnStageDone(n: Node, p: StagePayload): Node {
    var r := p.requestId;
    var logged := n.jobs.(progress := n.jobs.progress[r := p.stage + 1],
                          advances := n.jobs.advances + [Advance(r, p.stage)]);
    if p.stage < POSTPROCESS then
      var n' := IssueApp(n, StageWork(p.(stage := p.stage + 1)));
      n'.(jobs := logged.(carrier := logged.carrier[r := n.nextId]))
    else if p.stage == POSTPROCESS then
      n.(jobs := if r in logged.done && !logged.done[r] then
                   logged.(done := logged.done[r := true], completed := logged.completed + 1,
                           carrier := logged.carrier - {r})
                 else logged)
    else n.(jobs := logged)
  }

  /** `finish_one`. */
  function Finish(n: Node, id: nat): Node
    requires id in n.ledger
  {
    n.(ledger := n.ledger - {id}, counts := n.counts.(completed := n.counts.completed + 1))
  }

  /** The predicate `wait_all` waits for, its two counters read in one step. */
  predicate WaitAllReturns(n: Node) {
    n.counts.submitted > 0 && n.counts.completed >= n.counts.submitted
  }

  // ---------------------------------------------------------------- the cluster

  /** A steal response on its way, one entry for each task in it. */
  datatype Offer = Offer(thief: nat, payload: Bytes)

  /**
    `results` are the result messages ever sent; delivery does not remove them, and they need never be
    delivered.  `accepted` maps a task to the thief's task made for it, `stolenRan` holds the tasks whose
    thief has run them and `runs` counts every invocation of a task's handler; the three are history.
   */
  datatype State = State(
    nodes: seq<Node>,
    offers: map<Key, Offer>,
    results: set<Key>,
    accepted: map<Key, Key>,
    stolenRan: set<Key>,
    runs: multiset<Key>)

  ghost predicate Init(s: State) {
    && (forall i :: 0 <= i < |s.nodes| ==> s.nodes[i] == FRESH_NODE)
    && s.offers == map[] && s.results == {} && s.accepted == map[] && s.stolenRan == {} && s.runs == multiset{}
  }

  datatype Action =
    | SubmitPortable(n: nat, payload: Bytes)
    | SubmitClosure(n: nat)
    | PushTask(n: nat, id: nat)
    | OpenRequest(n: nat)
    | SubmitFirstStage(n: nat, stage: StagePayload)
    | StartTask(n: nat, id: nat)
    | PopForThief(n: nat, id: nat)
    | TrackAndSend(n: nat, id: nat, thief: nat)
    | DeliverOffer(key: Key)
    | LoseOffer(key: Key)
    | RunTask(n: nat, id: nat, report: bool)
    | CountExecuted(n: nat, id: nat)
    | DeliverResult(key: Key)
    | CollectTask(n: nat, id: nat)
    | ReassignTask(n: nat, id: nat)
    | ObserveTask(n: nat, id: nat)
    | FinishTask(n: nat, id: nat)

  ghost predicate At(s: State, n: nat, id: nat, place: Place) {
    n < |s.nodes| && id in s.nodes[n].ledger && s.nodes[n].ledger[id].place == place
  }

  ghost predicate Enabled(s: State, a: Action) {
    match a
    case SubmitPortable(n, _) => n < |s.nodes|
    case SubmitClosure(n) => n < |s.nodes|
    case PushTask(n, id) => n < |s.nodes| && id in s.nodes[n].ledger && s.nodes[n].ledger[id].place.Entering?
    case OpenRequest(n) => n < |s.nodes|
    case SubmitFirstStage(n, p) => n < |s.nodes| && p.requestId in s.nodes[n].jobs.opening && p.stage == DECODE
    case StartTask(n, id) => At(s, n, id, InPool) || At(s, n, id, InQueue)
    case PopForThief(n, id) => At(s, n, id, InPool)
    case TrackAndSend(n, id, thief) => At(s, n, id, InHand) && s.nodes[n].ledger[id].work.Portable? && thief < |s.nodes|
    case DeliverOffer(key) => key in s.offers && s.offers[key].thief < |s.nodes|
    case LoseOffer(key) => key in s.offers
    case RunTask(n, id, _) => At(s, n, id, Running)
    case CountExecuted(n, id) => At(s, n, id, Ran)
    case DeliverResult(key) => key in s.results && key.node < |s.nodes|
    case CollectTask(n, id) => At(s, n, id, Outstanding)
    case ReassignTask(n, id) => At(s, n, id, Collected) && s.nodes[n].ledger[id].work.Portable?
    case ObserveTask(n, id) => At(s, n, id, Settling)
    case FinishTask(n, id) => At(s, n, id, Observed)
  }

  /** The task whose handler runs when instance `id` of node `n` runs. */
  function RootOf(n: nat, id: nat, w: Work): Key {
    match w
    case Stolen(origin, _) => origin
    case Rerun(root, _) => Key(n, root)
    case _ => Key(n, id)
  }

  function SetNode(s: State, n: nat, node: Node): State
    requires n < |s.nodes|
  {
    s.(nodes := s.nodes[n := node])
  }

  /** A step the state does not allow changes nothing. */
  ghost function Next(s: State, a: Action): State {
    if !Enabled(s, a) then s else
    match a
    case SubmitPortable(n, payload) => SetNode(s, n, SubmitApp(s.nodes[n], Portable(payload)))
    case SubmitClosure(n) => SetNode(s, n, SubmitApp(s.nodes[n], Closure))
    case PushTask(n, id) => SetNode(s, n, Push(s.nodes[n], id))
    case OpenRequest(n) => SetNode(s, n, Open(s.nodes[n]))
    case SubmitFirstStage(n, p) => SetNode(s, n, FirstStage(s.nodes[n], p))
    case StartTask(n, id) => SetNode(s, n, MoveTo(s.nodes[n], id, Running))
    case PopForThief(n, id) => SetNode(s, n, MoveTo(s.nodes[n], id, InHand))
    case TrackAndSend(n, id, thief) =>
      SetNode(s, n, Track(s.nodes[n], id)).(
        offers := s.offers[Key(n, id) := Offer(thief, s.nodes[n].ledger[id].work.payload)])
    case DeliverOffer(key) =>
      var offer := s.offers[key];
      SetNode(s, offer.thief, Accept(s.nodes[offer.thief], key, offer.payload)).(
        offers := s.offers - {key},
        accepted := s.accepted[key := Key(offer.thief, s.nodes[offer.thief].nextId)])
    case LoseOffer(key) => s.(offers := s.offers - {key})
    case RunTask(n, id, report) =>
      var work := s.nodes[n].ledger[id].work;
      SetNode(s, n, RunBody(s.nodes[n], id)).(
        runs := s.runs + multiset{RootOf(n, id, work)},
        stolenRan := if work.Stolen? then s.stolenRan + {work.origin} else s.stolenRan,
        results := if work.Stolen? && report then s.results + {work.origin} else s.results)
    case CountExecuted(n, id) => SetNode(s, n, Executed(s.nodes[n], id))
    case DeliverResult(key) => SetNode(s, key.node, Resolve(s.nodes[key.node], key.id))
    case CollectTask(n, id) => SetNode(s, n, MoveTo(s.nodes[n], id, Collected))
    case ReassignTask(n, id) => SetNode(s, n, Reassign(s.nodes[n], id))
    case ObserveTask(n, id) => SetNode(s, n, Observe(s.nodes[n], id))
    case FinishTask(n, id) => SetNode(s, n, Finish(s.nodes[n], id))
  }

  ghost function Run(s: State, steps: seq<Action>): State
    decreases |steps|
  {
    if steps == [] then s
    else Next(Run(s, steps[..|steps| - 1]), steps[|steps| - 1])
  }
}
