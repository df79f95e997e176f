/** Safety of the whole cluster, over every run. */
module ClusterSafety {
  import opened Counting
  import opened Tasks
  import opened Stages
  import opened Cluster
  import opened ClusterNode

  // ---------------------------------------------------------------- sums over the nodes

  function Total(nodes: seq<Node>, f: Node -> nat): nat {
    if nodes == [] then 0 else Total(nodes[..|nodes| - 1], f) + f(nodes[|nodes| - 1])
  }

  lemma {:induction false} TotalUpdate(nodes: seq<Node>, n: nat, node: Node, f: Node -> nat)
    requires n < |nodes|
    ensures Total(nodes[n := node], f) == Total(nodes, f) - f(nodes[n]) + f(node)
  {
    var last := |nodes| - 1;
    var nodes' := nodes[n := node];
    if n == last {
      assert nodes'[..last] == nodes[..last];
    } else {
      TotalUpdate(nodes[..last], n, node, f);
      assert nodes'[..last] == nodes[..last][n := node];
    }
  }

  lemma {:induction false} TotalAdds(nodes: seq<Node>, f: Node -> nat, g: Node -> nat, h: Node -> nat)
    requires forall i :: 0 <= i < |nodes| ==> f(nodes[i]) == g(nodes[i]) + h(nodes[i])
    ensures Total(nodes, f) == Total(nodes, g) + Total(nodes, h)
  {
    if nodes != [] {
      TotalAdds(nodes[..|nodes| - 1], f, g, h);
    }
  }

  /** The keys formed by one set of ids on each node. */
  function Keys(nodes: seq<Node>, f: Node -> set<nat>): (ks: set<Key>)
    ensures forall k :: k in ks <==> k.node < |nodes| && k.id in f(nodes[k.node])
  {
    if nodes == [] then {}
    else
      var last := |nodes| - 1;
      Keys(nodes[..last], f) + set id | id in f(nodes[last]) :: Key(last, id)
  }

  lemma {:induction false} KeysCount(nodes: seq<Node>, f: Node -> set<nat>, size: Node -> nat)
    requires forall i :: 0 <= i < |nodes| ==> size(nodes[i]) == |f(nodes[i])|
    ensures |Keys(nodes, f)| == Total(nodes, size)
  {
    if nodes != [] {
      var last := |nodes| - 1;
      KeysCount(nodes[..last], f, size);
      TagCount(last, f(nodes[last]));
      var tagged := set id | id in f(nodes[last]) :: Key(last, id);
      assert Keys(nodes[..last], f) !! tagged;
      assert Keys(nodes, f) == Keys(nodes[..last], f) + tagged;
    }
  }

  lemma {:induction false} TagCount(n: nat, ids: set<nat>)
    ensures |set id | id in ids :: Key(n, id)| == |ids|
  {
    if ids != {} {
      var x :| x in ids;
      TagCount(n, ids - {x});
      assert (set id | id in ids :: Key(n, id)) == (set id | id in ids - {x} :: Key(n, id)) + {Key(n, x)};
    }
  }

  // ---------------------------------------------------------------- the invariant

  ghost predicate NodesOk(s: State) {
    forall i :: 0 <= i < |s.nodes| ==> NodeOk(s.nodes[i])
  }

  ghost predicate HandedOut(s: State, k: Key) {
    k.node < |s.nodes| && k.id in s.nodes[k.node].hist.handed
  }

  ghost predicate PayloadIs(s: State, k: Key, payload: Bytes) {
    k.node < |s.nodes| && k.id in s.nodes[k.node].hist.payloads && s.nodes[k.node].hist.payloads[k.id] == payload
  }

  /** A task made by a thief for a task it accepted. */
  ghost predicate StolenOk(s: State, n: nat, id: nat, e: Entry) {
    e.work.Stolen? ==>
      && e.work.origin in s.accepted && s.accepted[e.work.origin] == Key(n, id)
      && (BeforeRun(e.place) ==> e.work.origin !in s.stolenRan)
      && PayloadIs(s, e.work.origin, e.work.handed)
  }

  ghost predicate ThievesOk(s: State) {
    forall n, id :: 0 <= n < |s.nodes| && id in s.nodes[n].ledger ==> StolenOk(s, n, id, s.nodes[n].ledger[id])
  }

  /** What is on its way to a thief was handed out and has not been accepted. */
  ghost predicate OffersOk(s: State) {
    forall k :: k in s.offers ==> HandedOut(s, k) && k !in s.accepted && PayloadIs(s, k, s.offers[k].payload)
  }

  ghost predicate AcceptedOk(s: State) {
    forall k :: k in s.accepted ==> HandedOut(s, k)
  }

  /** A result is only sent after the thief ran the task, and only such a result resolves it. */
  ghost predicate ResultsOk(s: State) {
    && s.results <= s.stolenRan <= s.accepted.Keys
    && (forall n, id :: 0 <= n < |s.nodes| && id in s.nodes[n].hist.resolved ==> Key(n, id) in s.results)
  }

  function StolenIn(x: Node): nat {
    x.counts.stolenIn
  }

  ghost predicate NetworkOk(s: State) {
    && OffersOk(s) && AcceptedOk(s) && ResultsOk(s)
    && |s.accepted| == Total(s.nodes, StolenIn)
  }

  /** How often the handler of task `k` has run: where it was submitted, on a thief, and as a re-run. */
  ghost function RunsOf(s: State, k: Key): nat {
    (if k.node < |s.nodes| && k.id in s.nodes[k.node].hist.ran then 1 else 0)
    + (if k in s.stolenRan then 1 else 0)
    + (if k.node < |s.nodes| && k.id in s.nodes[k.node].hist.reran then 1 else 0)
  }

  ghost predicate RunsOk(s: State) {
    forall k :: s.runs[k] == RunsOf(s, k)
  }

  ghost predicate Inv(s: State) {
    NodesOk(s) && ThievesOk(s) && NetworkOk(s) && RunsOk(s)
  }

  // ---------------------------------------------------------------- steps inside one node

  /** A step of one node that the other nodes and the network cannot tell from no step at all. */
  ghost predicate Quiet(n: Node, n': Node) {
    && n.hist.handed <= n'.hist.handed
    && (forall id :: id in n.hist.payloads ==> id in n'.hist.payloads && n'.hist.payloads[id] == n.hist.payloads[id])
    && n'.hist.resolved == n.hist.resolved && n'.hist.ran == n.hist.ran && n'.hist.reran == n.hist.reran
    && n'.counts.stolenIn == n.counts.stolenIn
    && NoNewStolen(n.ledger, n'.ledger)
  }

  ghost predicate NoNewStolen(l: Ledger, l': Ledger) {
    forall id :: id in l' && l'[id].work.Stolen? ==>
      id in l && l[id].work == l'[id].work && (BeforeRun(l'[id].place) ==> BeforeRun(l[id].place))
  }

  lemma QuietThieves(s: State, n: nat, node: Node)
    requires ThievesOk(s) && n < |s.nodes| && Quiet(s.nodes[n], node)
    ensures ThievesOk(SetNode(s, n, node))
  {
    var s' := SetNode(s, n, node);
    forall m, id | 0 <= m < |s'.nodes| && id in s'.nodes[m].ledger
      ensures StolenOk(s', m, id, s'.nodes[m].ledger[id])
    {
      if s'.nodes[m].ledger[id].work.Stolen? {
        assert StolenOk(s, m, id, s.nodes[m].ledger[id]);
      }
    }
  }

  lemma QuietOffers(s: State, n: nat, node: Node)
    requires OffersOk(s) && AcceptedOk(s) && n < |s.nodes| && Quiet(s.nodes[n], node)
    ensures OffersOk(SetNode(s, n, node)) && AcceptedOk(SetNode(s, n, node))
  {
    hide NoNewStolen;
    var s' := SetNode(s, n, node);
    assert forall k :: HandedOut(s, k) ==> HandedOut(s', k);
    assert forall k, p :: PayloadIs(s, k, p) ==> PayloadIs(s', k, p);
    hide HandedOut, PayloadIs;
  }

  lemma QuietNetwork(s: State, n: nat, node: Node)
    requires NetworkOk(s) && n < |s.nodes| && Quiet(s.nodes[n], node)
    ensures NetworkOk(SetNode(s, n, node))
  {
    QuietOffers(s, n, node);
    TotalUpdate(s.nodes, n, node, StolenIn);
    hide NoNewStolen, OffersOk, AcceptedOk;
  }

  lemma QuietStep(s: State, n: nat, node: Node)
    requires Inv(s) && n < |s.nodes| && NodeOk(node) && Quiet(s.nodes[n], node)
    ensures Inv(SetNode(s, n, node))
  {
    hide NodeOk;
    QuietThieves(s, n, node);
    QuietNetwork(s, n, node);
    hide ThievesOk, NetworkOk, NoNewStolen;
  }

  lemma MoveIsQuiet(n: Node, id: nat, place: Place)
    requires id in n.ledger && (BeforeRun(place) ==> BeforeRun(n.ledger[id].place))
    ensures Quiet(n, MoveTo(n, id, place))
  {}

  lemma MoveStep(s: State, n: nat, id: nat, place: Place)
    requires Inv(s) && n < |s.nodes| && PlainMove(s.nodes[n], id, place)
    ensures Inv(SetNode(s, n, MoveTo(s.nodes[n], id, place)))
  {
    hide NodeOk, Quiet, ThievesOk, NetworkOk, RunsOk;
    PlainMoveKeeps(s.nodes[n], id, place);
    MoveIsQuiet(s.nodes[n], id, place);
    QuietStep(s, n, MoveTo(s.nodes[n], id, place));
  }

  /** The entry of a reachable ledger is in order. */
  lemma EntryAt(s: State, n: nat, id: nat)
    requires Inv(s) && n < |s.nodes| && id in s.nodes[n].ledger
    ensures EntryOk(s.nodes[n].hist, s.nodes[n].nextId, id, s.nodes[n].ledger[id])
    ensures StolenOk(s, n, id, s.nodes[n].ledger[id])
    ensures HistoryOk(s.nodes[n].hist, s.nodes[n].nextId, s.nodes[n].ledger)
  {
    assert NodeOk(s.nodes[n]);
    hide EntryOk, StolenOk, HistoryOk, CountsOk;
  }

  lemma EntryPortable(h: History, nextId: nat, id: nat, e: Entry)
    requires EntryOk(h, nextId, id, e) && OnlyPortable(e.place)
    ensures e.work.Portable?
  {}

  lemma FreshIdUnused(n: Node)
    requires NodeOk(n)
    ensures n.nextId !in n.ledger && n.nextId !in n.hist.payloads && n.nextId > 0
  {}

  // ---------------------------------------------------------------- submitting

  lemma IssueAppIsQuiet(n: Node, work: Work)
    requires NodeOk(n) && !work.Stolen?
    ensures Quiet(n, IssueApp(n, work))
  {
    FreshIdUnused(n);
    hide NodeOk;
  }

  lemma SubmitAppIsQuiet(n: Node, work: Work)
    requires NodeOk(n) && !work.Stolen?
    ensures Quiet(n, SubmitApp(n, work))
  {
    IssueAppIsQuiet(n, work);
    hide NodeOk, SeenStage;
  }

  lemma SubmitStep(s: State, n: nat, work: Work)
    requires Inv(s) && n < |s.nodes| && (work.Portable? || work.Closure?)
    ensures Inv(SetNode(s, n, SubmitApp(s.nodes[n], work)))
  {
    hide NodeOk, Quiet, ThievesOk, NetworkOk, RunsOk, SeenStage;
    SubmitAppKeeps(s.nodes[n], work);
    SubmitAppIsQuiet(s.nodes[n], work);
    QuietStep(s, n, SubmitApp(s.nodes[n], work));
  }

  lemma OpenIsQuiet(n: Node)
    ensures Quiet(n, Cluster.Open(n))
  {}

  lemma OpenStep(s: State, n: nat)
    requires Inv(s) && n < |s.nodes|
    ensures Inv(SetNode(s, n, Cluster.Open(s.nodes[n])))
  {
    hide NodeOk, Quiet, ThievesOk, NetworkOk, RunsOk;
    OpenIsQuiet(s.nodes[n]);
    OpenKeeps(s.nodes[n]);
    QuietStep(s, n, Cluster.Open(s.nodes[n]));
  }

  lemma FirstStageIsQuiet(n: Node, p: StagePayload)
    requires NodeOk(n)
    ensures Quiet(n, FirstStage(n, p))
  {
    StageIsPortable(p);
    IssueAppIsQuiet(n, StageWork(p));
    hide NodeOk, EncodedStage;
  }

  lemma FirstStageStep(s: State, n: nat, p: StagePayload)
    requires Inv(s) && n < |s.nodes| && p.requestId in s.nodes[n].jobs.opening && p.stage == DECODE
    ensures Inv(SetNode(s, n, FirstStage(s.nodes[n], p)))
  {
    hide NodeOk, Quiet, ThievesOk, NetworkOk, RunsOk;
    FirstStageIsQuiet(s.nodes[n], p);
    FirstStageKeeps(s.nodes[n], p);
    QuietStep(s, n, FirstStage(s.nodes[n], p));
  }

  // ---------------------------------------------------------------- moving and settling

  lemma PushStep(s: State, n: nat, id: nat, shared: bool)
    requires Inv(s) && At(s, n, id, Entering(shared))
    ensures Inv(SetNode(s, n, Push(s.nodes[n], id)))
  {
    hide Inv, StolenOk, HistoryOk, EntryOk;
    EntryAt(s, n, id);
    if shared {
      EntryPortable(s.nodes[n].hist, s.nodes[n].nextId, id, s.nodes[n].ledger[id]);
    }
    MoveStep(s, n, id, if shared then InPool else InQueue);
  }

  lemma StartStep(s: State, n: nat, id: nat)
    requires Inv(s) && (At(s, n, id, InPool) || At(s, n, id, InQueue))
    ensures Inv(SetNode(s, n, MoveTo(s.nodes[n], id, Running)))
  {
    hide Inv;
    MoveStep(s, n, id, Running);
  }

  lemma PopStep(s: State, n: nat, id: nat)
    requires Inv(s) && At(s, n, id, InPool)
    ensures Inv(SetNode(s, n, MoveTo(s.nodes[n], id, InHand)))
  {
    hide Inv, StolenOk, HistoryOk, EntryOk;
    EntryAt(s, n, id);
    EntryPortable(s.nodes[n].hist, s.nodes[n].nextId, id, s.nodes[n].ledger[id]);
    MoveStep(s, n, id, InHand);
  }

  lemma CollectStep(s: State, n: nat, id: nat)
    requires Inv(s) && At(s, n, id, Outstanding)
    ensures Inv(SetNode(s, n, MoveTo(s.nodes[n], id, Collected)))
  {
    hide Inv, StolenOk, HistoryOk, EntryOk;
    EntryAt(s, n, id);
    EntryPortable(s.nodes[n].hist, s.nodes[n].nextId, id, s.nodes[n].ledger[id]);
    MoveStep(s, n, id, Collected);
  }

  lemma ExecutedIsQuiet(n: Node, id: nat)
    requires id in n.ledger
    ensures Quiet(n, Executed(n, id))
  {}

  lemma ExecutedStep(s: State, n: nat, id: nat)
    requires Inv(s) && At(s, n, id, Ran)
    ensures Inv(SetNode(s, n, Executed(s.nodes[n], id)))
  {
    hide NodeOk, Quiet, ThievesOk, NetworkOk, RunsOk;
    ExecutedIsQuiet(s.nodes[n], id);
    ExecutedKeeps(s.nodes[n], id);
    QuietStep(s, n, Executed(s.nodes[n], id));
  }

  lemma TwoEntriesNoNewStolen(l: Ledger, id: nat, e: Entry, id': nat, e': Entry)
    requires !e.work.Stolen? && !e'.work.Stolen?
    ensures NoNewStolen(l, l[id := e][id' := e'])
  {}

  lemma ReassignIsQuiet(n: Node, id: nat)
    requires Reassignable(n, id) && id < n.nextId
    ensures Quiet(n, Reassign(n, id))
  {
    hide Reassign, Pending, NoNewStolen;
    ReassignParts(n, id);
    TwoEntriesNoNewStolen(n.ledger, id, Blank(), n.nextId, Again(n, id));
  }

  lemma ReassignableId(n: Node, id: nat)
    requires NodeOk(n) && Reassignable(n, id)
    ensures id < n.nextId
  {
    assert EntryOk(n.hist, n.nextId, id, n.ledger[id]);
  }

  lemma ReassignStep(s: State, n: nat, id: nat)
    requires Inv(s) && n < |s.nodes| && Reassignable(s.nodes[n], id)
    ensures Inv(SetNode(s, n, Reassign(s.nodes[n], id)))
  {
    hide NodeOk, Quiet, ThievesOk, NetworkOk, RunsOk, Reassign;
    ReassignableId(s.nodes[n], id);
    ReassignIsQuiet(s.nodes[n], id);
    ReassignKeeps(s.nodes[n], id);
    QuietStep(s, n, Reassign(s.nodes[n], id));
  }

  lemma StageDoneIsQuiet(n: Node, p: StagePayload)
    requires n.nextId !in n.ledger && n.nextId !in n.hist.payloads
    ensures Quiet(n, OnStageDone(n, p))
  {
    hide EncodedStage;
  }

  lemma QuietTransitive(a: Node, b: Node, c: Node)
    requires Quiet(a, b) && Quiet(b, c)
    ensures Quiet(a, c)
  {}

  lemma ObserveIsQuiet(n: Node, id: nat)
    requires NodeOk(n) && id in n.ledger && n.ledger[id].place.Settling?
    ensures Quiet(n, Observe(n, id))
  {
    FreshIdUnused(n);
    var mid := MoveTo(n, id, Observed);
    MoveIsQuiet(n, id, Observed);
    hide NodeOk, SeenStage, Quiet, OnStageDone;
    var seen := SeenStage(n.ledger[id].work);
    if seen.Some? {
      StageDoneIsQuiet(mid, seen.value);
      QuietTransitive(n, mid, OnStageDone(mid, seen.value));
    }
  }

  lemma ObserveStep(s: State, n: nat, id: nat)
    requires Inv(s) && At(s, n, id, Settling)
    ensures Inv(SetNode(s, n, Observe(s.nodes[n], id)))
  {
    hide NodeOk, Quiet, ThievesOk, NetworkOk, RunsOk, Observe;
    ObserveIsQuiet(s.nodes[n], id);
    ObserveKeeps(s.nodes[n], id);
    QuietStep(s, n, Observe(s.nodes[n], id));
  }

  lemma FinishIsQuiet(n: Node, id: nat)
    requires id in n.ledger
    ensures Quiet(n, Finish(n, id))
  {}

  lemma FinishStep(s: State, n: nat, id: nat)
    requires Inv(s) && At(s, n, id, Observed)
    ensures Inv(SetNode(s, n, Finish(s.nodes[n], id)))
  {
    hide NodeOk, Quiet, ThievesOk, NetworkOk, RunsOk;
    FinishIsQuiet(s.nodes[n], id);
    FinishKeeps(s.nodes[n], id);
    QuietStep(s, n, Finish(s.nodes[n], id));
  }

  // ---------------------------------------------------------------- handing out and getting back

  lemma NodeAt(s: State, n: nat)
    requires n < |s.nodes|
    requires Inv(s)
    ensures NodeOk(s.nodes[n])
  {
    hide NodeOk, ThievesOk, NetworkOk, RunsOk;
  }

  lemma NodesUpdate(s: State, s': State, n: nat, node: Node)
    requires NodesOk(s) && n < |s.nodes| && NodeOk(node) && s'.nodes == s.nodes[n := node]
    ensures NodesOk(s')
  {
    hide NodeOk;
  }

  /** The runs counted on each node and on thieves are as before. */
  lemma RunsSame(s: State, s': State)
    requires RunsOk(s) && s'.runs == s.runs && s'.stolenRan == s.stolenRan && |s'.nodes| == |s.nodes|
    requires forall i :: 0 <= i < |s.nodes| ==>
               s'.nodes[i].hist.ran == s.nodes[i].hist.ran && s'.nodes[i].hist.reran == s.nodes[i].hist.reran
    ensures RunsOk(s')
  {
    forall k
      ensures s'.runs[k] == RunsOf(s', k)
    {
      assert s.runs[k] == RunsOf(s, k);
    }
  }

  /** Handed-out ids and submitted payloads are only added to. */
  ghost predicate Extends(s: State, s': State) {
    && |s'.nodes| == |s.nodes|
    && (forall k :: HandedOut(s, k) ==> HandedOut(s', k))
    && (forall k, p :: PayloadIs(s, k, p) ==> PayloadIs(s', k, p))
  }

  lemma SetNodeExtends(s: State, n: nat, node: Node, s': State)
    requires n < |s.nodes| && s'.nodes == s.nodes[n := node]
    requires s.nodes[n].hist.handed <= node.hist.handed && node.hist.payloads == s.nodes[n].hist.payloads
    ensures Extends(s, s')
  {}

  lemma TrackIsQuiet(n: Node, id: nat)
    requires id in n.ledger && n.ledger[id].place.InHand?
    ensures Quiet(n, Track(n, id))
  {}

  lemma TrackStep(s: State, n: nat, id: nat, thief: nat)
    requires Inv(s) && At(s, n, id, InHand) && s.nodes[n].ledger[id].work.Portable?
    ensures Inv(SetNode(s, n, Track(s.nodes[n], id)).(
                  offers := s.offers[Key(n, id) := Offer(thief, s.nodes[n].ledger[id].work.payload)]))
  {
    hide Inv, NodeOk, Quiet, ThievesOk, NetworkOk, RunsOk, Track, EntryOk, StolenOk, HistoryOk, HandedOut, PayloadIs;
    var mid := SetNode(s, n, Track(s.nodes[n], id));
    var payload := s.nodes[n].ledger[id].work.payload;
    NodeAt(s, n);
    TrackIsQuiet(s.nodes[n], id);
    TrackKeeps(s.nodes[n], id);
    InHandIsNew(s, n, id);
    QuietStep(s, n, Track(s.nodes[n], id));
    NowHandedOut(s, n, id);
    AddOffer(mid, Key(n, id), Offer(thief, payload));
  }

  /** What a serving thread holds was never handed out before. */
  lemma InHandIsNew(s: State, n: nat, id: nat)
    requires Inv(s) && At(s, n, id, InHand) && s.nodes[n].ledger[id].work.Portable?
    ensures Key(n, id) !in s.accepted && PayloadIs(s, Key(n, id), s.nodes[n].ledger[id].work.payload)
  {
    EntryAt(s, n, id);
    hide NodesOk, NodeOk, ThievesOk, RunsOk, StolenOk, HistoryOk, OffersOk, ResultsOk;
    assert !HandedOut(s, Key(n, id));
  }

  lemma NowHandedOut(s: State, n: nat, id: nat)
    requires At(s, n, id, InHand) && s.nodes[n].ledger[id].work.Portable?
    requires PayloadIs(s, Key(n, id), s.nodes[n].ledger[id].work.payload)
    ensures var mid := SetNode(s, n, Track(s.nodes[n], id));
            && HandedOut(mid, Key(n, id))
            && PayloadIs(mid, Key(n, id), s.nodes[n].ledger[id].work.payload)
  {}

  lemma AddOffer(s: State, k: Key, offer: Offer)
    requires Inv(s) && HandedOut(s, k) && k !in s.accepted && PayloadIs(s, k, offer.payload)
    ensures Inv(s.(offers := s.offers[k := offer]))
  {
    hide NodeOk;
    var s' := s.(offers := s.offers[k := offer]);
    OffersFrame(s, s');
    assert forall x :: RunsOf(s', x) == RunsOf(s, x);
    hide HandedOut, PayloadIs, RunsOf, StolenOk;
    assert OffersOk(s');
  }

  /** Changing only the offers changes nothing else the invariant looks at. */
  lemma OffersFrame(s: State, s': State)
    requires ThievesOk(s) && s' == s.(offers := s'.offers)
    ensures ThievesOk(s') && (forall k :: HandedOut(s', k) <==> HandedOut(s, k))
    ensures forall k, p :: PayloadIs(s', k, p) <==> PayloadIs(s, k, p)
  {
    forall m, id | 0 <= m < |s'.nodes| && id in s'.nodes[m].ledger
      ensures StolenOk(s', m, id, s'.nodes[m].ledger[id])
    {
      assert StolenOk(s, m, id, s.nodes[m].ledger[id]);
    }
  }

  lemma LoseStep(s: State, k: Key)
    requires Inv(s)
    ensures Inv(s.(offers := s.offers - {k}))
  {
    hide NodeOk, HandedOut, PayloadIs, RunsOk, ThievesOk, ResultsOk;
    var s' := s.(offers := s.offers - {k});
    OffersFrame(s, s');
    RunsSame(s, s');
    SameResults(s, s');
  }

  lemma SameResults(s: State, s': State)
    requires ResultsOk(s) && s' == s.(offers := s'.offers)
    ensures ResultsOk(s')
  {}

  /** What a node's books look like to the others after it accepts a task. */
  lemma AcceptParts(n: Node, k: Key, payload: Bytes)
    ensures var n' := Accept(n, k, payload);
            && n'.hist == n.hist && n'.counts.stolenIn == n.counts.stolenIn + 1
            && n'.ledger == n.ledger[n.nextId := Entry(Entering(false), Stolen(k, payload))]
  {}

  ghost function Accepted(s: State, k: Key): State
    requires k in s.offers && s.offers[k].thief < |s.nodes|
  {
    var t := s.offers[k].thief;
    SetNode(s, t, Accept(s.nodes[t], k, s.offers[k].payload)).(
      offers := s.offers - {k}, accepted := s.accepted[k := Key(t, s.nodes[t].nextId)])
  }

  lemma AcceptExtends(s: State, k: Key)
    requires k in s.offers && s.offers[k].thief < |s.nodes|
    ensures Extends(s, Accepted(s, k))
  {
    var t := s.offers[k].thief;
    AcceptParts(s.nodes[t], k, s.offers[k].payload);
    hide Accept;
    SetNodeExtends(s, t, Accepted(s, k).nodes[t], Accepted(s, k));
  }

  lemma NewOfferUnseen(s: State, k: Key)
    requires NetworkOk(s) && k in s.offers
    ensures k !in s.accepted && k !in s.stolenRan && PayloadIs(s, k, s.offers[k].payload) && HandedOut(s, k)
  {
    hide PayloadIs, HandedOut;
  }

  lemma AcceptThieves(s: State, k: Key)
    requires ThievesOk(s) && k in s.offers && s.offers[k].thief < |s.nodes|
    requires k !in s.accepted && k !in s.stolenRan && PayloadIs(s, k, s.offers[k].payload)
    ensures ThievesOk(Accepted(s, k))
  {
    var t, s' := s.offers[k].thief, Accepted(s, k);
    AcceptExtends(s, k);
    AcceptParts(s.nodes[t], k, s.offers[k].payload);
    hide Accept, PayloadIs, HandedOut;
    forall m, id | 0 <= m < |s'.nodes| && id in s'.nodes[m].ledger
      ensures StolenOk(s', m, id, s'.nodes[m].ledger[id])
    {
      if m != t || id != s.nodes[t].nextId {
        assert StolenOk(s, m, id, s.nodes[m].ledger[id]);
      }
    }
  }

  lemma AcceptNetwork(s: State, k: Key)
    requires NetworkOk(s) && k in s.offers && s.offers[k].thief < |s.nodes|
    ensures NetworkOk(Accepted(s, k))
  {
    var t, s' := s.offers[k].thief, Accepted(s, k);
    AcceptParts(s.nodes[t], k, s.offers[k].payload);
    AcceptOffers(s, k);
    AcceptResults(s, k);
    NewOfferUnseen(s, k);
    hide Accept, OffersOk, AcceptedOk, ResultsOk, PayloadIs, HandedOut;
    TotalUpdate(s.nodes, t, s'.nodes[t], StolenIn);
  }

  lemma AcceptOffers(s: State, k: Key)
    requires NetworkOk(s) && k in s.offers && s.offers[k].thief < |s.nodes|
    ensures OffersOk(Accepted(s, k)) && AcceptedOk(Accepted(s, k))
  {
    AcceptExtends(s, k);
    NewOfferUnseen(s, k);
    hide Accept, PayloadIs, HandedOut, ResultsOk, Total;
  }

  lemma AcceptResults(s: State, k: Key)
    requires ResultsOk(s) && k in s.offers && s.offers[k].thief < |s.nodes|
    ensures ResultsOk(Accepted(s, k))
  {
    var t := s.offers[k].thief;
    AcceptParts(s.nodes[t], k, s.offers[k].payload);
    hide Accept;
  }

  lemma AcceptStep(s: State, k: Key)
    requires k in s.offers && s.offers[k].thief < |s.nodes|
    requires Inv(s)
    ensures Inv(Accepted(s, k))
  {
    hide NodeOk, NodesOk, ThievesOk, NetworkOk, RunsOk, Accept;
    var t, s' := s.offers[k].thief, Accepted(s, k);
    NodeAt(s, t);
    AcceptKeeps(s.nodes[t], k, s.offers[k].payload);
    AcceptParts(s.nodes[t], k, s.offers[k].payload);
    NodesUpdate(s, s', t, Accept(s.nodes[t], k, s.offers[k].payload));
    NewOfferUnseen(s, k);
    AcceptThieves(s, k);
    AcceptNetwork(s, k);
    RunsSame(s, s');
  }

  lemma ResolveStep(s: State, k: Key)
    requires k in s.results && k.node < |s.nodes|
    requires Inv(s)
    ensures Inv(SetNode(s, k.node, Resolve(s.nodes[k.node], k.id)))
  {
    hide NodeOk, NodesOk, ThievesOk, NetworkOk, RunsOk, Resolve, NoNewStolen;
    var n, n' := s.nodes[k.node], Resolve(s.nodes[k.node], k.id);
    var s' := SetNode(s, k.node, n');
    NodeAt(s, k.node);
    if !(k.id in n.ledger && n.ledger[k.id].place.Outstanding?) {
      UnknownResult(n, k.id);
      assert s' == s;
      return;
    }
    ResolveKeeps(n, k.id);
    NodesUpdate(s, s', k.node, n');
    ResolveParts(n, k.id);
    ResolveThieves(s, k.node, n');
    ResolveNetwork(s, k.node, k.id, n');
    RunsSame(s, s');
  }

  lemma UnknownResult(n: Node, id: nat)
    requires !(id in n.ledger && n.ledger[id].place.Outstanding?)
    ensures Resolve(n, id) == n
  {}

  lemma ResolveParts(n: Node, id: nat)
    ensures var n' := Resolve(n, id);
            && n'.hist == n.hist.(resolved := n'.hist.resolved)
            && n.hist.resolved <= n'.hist.resolved <= n.hist.resolved + {id}
            && n'.counts.stolenIn == n.counts.stolenIn && NoNewStolen(n.ledger, n'.ledger)
  {}

  lemma ResolveThieves(s: State, n: nat, node: Node)
    requires ThievesOk(s) && n < |s.nodes| && NoNewStolen(s.nodes[n].ledger, node.ledger)
    requires node.hist.payloads == s.nodes[n].hist.payloads
    ensures ThievesOk(SetNode(s, n, node))
  {
    var s' := SetNode(s, n, node);
    forall m, id | 0 <= m < |s'.nodes| && id in s'.nodes[m].ledger
      ensures StolenOk(s', m, id, s'.nodes[m].ledger[id])
    {
      if s'.nodes[m].ledger[id].work.Stolen? {
        assert StolenOk(s, m, id, s.nodes[m].ledger[id]);
      }
    }
  }

  lemma ResolveNetwork(s: State, n: nat, id: nat, node: Node)
    requires NetworkOk(s) && n < |s.nodes| && Key(n, id) in s.results
    requires node.hist == s.nodes[n].hist.(resolved := node.hist.resolved)
    requires node.hist.resolved <= s.nodes[n].hist.resolved + {id}
    requires node.counts.stolenIn == s.nodes[n].counts.stolenIn
    ensures NetworkOk(SetNode(s, n, node))
  {
    var s' := SetNode(s, n, node);
    SetNodeExtends(s, n, node, s');
    hide PayloadIs, HandedOut;
    assert ResultsOk(s');
    TotalUpdate(s.nodes, n, node, StolenIn);
    hide ResultsOk;
  }

  // ---------------------------------------------------------------- running

  ghost function AfterRun(s: State, n: nat, id: nat, report: bool): State
    requires n < |s.nodes| && id in s.nodes[n].ledger
  {
    var work := s.nodes[n].ledger[id].work;
    SetNode(s, n, RunBody(s.nodes[n], id)).(
      runs := s.runs + multiset{RootOf(n, id, work)},
      stolenRan := if work.Stolen? then s.stolenRan + {work.origin} else s.stolenRan,
      results := if work.Stolen? && report then s.results + {work.origin} else s.results)
  }

  lemma RunBodyParts(n: Node, id: nat)
    requires id in n.ledger
    ensures var n' := RunBody(n, id);
            && n'.hist == n.hist.(ran := n'.hist.ran, reran := n'.hist.reran)
            && n'.counts == n.counts && n'.ledger == n.ledger[id := n.ledger[id].(place := Ran)]
  {}

  lemma RunExtends(s: State, n: nat, id: nat, report: bool)
    requires n < |s.nodes| && id in s.nodes[n].ledger
    ensures Extends(s, AfterRun(s, n, id, report))
  {
    RunBodyParts(s.nodes[n], id);
    hide RunBody;
    SetNodeExtends(s, n, AfterRun(s, n, id, report).nodes[n], AfterRun(s, n, id, report));
  }

  lemma RunThieves(s: State, n: nat, id: nat, report: bool)
    requires ThievesOk(s) && n < |s.nodes| && id in s.nodes[n].ledger
    ensures ThievesOk(AfterRun(s, n, id, report))
  {
    var s' := AfterRun(s, n, id, report);
    RunExtends(s, n, id, report);
    RunBodyParts(s.nodes[n], id);
    hide RunBody, PayloadIs, HandedOut;
    assert StolenOk(s, n, id, s.nodes[n].ledger[id]);
    forall m, i | 0 <= m < |s'.nodes| && i in s'.nodes[m].ledger
      ensures StolenOk(s', m, i, s'.nodes[m].ledger[i])
    {
      assert StolenOk(s, m, i, s.nodes[m].ledger[i]);
    }
  }

  lemma RunResults(s: State, n: nat, id: nat, report: bool)
    requires ResultsOk(s) && n < |s.nodes| && id in s.nodes[n].ledger
    requires s.nodes[n].ledger[id].work.Stolen? ==> s.nodes[n].ledger[id].work.origin in s.accepted
    ensures ResultsOk(AfterRun(s, n, id, report))
  {
    RunBodyParts(s.nodes[n], id);
    hide RunBody;
  }

  lemma RunNetwork(s: State, n: nat, id: nat, report: bool)
    requires NetworkOk(s) && n < |s.nodes| && id in s.nodes[n].ledger && StolenOk(s, n, id, s.nodes[n].ledger[id])
    ensures NetworkOk(AfterRun(s, n, id, report))
  {
    var s' := AfterRun(s, n, id, report);
    RunExtends(s, n, id, report);
    RunBodyParts(s.nodes[n], id);
    hide RunBody, PayloadIs, HandedOut;
    RunResults(s, n, id, report);
    TotalUpdate(s.nodes, n, s'.nodes[n], StolenIn);
    assert OffersOk(s') && AcceptedOk(s');
    hide OffersOk, AcceptedOk, ResultsOk;
  }

  /** Each run of a handler is a run that had not happened before. */
  lemma RunCounts(s: State, n: nat, id: nat, report: bool)
    requires RunsOk(s) && At(s, n, id, Running)
    requires EntryOk(s.nodes[n].hist, s.nodes[n].nextId, id, s.nodes[n].ledger[id])
    requires StolenOk(s, n, id, s.nodes[n].ledger[id])
    ensures RunsOk(AfterRun(s, n, id, report))
  {
    var s' := AfterRun(s, n, id, report);
    var root := RootOf(n, id, s.nodes[n].ledger[id].work);
    forall k
      ensures s'.runs[k] == RunsOf(s', k)
    {
      assert s.runs[k] == RunsOf(s, k);
      assert s'.runs[k] == s.runs[k] + if k == root then 1 else 0;
    }
  }

  lemma RunStep(s: State, n: nat, id: nat, report: bool)
    requires Inv(s) && At(s, n, id, Running)
    ensures Inv(AfterRun(s, n, id, report))
  {
    EntryAt(s, n, id);
    hide NodeOk, EntryOk, StolenOk, HistoryOk;
    RunBodyKeeps(s.nodes[n], id);
    RunThieves(s, n, id, report);
    RunNetwork(s, n, id, report);
    RunCounts(s, n, id, report);
    hide ThievesOk, NetworkOk, RunsOk, RunBody;
  }

  // ---------------------------------------------------------------- every step

  lemma StepInv(s: State, a: Action)
    requires Inv(s)
    ensures Inv(Next(s, a))
  {
    hide Inv, SubmitApp, Cluster.Open, FirstStage, Push, MoveTo, Track, Accept, RunBody, Executed, Resolve, Reassign,
         Observe, Finish, SeenStage, RootOf;
    if Enabled(s, a) {
      match a
      case SubmitPortable(n, payload) => SubmitStep(s, n, Portable(payload));
      case SubmitClosure(n) => SubmitStep(s, n, Closure);
      case PushTask(n, id) => PushStep(s, n, id, s.nodes[n].ledger[id].place.shared);
      case OpenRequest(n) => OpenStep(s, n);
      case SubmitFirstStage(n, p) => FirstStageStep(s, n, p);
      case StartTask(n, id) => StartStep(s, n, id);
      case PopForThief(n, id) => PopStep(s, n, id);
      case TrackAndSend(n, id, thief) => TrackStep(s, n, id, thief);
      case DeliverOffer(key) => AcceptStep(s, key);
      case LoseOffer(key) => LoseStep(s, key);
      case RunTask(n, id, report) => RunStep(s, n, id, report);
      case CountExecuted(n, id) => ExecutedStep(s, n, id);
      case DeliverResult(key) => ResolveStep(s, key);
      case CollectTask(n, id) => CollectStep(s, n, id);
      case ReassignTask(n, id) => ReassignStep(s, n, id);
      case ObserveTask(n, id) => ObserveStep(s, n, id);
      case FinishTask(n, id) => FinishStep(s, n, id);
    }
  }

  lemma EmptyChain(j: Jobs)
    requires j.carrier == map[]
    ensures ChainOk(j, map[])
  {
    hide Pending;
  }

  lemma EmptyBooks(n: Node)
    requires n == FRESH_NODE
    ensures BooksOk(n)
  {
    assert OpenIds(n.ledger) == {};
  }

  lemma EmptyJobs(j: Jobs)
    requires j == FRESH_NODE.jobs
    ensures JobsOk(j) && DoneCounted(j)
  {
    assert DoneRequests(j.done) == {};
  }

  lemma FreshNodeOk()
    ensures NodeOk(FRESH_NODE)
  {
    hide ChainOk, BooksOk, JobsOk, DoneCounted;
    EmptyBooks(FRESH_NODE);
    EmptyJobs(FRESH_NODE.jobs);
    EmptyChain(FRESH_NODE.jobs);
  }

  lemma InitInv(s: State)
    requires Init(s)
    ensures Inv(s)
  {
    FreshNodeOk();
    hide NodeOk;
    TotalFresh(s.nodes);
    assert forall k :: RunsOf(s, k) == 0;
    hide RunsOf;
  }

  lemma {:induction false} TotalFresh(nodes: seq<Node>)
    requires forall i :: 0 <= i < |nodes| ==> nodes[i] == FRESH_NODE
    ensures Total(nodes, StolenIn) == 0
  {
    if nodes != [] {
      TotalFresh(nodes[..|nodes| - 1]);
    }
  }

  lemma {:induction false} RunInv(s: State, steps: seq<Action>)
    requires Init(s)
    ensures Inv(Run(s, steps))
    decreases |steps|
  {
    hide Inv, Next;
    if steps == [] {
      InitInv(s);
    } else {
      var n := |steps| - 1;
      RunInv(s, steps[..n]);
      StepInv(Run(s, steps[..n]), steps[n]);
    }
  }
}
