/** What every operation of one node keeps. */
module ClusterNode {
  import opened Tasks
  import opened Stages
  import opened Cluster

  predicate Open(p: Place) {
    !p.Settling? && !p.Observed?
  }

  /** Handed to a thief and neither resolved nor re-run yet. */
  predicate Owed(p: Place) {
    p.Outstanding? || p.Collected?
  }

  predicate BeforeRun(p: Place) {
    !p.Ran? && !p.Settling? && !p.Observed?
  }

  /** Places that only a task from the portable pools can be in. */
  predicate OnlyPortable(p: Place) {
    p.InPool? || p.InHand? || p.Outstanding? || p.Collected? || (p.Entering? && p.shared)
  }

  function OpenIds(l: Ledger): set<nat> {
    set id | id in l && Open(l[id].place)
  }

  // ---------------------------------------------------------------- the invariants

  /** One entry of the ledger, seen from the node's history. */
  ghost predicate EntryOk(h: History, nextId: nat, id: nat, e: Entry) {
    && 0 < id < nextId
    && (OnlyPortable(e.place) ==> e.work.Portable?)
    && (e.work.Settled? ==> !Open(e.place))
    && (Owed(e.place) <==> id in h.handed && id !in h.resolved && id !in h.rerunAs)
    && (id in h.handed ==> Owed(e.place) || !Open(e.place))
    && (BeforeRun(e.place) && (e.work.Portable? || e.work.Closure?) ==> id !in h.ran)
    && (e.work.Portable? ==> id in h.payloads && h.payloads[id] == e.work.payload)
    && (e.work.Rerun? ==>
          && e.work.root in h.rerunAs && h.rerunAs[e.work.root] == id
          && (BeforeRun(e.place) ==> e.work.root !in h.reran)
          && e.work.root in h.payloads && h.payloads[e.work.root] == e.work.payload)
  }

  ghost predicate LedgerOk(h: History, nextId: nat, l: Ledger) {
    forall id :: id in l ==> EntryOk(h, nextId, id, l[id])
  }

  ghost predicate StillOwed(l: Ledger, id: nat) {
    id in l && Owed(l[id].place)
  }

  /** Every id ever handed out left the outstanding table by exactly one of resolve and reap, or is still owed. */
  ghost predicate HistoryOk(h: History, nextId: nat, l: Ledger) {
    && nextId > 0
    && (forall id :: id in h.handed ==> id < nextId && id !in h.ran && id in h.payloads)
    && (forall id :: id in h.handed ==> id in h.resolved || id in h.rerunAs || StillOwed(l, id))
    && h.resolved <= h.handed && h.rerunAs.Keys <= h.handed
    && h.resolved !! h.rerunAs.Keys
    && h.reran <= h.rerunAs.Keys
    && (forall id :: id in h.ran ==> id < nextId)
    && (forall id :: id in h.payloads ==> id < nextId)
    && (forall id :: id in h.closures ==> id < nextId && id !in h.payloads && id !in h.handed)
  }

  ghost predicate AwaitsRun(l: Ledger, id: nat) {
    id in l && BeforeRun(l[id].place) && (l[id].work.Portable? || l[id].work.Closure?)
  }

  ghost predicate AwaitsRerun(l: Ledger, id: nat, root: nat) {
    id in l && BeforeRun(l[id].place) && l[id].work.Rerun? && l[id].work.root == root
  }

  /** No task is forgotten: what was submitted has run, was handed out or is still to run, and what was
      reassigned has run again or is still to. */
  ghost predicate RunsAccounted(h: History, l: Ledger) {
    && (forall id :: id in h.payloads || id in h.closures ==> id in h.ran || id in h.handed || AwaitsRun(l, id))
    && (forall root :: root in h.rerunAs ==> root in h.reran || AwaitsRerun(l, h.rerunAs[root], root))
  }

  ghost predicate CountsOk(c: Counts, h: History, nextId: nat, l: Ledger) {
    && c.submitted == nextId - 1
    && c.completed + |l| == c.submitted
    && c.submitted == c.apps + c.stolenIn + c.reassigned
    && c.submitted == c.executed + c.resolved + c.reassigned + |OpenIds(l)|
    && |h.handed| == c.stolenOut
    && |h.resolved| == c.resolved
    && |h.rerunAs.Keys| == c.reassigned
  }

  /** The stage an entry will still report to the observer. */
  ghost function Pending(e: Entry): Option<StagePayload> {
    if e.place.Observed? then None else SeenStage(e.work)
  }

  /** Each unfinished request has one entry that carries it, at the stage the request has reached. */
  ghost predicate ChainOk(j: Jobs, l: Ledger) {
    && (forall id :: id in l && Pending(l[id]).Some? && Pending(l[id]).value.requestId !in j.spoiled ==>
          var p := Pending(l[id]).value;
          p.requestId in j.carrier && j.carrier[p.requestId] == id
          && p.requestId in j.progress && j.progress[p.requestId] == p.stage && p.stage <= POSTPROCESS)
    && (forall r :: r in j.carrier && r !in j.spoiled ==>
          j.carrier[r] in l && Pending(l[j.carrier[r]]).Some? && Pending(l[j.carrier[r]]).value.requestId == r)
  }

  ghost predicate RequestOk(j: Jobs, r: nat) {
    && (r in j.progress <==> r in j.done)
    && (r in j.opening ==> r in j.done && !j.done[r] && j.progress[r] == 0)
    && (r in j.carrier <==> r in j.done && !j.done[r] && r !in j.opening)
    && (r in j.done ==> (j.done[r] <==> j.progress[r] == 4) && j.progress[r] <= 4)
  }

  /** The log of advances holds every stage the request has passed, each exactly once. */
  ghost predicate AdvancesOk(j: Jobs, r: nat) {
    && (forall k {:trigger Advance(r, k)} :: Advance(r, k) in j.advances <==> r in j.progress && k < j.progress[r])
    && (forall a, b :: 0 <= a < b < |j.advances| && j.advances[a].request == r ==> j.advances[a] != j.advances[b])
  }

  ghost predicate JobsOk(j: Jobs) {
    forall r: nat :: r !in j.spoiled ==> RequestOk(j, r) && AdvancesOk(j, r)
  }

  function DoneRequests(done: map<nat, bool>): set<nat> {
    set r | r in done && done[r]
  }

  ghost predicate BooksOk(n: Node) {
    && LedgerOk(n.hist, n.nextId, n.ledger)
    && HistoryOk(n.hist, n.nextId, n.ledger)
    && CountsOk(n.counts, n.hist, n.nextId, n.ledger)
  }

  /** JobManager's count is the number of requests that are Done, whatever the observer was shown. */
  ghost predicate DoneCounted(j: Jobs) {
    j.completed == |DoneRequests(j.done)|
  }

  /** The chain of every request that nothing has spoiled. */
  ghost predicate PipelineOk(j: Jobs, l: Ledger) {
    ChainOk(j, l) && JobsOk(j)
  }

  ghost predicate NodeOk(n: Node) {
    BooksOk(n) && RunsAccounted(n.hist, n.ledger) && DoneCounted(n.jobs) && PipelineOk(n.jobs, n.ledger)
  }

  // ---------------------------------------------------------------- sizes

  lemma OpenAfterAdd(l: Ledger, id: nat, e: Entry)
    requires id !in l
    ensures |l[id := e]| == |l| + 1
    ensures |OpenIds(l[id := e])| == |OpenIds(l)| + if Open(e.place) then 1 else 0
  {
    var l' := l[id := e];
    assert OpenIds(l') == if Open(e.place) then OpenIds(l) + {id} else OpenIds(l);
  }

  lemma OpenAfterUpdate(l: Ledger, id: nat, e: Entry)
    requires id in l
    ensures |l[id := e]| == |l|
    ensures |OpenIds(l[id := e])|
         == |OpenIds(l)| - (if Open(l[id].place) then 1 else 0) + (if Open(e.place) then 1 else 0)
  {
    var l' := l[id := e];
    var rest := OpenIds(l) - {id};
    assert l'.Keys == l.Keys;
    assert OpenIds(l) == if Open(l[id].place) then rest + {id} else rest;
    assert OpenIds(l') == if Open(e.place) then rest + {id} else rest;
  }

  lemma OpenAfterRemove(l: Ledger, id: nat)
    requires id in l && !Open(l[id].place)
    ensures |l - {id}| == |l| - 1
    ensures |OpenIds(l - {id})| == |OpenIds(l)|
  {
    var l' := l - {id};
    assert l.Keys == l'.Keys + {id};
    assert OpenIds(l') == OpenIds(l);
  }

  // ---------------------------------------------------------------- moves

  /** A move between places that the history does not distinguish. */
  ghost predicate PlainMove(n: Node, id: nat, place: Place) {
    && id in n.ledger
    && (Owed(place) <==> Owed(n.ledger[id].place)) && (Open(place) <==> Open(n.ledger[id].place))
    && (BeforeRun(place) <==> BeforeRun(n.ledger[id].place))
    && (OnlyPortable(place) ==> n.ledger[id].work.Portable?)
    && (place.Observed? <==> n.ledger[id].place.Observed?)
  }

  /** Changing one entry keeps the ledger if the entry is right and the history still fits the others. */
  lemma LedgerUpdate(h: History, h': History, nextId: nat, nextId': nat, l: Ledger, id: nat, e: Entry)
    requires LedgerOk(h, nextId, l) && nextId <= nextId' && EntryOk(h', nextId', id, e)
    requires forall i :: i in l && i != id && EntryOk(h, nextId, i, l[i]) ==> EntryOk(h', nextId', i, l[i])
    ensures LedgerOk(h', nextId', l[id := e])
  {
    hide EntryOk;
  }

  lemma HistorySame(h: History, nextId: nat, nextId': nat, l: Ledger, l': Ledger)
    requires HistoryOk(h, nextId, l) && nextId <= nextId'
    requires forall i :: StillOwed(l, i) ==> StillOwed(l', i) || i in h.resolved || i in h.rerunAs
    ensures HistoryOk(h, nextId', l')
  {
    hide StillOwed;
  }

  lemma ChainUpdate(j: Jobs, l: Ledger, id: nat, e: Entry)
    requires ChainOk(j, l) && Pending(e) == (if id in l then Pending(l[id]) else None)
    ensures ChainOk(j, l[id := e])
  {
    hide Pending;
  }

  /** Changing one entry forgets nothing if what the entry stood for has run, was handed out, or still stands. */
  lemma RunsUpdate(h: History, h': History, l: Ledger, id: nat, e: Entry)
    requires RunsAccounted(h, l)
    requires h'.payloads.Keys <= h.payloads.Keys + {id} && h'.closures <= h.closures + {id}
    requires h.ran <= h'.ran && h.handed <= h'.handed && h.reran <= h'.reran && h'.rerunAs == h.rerunAs
    requires id in h'.ran || id in h'.handed || AwaitsRun(l[id := e], id) || (id !in h'.payloads && id !in h'.closures)
    requires forall root :: root in h.rerunAs && AwaitsRerun(l, id, root) ==>
               root in h'.reran || AwaitsRerun(l[id := e], id, root)
    ensures RunsAccounted(h', l[id := e])
  {
    var l' := l[id := e];
    forall i | i in h'.payloads || i in h'.closures
      ensures i in h'.ran || i in h'.handed || AwaitsRun(l', i)
    {
      if i != id {
        assert i in h.payloads || i in h.closures;
      }
    }
    forall root | root in h'.rerunAs
      ensures root in h'.reran || AwaitsRerun(l', h'.rerunAs[root], root)
    {
      assert root in h.rerunAs;
    }
  }

  lemma RunsMove(h: History, l: Ledger, id: nat, place: Place)
    requires RunsAccounted(h, l) && id in l && (BeforeRun(place) <==> BeforeRun(l[id].place))
    ensures RunsAccounted(h, l[id := l[id].(place := place)])
  {
    RunsUpdate(h, h, l, id, l[id].(place := place));
  }

  lemma RunsIssue(n: Node, work: Work, shared: bool)
    requires RunsAccounted(n.hist, n.ledger) && n.nextId !in n.ledger
    requires work.Portable? || work.Closure? || work.Stolen?
    requires n.nextId !in n.hist.payloads && n.nextId !in n.hist.closures
    ensures RunsAccounted(Issue(n, work, shared).hist, Issue(n, work, shared).ledger)
  {
    RunsUpdate(n.hist, Issue(n, work, shared).hist, n.ledger, n.nextId, Entry(Entering(shared), work));
  }

  lemma RunsIssueApp(n: Node, work: Work)
    requires RunsAccounted(n.hist, n.ledger) && BooksOk(n) && (work.Portable? || work.Closure?)
    ensures RunsAccounted(IssueApp(n, work).hist, IssueApp(n, work).ledger)
  {
    FreshId(n);
    hide BooksOk, RunsAccounted;
    RunsIssue(n, work, work.Portable?);
  }

  lemma FreshId(n: Node)
    requires BooksOk(n)
    ensures n.nextId !in n.ledger && n.nextId !in n.hist.payloads && n.nextId !in n.hist.closures
  {
    hide OpenIds, CountsOk;
  }

  lemma RunsTrack(n: Node, id: nat)
    requires RunsAccounted(n.hist, n.ledger) && id in n.ledger && n.ledger[id].place.InHand?
    ensures RunsAccounted(Track(n, id).hist, Track(n, id).ledger)
  {
    RunsUpdate(n.hist, Track(n, id).hist, n.ledger, id, n.ledger[id].(place := Outstanding));
  }

  lemma RunsBody(n: Node, id: nat)
    requires RunsAccounted(n.hist, n.ledger) && id in n.ledger && n.ledger[id].place.Running?
    requires EntryOk(n.hist, n.nextId, id, n.ledger[id])
    ensures RunsAccounted(RunBody(n, id).hist, RunBody(n, id).ledger)
  {
    var h' := RunBody(n, id).hist;
    forall root | root in n.hist.rerunAs && AwaitsRerun(n.ledger, id, root)
      ensures root in h'.reran
    {}
    RunsUpdateBody(n, id);
  }

  lemma RunsUpdateBody(n: Node, id: nat)
    requires RunsAccounted(n.hist, n.ledger) && id in n.ledger && n.ledger[id].place.Running?
    requires EntryOk(n.hist, n.nextId, id, n.ledger[id])
    ensures RunsAccounted(RunBody(n, id).hist, RunBody(n, id).ledger)
  {
    var h', l' := RunBody(n, id).hist, RunBody(n, id).ledger;
    hide EntryOk;
    forall i | i in h'.payloads || i in h'.closures
      ensures i in h'.ran || i in h'.handed || AwaitsRun(l', i)
    {}
    forall root | root in h'.rerunAs
      ensures root in h'.reran || AwaitsRerun(l', h'.rerunAs[root], root)
    {}
  }

  lemma RunsSettle(n: Node, id: nat, h: History, e: Entry)
    requires RunsAccounted(h, n.ledger) && id in n.ledger && id in h.handed && n.ledger[id].work.Portable?
    ensures RunsAccounted(h, n.ledger[id := e])
  {
    RunsUpdate(h, h, n.ledger, id, e);
  }

  lemma RunsReassign(n: Node, id: nat)
    requires RunsAccounted(n.hist, n.ledger) && Reassignable(n, id) && id in n.hist.handed
    requires n.nextId !in n.ledger
    ensures RunsAccounted(n.hist.(rerunAs := n.hist.rerunAs[id := n.nextId]),
                          n.ledger[id := Blank()][n.nextId := Again(n, id)])
  {
    var h', l' := n.hist.(rerunAs := n.hist.rerunAs[id := n.nextId]), n.ledger[id := Blank()][n.nextId := Again(n, id)];
    forall i | i in h'.payloads || i in h'.closures
      ensures i in h'.ran || i in h'.handed || AwaitsRun(l', i)
    {
      assert i in n.hist.payloads || i in n.hist.closures;
    }
    forall root | root in h'.rerunAs
      ensures root in h'.reran || AwaitsRerun(l', h'.rerunAs[root], root)
    {
      if root != id {
        assert root in n.hist.rerunAs;
      }
    }
  }

  lemma RunsFinish(h: History, l: Ledger, id: nat)
    requires RunsAccounted(h, l) && id in l && !BeforeRun(l[id].place)
    ensures RunsAccounted(h, l - {id})
  {
    var l' := l - {id};
    forall i | i in h.payloads || i in h.closures
      ensures i in h.ran || i in h.handed || AwaitsRun(l', i)
    {}
    forall root | root in h.rerunAs
      ensures root in h.reran || AwaitsRerun(l', h.rerunAs[root], root)
    {}
  }

  lemma PipelineUpdate(j: Jobs, l: Ledger, id: nat, e: Entry)
    requires PipelineOk(j, l) && Pending(e) == (if id in l then Pending(l[id]) else None)
    ensures PipelineOk(j, l[id := e])
  {
    hide Pending, ChainOk, JobsOk;
    ChainUpdate(j, l, id, e);
  }

  lemma PlainMoveKeeps(n: Node, id: nat, place: Place)
    requires NodeOk(n) && PlainMove(n, id, place)
    ensures NodeOk(MoveTo(n, id, place))
  {
    hide SeenStage, PipelineOk, DoneCounted, OpenIds, RunsAccounted;
    var e := n.ledger[id].(place := place);
    PipelineUpdate(n.jobs, n.ledger, id, e);
    OpenAfterUpdate(n.ledger, id, e);
    hide Pending;
    LedgerUpdate(n.hist, n.hist, n.nextId, n.nextId, n.ledger, id, e);
    HistorySame(n.hist, n.nextId, n.nextId, n.ledger, n.ledger[id := e]);
    RunsMove(n.hist, n.ledger, id, place);
  }

  // ---------------------------------------------------------------- new tasks

  /** The books after a new task of kind `work` has been counted, but for the counter that says why. */
  lemma IssueBooks(n: Node, work: Work, shared: bool)
    requires LedgerOk(n.hist, n.nextId, n.ledger) && HistoryOk(n.hist, n.nextId, n.ledger)
    requires CountsOk(n.counts, n.hist, n.nextId, n.ledger)
    requires work.Portable? || work.Closure? || work.Stolen?
    requires shared ==> work.Portable?
    ensures var n' := Issue(n, work, shared);
            && LedgerOk(n'.hist, n'.nextId, n'.ledger) && HistoryOk(n'.hist, n'.nextId, n'.ledger)
            && |n'.ledger| == |n.ledger| + 1 && |OpenIds(n'.ledger)| == |OpenIds(n.ledger)| + 1
            && n.nextId !in n.ledger
  {
    hide SeenStage, OpenIds;
    var n' := Issue(n, work, shared);
    var e := Entry(Entering(shared), work);
    assert n.nextId !in n.ledger;
    OpenAfterAdd(n.ledger, n.nextId, e);
    LedgerUpdate(n.hist, n'.hist, n.nextId, n'.nextId, n.ledger, n.nextId, e);
  }

  lemma IssueAppBooks(n: Node, work: Work)
    requires BooksOk(n) && (work.Portable? || work.Closure?)
    ensures BooksOk(IssueApp(n, work)) && n.nextId !in n.ledger
  {
    hide OpenIds, LedgerOk, HistoryOk;
    IssueBooks(n, work, work.Portable?);
  }

  /** Submitting keeps the node's books, whatever is submitted. */
  lemma SubmitAppKeeps(n: Node, work: Work)
    requires NodeOk(n) && (work.Portable? || work.Closure?)
    ensures NodeOk(SubmitApp(n, work))
  {
    hide SeenStage, PipelineOk, DoneCounted, BooksOk, RunsAccounted;
    IssueAppBooks(n, work);
    RunsIssueApp(n, work);
    BooksIgnoreJobs(IssueApp(n, work), SubmitApp(n, work).jobs);
    SubmitAppPipeline(n, work);
  }

  lemma SubmitAppPipeline(n: Node, work: Work)
    requires PipelineOk(n.jobs, n.ledger) && DoneCounted(n.jobs) && n.nextId !in n.ledger
    ensures PipelineOk(SubmitApp(n, work).jobs, SubmitApp(n, work).ledger) && DoneCounted(SubmitApp(n, work).jobs)
  {
    var e := Entry(Entering(work.Portable?), work);
    var j' := SubmitApp(n, work).jobs;
    hide SeenStage, JobsOk;
    NamedPending(e);
    SpoiledMore(n.jobs, n.ledger, Named(work));
    hide Named, Pending;
    ChainIgnores(j', n.ledger, n.nextId, e);
  }

  lemma NamedPending(e: Entry)
    requires !e.place.Observed?
    ensures Named(e.work) == if Pending(e).Some? then {Pending(e).value.requestId} else {}
  {
    hide SeenStage;
  }

  /** The promises only become fewer when more requests are spoiled. */
  lemma SpoiledMore(j: Jobs, l: Ledger, more: set<nat>)
    requires PipelineOk(j, l)
    ensures PipelineOk(j.(spoiled := j.spoiled + more), l)
  {
    hide Pending;
    var j' := j.(spoiled := j.spoiled + more);
    forall r: nat | r !in j'.spoiled
      ensures RequestOk(j', r) && AdvancesOk(j', r)
    {
      assert RequestOk(j, r) && AdvancesOk(j, r);
    }
  }

  /** A new entry that carries no stage, or one of a spoiled request, breaks no chain. */
  lemma ChainIgnores(j: Jobs, l: Ledger, id: nat, e: Entry)
    requires ChainOk(j, l) && id !in l
    requires Pending(e).Some? ==> Pending(e).value.requestId in j.spoiled
    ensures ChainOk(j, l[id := e])
  {
    hide Pending;
  }

  lemma AcceptKeeps(n: Node, origin: Key, payload: Bytes)
    requires NodeOk(n)
    ensures NodeOk(Accept(n, origin, payload))
  {
    hide PipelineOk, DoneCounted, RunsAccounted, LedgerOk, HistoryOk, OpenIds;
    var work := Stolen(origin, payload);
    IssueBooks(n, work, false);
    FreshId(n);
    RunsIssue(n, work, false);
    PipelineUpdate(n.jobs, n.ledger, n.nextId, Entry(Entering(false), work));
  }

  // ---------------------------------------------------------------- handing out and getting back

  lemma TrackLedger(n: Node, id: nat)
    requires BooksOk(n) && id in n.ledger && n.ledger[id].place.InHand?
    ensures var n' := Track(n, id); LedgerOk(n'.hist, n'.nextId, n'.ledger)
  {
    hide OpenIds;
    var n', e := Track(n, id), n.ledger[id].(place := Outstanding);
    assert EntryOk(n.hist, n.nextId, id, n.ledger[id]);
    LedgerUpdate(n.hist, n'.hist, n.nextId, n.nextId, n.ledger, id, e);
  }

  lemma TrackHistory(n: Node, id: nat)
    requires BooksOk(n) && id in n.ledger && n.ledger[id].place.InHand?
    ensures var n' := Track(n, id); HistoryOk(n'.hist, n'.nextId, n'.ledger)
  {
    hide OpenIds;
    var n' := Track(n, id);
    assert EntryOk(n.hist, n.nextId, id, n.ledger[id]);
    hide LedgerOk;
    assert forall i :: StillOwed(n.ledger, i) ==> StillOwed(n'.ledger, i);
    assert StillOwed(n'.ledger, id);
    hide StillOwed;
  }

  lemma TrackKeeps(n: Node, id: nat)
    requires NodeOk(n) && id in n.ledger && n.ledger[id].place.InHand?
    ensures NodeOk(Track(n, id))
  {
    TrackLedger(n, id);
    TrackHistory(n, id);
    RunsTrack(n, id);
    var e := n.ledger[id].(place := Outstanding);
    assert EntryOk(n.hist, n.nextId, id, n.ledger[id]);
    PipelineUpdate(n.jobs, n.ledger, id, e);
    OpenAfterUpdate(n.ledger, id, e);
    hide SeenStage, PipelineOk, DoneCounted, RunsAccounted, OpenIds, LedgerOk, HistoryOk, Pending;
  }

  lemma RunBodyLedger(n: Node, id: nat)
    requires BooksOk(n) && id in n.ledger && n.ledger[id].place.Running?
    ensures var n' := RunBody(n, id); LedgerOk(n'.hist, n'.nextId, n'.ledger)
  {
    hide OpenIds;
    var n', e := RunBody(n, id), n.ledger[id].(place := Ran);
    assert EntryOk(n.hist, n.nextId, id, n.ledger[id]);
    LedgerUpdate(n.hist, n'.hist, n.nextId, n.nextId, n.ledger, id, e);
  }

  lemma RunBodyHistory(n: Node, id: nat)
    requires BooksOk(n) && id in n.ledger && n.ledger[id].place.Running?
    ensures var n' := RunBody(n, id); HistoryOk(n'.hist, n'.nextId, n'.ledger)
  {
    hide OpenIds;
    var n' := RunBody(n, id);
    assert EntryOk(n.hist, n.nextId, id, n.ledger[id]);
    hide LedgerOk;
    assert forall i :: StillOwed(n.ledger, i) ==> StillOwed(n'.ledger, i);
    hide StillOwed;
  }

  lemma RunBodyKeeps(n: Node, id: nat)
    requires NodeOk(n) && id in n.ledger && n.ledger[id].place.Running?
    ensures NodeOk(RunBody(n, id))
  {
    RunBodyLedger(n, id);
    RunBodyHistory(n, id);
    var e := n.ledger[id].(place := Ran);
    assert EntryOk(n.hist, n.nextId, id, n.ledger[id]);
    RunsBody(n, id);
    PipelineUpdate(n.jobs, n.ledger, id, e);
    OpenAfterUpdate(n.ledger, id, e);
    hide SeenStage, PipelineOk, DoneCounted, RunsAccounted, OpenIds, LedgerOk, HistoryOk, Pending;
  }

  lemma ExecutedKeeps(n: Node, id: nat)
    requires NodeOk(n) && id in n.ledger && n.ledger[id].place.Ran?
    ensures NodeOk(Executed(n, id))
  {
    hide SeenStage, PipelineOk, DoneCounted, OpenIds, RunsAccounted;
    var e := n.ledger[id].(place := Settling);
    assert EntryOk(n.hist, n.nextId, id, n.ledger[id]);
    RunsMove(n.hist, n.ledger, id, Settling);
    PipelineUpdate(n.jobs, n.ledger, id, e);
    OpenAfterUpdate(n.ledger, id, e);
    LedgerUpdate(n.hist, n.hist, n.nextId, n.nextId, n.ledger, id, e);
    HistorySame(n.hist, n.nextId, n.nextId, n.ledger, n.ledger[id := e]);
  }

  lemma ResolveLedger(n: Node, id: nat)
    requires BooksOk(n) && id in n.ledger && n.ledger[id].place.Outstanding?
    ensures var n' := Resolve(n, id); LedgerOk(n'.hist, n'.nextId, n'.ledger)
  {
    hide OpenIds;
    var n', e := Resolve(n, id), n.ledger[id].(place := Settling);
    assert EntryOk(n.hist, n.nextId, id, n.ledger[id]);
    LedgerUpdate(n.hist, n'.hist, n.nextId, n.nextId, n.ledger, id, e);
  }

  lemma ResolveHistory(n: Node, id: nat)
    requires BooksOk(n) && id in n.ledger && n.ledger[id].place.Outstanding?
    ensures var n' := Resolve(n, id); HistoryOk(n'.hist, n'.nextId, n'.ledger)
  {
    hide OpenIds;
    var n' := Resolve(n, id);
    assert EntryOk(n.hist, n.nextId, id, n.ledger[id]);
    hide LedgerOk;
    assert forall i :: StillOwed(n.ledger, i) ==> StillOwed(n'.ledger, i) || i == id;
    hide StillOwed;
  }

  lemma ResolveRuns(n: Node, id: nat)
    requires RunsAccounted(n.hist, n.ledger) && id in n.ledger && n.ledger[id].place.Outstanding?
    requires EntryOk(n.hist, n.nextId, id, n.ledger[id])
    ensures RunsAccounted(Resolve(n, id).hist, Resolve(n, id).ledger)
  {
    RunsSettle(n, id, n.hist, n.ledger[id].(place := Settling));
  }

  /** A result keeps the books, whatever id it names. */
  lemma ResolveKeeps(n: Node, id: nat)
    requires NodeOk(n)
    ensures NodeOk(Resolve(n, id))
  {
    if !(id in n.ledger && n.ledger[id].place.Outstanding?) {
      hide NodeOk;
      return;
    }
    ResolveLedger(n, id);
    ResolveHistory(n, id);
    var e := n.ledger[id].(place := Settling);
    assert EntryOk(n.hist, n.nextId, id, n.ledger[id]);
    ResolveRuns(n, id);
    PipelineUpdate(n.jobs, n.ledger, id, e);
    OpenAfterUpdate(n.ledger, id, e);
    hide SeenStage, PipelineOk, DoneCounted, RunsAccounted, OpenIds, LedgerOk, HistoryOk, Pending;
  }

  /** The two entries a reassignment leaves behind. */
  function Blank(): Entry {
    Entry(Settling, Settled)
  }

  function Again(n: Node, id: nat): Entry
    requires id in n.ledger && n.ledger[id].work.Portable?
  {
    Entry(Entering(false), Rerun(id, n.ledger[id].work.payload))
  }

  ghost predicate Reassignable(n: Node, id: nat) {
    id in n.ledger && n.ledger[id].place.Collected? && n.ledger[id].work.Portable?
  }

  lemma ReassignParts(n: Node, id: nat)
    requires Reassignable(n, id) && id < n.nextId
    ensures var n' := Reassign(n, id);
            && n'.ledger == n.ledger[id := Blank()][n.nextId := Again(n, id)]
            && n'.nextId == n.nextId + 1
            && n'.hist == n.hist.(rerunAs := n.hist.rerunAs[id := n.nextId])
            && n'.counts == n.counts.(submitted := n.counts.submitted + 1, reassigned := n.counts.reassigned + 1)
    ensures Pending(Blank()).None? && Pending(Again(n, id)) == Pending(n.ledger[id])
    ensures Reassign(n, id).jobs ==
            if Pending(n.ledger[id]).None? then n.jobs
            else n.jobs.(carrier := n.jobs.carrier[Pending(n.ledger[id]).value.requestId := n.nextId])
  {
    assert SeenStage(Again(n, id).work) == SeenStage(n.ledger[id].work);
  }

  lemma ReassignLedger(n: Node, id: nat)
    requires BooksOk(n) && Reassignable(n, id)
    ensures id < n.nextId && n.nextId !in n.ledger
    ensures LedgerOk(n.hist.(rerunAs := n.hist.rerunAs[id := n.nextId]), n.nextId + 1,
                     n.ledger[id := Blank()][n.nextId := Again(n, id)])
  {
    hide OpenIds;
    var h, h' := n.hist, n.hist.(rerunAs := n.hist.rerunAs[id := n.nextId]);
    assert EntryOk(h, n.nextId, id, n.ledger[id]);
    LedgerUpdate(h, h', n.nextId, n.nextId + 1, n.ledger, id, Blank());
    LedgerUpdate(h', h', n.nextId + 1, n.nextId + 1, n.ledger[id := Blank()], n.nextId, Again(n, id));
  }

  lemma ReassignHistory(n: Node, id: nat)
    requires BooksOk(n) && Reassignable(n, id)
    ensures id !in n.hist.rerunAs
    ensures HistoryOk(n.hist.(rerunAs := n.hist.rerunAs[id := n.nextId]), n.nextId + 1,
                      n.ledger[id := Blank()][n.nextId := Again(n, id)])
  {
    hide OpenIds;
    var h, h' := n.hist, n.hist.(rerunAs := n.hist.rerunAs[id := n.nextId]);
    var l' := n.ledger[id := Blank()][n.nextId := Again(n, id)];
    assert EntryOk(h, n.nextId, id, n.ledger[id]);
    assert n.nextId !in n.ledger;
    hide LedgerOk, EntryOk;
    assert forall i :: StillOwed(n.ledger, i) ==> StillOwed(l', i) || i == id;
    assert h'.rerunAs.Keys == h.rerunAs.Keys + {id};
    hide StillOwed;
  }

  lemma ReassignBooks(n: Node, id: nat)
    requires BooksOk(n) && Reassignable(n, id)
    ensures BooksOk(Reassign(n, id)) && n.nextId !in n.ledger && id < n.nextId
  {
    hide OpenIds, LedgerOk, HistoryOk, Reassign, Pending;
    ReassignLedger(n, id);
    ReassignHistory(n, id);
    ReassignParts(n, id);
    OpenAfterUpdate(n.ledger, id, Blank());
    OpenAfterAdd(n.ledger[id := Blank()], n.nextId, Again(n, id));
    assert n.hist.rerunAs[id := n.nextId].Keys == n.hist.rerunAs.Keys + {id};
  }

  /** The re-run takes over as the carrier before the blank original is settled. */
  lemma ReassignKeeps(n: Node, id: nat)
    requires NodeOk(n) && Reassignable(n, id)
    ensures NodeOk(Reassign(n, id))
  {
    ReassignHanded(n, id);
    hide BooksOk, PipelineOk, Reassign, RunsAccounted;
    ReassignBooks(n, id);
    ReassignParts(n, id);
    ReassignPipeline(n, id);
    RunsReassign(n, id);
  }

  lemma ReassignHanded(n: Node, id: nat)
    requires BooksOk(n) && Reassignable(n, id)
    ensures id in n.hist.handed
  {
    assert EntryOk(n.hist, n.nextId, id, n.ledger[id]);
    hide OpenIds;
  }

  lemma ReassignPipeline(n: Node, id: nat)
    requires PipelineOk(n.jobs, n.ledger) && Reassignable(n, id) && n.nextId !in n.ledger && id < n.nextId
    ensures PipelineOk(Reassign(n, id).jobs, Reassign(n, id).ledger)
  {
    hide Pending, Reassign, Again, Blank, JobsOk;
    ReassignParts(n, id);
    if Pending(n.ledger[id]).None? {
      ChainUpdate(n.jobs, n.ledger, id, Blank());
      ChainUpdate(n.jobs, n.ledger[id := Blank()], n.nextId, Again(n, id));
    } else {
      var r := Pending(n.ledger[id]).value.requestId;
      ChainHandOver(n.jobs, n.ledger, id, Blank(), n.nextId, Again(n, id));
      assert r in n.jobs.spoiled || r in n.jobs.carrier;
      JobsCarrier(n.jobs, r, n.nextId);
      hide ChainOk;
    }
  }

  /** One entry stops carrying its request and a new one carries it on, at the same stage. */
  lemma ChainHandOver(j: Jobs, l: Ledger, id: nat, e: Entry, id': nat, e': Entry)
    requires ChainOk(j, l) && id in l && id' !in l && Pending(l[id]).Some?
    requires Pending(e).None? && Pending(e') == Pending(l[id])
    ensures ChainOk(j.(carrier := j.carrier[Pending(e').value.requestId := id']), l[id := e][id' := e'])
  {
    hide Pending;
  }

  lemma JobsCarrier(j: Jobs, r: nat, id: nat)
    requires JobsOk(j) && (r in j.carrier || r in j.spoiled)
    ensures JobsOk(j.(carrier := j.carrier[r := id]))
  {
    JobsExcept(j, j.(carrier := j.carrier[r := id]), r);
  }

  /** What JobManager knows of request `q` is the same, whatever else has changed. */
  ghost predicate SameRequest(j: Jobs, j': Jobs, q: nat) {
    && (q in j'.done <==> q in j.done) && (q in j.done ==> j'.done[q] == j.done[q])
    && (q in j'.progress <==> q in j.progress) && (q in j.progress ==> j'.progress[q] == j.progress[q])
    && (q in j'.carrier <==> q in j.carrier) && (q in j'.opening <==> q in j.opening)
  }

  /** The log is the same or longer by an advance of `r`. */
  ghost predicate LoggedOnly(j: Jobs, j': Jobs, r: nat) {
    j'.advances == j.advances || exists k: nat :: j'.advances == j.advances + [Advance(r, k)]
  }

  lemma OtherRequestOk(j: Jobs, j': Jobs, r: nat, q: nat)
    requires RequestOk(j, q) && AdvancesOk(j, q) && SameRequest(j, j', q) && LoggedOnly(j, j', r) && q != r
    ensures RequestOk(j', q) && AdvancesOk(j', q)
  {
    if j'.advances != j.advances {
      var k: nat :| j'.advances == j.advances + [Advance(r, k)];
      forall m: nat {:trigger Advance(q, m)}
        ensures Advance(q, m) in j'.advances <==> Advance(q, m) in j.advances
      {}
      var n := |j.advances|;
      forall a, b | 0 <= a < b < |j'.advances| && j'.advances[a].request == q
        ensures j'.advances[a] != j'.advances[b]
      {
        assert a < n && j'.advances[a] == j.advances[a];
        if b < n {
          assert j'.advances[b] == j.advances[b];
        }
      }
    }
  }

  /** A change to one request leaves the others in order; of a spoiled one nothing is asked. */
  lemma JobsExcept(j: Jobs, j': Jobs, r: nat)
    requires JobsOk(j) && j'.spoiled == j.spoiled && LoggedOnly(j, j', r)
    requires forall q: nat :: q != r ==> SameRequest(j, j', q)
    requires r !in j.spoiled ==> RequestOk(j', r) && AdvancesOk(j', r)
    ensures JobsOk(j')
  {
    forall q: nat | q !in j'.spoiled
      ensures RequestOk(j', q) && AdvancesOk(j', q)
    {
      if q != r {
        hide RequestOk, AdvancesOk, SameRequest, LoggedOnly;
        OtherRequestOk(j, j', r, q);
      }
    }
  }

  // ---------------------------------------------------------------- observing and finishing

  lemma ObservedBooks(n: Node, id: nat)
    requires BooksOk(n) && id in n.ledger && n.ledger[id].place.Settling?
    ensures BooksOk(MoveTo(n, id, Observed))
  {
    hide OpenIds;
    var e := n.ledger[id].(place := Observed);
    assert EntryOk(n.hist, n.nextId, id, n.ledger[id]);
    OpenAfterUpdate(n.ledger, id, e);
    LedgerUpdate(n.hist, n.hist, n.nextId, n.nextId, n.ledger, id, e);
    HistorySame(n.hist, n.nextId, n.nextId, n.ledger, n.ledger[id := e]);
  }

  /** The request's next stage becomes its carrier, one stage further on. */
  lemma ChainAdvance(j: Jobs, j': Jobs, l: Ledger, id: nat, e: Entry, id': nat, e': Entry)
    requires ChainOk(j, l) && id in l && id' !in l && Pending(l[id]).Some? && Pending(e).None?
    requires Pending(l[id]).value.stage < POSTPROCESS
    requires Pending(e') == Some(Pending(l[id]).value.(stage := Pending(l[id]).value.stage + 1))
    requires var p := Pending(l[id]).value;
             && j'.carrier == j.carrier[p.requestId := id'] && j'.spoiled == j.spoiled
             && j'.progress == j.progress[p.requestId := p.stage + 1]
    ensures ChainOk(j', l[id := e][id' := e'])
  {
    hide Pending;
  }

  lemma ChainStops(j: Jobs, j': Jobs, l: Ledger, id: nat, e: Entry)
    requires ChainOk(j, l) && id in l && Pending(l[id]).Some? && Pending(e).None?
    requires var r := Pending(l[id]).value.requestId;
             j'.carrier == j.carrier - {r} && j'.progress == j.progress[r := 4] && j'.spoiled == j.spoiled
    ensures ChainOk(j', l[id := e])
  {
    hide Pending;
  }

  /** The advance just made was never made before. */
  lemma LogAdvance(j: Jobs, j': Jobs, r: nat, k: nat)
    requires AdvancesOk(j, r) && r in j.progress && j.progress[r] == k
    requires j'.advances == j.advances + [Advance(r, k)] && j'.progress == j.progress[r := k + 1]
    ensures AdvancesOk(j', r)
  {
    assert Advance(r, k) !in j.advances;
    forall m: nat {:trigger Advance(r, m)}
      ensures Advance(r, m) in j'.advances <==> m < k + 1
    {
      assert Advance(r, m) in j'.advances <==> Advance(r, m) in j.advances || m == k;
    }
  }

  lemma JobsAdvance(j: Jobs, r: nat, id: nat, stage: nat)
    requires JobsOk(j) && (r in j.spoiled || (r in j.carrier && j.progress[r] == stage < POSTPROCESS))
    ensures JobsOk(j.(carrier := j.carrier[r := id], progress := j.progress[r := stage + 1],
                      advances := j.advances + [Advance(r, stage)]))
  {
    var j' := j.(carrier := j.carrier[r := id], progress := j.progress[r := stage + 1],
                 advances := j.advances + [Advance(r, stage)]);
    if r !in j.spoiled {
      assert RequestOk(j, r) && AdvancesOk(j, r);
      LogAdvance(j, j', r, stage);
    }
    hide AdvancesOk;
    JobsExcept(j, j', r);
  }

  lemma JobsFinish(j: Jobs, r: nat)
    requires JobsOk(j) && r !in j.spoiled && r in j.carrier && j.progress[r] == POSTPROCESS
    ensures JobsOk(j.(carrier := j.carrier - {r}, progress := j.progress[r := 4],
                      done := j.done[r := true], completed := j.completed + 1,
                      advances := j.advances + [Advance(r, POSTPROCESS)]))
  {
    var j' := j.(carrier := j.carrier - {r}, progress := j.progress[r := 4], done := j.done[r := true],
                 completed := j.completed + 1, advances := j.advances + [Advance(r, POSTPROCESS)]);
    assert RequestOk(j, r) && AdvancesOk(j, r);
    LogAdvance(j, j', r, POSTPROCESS);
    hide AdvancesOk;
    JobsExcept(j, j', r);
  }

  /** Whatever stage it is shown, the observer counts a request exactly when it becomes Done. */
  lemma StageDoneCounts(n: Node, p: StagePayload)
    requires DoneCounted(n.jobs)
    ensures DoneCounted(OnStageDone(n, p).jobs)
  {
    hide EncodedStage;
    var r := p.requestId;
    if r in n.jobs.done && !n.jobs.done[r] {
      assert DoneRequests(n.jobs.done[r := true]) == DoneRequests(n.jobs.done) + {r};
    }
  }

  lemma StageDoneBooks(n: Node, p: StagePayload)
    requires BooksOk(n)
    ensures BooksOk(OnStageDone(n, p))
  {
    hide BooksOk, EncodedStage;
    if p.stage < POSTPROCESS {
      var next := p.(stage := p.stage + 1);
      StageIsPortable(next);
      hide StageWork;
      IssueAppBooks(n, StageWork(next));
      BooksIgnoreJobs(IssueApp(n, StageWork(next)), OnStageDone(n, p).jobs);
    } else {
      BooksIgnoreJobs(n, OnStageDone(n, p).jobs);
    }
  }

  lemma ObserveParts(n: Node, id: nat, p: StagePayload)
    requires id in n.ledger && n.ledger[id].place.Settling? && SeenStage(n.ledger[id].work) == Some(p)
    ensures Pending(n.ledger[id]) == Some(p) && Pending(n.ledger[id].(place := Observed)).None?
    ensures p.stage == POSTPROCESS && p.requestId in n.jobs.done && !n.jobs.done[p.requestId] ==>
              && Observe(n, id) == MoveTo(n, id, Observed).(jobs := Observe(n, id).jobs)
              && Observe(n, id).jobs == n.jobs.(
                   carrier := n.jobs.carrier - {p.requestId}, progress := n.jobs.progress[p.requestId := 4],
                   done := n.jobs.done[p.requestId := true], completed := n.jobs.completed + 1,
                   advances := n.jobs.advances + [Advance(p.requestId, POSTPROCESS)])
    ensures p.stage < POSTPROCESS ==>
              var next := p.(stage := p.stage + 1);
              && Observe(n, id) == IssueApp(MoveTo(n, id, Observed), StageWork(next)).(jobs := Observe(n, id).jobs)
              && Observe(n, id).jobs == n.jobs.(
                   carrier := n.jobs.carrier[p.requestId := n.nextId],
                   progress := n.jobs.progress[p.requestId := p.stage + 1],
                   advances := n.jobs.advances + [Advance(p.requestId, p.stage)])
  {
    hide EncodedStage;
  }

  lemma BooksIgnoreJobs(n: Node, j: Jobs)
    requires BooksOk(n)
    ensures BooksOk(n.(jobs := j))
  {
    hide OpenIds, LedgerOk, HistoryOk;
  }

  lemma StageDoneRuns(n: Node, p: StagePayload)
    requires RunsAccounted(n.hist, n.ledger) && BooksOk(n)
    ensures RunsAccounted(OnStageDone(n, p).hist, OnStageDone(n, p).ledger)
  {
    hide BooksOk, EncodedStage, RunsAccounted;
    if p.stage < POSTPROCESS {
      var next := p.(stage := p.stage + 1);
      StageIsPortable(next);
      hide StageWork;
      RunsIssueApp(n, StageWork(next));
    }
  }

  lemma ObserveKeeps(n: Node, id: nat)
    requires NodeOk(n) && id in n.ledger && n.ledger[id].place.Settling?
    ensures NodeOk(Observe(n, id))
  {
    ObservedBooks(n, id);
    var mid := MoveTo(n, id, Observed);
    hide BooksOk, SeenStage, OnStageDone, PipelineOk, DoneCounted, RunsAccounted;
    RunsMove(n.hist, n.ledger, id, Observed);
    if SeenStage(n.ledger[id].work).Some? {
      StageDoneBooks(mid, SeenStage(n.ledger[id].work).value);
      StageDoneRuns(mid, SeenStage(n.ledger[id].work).value);
      StageDoneCounts(mid, SeenStage(n.ledger[id].work).value);
    }
    ObservePipeline(n, id);
  }

  lemma ObserveSpoils(n: Node, id: nat)
    requires id in n.ledger
    ensures Observe(n, id).jobs.spoiled == n.jobs.spoiled
  {
    hide SeenStage, EncodedStage;
  }

  lemma ObservePipeline(n: Node, id: nat)
    requires PipelineOk(n.jobs, n.ledger) && BooksOk(n) && id in n.ledger && n.ledger[id].place.Settling?
    ensures PipelineOk(Observe(n, id).jobs, Observe(n, id).ledger)
  {
    hide BooksOk, SeenStage, ChainOk, JobsOk, Observe;
    var seen := SeenStage(n.ledger[id].work);
    if seen.None? {
      ObserveNothing(n, id);
    } else if seen.value.stage < POSTPROCESS {
      ObserveAdvances(n, id);
    } else if seen.value.requestId in n.jobs.spoiled {
      ObserveSpoiled(n, id);
    } else {
      ObserveFinishes(n, id);
    }
  }

  lemma ObserveNothing(n: Node, id: nat)
    requires ChainOk(n.jobs, n.ledger) && id in n.ledger && n.ledger[id].place.Settling?
    requires SeenStage(n.ledger[id].work).None?
    ensures ChainOk(Observe(n, id).jobs, Observe(n, id).ledger) && Observe(n, id).jobs == n.jobs
  {
    hide SeenStage, ChainOk;
    ChainUpdate(n.jobs, n.ledger, id, n.ledger[id].(place := Observed));
  }

  /** The last stage of a spoiled request changes nothing for the others. */
  lemma ObserveSpoiled(n: Node, id: nat)
    requires ChainOk(n.jobs, n.ledger) && JobsOk(n.jobs) && id in n.ledger && n.ledger[id].place.Settling?
    requires SeenStage(n.ledger[id].work).Some? && SeenStage(n.ledger[id].work).value.stage >= POSTPROCESS
    requires SeenStage(n.ledger[id].work).value.requestId in n.jobs.spoiled
    ensures ChainOk(Observe(n, id).jobs, Observe(n, id).ledger) && JobsOk(Observe(n, id).jobs)
  {
    var p, e := SeenStage(n.ledger[id].work).value, n.ledger[id].(place := Observed);
    var j' := Observe(n, id).jobs;
    SpoiledParts(n, id, p);
    hide SeenStage, Observe, Pending, JobsOk;
    ChainOthers(n.jobs, j', n.ledger, id, e);
    JobsExcept(n.jobs, j', p.requestId);
  }

  lemma SpoiledParts(n: Node, id: nat, p: StagePayload)
    requires id in n.ledger && n.ledger[id].place.Settling? && SeenStage(n.ledger[id].work) == Some(p)
    requires p.stage >= POSTPROCESS
    ensures Pending(n.ledger[id]) == Some(p) && Pending(n.ledger[id].(place := Observed)).None?
    ensures Observe(n, id).ledger == n.ledger[id := n.ledger[id].(place := Observed)]
    ensures var j, j' := n.jobs, Observe(n, id).jobs;
            && j'.spoiled == j.spoiled && j'.advances == j.advances + [Advance(p.requestId, p.stage)]
            && (forall q: nat :: q != p.requestId ==> SameRequest(j, j', q))
            && (forall q: nat :: q != p.requestId && q in j.carrier ==>
                  q in j'.carrier && j'.carrier[q] == j.carrier[q])
  {
    hide EncodedStage, OnStageDone, SeenStage;
    LastStageParts(MoveTo(n, id, Observed), p);
    hide SameRequest;
  }

  lemma LastStageParts(n: Node, p: StagePayload)
    requires p.stage >= POSTPROCESS
    ensures OnStageDone(n, p).ledger == n.ledger
    ensures var j, j' := n.jobs, OnStageDone(n, p).jobs;
            && j'.spoiled == j.spoiled && j'.advances == j.advances + [Advance(p.requestId, p.stage)]
            && (forall q: nat :: q != p.requestId ==> SameRequest(j, j', q))
            && (forall q: nat :: q != p.requestId && q in j.carrier ==>
                  q in j'.carrier && j'.carrier[q] == j.carrier[q])
  {
    hide EncodedStage;
  }

  lemma ChainOthers(j: Jobs, j': Jobs, l: Ledger, id: nat, e: Entry)
    requires ChainOk(j, l) && id in l && Pending(l[id]).Some? && Pending(e).None? && j'.spoiled == j.spoiled
    requires Pending(l[id]).value.requestId in j.spoiled
    requires forall q: nat :: q != Pending(l[id]).value.requestId ==> SameRequest(j, j', q)
    requires forall q: nat :: q != Pending(l[id]).value.requestId && q in j.carrier ==>
               q in j'.carrier && j'.carrier[q] == j.carrier[q]
    ensures ChainOk(j', l[id := e])
  {
    hide Pending;
    var l' := l[id := e];
    var p := Pending(l[id]).value;
    forall i | i in l' && Pending(l'[i]).Some? && Pending(l'[i]).value.requestId !in j'.spoiled
      ensures var q := Pending(l'[i]).value;
              && q.requestId in j'.carrier && j'.carrier[q.requestId] == i
              && q.requestId in j'.progress && j'.progress[q.requestId] == q.stage && q.stage <= POSTPROCESS
    {
      assert i != id && SameRequest(j, j', Pending(l[i]).value.requestId);
    }
    forall r | r in j'.carrier && r !in j'.spoiled
      ensures j'.carrier[r] in l' && Pending(l'[j'.carrier[r]]).Some? && Pending(l'[j'.carrier[r]]).value.requestId == r
    {
      assert r != p.requestId && SameRequest(j, j', r);
    }
  }

  lemma ObserveFinishes(n: Node, id: nat)
    requires ChainOk(n.jobs, n.ledger) && JobsOk(n.jobs) && id in n.ledger && n.ledger[id].place.Settling?
    requires SeenStage(n.ledger[id].work).Some? && SeenStage(n.ledger[id].work).value.stage >= POSTPROCESS
    requires SeenStage(n.ledger[id].work).value.requestId !in n.jobs.spoiled
    ensures ChainOk(Observe(n, id).jobs, Observe(n, id).ledger) && JobsOk(Observe(n, id).jobs)
  {
    hide SeenStage, Observe, Pending, JobsOk, ChainOk;
    var p, e := SeenStage(n.ledger[id].work).value, n.ledger[id].(place := Observed);
    ObserveParts(n, id, p);
    CarriedBy(n.jobs, n.ledger, id);
    RequestAt(n.jobs, p.requestId);
    ChainStops(n.jobs, Observe(n, id).jobs, n.ledger, id, e);
    JobsFinish(n.jobs, p.requestId);
  }

  lemma RequestAt(j: Jobs, r: nat)
    requires JobsOk(j) && r !in j.spoiled && r in j.carrier
    ensures r in j.done && !j.done[r] && r in j.progress && r !in j.opening
  {
    assert RequestOk(j, r);
    hide AdvancesOk;
  }

  lemma ObserveAdvances(n: Node, id: nat)
    requires ChainOk(n.jobs, n.ledger) && JobsOk(n.jobs) && id in n.ledger && n.ledger[id].place.Settling?
    requires SeenStage(n.ledger[id].work).Some? && SeenStage(n.ledger[id].work).value.stage < POSTPROCESS
    requires BooksOk(n)
    ensures ChainOk(Observe(n, id).jobs, Observe(n, id).ledger) && JobsOk(Observe(n, id).jobs)
  {
    hide BooksOk, SeenStage, Observe, Pending, EncodedStage, JobsOk, ChainOk, StageWork;
    var p := SeenStage(n.ledger[id].work).value;
    var next := p.(stage := p.stage + 1);
    StageEntry(next);
    StageIsPortable(next);
    IssueAppBooks(n, StageWork(next));
    ObserveParts(n, id, p);
    if p.requestId !in n.jobs.spoiled {
      CarriedBy(n.jobs, n.ledger, id);
    }
    ChainAdvance(n.jobs, Observe(n, id).jobs, n.ledger, id, n.ledger[id].(place := Observed),
                 n.nextId, Entry(Entering(true), StageWork(next)));
    JobsAdvance(n.jobs, p.requestId, n.nextId, p.stage);
  }

  lemma StageIsPortable(p: StagePayload)
    ensures StageWork(p).Portable?
  {}

  /** An entry that still has a stage to report carries its request, at the stage the request has reached. */
  lemma CarriedBy(j: Jobs, l: Ledger, id: nat)
    requires ChainOk(j, l) && id in l && Pending(l[id]).Some? && Pending(l[id]).value.requestId !in j.spoiled
    ensures var p := Pending(l[id]).value;
            && p.requestId in j.carrier && j.carrier[p.requestId] == id
            && p.requestId in j.progress && j.progress[p.requestId] == p.stage <= POSTPROCESS
  {
    hide Pending;
  }

  lemma StageEntry(p: StagePayload)
    ensures Pending(Entry(Entering(true), StageWork(p))) == Some(p)
  {
    StageRoundTrip(p);
    hide EncodedStage, StageOf;
  }

  lemma ChainRemove(j: Jobs, l: Ledger, id: nat)
    requires ChainOk(j, l) && id in l && Pending(l[id]).None?
    ensures ChainOk(j, l - {id})
  {
    hide Pending;
  }

  lemma FinishBooks(n: Node, id: nat)
    requires BooksOk(n) && id in n.ledger && n.ledger[id].place.Observed?
    ensures BooksOk(Finish(n, id))
  {
    hide OpenIds, EntryOk;
    OpenAfterRemove(n.ledger, id);
    HistorySame(n.hist, n.nextId, n.nextId, n.ledger, n.ledger - {id});
  }

  lemma FinishKeeps(n: Node, id: nat)
    requires NodeOk(n) && id in n.ledger && n.ledger[id].place.Observed?
    ensures NodeOk(Finish(n, id))
  {
    FinishBooks(n, id);
    hide JobsOk, SeenStage, BooksOk, ChainOk, RunsAccounted;
    RunsFinish(n.hist, n.ledger, id);
    ChainRemove(n.jobs, n.ledger, id);
  }

  // ---------------------------------------------------------------- requests

  /** Recording a request keeps the books, even if its id has come round again. */
  lemma OpenKeeps(n: Node)
    requires NodeOk(n)
    ensures NodeOk(Cluster.Open(n))
  {
    hide BooksOk, JobsOk, ChainOk, RunsAccounted;
    var j, j' := n.jobs, Cluster.Open(n).jobs;
    BooksIgnoreJobs(n, j');
    OpenCounts(j);
    if j.nextRequest in j.done {
      SpoiledMore(j, n.ledger, {j.nextRequest});
      JobsOpenAgain(j.(spoiled := j.spoiled + {j.nextRequest}), j');
      ChainIgnoresOpening(j.(spoiled := j.spoiled + {j.nextRequest}), j', n.ledger);
    } else {
      JobsOpen(j, j');
      OpenKeepsChain(j, j', n.ledger);
    }
  }

  lemma OpenCounts(j: Jobs)
    ensures j.nextRequest !in j.done ==> DoneRequests(j.done[j.nextRequest := false]) == DoneRequests(j.done)
  {}

  lemma JobsOpenAgain(j: Jobs, j': Jobs)
    requires JobsOk(j) && j.nextRequest in j.spoiled
    requires j' == j.(nextRequest := j'.nextRequest, opening := j.opening + {j.nextRequest})
    ensures JobsOk(j')
  {
    JobsExcept(j, j', j.nextRequest);
  }

  lemma ChainIgnoresOpening(j: Jobs, j': Jobs, l: Ledger)
    requires ChainOk(j, l) && j'.carrier == j.carrier && j'.progress == j.progress && j'.spoiled == j.spoiled
    ensures ChainOk(j', l)
  {
    hide Pending;
  }

  lemma OpenKeepsChain(j: Jobs, j': Jobs, l: Ledger)
    requires JobsOk(j) && ChainOk(j, l) && j.nextRequest !in j.done && j'.spoiled == j.spoiled
    requires j'.carrier == j.carrier && j'.progress == j.progress[j.nextRequest := 0]
    ensures ChainOk(j', l)
  {
    if j.nextRequest !in j.spoiled {
      assert RequestOk(j, j.nextRequest);
    }
    hide Pending, JobsOk;
  }

  lemma JobsOpen(j: Jobs, j': Jobs)
    requires JobsOk(j) && j.nextRequest !in j.done
    requires j' == j.(nextRequest := j'.nextRequest, done := j.done[j.nextRequest := false],
                      opening := j.opening + {j.nextRequest}, progress := j.progress[j.nextRequest := 0])
    ensures JobsOk(j')
  {
    var r := j.nextRequest;
    if r !in j.spoiled {
      assert RequestOk(j, r) && AdvancesOk(j, r);
    }
    JobsExcept(j, j', r);
  }

  lemma JobsStart(j: Jobs, r: nat, id: nat)
    requires JobsOk(j) && r in j.opening
    ensures JobsOk(j.(opening := j.opening - {r}, carrier := j.carrier[r := id]))
  {
    var j' := j.(opening := j.opening - {r}, carrier := j.carrier[r := id]);
    if r !in j.spoiled {
      assert RequestOk(j, r) && AdvancesOk(j, r);
    }
    JobsExcept(j, j', r);
  }

  lemma FirstStageKeeps(n: Node, p: StagePayload)
    requires NodeOk(n) && p.requestId in n.jobs.opening && p.stage == DECODE
    ensures NodeOk(FirstStage(n, p))
  {
    StageIsPortable(p);
    IssueAppBooks(n, StageWork(p));
    hide BooksOk, SeenStage, EncodedStage, StageWork, JobsOk, ChainOk, RunsAccounted;
    RunsIssueApp(n, StageWork(p));
    BooksIgnoreJobs(IssueApp(n, StageWork(p)), FirstStage(n, p).jobs);
    FirstStageChain(n, p);
  }

  lemma FirstStageChain(n: Node, p: StagePayload)
    requires ChainOk(n.jobs, n.ledger) && JobsOk(n.jobs) && n.nextId !in n.ledger
    requires p.requestId in n.jobs.opening && p.stage == DECODE
    ensures ChainOk(FirstStage(n, p).jobs, FirstStage(n, p).ledger) && JobsOk(FirstStage(n, p).jobs)
  {
    var e, r := Entry(Entering(true), StageWork(p)), p.requestId;
    StageEntry(p);
    hide SeenStage, EncodedStage, Pending;
    JobsStart(n.jobs, r, n.nextId);
    if r !in n.jobs.spoiled {
      assert RequestOk(n.jobs, r);
    }
    hide JobsOk;
    ChainStart(n.jobs, n.ledger, n.nextId, e);
    hide ChainOk;
  }

  lemma ChainStart(j: Jobs, l: Ledger, id: nat, e: Entry)
    requires ChainOk(j, l) && id !in l && Pending(e).Some?
    requires var p := Pending(e).value;
             p.requestId in j.spoiled
             || (p.requestId !in j.carrier && p.requestId in j.progress && j.progress[p.requestId] == p.stage == DECODE)
    ensures ChainOk(j.(carrier := j.carrier[Pending(e).value.requestId := id],
                       opening := j.opening - {Pending(e).value.requestId}), l[id := e])
  {
    hide Pending;
  }
}
