/** The outstanding table of `StealingNode` is the part of the ledger of `Cluster` that is out on thieves. */
module TableRefinement {
  import opened Arithmetic
  import opened Tasks
  import opened Cluster
  import opened ClusterNode
  import StealingNode
  import JobManagers

  type Table = StealingNode.Table

  /** Exactly the outstanding entries are in the table, under their ids and with their payloads. */
  ghost predicate TableModels(o: Table, l: Ledger) {
    && (forall id :: id in l && l[id].place.Outstanding? ==> id < 0x1_0000_0000_0000_0000 && id in o)
    && (forall id :: id in o ==>
          id in l && l[id] == Entry(Outstanding, Portable(o[id].task.payload)) && o[id].task.taskId == id)
  }

  /** `track_outstanding` is the step `Track`. */
  lemma TrackRefines(x: Node, o: Table, t: Task, thief: u32, now: int)
    requires TableModels(o, x.ledger)
    requires t.taskId in x.ledger && x.ledger[t.taskId] == Entry(InHand, Portable(t.payload))
    ensures t.taskId !in o
    ensures TableModels(StealingNode.Emplace(o, t, thief, now), Track(x, t.taskId).ledger)
    ensures Track(x, t.taskId).counts == x.counts.(stolenOut := x.counts.stolenOut + 1)
  {}

  /** `resolve_outstanding` is the step `Resolve`, and the observer is shown the task that was handed out. */
  lemma ResolveRefines(x: Node, o: Table, id: u64)
    requires TableModels(o, x.ledger)
    ensures TableModels(o - {id}, Resolve(x, id).ledger)
    ensures id !in o ==> Resolve(x, id) == x
    ensures id in o ==>
              && id in Resolve(x, id).ledger && Resolve(x, id).ledger[id].place == Settling
              && SeenStage(Resolve(x, id).ledger[id].work) == JobManagers.StageOfTask(o[id].task)
              && Resolve(x, id).counts == x.counts.(resolved := x.counts.resolved + 1)
  {}

  /** Taking an expired entry out of the table is the step to the reaper's hands. */
  lemma CollectRefines(x: Node, o: Table, id: u64)
    requires TableModels(o, x.ledger) && id in o
    ensures TableModels(o - {id}, MoveTo(x, id, Collected).ledger)
    ensures MoveTo(x, id, Collected).ledger[id] == Entry(Collected, Portable(o[id].task.payload))
  {}

  /** `Reassign`, then the observer on the blank original, then counting it. */
  ghost function Rerun(x: Node, id: nat): Node
    requires Reassignable(x, id) && id < x.nextId
  {
    ReassignParts(x, id);
    var settled := Reassign(x, id);
    BlankObserved(settled, id);
    Finish(Observe(settled, id), id)
  }

  lemma BlankObserved(x: Node, id: nat)
    requires id in x.ledger && x.ledger[id] == Blank()
    ensures Observe(x, id) == MoveTo(x, id, Observed)
  {}

  lemma RerunParts(x: Node, id: nat)
    requires Reassignable(x, id) && id < x.nextId && x.nextId !in x.ledger
    ensures var x' := Rerun(x, id);
            && x'.ledger == x.ledger[x.nextId := Again(x, id)] - {id}
            && x'.counts == x.counts.(submitted := x.counts.submitted + 1, completed := x.counts.completed + 1,
                                      reassigned := x.counts.reassigned + 1)
            && x'.nextId == x.nextId + 1
  {
    hide Reassign, Pending, Observe, Again;
    ReassignParts(x, id);
    var settled := Reassign(x, id);
    BlankObserved(settled, id);
    assert settled.ledger[id := Entry(Observed, Settled)] - {id} == x.ledger[x.nextId := Again(x, id)] - {id};
  }

  lemma TableKept(o: Table, l: Ledger, id: nat, id': nat, e: Entry)
    requires TableModels(o, l) && id in l && !l[id].place.Outstanding? && id' !in l && !e.place.Outstanding?
    ensures TableModels(o, l[id' := e] - {id})
  {}

  /**
    One turn of the reaper's second loop is that sequence: one task more submitted and one more
    completed, the same payload under the next id in no thief's reach, the original gone, and the table
    as it was.
   */
  lemma RerunRefines(x: Node, o: Table, id: nat, payload: Bytes)
    requires TableModels(o, x.ledger) && BooksOk(x)
    requires id in x.ledger && x.ledger[id] == Entry(Collected, Portable(payload))
    ensures id < x.nextId
    ensures var x' := Rerun(x, id);
            && TableModels(o, x'.ledger)
            && x'.ledger == x.ledger[x.nextId := Entry(Entering(false), Work.Rerun(id, payload))] - {id}
            && x'.counts == x.counts.(submitted := x.counts.submitted + 1, completed := x.counts.completed + 1,
                                      reassigned := x.counts.reassigned + 1)
            && x'.nextId % 0x1_0000_0000_0000_0000 == StealingNode.FreshId(x.nextId % 0x1_0000_0000_0000_0000, 1)
  {
    hide BooksOk, Rerun, TableModels, SeenStage;
    ReassignLedger(x, id);
    RerunParts(x, id);
    TableKept(o, x.ledger, id, x.nextId, Again(x, id));
    StealingNode.WrapOneMore(x.nextId, 0x1_0000_0000_0000_0000);
  }
}
