/**
  src/inference/JobManager.cpp in its own form, over one runtime: it records requests, submits their
  stages as portable tasks and, as the runtime's observer, submits each next stage.
 */
module JobManagers {
  import opened RuntimeQueues
  import opened Stages
  import opened Tasks
  import Cluster

  const INFER: nat := 2

  // ---------------------------------------------------------------- the tasks of a stage

  function Least(a: nat, b: nat): nat {
    if a < b then a else b
  }

  /** The cost of a stage of one image or one text, before it is multiplied by the batch. */
  function UnitCost(p: StagePayload): nat {
    if p.kind == 0 then
      var px := if p.imagePixels == 0 then 1 else p.imagePixels;
      match p.stage
      case 0 => 200 + px / 64
      case 1 => 300 + px / 16
      case 2 => 2000 + px / 2
      case 3 => 150
      case _ => 0
    else if p.kind == 1 then
      var len := if p.sequenceLength == 0 then 1 else p.sequenceLength;
      match p.stage
      case 0 => 100 + len
      case 1 => 200 + len * 4
      case 2 => 1000 + (len * len) / 4
      case 3 => 120 + len / 2
      case _ => 0
    else 0
  }

  /** Before the batch comes in, 64 bits are enough. */
  lemma UnitCostFits(p: StagePayload)
    ensures UnitCost(p) < 0x1_0000_0000_0000_0000
  {
    var len := if p.sequenceLength == 0 then 1 else p.sequenceLength;
    SquareFits(len);
    QuarterFits(len * len);
  }

  lemma SquareFits(x: u32)
    ensures 0 <= x * x <= 0xFFFF_FFFF * 0xFFFF_FFFF
  {
    Product(x, 0xFFFF_FFFF, x);
  }

  lemma Product(a: nat, b: nat, c: nat)
    requires a <= b
    ensures a * c <= b * c
  {
    assert b * c == a * c + (b - a) * c;
  }

  lemma QuarterFits(x: nat)
    requires x <= 0xFFFF_FFFF * 0xFFFF_FFFF
    ensures 1000 + x / 4 < 0x1_0000_0000_0000_0000
  {}

  function Batch(p: StagePayload): nat {
    if p.batchSize == 0 then 1 else p.batchSize
  }

  /** The product wraps at 64 bits before it is clamped to 32. */
  function StageCost(p: StagePayload): u32 {
    Least((UnitCost(p) * Batch(p)) % 0x1_0000_0000_0000_0000, 0xFFFF_FFFF)
  }

  /** The product lies in one of the windows just above a multiple of 2^64, where wrapping makes it small. */
  ghost predicate InWindow(product: nat) {
    exists k: nat {:trigger Window(k, product)} :: 1 <= k && Window(k, product)
  }

  predicate Window(k: nat, product: nat) {
    k * 0x1_0000_0000_0000_0000 <= product < k * 0x1_0000_0000_0000_0000 + 0xFFFF_FFFF
  }

  /** For every stage, the cost is right exactly when the product of unit cost and batch misses every window. */
  lemma CostRightIff(p: StagePayload)
    ensures StageCost(p) == Least(UnitCost(p) * Batch(p), 0xFFFF_FFFF) <==> !InWindow(UnitCost(p) * Batch(p))
  {
    var product := UnitCost(p) * Batch(p);
    var q := product / 0x1_0000_0000_0000_0000;
    hide UnitCost, Batch;
    if InWindow(product) {
      var k: nat :| 1 <= k && Window(k, product);
      assert q == k;
    } else {
      assert q >= 1 ==> !Window(q, product);
    }
  }

  /** Texts, in the request's own fields: the Decode stage can only hit the first window and the Preprocess
      stage only the first four. */
  lemma TextDecodeRightIff(p: StagePayload)
    requires p.kind == 1 && p.stage == DECODE
    ensures var len := if p.sequenceLength == 0 then 1 else p.sequenceLength;
            StageCost(p) == Least((100 + len) * Batch(p), 0xFFFF_FFFF) <==> !Window(1, (100 + len) * Batch(p))
  {
    var len := if p.sequenceLength == 0 then 1 else p.sequenceLength;
    CostRightIff(p);
    assert UnitCost(p) == 100 + len;
    Product(100 + len, 0x1_0000_0063, Batch(p));
    hide UnitCost;
    WindowsUpTo((100 + len) * Batch(p), 1);
  }

  lemma TextPreprocessRightIff(p: StagePayload)
    requires p.kind == 1 && p.stage == 1
    ensures var len := if p.sequenceLength == 0 then 1 else p.sequenceLength;
            var product := (200 + 4 * len) * Batch(p);
            StageCost(p) == Least(product, 0xFFFF_FFFF) <==>
            !Window(1, product) && !Window(2, product) && !Window(3, product) && !Window(4, product)
  {
    var len := if p.sequenceLength == 0 then 1 else p.sequenceLength;
    CostRightIff(p);
    assert UnitCost(p) == 200 + 4 * len;
    Product(200 + 4 * len, 0x4_0000_00C4, Batch(p));
    hide UnitCost;
    WindowsUpTo((200 + 4 * len) * Batch(p), 4);
  }

  /** The quadratic stage: its product can lie in any of about 2^60 windows. */
  lemma TextInferRightIff(p: StagePayload)
    requires p.kind == 1 && p.stage == INFER
    ensures var len := if p.sequenceLength == 0 then 1 else p.sequenceLength;
            var product := (1000 + len * len / 4) * Batch(p);
            StageCost(p) == Least(product, 0xFFFF_FFFF) <==> !InWindow(product)
  {
    var len := if p.sequenceLength == 0 then 1 else p.sequenceLength;
    CostRightIff(p);
    assert UnitCost(p) == 1000 + len * len / 4;
    hide UnitCost, StageCost, InWindow;
  }

  lemma WindowsUpTo(product: nat, most: nat)
    requires product < (most + 1) * 0x1_0000_0000_0000_0000
    ensures InWindow(product) <==> exists k: nat {:trigger Window(k, product)} :: 1 <= k <= most && Window(k, product)
  {
    if InWindow(product) {
      var k: nat :| 1 <= k && Window(k, product);
      Product(if k > most then most + 1 else k, k, 0x1_0000_0000_0000_0000);
      assert k <= most;
    }
  }

  /** The cost of a stage of a request is the clamped product if that product fits 64 bits. */
  lemma CostIsExact(p: StagePayload)
    requires UnitCost(p) * Batch(p) < 0x1_0000_0000_0000_0000
    ensures StageCost(p) == Least(UnitCost(p) * Batch(p), 0xFFFF_FFFF)
  {
    hide UnitCost, Batch;
  }

  lemma SmallUnitNeverWraps(p: StagePayload)
    requires UnitCost(p) <= 0x1_0000_0000
    ensures UnitCost(p) * Batch(p) < 0x1_0000_0000_0000_0000
  {
    Product(UnitCost(p), 0x1_0000_0000, Batch(p));
    hide UnitCost;
  }

  function AtLeastOne(n: nat): nat {
    if n == 0 then 1 else n
  }

  /** The product, cut to 32 bits. */
  function Clamped(unit: nat, batch: nat): nat {
    Least(unit * batch, 0xFFFF_FFFF)
  }

  /** No stage of an image wraps, whatever its size and its batch; an empty size or batch counts as one. */
  lemma ImageNeverWraps(p: StagePayload)
    requires p.kind == 0
    ensures StageCost(p) == Least(UnitCost(p) * Batch(p), 0xFFFF_FFFF)
    ensures var px, batch := AtLeastOne(p.imagePixels), AtLeastOne(p.batchSize);
            && (p.stage == 0 ==> StageCost(p) == Clamped(200 + px / 64, batch))
            && (p.stage == 1 ==> StageCost(p) == Clamped(300 + px / 16, batch))
            && (p.stage == 2 ==> StageCost(p) == Clamped(2000 + px / 2, batch))
            && (p.stage == 3 ==> StageCost(p) == Clamped(150, batch))
  {
    SmallUnitNeverWraps(p);
    CostIsExact(p);
    hide StageCost;
  }

  /** Nor does the last stage of a text, or any stage of a text shorter than 2^16. */
  lemma ShortTextNeverWraps(p: StagePayload)
    requires p.kind == 1 && (p.stage == POSTPROCESS || p.sequenceLength < 0x1_0000)
    ensures StageCost(p) == Least(UnitCost(p) * Batch(p), 0xFFFF_FFFF)
    ensures var len, batch := AtLeastOne(p.sequenceLength), AtLeastOne(p.batchSize);
            && (p.stage == 0 ==> StageCost(p) == Clamped(100 + len, batch))
            && (p.stage == 1 ==> StageCost(p) == Clamped(200 + len * 4, batch))
            && (p.stage == 2 ==> StageCost(p) == Clamped(1000 + len * len / 4, batch))
            && (p.stage == 3 ==> StageCost(p) == Clamped(120 + len / 2, batch))
  {
    var len := if p.sequenceLength == 0 then 1 else p.sequenceLength;
    if len < 0x1_0000 {
      Product(len, 0xFFFF, len);
      assert len * len <= 0xFFFF * len <= 0xFFFF * 0xFFFF;
    }
    assert UnitCost(p) <= 0x1_0000_0000;
    SmallUnitNeverWraps(p);
    CostIsExact(p);
    hide StageCost;
  }

  /** What is neither an image nor a text, or in no named stage, costs nothing. */
  lemma UnknownCostsNothing(p: StagePayload)
    requires p.kind > 1 || p.stage > POSTPROCESS
    ensures StageCost(p) == 0
  {
    assert UnitCost(p) == 0;
  }

  /** A batch of 16 texts of 2^31 tokens is costed as if it were trivial. */
  lemma CostCanWrap()
    ensures var p := StagePayload(1, 1, 2, 0, 0x8000_0000, 16);
            StageCost(p) == 16000 && Least(UnitCost(p) * Batch(p), 0xFFFF_FFFF) == 0xFFFF_FFFF
  {}

  function TaskTypeFor(stage: byte): u16 {
    if stage == INFER then 2 else 1
  }

  ghost function StageTask(id: u64, node: u32, p: StagePayload): Task {
    Task(id, 0, 0, StageCost(p), node, TaskTypeFor(p.stage), EncodedStage(p))
  }

  /** The newest task of pool `k` carries stage `p`: each field of it at its offset, and nothing else. */
  ghost predicate NewestCarries(q: Queues, k: nat, id: u64, node: u32, p: StagePayload) {
    && k < |q.pools| && q.pools[k] != []
    && var t := q.pools[k][|q.pools[k]| - 1];
       && t.taskId == id && t.parentId == 0 && t.depth == 0 && t.originNode == node
       && t.costHint == StageCost(p) && StageAt(t.payload, p) && |t.payload| == 22
  }

  lemma StageQueued(q: Queues, k: nat, id: u64, node: u32, p: StagePayload)
    requires k < |q.pools|
    ensures NewestCarries(AddPool(q, k, StageTask(id, node, p)), k, id, node, p)
  {
    StageLayoutIff([], p);
    hide StageAt, StageCost, EncodedStage;
  }

  // ---------------------------------------------------------------- the record of requests

  datatype Job = Job(done: bool, stage: byte, kind: byte)

  function DoneJobs(jobs: map<u64, Job>): set<u64> {
    set r | r in jobs && jobs[r].done
  }

  /** The stage written into the record is the one after the stage that ended; the byte wraps. */
  function JobsAfter(jobs: map<u64, Job>, p: StagePayload): map<u64, Job> {
    if p.requestId !in jobs then jobs
    else if p.stage != POSTPROCESS then jobs[p.requestId := jobs[p.requestId].(stage := (p.stage + 1) % 256)]
    else if jobs[p.requestId].done then jobs
    else jobs[p.requestId := jobs[p.requestId].(done := true, stage := POSTPROCESS)]
  }

  /** Ending a stage finishes at most the request it belongs to, and finishes it only at the last stage. */
  lemma DoneAfter(jobs: map<u64, Job>, p: StagePayload)
    ensures JobsAfter(jobs, p).Keys == jobs.Keys
    ensures DoneJobs(JobsAfter(jobs, p))
         == DoneJobs(jobs) + if p.requestId in jobs && p.stage == POSTPROCESS then {p.requestId} else {}
    ensures |DoneJobs(JobsAfter(jobs, p))| <= |DoneJobs(jobs)| + 1
  {
    var after := JobsAfter(jobs, p);
    forall r
      ensures r in DoneJobs(after) <==> r in DoneJobs(jobs)
                                        || (r == p.requestId && p.requestId in jobs && p.stage == POSTPROCESS)
    {}
    assert DoneJobs(after)
        == DoneJobs(jobs) + if p.requestId in jobs && p.stage == POSTPROCESS then {p.requestId} else {};
  }

  /** The record and the count of the transition system are this class's record and count. */
  ghost predicate Models(j: Cluster.Jobs, jobs: map<u64, Job>, completed: nat) {
    && j.completed == completed
    && (forall r :: r in j.done <==> 0 <= r < 0x1_0000_0000_0000_0000 && r in jobs)
    && (forall r :: r in jobs ==> r in j.done && j.done[r] == jobs[r].done)
  }

  /** One call of the observer is the step the transition system takes for it. */
  lemma ObserverRefines(n: Cluster.Node, p: StagePayload, jobs: map<u64, Job>, completed: nat)
    requires Models(n.jobs, jobs, completed)
    ensures Models(Cluster.OnStageDone(n, p).jobs, JobsAfter(jobs, p),
                   completed + |DoneJobs(JobsAfter(jobs, p)) - DoneJobs(jobs)|)
  {
    DoneAfter(jobs, p);
    NewlyDone(jobs, p);
    hide DoneJobs, EncodedStage;
  }

  /** And the task that it submits carries what the class's task carries. */
  lemma SuccessorRefines(n: Cluster.Node, p: StagePayload, id: u64, node: u32)
    ensures Cluster.OnStageDone(n, p).ledger ==
            if p.stage < POSTPROCESS then
              var payload := StageTask(id, node, p.(stage := p.stage + 1)).payload;
              n.ledger[n.nextId := Cluster.Entry(Cluster.Entering(true), Cluster.Portable(payload))]
            else n.ledger
  {
    hide EncodedStage;
  }

  lemma NewlyDone(jobs: map<u64, Job>, p: StagePayload)
    ensures |DoneJobs(JobsAfter(jobs, p)) - DoneJobs(jobs)|
         == if p.requestId in jobs && p.stage == POSTPROCESS && !jobs[p.requestId].done then 1 else 0
  {
    DoneAfter(jobs, p);
    var added := DoneJobs(JobsAfter(jobs, p)) - DoneJobs(jobs);
    if p.requestId in jobs && p.stage == POSTPROCESS && !jobs[p.requestId].done {
      assert added == {p.requestId};
    } else {
      assert added == {};
    }
  }

  /** The stage the observer sees in a task, and the one that follows it. */
  ghost function StageOfTask(t: Task): Option<StagePayload> {
    if t.payload == [] then None else StageOf(t.payload)
  }

  ghost function Successor(t: Task): Option<StagePayload> {
    match StageOfTask(t)
    case None => None
    case Some(p) => if p.stage < POSTPROCESS then Some(p.(stage := p.stage + 1)) else None
  }

  // ---------------------------------------------------------------- the manager

  class JobManager {
    const runtime: Runtime
    var jobs: map<u64, Job>
    var nextRequestId: u64
    var submitted: nat
    var completed: nat

    /** JobManager's own count is the number of requests that are done. */
    ghost predicate Valid()
      reads this
    {
      completed == |DoneJobs(jobs)|
    }

    constructor (runtime: Runtime)
      ensures Valid() && this.runtime == runtime && jobs == map[] && nextRequestId == 1 && submitted == 0
    {
      this.runtime := runtime;
      jobs, nextRequestId, submitted, completed := map[], 1, 0, 0;
    }

    /** The request is recorded before its first stage is submitted. */
    method Submit(kind: byte, imagePixels: u32, sequenceLength: u32, batchSize: u32) returns (id: u64)
      requires Valid() && runtime.Valid()
      modifies this, runtime, runtime.pools
      ensures Valid() && runtime.Valid()
      ensures id == old(nextRequestId) && nextRequestId == (id + 1) % 0x1_0000_0000_0000_0000
      ensures jobs == if id in old(jobs) then old(jobs) else old(jobs)[id := Job(false, DECODE, kind)]
      ensures submitted == old(submitted) + 1 && completed == old(completed)
      ensures runtime.submitted == old(runtime.submitted) + 1 && runtime.completed == old(runtime.completed)
      ensures runtime.trace == old(runtime.trace) + [Submitted]
      ensures var p := StagePayload(id, kind, DECODE, imagePixels, sequenceLength, batchSize);
              && runtime.View() == AddPool(old(runtime.View()), TaskTypeFor(DECODE),
                                           StageTask(old(runtime.nextId), old(runtime.nodeId), p))
              && NewestCarries(runtime.View(), 1, old(runtime.nextId), old(runtime.nodeId), p)
    {
      hide Runtime.Valid, Runtime.View, StageTask, AddPool, DoneJobs, NewestCarries;
      ghost var q := runtime.View();
      id := Record(kind);
      var p := StagePayload(id, kind, DECODE, imagePixels, sequenceLength, batchSize);
      StageQueued(q, 1, runtime.nextId, runtime.nodeId, p);
      SubmitStage(p);
    }

    method Record(kind: byte) returns (id: u64)
      requires Valid()
      modifies this
      ensures Valid() && completed == old(completed)
      ensures id == old(nextRequestId) && nextRequestId == (id + 1) % 0x1_0000_0000_0000_0000
      ensures jobs == if id in old(jobs) then old(jobs) else old(jobs)[id := Job(false, DECODE, kind)]
      ensures submitted == old(submitted) + 1
    {
      id := nextRequestId;
      nextRequestId := (nextRequestId + 1) % 0x1_0000_0000_0000_0000;
      if id !in jobs {
        assert DoneJobs(jobs[id := Job(false, DECODE, kind)]) == DoneJobs(jobs);
        jobs := jobs[id := Job(false, DECODE, kind)];
      }
      submitted := submitted + 1;
    }

    method SubmitStage(p: StagePayload)
      requires runtime.Valid()
      modifies runtime, runtime.pools
      ensures runtime.Valid()
      ensures runtime.submitted == old(runtime.submitted) + 1 && runtime.completed == old(runtime.completed)
      ensures runtime.localExecuted == old(runtime.localExecuted) && runtime.trace == old(runtime.trace) + [Submitted]
      ensures runtime.View() == AddPool(old(runtime.View()), TaskTypeFor(p.stage),
                                        StageTask(old(runtime.nextId), old(runtime.nodeId), p))
    {
      hide Runtime.Valid, Runtime.View, StageCost, EncodedStage;
      var bytes := EncodeStage(p);
      runtime.SubmitPortable(TaskTypeFor(p.stage), bytes, StageCost(p));
    }

    method OnStageDone(p: StagePayload)
      requires Valid() && runtime.Valid()
      modifies this, runtime, runtime.pools
      ensures Valid() && runtime.Valid()
      ensures jobs == JobsAfter(old(jobs), p)
      ensures jobs.Keys == old(jobs).Keys
      ensures forall r :: r in old(jobs) && r != p.requestId ==> jobs[r] == old(jobs)[r]
      ensures p.requestId in old(jobs) ==>
                var was, now := old(jobs)[p.requestId], jobs[p.requestId];
                && now.kind == was.kind && (now.done <==> was.done || p.stage == 3)
                && (p.stage < 3 ==> now.stage == p.stage + 1)
                && (p.stage == 3 ==> now.stage == if was.done then was.stage else 3)
                && (3 < p.stage < 255 ==> now.stage == p.stage + 1) && (p.stage == 255 ==> now.stage == 0)
      ensures nextRequestId == old(nextRequestId) && submitted == old(submitted)
      ensures runtime.completed == old(runtime.completed) && runtime.localExecuted == old(runtime.localExecuted)
      ensures runtime.trace == old(runtime.trace) + if p.stage < POSTPROCESS then [Submitted] else []
      ensures if p.stage < POSTPROCESS then
                && runtime.submitted == old(runtime.submitted) + 1
                && runtime.View() == AddPool(old(runtime.View()), TaskTypeFor(p.stage + 1),
                     StageTask(old(runtime.nextId), old(runtime.nodeId), p.(stage := p.stage + 1)))
                && NewestCarries(runtime.View(), if p.stage == 1 then 2 else 1, old(runtime.nextId),
                                 old(runtime.nodeId), p.(stage := p.stage + 1))
              else runtime.submitted == old(runtime.submitted) && runtime.View() == old(runtime.View())
    {
      hide Runtime.Valid, Runtime.View, StageTask, AddPool, DoneJobs, NewestCarries;
      DoneAfter(jobs, p);
      NewlyDone(jobs, p);
      if p.stage < POSTPROCESS {
        StageQueued(runtime.View(), if p.stage == 1 then 2 else 1, runtime.nextId, runtime.nodeId,
                    p.(stage := p.stage + 1));
        SubmitStage(p.(stage := p.stage + 1));
      } else if p.stage == POSTPROCESS {
        if p.requestId in jobs && !jobs[p.requestId].done {
          jobs := jobs[p.requestId := jobs[p.requestId].(done := true, stage := POSTPROCESS)];
          completed := completed + 1;
        }
        return;
      }
      if p.requestId in jobs {
        jobs := jobs[p.requestId := jobs[p.requestId].(stage := (p.stage + 1) % 256)];
      }
    }

    /** The observer the constructor installs. */
    method Observe(t: Task)
      requires Valid() && runtime.Valid()
      modifies this, runtime, runtime.pools
      ensures Valid() && runtime.Valid()
      ensures runtime.completed == old(runtime.completed) && runtime.localExecuted == old(runtime.localExecuted)
      ensures jobs == if StageOfTask(t).None? then old(jobs) else JobsAfter(old(jobs), StageOfTask(t).value)
      ensures var next := Successor(t);
              && runtime.trace == old(runtime.trace) + [Observed(t)] + (if next.Some? then [Submitted] else [])
              && runtime.submitted == old(runtime.submitted) + (if next.Some? then 1 else 0)
              && runtime.View() == if next.None? then old(runtime.View())
                 else AddPool(old(runtime.View()), TaskTypeFor(next.value.stage),
                              StageTask(old(runtime.nextId), old(runtime.nodeId), next.value))
    {
      hide Runtime.Valid, Runtime.View, StageTask, AddPool, JobsAfter, StageOf, TaskTypeFor, NewestCarries;
      runtime.trace := runtime.trace + [Observed(t)];
      if t.payload == [] {
        return;
      }
      var ok, p := DecodeStage(t.payload);
      if ok {
        OnStageDone(p);
      }
    }

    /**
      `on_task_complete` (`here`) and `on_remote_task_complete`: the observer first, and the stage it
      submits is counted before this task is.  A task whose payload is empty or is no stage only lowers
      what is pending; one that carries a stage with a successor leaves it as it was, and never lower in
      between.
     */
    method CompleteTask(t: Task, here: bool)
      requires Valid() && runtime.Valid()
      modifies this, runtime, runtime.pools
      ensures Valid() && runtime.Valid()
      ensures runtime.completed == old(runtime.completed) + 1
      ensures runtime.localExecuted == old(runtime.localExecuted) + if here then 1 else 0
      ensures jobs == if StageOfTask(t).None? then old(jobs) else JobsAfter(old(jobs), StageOfTask(t).value)
      ensures var next := Successor(t);
              && runtime.trace == old(runtime.trace) + [Observed(t)] + (if next.Some? then [Submitted] else [])
                                  + [Completed]
              && runtime.submitted == old(runtime.submitted) + (if next.Some? then 1 else 0)
              && runtime.View() == if next.None? then old(runtime.View())
                 else AddPool(old(runtime.View()), TaskTypeFor(next.value.stage),
                              StageTask(old(runtime.nextId), old(runtime.nodeId), next.value))
    {
      hide Runtime.Valid, Runtime.View, StageTask, AddPool, JobsAfter, StageOfTask, Successor, TaskTypeFor, DoneJobs;
      if here {
        runtime.localExecuted := runtime.localExecuted + 1;
      }
      Observe(t);
      runtime.FinishOne();
    }
  }
}
