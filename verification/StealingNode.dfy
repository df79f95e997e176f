/**
  The origin's side of a remote steal, in the source's own form: src/cluster/Node.cpp serving steal
  requests, keeping the table of tasks out on thieves, and reaping those that timed out.
 */
module StealingNode {
  import opened Arithmetic
  import opened Counting
  import opened RuntimeQueues
  import opened Tasks

  datatype OutstandingTask = OutstandingTask(task: Task, thiefNode: u32, sentMs: int)

  type Table = map<u64, OutstandingTask>

  /** `emplace`: an id that is already there keeps its entry. */
  function Emplace(o: Table, t: Task, thief: u32, now: int): Table {
    if t.taskId in o then o else o[t.taskId := OutstandingTask(t, thief, now)]
  }

  /** The table after every task of a response is tracked; `clock(i)` is what the clock reads for task `i`. */
  function Tracked(o: Table, tasks: seq<Task>, thief: u32, clock: nat -> int): Table {
    if tasks == [] then o
    else
      var n := |tasks| - 1;
      Emplace(Tracked(o, tasks[..n], thief, clock), tasks[n], thief, clock(n))
  }

  function Ids(tasks: seq<Task>): set<u64> {
    set t | t in tasks :: t.taskId
  }

  lemma {:induction false} TrackedKeys(o: Table, tasks: seq<Task>, thief: u32, clock: nat -> int)
    ensures Tracked(o, tasks, thief, clock).Keys == o.Keys + Ids(tasks)
    ensures forall id :: id in o ==> Tracked(o, tasks, thief, clock)[id] == o[id]
  {
    if tasks != [] {
      var n := |tasks| - 1;
      TrackedKeys(o, tasks[..n], thief, clock);
      assert tasks == tasks[..n] + [tasks[n]];
      assert Ids(tasks) == Ids(tasks[..n]) + {tasks[n].taskId};
      hide Ids;
    }
  }

  ghost predicate DistinctIds(tasks: seq<Task>) {
    forall i, j :: 0 <= i < j < |tasks| ==> tasks[i].taskId != tasks[j].taskId
  }

  lemma {:induction false} TrackedAt(o: Table, tasks: seq<Task>, thief: u32, clock: nat -> int, i: nat)
    requires i < |tasks| && tasks[i].taskId !in o && DistinctIds(tasks)
    ensures tasks[i].taskId in Tracked(o, tasks, thief, clock)
    ensures Tracked(o, tasks, thief, clock)[tasks[i].taskId] == OutstandingTask(tasks[i], thief, clock(i))
  {
    var n := |tasks| - 1;
    if i < n {
      TrackedAt(o, tasks[..n], thief, clock, i);
    } else {
      TrackedKeys(o, tasks[..n], thief, clock);
      assert tasks[n].taskId !in Ids(tasks[..n]);
    }
  }

  /** With fresh ids every task handed out is on record, with its thief and time, and nothing else changed. */
  lemma {:induction false} TrackedAll(o: Table, tasks: seq<Task>, thief: u32, clock: nat -> int)
    requires DistinctIds(tasks) && Ids(tasks) !! o.Keys
    ensures var after := Tracked(o, tasks, thief, clock);
            && after.Keys == o.Keys + Ids(tasks)
            && (forall id :: id in o ==> after[id] == o[id])
            && (forall i :: 0 <= i < |tasks| ==>
                  tasks[i].taskId in after && after[tasks[i].taskId] == OutstandingTask(tasks[i], thief, clock(i)))
  {
    TrackedKeys(o, tasks, thief, clock);
    forall i | 0 <= i < |tasks|
      ensures tasks[i].taskId in Tracked(o, tasks, thief, clock)
      ensures Tracked(o, tasks, thief, clock)[tasks[i].taskId] == OutstandingTask(tasks[i], thief, clock(i))
    {
      assert tasks[i].taskId in Ids(tasks);
      TrackedAt(o, tasks, thief, clock, i);
    }
    hide Tracked, Ids;
  }

  /** The entries strictly older than the timeout. */
  function Expired(o: Table, now: int, timeout: int): set<u64> {
    set id | id in o && now - o[id].sentMs > timeout
  }

  /** A blank task that carries only an id: there is nothing in it for the observer to advance. */
  function Blank(id: u64): Task {
    Task(id, 0, 0, 1, 0, 0, [])
  }

  function ReapedTasks(o: Table, ids: seq<u64>): (r: seq<Task>)
    requires forall i :: 0 <= i < |ids| ==> ids[i] in o
    ensures |r| == |ids|
  {
    seq(|ids|, i requires 0 <= i < |ids| => o[ids[i]].task)
  }

  /** What the reaper's second loop leaves on the runtime's trace: each re-run is counted before its original
      is settled. */
  function Settlings(tasks: seq<Task>): seq<Mark> {
    if tasks == [] then []
    else
      var n := |tasks| - 1;
      Settlings(tasks[..n]) + [Submitted, Observed(Blank(tasks[n].taskId)), Completed]
  }

  /** At no moment of a reaper's pass is less pending than before it, so `wait_all` cannot slip through. */
  lemma {:induction false} SettlingsNeverDip(tasks: seq<Task>, i: nat)
    requires i <= |Settlings(tasks)|
    ensures 0 <= Net(Settlings(tasks)[..i]) <= 1
    ensures i == |Settlings(tasks)| ==> Net(Settlings(tasks)[..i]) == 0
    decreases |tasks|
  {
    if tasks != [] {
      var n := |tasks| - 1;
      var before, all := Settlings(tasks[..n]), Settlings(tasks);
      var turn := [Submitted, Observed(Blank(tasks[n].taskId)), Completed];
      assert all == before + turn;
      hide Settlings;
      if i <= |before| {
        SettlingsNeverDip(tasks[..n], i);
        assert all[..i] == before[..i];
      } else {
        SettlingsNeverDip(tasks[..n], |before|);
        assert before[..|before|] == before;
        assert all[..i] == before + turn[..i - |before|];
        TurnNet(before, tasks[n].taskId, i - |before|);
      }
    }
  }

  lemma TurnNet(before: seq<Mark>, id: u64, k: nat)
    requires 0 < k <= 3
    ensures Net(before + [Submitted, Observed(Blank(id)), Completed][..k]) == Net(before) + if k == 3 then 0 else 1
  {
    var turn := [Submitted, Observed(Blank(id)), Completed];
    var t1, t2, t3 := before + turn[..1], before + turn[..2], before + turn[..3];
    assert t1[..|before|] == before && t1[|before|] == Submitted;
    assert Net(t1) == Net(before) + 1;
    assert t2[..|before| + 1] == t1 && t2[|before| + 1].Observed?;
    assert Net(t2) == Net(t1);
    assert t3[..|before| + 2] == t2 && t3[|before| + 2] == Completed;
    assert Net(t3) == Net(t2) - 1;
  }

  function FreshId(first: u64, i: nat): u64 {
    (first + i) % 0x1_0000_0000_0000_0000
  }

  /** The re-runs: the same tasks under new ids. */
  function Renamed(tasks: seq<Task>, first: u64): (r: seq<Task>)
    ensures |r| == |tasks|
  {
    seq(|tasks|, i requires 0 <= i < |tasks| => tasks[i].(taskId := FreshId(first, i)))
  }

  /** The `i`-th injection queue from counter value `next` on, of `m`; the counter wraps at 32 bits. */
  function Turn(next: u32, i: nat, m: nat): (k: nat)
    requires m > 0
    ensures k < m
  {
    ((next + i) % 0x1_0000_0000) % m
  }

  /** `tasks` spread over the injection queues from counter value `next` on. */
  function Spread(row: seq<seq<Task>>, next: u32, tasks: seq<Task>): (r: seq<seq<Task>>)
    requires |row| > 0
    ensures |r| == |row|
  {
    if tasks == [] then row
    else
      var n := |tasks| - 1;
      var before := Spread(row, next, tasks[..n]);
      var k := Turn(next, n, |row|);
      before[k := before[k] + [tasks[n]]]
  }

  lemma SpreadLast(row: seq<seq<Task>>, next: u32, tasks: seq<Task>)
    requires |row| > 0 && tasks != []
    ensures var n := |tasks| - 1;
            var before := Spread(row, next, tasks[..n]);
            var k := Turn(next, n, |row|);
            Spread(row, next, tasks) == before[k := before[k] + [tasks[n]]]
  {}

  /** The re-runs are all queued, each once, and nothing that was queued is lost. */
  lemma {:induction false} SpreadKeeps(row: seq<seq<Task>>, next: u32, tasks: seq<Task>)
    requires |row| > 0
    ensures multiset(Flat(Spread(row, next, tasks))) == multiset(Flat(row)) + multiset(tasks)
  {
    if tasks != [] {
      var n := |tasks| - 1;
      var k := Turn(next, n, |row|);
      hide Flat, Turn;
      SpreadKeeps(row, next, tasks[..n]);
      SpreadLast(row, next, tasks);
      hide Spread;
      AddToRow(Spread(row, next, tasks[..n]), k, tasks[n]);
      LastOne(tasks);
    }
  }

  lemma LastOne(tasks: seq<Task>)
    requires tasks != []
    ensures multiset(tasks) == multiset(tasks[..|tasks| - 1]) + multiset{tasks[|tasks| - 1]}
  {
    assert tasks == tasks[..|tasks| - 1] + [tasks[|tasks| - 1]];
  }

  /** `tasks` were taken off the head of the line, and only pools were touched. */
  ghost predicate Given(was: Queues, preferred: nat, tasks: seq<Task>, now: Queues) {
    && Line(was.pools, preferred) == tasks + Line(now.pools, preferred)
    && Suffixes(was.pools, now.pools) && now == was.(pools := now.pools)
  }

  /** What one `take_portable` does to the line. */
  lemma TookFromLine(q: Queues, preferred: nat, out: Option<Task>, after: Queues)
    requires var k := PoolChoice(q.pools, preferred); Took(q, Pool(k), k >= |q.pools|, out, after)
    ensures after == q.(pools := after.pools)
    ensures out.None? <==> Line(q.pools, preferred) == []
    ensures Line(q.pools, preferred) == (if out.Some? then [out.value] else []) + Line(after.pools, preferred)
  {
    var k := PoolChoice(q.pools, preferred);
    LineEmpty(q.pools, preferred);
    if k < |q.pools| {
      LineHead(q.pools, preferred, k);
      assert q.pools[k][1..] == after.pools[k];
    }
    hide Line, PoolChoice, Flat;
  }

  lemma TookSuffix(was: seq<seq<Task>>, q: Queues, preferred: nat, out: Option<Task>, after: Queues)
    requires Suffixes(was, q.pools) && out.Some?
    requires var k := PoolChoice(q.pools, preferred); Took(q, Pool(k), k >= |q.pools|, out, after)
    ensures Suffixes(was, after.pools)
  {
    hide Flat, PoolChoice, Suffixes;
    var k := PoolChoice(q.pools, preferred);
    assert q.pools[k][1..] == after.pools[k];
    SuffixesOneMore(was, q.pools, k);
  }

  lemma GivenNothing(q: Queues, preferred: nat)
    ensures Given(q, preferred, [], q)
  {
    hide Line;
  }

  lemma GivenOneMore(was: Queues, preferred: nat, tasks: seq<Task>, q: Queues, out: Option<Task>, after: Queues)
    requires Given(was, preferred, tasks, q)
    requires var k := PoolChoice(q.pools, preferred); Took(q, Pool(k), k >= |q.pools|, out, after)
    ensures out.None? ==> Given(was, preferred, tasks, after) && |tasks| == |Line(was.pools, preferred)|
    ensures out.Some? ==> Given(was, preferred, tasks + [out.value], after)
  {
    TookFromLine(q, preferred, out, after);
    if out.Some? {
      TookSuffix(was.pools, q, preferred, out, after);
    }
    hide Line, PoolChoice, Suffixes;
    if out.Some? {
      hide Took;
      assert tasks + ([out.value] + Line(after.pools, preferred)) == tasks + [out.value] + Line(after.pools, preferred);
    }
  }

  lemma GivenAtMostLine(was: Queues, preferred: nat, tasks: seq<Task>, now: Queues)
    requires Given(was, preferred, tasks, now)
    ensures |tasks| + |Flat(now.pools)| == |Flat(was.pools)| == |Line(was.pools, preferred)|
  {
    LineLength(was.pools, preferred);
    LineLength(now.pools, preferred);
    hide Line, Flat, Suffixes;
  }

  /** What is given away comes from the preferred pool, oldest first, and only then from the others. */
  lemma GivenInOrder(was: Queues, preferred: nat, tasks: seq<Task>, now: Queues)
    requires Given(was, preferred, tasks, now)
    ensures preferred < |was.pools| ==>
              tasks <= was.pools[preferred] + Flat(was.pools[preferred := []])
    ensures preferred >= |was.pools| ==> tasks <= Flat(was.pools)
  {
    hide Flat, Suffixes;
  }

  /** The runtime's queues after `tasks` were submitted again: the pools and the deques are as before. */
  function Requeued(q: Queues, next: u32, first: u64, tasks: seq<Task>): Queues
  {
    if q.injected == [] then q
    else q.(injected := Spread(q.injected, next, Renamed(tasks, first)))
  }

  lemma ElementsOneMore(ids: seq<u64>, id: u64)
    requires Distinct(ids) && id !in Elements(ids)
    ensures Distinct(ids + [id]) && Elements(ids + [id]) == Elements(ids) + {id}
  {}

  lemma NothingRequeued(q: Queues, next: u32, first: u64)
    ensures Requeued(q, next, first, []) == q && FreshId(first, 0) == first && Settlings([]) == []
  {}

  lemma CountersOneMore(next: u32, first: u64, i: nat)
    ensures FreshId(FreshId(first, i), 1) == FreshId(first, i + 1)
    ensures ((next + i) % 0x1_0000_0000 + 1) % 0x1_0000_0000 == (next + i + 1) % 0x1_0000_0000
  {
    WrapOneMore(first + i, 0x1_0000_0000_0000_0000);
    WrapOneMore(next + i, 0x1_0000_0000);
  }

  lemma WrapOneMore(x: nat, m: nat)
    requires m > 0
    ensures (x % m + 1) % m == (x + 1) % m
  {
    var q := x / m;
    if x % m + 1 < m {
      DivModUnique(x + 1, m, q, x % m + 1);
    } else {
      assert x + 1 == m * (q + 1);
      DivModUnique(x + 1, m, q + 1, 0);
      DivModUnique(m, m, 1, 0);
    }
  }

  lemma SettlingsOneMore(tasks: seq<Task>, i: nat)
    requires i < |tasks|
    ensures Settlings(tasks[..i + 1])
         == Settlings(tasks[..i]) + [Submitted, Observed(Blank(tasks[i].taskId)), Completed]
  {
    assert tasks[..i + 1][..i] == tasks[..i];
  }

  lemma RenamedOneMore(tasks: seq<Task>, first: u64, i: nat)
    requires i < |tasks|
    ensures Renamed(tasks[..i + 1], first)[..i] == Renamed(tasks[..i], first)
    ensures Renamed(tasks[..i + 1], first)[i] == tasks[i].(taskId := FreshId(first, i))
  {
    hide FreshId;
  }

  lemma RequeuedOneMore(q: Queues, next: u32, first: u64, tasks: seq<Task>, i: nat)
    requires i < |tasks| && |q.injected| > 0
    ensures |Requeued(q, next, first, tasks[..i]).injected| == |q.injected|
    ensures Requeued(q, next, first, tasks[..i + 1])
         == AddInjected(Requeued(q, next, first, tasks[..i]), ((next + i) % 0x1_0000_0000) % |q.injected|,
                        tasks[i].(taskId := FreshId(first, i)))
  {
    RenamedOneMore(tasks, first, i);
    hide FreshId, Renamed;
    SpreadLast(q.injected, next, Renamed(tasks[..i + 1], first));
    hide Spread;
  }

  /** A reaper pass loses nothing that was queued and queues every recovered task once, out of thieves' reach. */
  lemma RequeuedKeepsAll(q: Queues, next: u32, first: u64, tasks: seq<Task>)
    requires q.injected != []
    ensures var after := Requeued(q, next, first, tasks);
            && AllTasks(after) == AllTasks(q) + multiset(Renamed(tasks, first))
            && after.pools == q.pools && after.local == q.local
  {
    hide Flat, Renamed, Spread;
    SpreadKeeps(q.injected, next, Renamed(tasks, first));
    Reorder(multiset(Flat(q.local)), multiset(Flat(q.injected)), multiset(Flat(q.pools)),
            multiset(Renamed(tasks, first)));
  }

  /** A steal moves tasks from the pools into the response: none is lost, copied or made up. */
  lemma GivenConserves(was: Queues, preferred: nat, tasks: seq<Task>, now: Queues)
    requires Given(was, preferred, tasks, now)
    ensures AllTasks(was) == AllTasks(now) + multiset(tasks)
  {
    LineTasks(was.pools, preferred);
    LineTasks(now.pools, preferred);
    hide Flat, Line, Suffixes;
    assert multiset(Line(was.pools, preferred)) == multiset(tasks) + multiset(Line(now.pools, preferred));
  }

  lemma LineTasks(pools: seq<seq<Task>>, preferred: nat)
    ensures multiset(Line(pools, preferred)) == multiset(Flat(pools))
  {
    if preferred < |pools| {
      FlatUpdate(pools, preferred, [], pools[preferred]);
    }
    hide Flat;
  }

  /** Each re-run is in the injection queue whose turn it was. */
  lemma {:induction false} SpreadPlaces(row: seq<seq<Task>>, next: u32, tasks: seq<Task>, i: nat)
    requires |row| > 0 && i < |tasks|
    ensures tasks[i] in Spread(row, next, tasks)[((next + i) % 0x1_0000_0000) % |row|]
    decreases |tasks|
  {
    var n := |tasks| - 1;
    SpreadLast(row, next, tasks);
    if i < n {
      SpreadPlaces(row, next, tasks[..n], i);
      hide Spread;
      assert tasks[..n][i] == tasks[i];
    }
  }

  /** Every recovered task is queued again as it was, but for its id, and nothing else has changed. */
  lemma RequeuedPlaces(q: Queues, next: u32, first: u64, tasks: seq<Task>)
    requires q.injected != []
    ensures var after := Requeued(q, next, first, tasks);
            && |after.injected| == |q.injected| && after.pools == q.pools && after.local == q.local
            && AllTasks(q) <= AllTasks(after) && |AllTasks(after)| == |AllTasks(q)| + |tasks|
            && (forall i {:trigger tasks[i]} :: 0 <= i < |tasks| ==>
                  tasks[i].(taskId := (first + i) % 0x1_0000_0000_0000_0000)
                  in after.injected[((next + i) % 0x1_0000_0000) % |q.injected|])
  {
    RequeuedKeepsAll(q, next, first, tasks);
    EmptyMultiset(Renamed(tasks, first));
    forall i {:trigger tasks[i]} | 0 <= i < |tasks|
      ensures tasks[i].(taskId := (first + i) % 0x1_0000_0000_0000_0000)
              in Requeued(q, next, first, tasks).injected[((next + i) % 0x1_0000_0000) % |q.injected|]
    {
      SpreadPlaces(q.injected, next, Renamed(tasks, first), i);
      hide Spread;
      assert Renamed(tasks, first)[i] == tasks[i].(taskId := (first + i) % 0x1_0000_0000_0000_0000);
    }
    hide Spread, Renamed, Flat, AllTasks;
  }

  /** Each of the entries `ids` has its task in the injection queue whose turn it was, unchanged but for the id. */
  ghost predicate QueuedAgain(o: Table, ids: seq<u64>, next: u32, first: u64, injected: seq<seq<Task>>)
    requires injected != []
  {
    forall i :: 0 <= i < |ids| ==>
      && ids[i] in o
      && o[ids[i]].task.(taskId := (first + i) % 0x1_0000_0000_0000_0000)
         in injected[((next + i) % 0x1_0000_0000) % |injected|]
  }

  /** The observer is shown nothing that it could take for a stage. */
  lemma {:induction false} SettlingsAreBlank(tasks: seq<Task>, k: nat)
    requires k < |Settlings(tasks)| && Settlings(tasks)[k].Observed?
    ensures Settlings(tasks)[k].task.payload == []
  {
    if tasks != [] {
      var n := |tasks| - 1;
      if k < |Settlings(tasks[..n])| {
        SettlingsAreBlank(tasks[..n], k);
      }
    }
  }

  lemma TraceIsBlank(before: seq<Mark>, tasks: seq<Task>)
    ensures var trace := before + Settlings(tasks);
            forall k :: |before| <= k < |trace| && trace[k].Observed? ==> trace[k].task.payload == []
  {
    hide Settlings;
    forall k | 0 <= k < |Settlings(tasks)| && Settlings(tasks)[k].Observed?
      ensures Settlings(tasks)[k].task.payload == []
    {
      SettlingsAreBlank(tasks, k);
    }
  }

  lemma ReapedAgain(o: Table, ids: seq<u64>, q: Queues, next: u32, first: u64)
    requires q.injected != [] && forall i :: 0 <= i < |ids| ==> ids[i] in o
    ensures var after := Requeued(q, next, first, ReapedTasks(o, ids)).injected;
            |after| == |q.injected| && QueuedAgain(o, ids, next, first, after)
  {
    var tasks := ReapedTasks(o, ids);
    RequeuedPlaces(q, next, first, tasks);
    hide Requeued, AllTasks;
    forall i | 0 <= i < |ids|
      ensures o[ids[i]].task.(taskId := (first + i) % 0x1_0000_0000_0000_0000)
              in Requeued(q, next, first, tasks).injected[((next + i) % 0x1_0000_0000) % |q.injected|]
    {
      assert tasks[i] == o[ids[i]].task;
    }
  }

  class Node {
    const runtime: Runtime
    const taskTimeoutMs: int
    var outstanding: Table
    var stolenOut: nat
    var tasksReassigned: nat

    constructor (runtime: Runtime, taskTimeoutMs: int)
      ensures this.runtime == runtime && this.taskTimeoutMs == taskTimeoutMs
      ensures outstanding == map[] && stolenOut == 0 && tasksReassigned == 0
    {
      this.runtime, this.taskTimeoutMs := runtime, taskTimeoutMs;
      outstanding, stolenOut, tasksReassigned := map[], 0, 0;
    }

    /** One steal request: steal-half, capped, preferred type first; what is given away is on record before
        the response is sent. */
    method ServeSteal(maxTasks: u32, preferred: u16, requester: u32, clock: nat -> int)
      returns (tasks: seq<Task>, victimPending: nat)
      requires runtime.Valid()
      modifies this, runtime.pools
      ensures runtime.Valid()
      ensures var total := |Flat(old(runtime.View()).pools)|;
              && |tasks| <= maxTasks && (total >= 2 ==> 2 * |tasks| <= total)
              && (total >= 2 && |tasks| < maxTasks ==> total <= 2 * |tasks| + 1)
              && (total == 1 && maxTasks > 0 ==> |tasks| == 1) && (total == 0 ==> tasks == [])
      ensures var pools := old(runtime.View()).pools;
              && (preferred < TYPE_COUNT ==> tasks <= pools[preferred] + Flat(pools[preferred := []]))
              && (preferred >= TYPE_COUNT ==> tasks <= Flat(pools))
      ensures Given(old(runtime.View()), preferred, tasks, runtime.View())
      ensures victimPending == |Flat(old(runtime.View()).pools)| - |tasks|
      ensures outstanding == Tracked(old(outstanding), tasks, requester, clock)
      ensures stolenOut == old(stolenOut) + |tasks| && tasksReassigned == old(tasksReassigned)
    {
      hide Flat, Line, Given, Tracked, Runtime.Valid, Runtime.View;
      ghost var was := runtime.View();
      var available := runtime.PortableAvailable();
      var give := available / 2;
      if give == 0 && available > 0 {
        give := 1;
      }
      if give > maxTasks {
        give := maxTasks;
      }
      tasks := TakeUpTo(give, preferred);
      GivenAtMostLine(was, preferred, tasks, runtime.View());
      GivenInOrder(was, preferred, tasks, runtime.View());
      TrackAll(tasks, requester, clock);
      stolenOut := stolenOut + |tasks|;
      victimPending := runtime.PortableAvailable();
    }

    method TrackAll(tasks: seq<Task>, requester: u32, clock: nat -> int)
      modifies `outstanding
      ensures outstanding == Tracked(old(outstanding), tasks, requester, clock)
    {
      for i := 0 to |tasks|
        invariant outstanding == Tracked(old(outstanding), tasks[..i], requester, clock)
      {
        TrackOutstanding(tasks[i], requester, clock(i));
        assert tasks[..i + 1][..i] == tasks[..i];
      }
      assert tasks[..|tasks|] == tasks;
    }

    method TakeUpTo(give: nat, preferred: u16) returns (tasks: seq<Task>)
      requires runtime.Valid()
      modifies runtime.pools
      ensures runtime.Valid()
      ensures Given(old(runtime.View()), preferred, tasks, runtime.View())
      ensures |tasks| <= give && (|tasks| < give ==> |tasks| == |Line(old(runtime.View()).pools, preferred)|)
    {
      hide *;
      ghost var was := runtime.View();
      GivenNothing(was, preferred);
      tasks := [];
      while |tasks| < give
        invariant |tasks| <= give && runtime.Valid()
        invariant Given(was, preferred, tasks, runtime.View())
      {
        ghost var mid := runtime.View();
        var out := runtime.TakePortable(preferred);
        GivenOneMore(was, preferred, tasks, mid, out, runtime.View());
        if out.None? {
          return;
        }
        tasks := tasks + [out.value];
      }
    }

    method TrackOutstanding(t: Task, thief: u32, now: int)
      modifies `outstanding
      ensures outstanding == Emplace(old(outstanding), t, thief, now)
      ensures t.taskId in old(outstanding) ==> outstanding == old(outstanding)
      ensures t.taskId !in old(outstanding) ==>
                outstanding == old(outstanding)[t.taskId := OutstandingTask(t, thief, now)]
    {
      if t.taskId !in outstanding {
        outstanding := outstanding[t.taskId := OutstandingTask(t, thief, now)];
      }
    }

    /** A result: the task it names leaves the table and is completed, observed as it was handed out; a
        result that names no outstanding task is ignored. */
    method ResolveOutstanding(id: u64)
      modifies `outstanding, runtime`completed, runtime`trace
      ensures outstanding == old(outstanding) - {id}
      ensures if id in old(outstanding) then
                && runtime.completed == old(runtime.completed) + 1
                && runtime.trace == old(runtime.trace) + [Observed(old(outstanding)[id].task), Completed]
              else runtime.completed == old(runtime.completed) && runtime.trace == old(runtime.trace)
    {
      if id !in outstanding {
        assert outstanding - {id} == outstanding;
        return;
      }
      var finished := outstanding[id].task;
      outstanding := outstanding - {id};
      runtime.OnRemoteTaskComplete(finished);
    }

    /**
      One pass of the reaper at clock value `now`.  Exactly the entries strictly older than the timeout
      leave the table; each is queued again once, with everything but its id kept, in an injection queue
      where no thief can reach it; each original is settled with a blank task.  What is pending stays.
     */
    method ReapOutstanding(now: int) returns (ghost ids: seq<u64>)
      requires runtime.Valid() && |runtime.deques| > 0
      modifies this, runtime, runtime.deques, set d <- runtime.deques :: d.buffer.slots, runtime.injection
      ensures runtime.Valid()
      ensures Distinct(ids) && Elements(ids) == Expired(old(outstanding), now, taskTimeoutMs)
      ensures outstanding == old(outstanding) - Expired(old(outstanding), now, taskTimeoutMs)
      ensures forall id :: id in old(outstanding) ==>
                (id in ids <==> now - old(outstanding)[id].sentMs > taskTimeoutMs)
      ensures forall id :: id in outstanding ==> now - outstanding[id].sentMs <= taskTimeoutMs
      ensures runtime.View().pools == old(runtime.View()).pools && runtime.View().local == old(runtime.View()).local
      ensures AllTasks(old(runtime.View())) <= AllTasks(runtime.View())
      ensures |AllTasks(runtime.View())| == |AllTasks(old(runtime.View()))| + |ids|
      ensures QueuedAgain(old(outstanding), ids, old(runtime.injectionNext), old(runtime.nextId),
                          runtime.View().injected)
      ensures forall k :: |old(runtime.trace)| <= k < |runtime.trace| && runtime.trace[k].Observed? ==>
                runtime.trace[k].task.payload == []
      ensures tasksReassigned == old(tasksReassigned) + |ids| && stolenOut == old(stolenOut)
      ensures runtime.submitted == old(runtime.submitted) + |ids|
      ensures runtime.completed == old(runtime.completed) + |ids|
      ensures forall i :: 0 <= i < |ids| ==> ids[i] in old(outstanding)
      ensures var tasks := ReapedTasks(old(outstanding), ids);
              && runtime.trace == old(runtime.trace) + Settlings(tasks)
              && runtime.View() == Requeued(old(runtime.View()), old(runtime.injectionNext), old(runtime.nextId), tasks)
    {
      hide Requeued, Runtime.View, Runtime.Valid, AllTasks, Settlings, QueuedAgain;
      ghost var was, q, next, first := outstanding, runtime.View(), runtime.injectionNext, runtime.nextId;
      var lost;
      lost, ids := CollectExpired(now);
      RerunAll(lost);
      RequeuedPlaces(q, next, first, lost);
      ReapedAgain(was, ids, q, next, first);
      TraceIsBlank(old(runtime.trace), lost);
    }

    /** The loop under the lock. */
    method CollectExpired(now: int) returns (lost: seq<Task>, ghost ids: seq<u64>)
      modifies `outstanding
      ensures Distinct(ids) && Elements(ids) == Expired(old(outstanding), now, taskTimeoutMs)
      ensures outstanding == old(outstanding) - Expired(old(outstanding), now, taskTimeoutMs)
      ensures forall id :: id in old(outstanding) ==>
                (id in ids <==> now - old(outstanding)[id].sentMs > taskTimeoutMs)
      ensures forall id :: id in outstanding ==>
                id in old(outstanding) && outstanding[id] == old(outstanding)[id]
                && now - outstanding[id].sentMs <= taskTimeoutMs
      ensures (forall i :: 0 <= i < |ids| ==> ids[i] in old(outstanding)) && lost == ReapedTasks(old(outstanding), ids)
    {
      ghost var was := outstanding;
      var todo := outstanding.Keys;
      lost, ids := [], [];
      while todo != {}
        invariant todo <= was.Keys && Distinct(ids)
        invariant Elements(ids) == Expired(was, now, taskTimeoutMs) - todo
        invariant outstanding == was - Elements(ids)
        invariant forall i :: 0 <= i < |ids| ==> ids[i] in was
        invariant lost == ReapedTasks(was, ids)
        decreases todo
      {
        var id :| id in todo;
        todo := todo - {id};
        assert id !in Elements(ids);
        if now - outstanding[id].sentMs > taskTimeoutMs {
          lost := lost + [outstanding[id].task];
          outstanding := outstanding - {id};
          ElementsOneMore(ids, id);
          ids := ids + [id];
        }
      }
      assert forall id :: id in ids <==> id in Elements(ids);
    }

    /** One turn of the loop after it: submit the re-run, then cancel the original's debt. */
    method RerunOne(t: Task)
      requires runtime.Valid() && |runtime.deques| > 0
      modifies `tasksReassigned, runtime, runtime.deques, set d <- runtime.deques :: d.buffer.slots, runtime.injection
      ensures runtime.Valid() && forall d <- runtime.deques :: d.buffer == old(d.buffer)
      ensures tasksReassigned == old(tasksReassigned) + 1
      ensures runtime.submitted == old(runtime.submitted) + 1 && runtime.completed == old(runtime.completed) + 1
      ensures runtime.nextId == FreshId(old(runtime.nextId), 1)
      ensures runtime.injectionNext == (old(runtime.injectionNext) + 1) % 0x1_0000_0000
      ensures runtime.trace == old(runtime.trace) + [Submitted, Observed(Blank(t.taskId)), Completed]
      ensures runtime.View() == AddInjected(old(runtime.View()), old(runtime.injectionNext) % |runtime.deques|,
                                            t.(taskId := old(runtime.nextId)))
    {
      hide Runtime.View, Runtime.Valid;
      tasksReassigned := tasksReassigned + 1;
      runtime.SubmitTask(t, |runtime.deques|);
      runtime.OnRemoteTaskComplete(Blank(t.taskId));
    }

    method RerunAll(lost: seq<Task>)
      requires runtime.Valid() && |runtime.deques| > 0
      modifies `tasksReassigned, runtime, runtime.deques, set d <- runtime.deques :: d.buffer.slots, runtime.injection
      ensures runtime.Valid()
      ensures tasksReassigned == old(tasksReassigned) + |lost|
      ensures runtime.submitted == old(runtime.submitted) + |lost|
      ensures runtime.completed == old(runtime.completed) + |lost|
      ensures runtime.trace == old(runtime.trace) + Settlings(lost)
      ensures runtime.View() == Requeued(old(runtime.View()), old(runtime.injectionNext), old(runtime.nextId), lost)
    {
      hide Requeued, Runtime.View, Runtime.Valid, FreshId, Settlings, AddInjected;
      ghost var q, next, first := runtime.View(), runtime.injectionNext, runtime.nextId;
      NothingRequeued(q, next, first);
      for i := 0 to |lost|
        invariant runtime.Valid()
        invariant forall d <- runtime.deques :: d.buffer == old(d.buffer)
        invariant tasksReassigned == old(tasksReassigned) + i
        invariant runtime.submitted == old(runtime.submitted) + i
        invariant runtime.completed == old(runtime.completed) + i
        invariant runtime.nextId == FreshId(first, i) && runtime.injectionNext == (next + i) % 0x1_0000_0000
        invariant runtime.trace == old(runtime.trace) + Settlings(lost[..i])
        invariant runtime.View() == Requeued(q, next, first, lost[..i])
      {
        RerunOne(lost[i]);
        RequeuedOneMore(q, next, first, lost, i);
        CountersOneMore(next, first, i);
        SettlingsOneMore(lost, i);
      }
      assert lost[..|lost|] == lost;
    }
  }
}
