/**
  The queues of one runtime and the orders in which they are searched: src/runtime/InjectionQueue.cpp,
  src/runtime/Runtime.cpp, the search of Worker::run and the serving side of a steal in
  src/cluster/Node.cpp.  Each operation runs with no other thread in between.
 */
module RuntimeQueues {
  import opened Arithmetic
  import opened Counting
  import opened RingDeque
  import opened Tasks

  const INITIAL_CAPACITY: nat := 1024

  class InjectionQueue {
    var deque: seq<Task>

    constructor ()
      ensures deque == []
    {
      deque := [];
    }

    method Push(task: Task)
      modifies this
      ensures deque == old(deque) + [task]
    {
      deque := deque + [task];
    }

    /** First in, first out. */
    method Pop() returns (out: Option<Task>)
      modifies this
      ensures out.None? <==> old(deque) == []
      ensures old(deque) == (if out.Some? then [out.value] else []) + deque
    {
      if deque == [] {
        return None;
      }
      out := Some(deque[0]);
      deque := deque[1..];
    }

    method Size() returns (n: nat)
      ensures n == |deque|
    {
      n := |deque|;
    }
  }

  /** The order in which a runtime counts and observes. */
  datatype Mark = Submitted | Observed(task: Task) | Completed

  /** What a stretch of the trace adds to submitted less completed. */
  function Net(trace: seq<Mark>): int {
    if trace == [] then 0
    else
      var n := |trace| - 1;
      Net(trace[..n]) + if trace[n].Submitted? then 1 else if trace[n].Completed? then -1 else 0
  }

  // ---------------------------------------------------------------- what the queues hold

  /** The contents of every queue of a runtime: one deque and one injection queue for each worker, one
      pool for each task type. */
  datatype Queues = Queues(local: seq<seq<Task>>, injected: seq<seq<Task>>, pools: seq<seq<Task>>)

  function Flat(qs: seq<seq<Task>>): seq<Task> {
    if qs == [] then [] else qs[0] + Flat(qs[1..])
  }

  function AllTasks(q: Queues): multiset<Task> {
    multiset(Flat(q.local)) + multiset(Flat(q.injected)) + multiset(Flat(q.pools))
  }

  lemma {:induction false} FlatUpdate(qs: seq<seq<Task>>, k: nat, q: seq<Task>, taken: seq<Task>)
    requires k < |qs| && multiset(qs[k]) == multiset(q) + multiset(taken)
    ensures multiset(Flat(qs)) == multiset(Flat(qs[k := q])) + multiset(taken)
  {
    var qs' := qs[k := q];
    if k == 0 {
      assert qs'[1..] == qs[1..];
    } else {
      FlatUpdate(qs[1..], k - 1, q, taken);
      assert qs'[1..] == qs[1..][k - 1 := q];
    }
  }

  lemma {:induction false} FlatEmpty(qs: seq<seq<Task>>)
    ensures Flat(qs) == [] <==> forall k :: 0 <= k < |qs| ==> qs[k] == []
  {
    if qs != [] {
      FlatEmpty(qs[1..]);
      assert (forall k :: 0 <= k < |qs| ==> qs[k] == []) <==>
             qs[0] == [] && forall k :: 0 <= k < |qs[1..]| ==> qs[1..][k] == [];
    }
  }

  /** The first queue that is not empty, leaving out queue `skip`; `|qs|` if there is none. */
  function First(qs: seq<seq<Task>>, skip: nat): (k: nat)
    ensures k <= |qs|
    ensures k < |qs| ==> k != skip && qs[k] != []
    ensures forall j :: 0 <= j < k && j != skip ==> qs[j] == []
  {
    FirstFrom(qs, skip, 0)
  }

  function FirstFrom(qs: seq<seq<Task>>, skip: nat, i: nat): (k: nat)
    requires i <= |qs|
    ensures i <= k <= |qs|
    ensures k < |qs| ==> k != skip && qs[k] != []
    ensures forall j :: i <= j < k && j != skip ==> qs[j] == []
    decreases |qs| - i
  {
    if i == |qs| then i
    else if i != skip && qs[i] != [] then i
    else FirstFrom(qs, skip, i + 1)
  }

  // ---------------------------------------------------------------- the search for work

  /** Where a task is taken from: the newest of a deque by its owner, or the oldest of a queue. */
  datatype Source = Own(k: nat) | Injected(k: nat) | Pool(k: nat) | Stolen(k: nat)

  /** A worker's order: its deque, its injection queue, the pools, the other injection queues, the other deques. */
  function WorkerChoice(q: Queues, me: nat): Option<Source>
    requires me < |q.local| == |q.injected|
  {
    if q.local[me] != [] then Some(Own(me))
    else if q.injected[me] != [] then Some(Injected(me))
    else if First(q.pools, |q.pools|) < |q.pools| then Some(Pool(First(q.pools, |q.pools|)))
    else if First(q.injected, me) < |q.injected| then Some(Injected(First(q.injected, me)))
    else if First(q.local, me) < |q.local| then Some(Stolen(First(q.local, me)))
    else None
  }

  /** The order of a thread helping out in `get`: its deque if it has one, the injection queues, the pools,
      the other deques.  `me` is `|q.local|` for a thread that is not a worker. */
  function HelperChoice(q: Queues, me: nat): Option<Source>
    requires me <= |q.local|
  {
    if me < |q.local| && q.local[me] != [] then Some(Own(me))
    else if First(q.injected, |q.injected|) < |q.injected| then Some(Injected(First(q.injected, |q.injected|)))
    else if First(q.pools, |q.pools|) < |q.pools| then Some(Pool(First(q.pools, |q.pools|)))
    else if First(q.local, me) < |q.local| then Some(Stolen(First(q.local, me)))
    else None
  }

  /** `after` is `q` without one task, which sat at the end of one queue that `source` names. */
  ghost predicate Removes(q: Queues, source: Source, t: Task, after: Queues) {
    match source
    case Own(k) => k < |q.local| && k < |after.local| && q.local[k] == after.local[k] + [t]
                   && after == q.(local := q.local[k := after.local[k]])
    case Injected(k) => k < |q.injected| && k < |after.injected| && q.injected[k] == [t] + after.injected[k]
                        && after == q.(injected := q.injected[k := after.injected[k]])
    case Pool(k) => k < |q.pools| && k < |after.pools| && q.pools[k] == [t] + after.pools[k]
                    && after == q.(pools := q.pools[k := after.pools[k]])
    case Stolen(k) => k < |q.local| && k < |after.local| && q.local[k] == [t] + after.local[k]
                      && after == q.(local := q.local[k := after.local[k]])
  }

  ghost predicate Took(q: Queues, source: Source, empty: bool, out: Option<Task>, after: Queues) {
    if empty then out.None? && after == q else out.Some? && Removes(q, source, out.value, after)
  }

  /** What `PopFirst` did to one row of queues. */
  ghost predicate HeadTaken(was: seq<seq<Task>>, k: nat, out: Option<Task>, now: seq<seq<Task>>) {
    if k >= |was| then out.None? && now == was
    else was[k] != [] && out == Some(was[k][0]) && now == was[k := was[k][1..]]
  }

  /** What `PopOwn` did to one row of deques. */
  ghost predicate LastTaken(was: seq<seq<Task>>, k: nat, out: Option<Task>, now: seq<seq<Task>>)
    requires k < |was|
  {
    if was[k] == [] then out.None? && now == was
    else
      var last := |was[k]| - 1;
      out == Some(was[k][last]) && now == was[k := was[k][..last]]
  }

  lemma TookOwn(q: Queues, k: nat, out: Option<Task>, after: Queues)
    requires k < |q.local| && LastTaken(q.local, k, out, after.local) && after == q.(local := after.local)
    ensures Took(q, Own(k), q.local[k] == [], out, after)
  {}

  lemma TookPool(q: Queues, k: nat, out: Option<Task>, after: Queues)
    requires HeadTaken(q.pools, k, out, after.pools) && after == q.(pools := after.pools)
    ensures Took(q, Pool(k), k >= |q.pools|, out, after)
  {}

  lemma TookInjected(q: Queues, k: nat, out: Option<Task>, after: Queues)
    requires HeadTaken(q.injected, k, out, after.injected) && after == q.(injected := after.injected)
    ensures Took(q, Injected(k), k >= |q.injected|, out, after)
  {}

  // ---------------------------------------------------------------- the order, queue by queue

  predicate AllEmptyBut(qs: seq<seq<Task>>, skip: nat) {
    forall k :: 0 <= k < |qs| && k != skip ==> qs[k] == []
  }

  /** Row `k` is the first that is not empty, leaving out row `skip`. */
  predicate Leads(qs: seq<seq<Task>>, skip: nat, k: nat) {
    k < |qs| && k != skip && qs[k] != [] && forall j :: 0 <= j < k && j != skip ==> qs[j] == []
  }

  /** The newest task of deque `k` was taken and nothing else happened. */
  predicate NewestOf(q: Queues, k: nat, out: Option<Task>, after: Queues)
    requires k < |q.local| && q.local[k] != []
  {
    var last := |q.local[k]| - 1;
    out == Some(q.local[k][last]) && after == q.(local := q.local[k := q.local[k][..last]])
  }

  predicate OldestOf(q: Queues, k: nat, out: Option<Task>, after: Queues)
    requires k < |q.local| && q.local[k] != []
  {
    out == Some(q.local[k][0]) && after == q.(local := q.local[k := q.local[k][1..]])
  }

  predicate OldestInjected(q: Queues, k: nat, out: Option<Task>, after: Queues)
    requires k < |q.injected| && q.injected[k] != []
  {
    out == Some(q.injected[k][0]) && after == q.(injected := q.injected[k := q.injected[k][1..]])
  }

  predicate OldestPooled(q: Queues, k: nat, out: Option<Task>, after: Queues)
    requires k < |q.pools| && q.pools[k] != []
  {
    out == Some(q.pools[k][0]) && after == q.(pools := q.pools[k := q.pools[k][1..]])
  }

  /** `choice` is what the search decided on, and that is what was done. */
  ghost predicate Done(q: Queues, choice: Option<Source>, out: Option<Task>, after: Queues) {
    match choice
    case None => out.None? && after == q
    case Some(source) => out.Some? && Removes(q, source, out.value, after)
  }

  lemma DoneMeans(q: Queues, choice: Option<Source>, out: Option<Task>, after: Queues)
    requires Done(q, choice, out, after) && choice.Some?
    ensures match choice.value
            case Own(k) => k < |q.local| && q.local[k] != [] && NewestOf(q, k, out, after)
            case Injected(k) => k < |q.injected| && q.injected[k] != [] && OldestInjected(q, k, out, after)
            case Pool(k) => k < |q.pools| && q.pools[k] != [] && OldestPooled(q, k, out, after)
            case Stolen(k) => k < |q.local| && q.local[k] != [] && OldestOf(q, k, out, after)
  {
    match choice.value
    case Own(k) => assert q.local[k][..|q.local[k]| - 1] == after.local[k];
    case Injected(k) => assert q.injected[k][1..] == after.injected[k];
    case Pool(k) => assert q.pools[k][1..] == after.pools[k];
    case Stolen(k) => assert q.local[k][1..] == after.local[k];
  }

  lemma FirstLeads(qs: seq<seq<Task>>, skip: nat)
    ensures forall k :: Leads(qs, skip, k) ==> First(qs, skip) == k
    ensures AllEmptyBut(qs, skip) <==> First(qs, skip) == |qs|
    ensures First(qs, skip) < |qs| ==> Leads(qs, skip, First(qs, skip))
  {
    hide FirstFrom;
  }

  lemma WorkerOrder(q: Queues, me: nat, out: Option<Task>, after: Queues)
    requires me < |q.local| == |q.injected| && Done(q, WorkerChoice(q, me), out, after)
    ensures q.local[me] != [] ==> NewestOf(q, me, out, after)
    ensures q.local[me] == [] && q.injected[me] != [] ==> OldestInjected(q, me, out, after)
    ensures q.local[me] == q.injected[me] == [] ==>
              && (forall k :: Leads(q.pools, |q.pools|, k) ==> OldestPooled(q, k, out, after))
              && (AllEmptyBut(q.pools, |q.pools|) ==>
                    && (forall k :: Leads(q.injected, me, k) ==> OldestInjected(q, k, out, after))
                    && (AllEmptyBut(q.injected, me) ==>
                          && (forall k :: Leads(q.local, me, k) ==> OldestOf(q, k, out, after))
                          && (AllEmptyBut(q.local, me) ==> out.None? && after == q)))
  {
    FirstLeads(q.pools, |q.pools|);
    FirstLeads(q.injected, me);
    FirstLeads(q.local, me);
    hide First, Leads, AllEmptyBut;
    if WorkerChoice(q, me).Some? {
      DoneMeans(q, WorkerChoice(q, me), out, after);
    }
    hide NewestOf, OldestOf, OldestInjected, OldestPooled, Removes;
  }

  lemma HelperOrder(q: Queues, me: nat, out: Option<Task>, after: Queues)
    requires me <= |q.local| && Done(q, HelperChoice(q, me), out, after)
    ensures me < |q.local| && q.local[me] != [] ==> NewestOf(q, me, out, after)
    ensures (me < |q.local| ==> q.local[me] == []) ==>
              && (forall k :: Leads(q.injected, |q.injected|, k) ==> OldestInjected(q, k, out, after))
              && (AllEmptyBut(q.injected, |q.injected|) ==>
                    && (forall k :: Leads(q.pools, |q.pools|, k) ==> OldestPooled(q, k, out, after))
                    && (AllEmptyBut(q.pools, |q.pools|) ==>
                          && (forall k :: Leads(q.local, me, k) ==> OldestOf(q, k, out, after))
                          && (AllEmptyBut(q.local, me) ==> out.None? && after == q)))
  {
    FirstLeads(q.injected, |q.injected|);
    FirstLeads(q.pools, |q.pools|);
    FirstLeads(q.local, me);
    hide First, Leads, AllEmptyBut;
    if HelperChoice(q, me).Some? {
      DoneMeans(q, HelperChoice(q, me), out, after);
    }
    hide NewestOf, OldestOf, OldestInjected, OldestPooled, Removes;
  }

  lemma PortableOrder(q: Queues, preferred: nat, out: Option<Task>, after: Queues)
    requires var k := PoolChoice(q.pools, preferred); Took(q, Pool(k), k >= |q.pools|, out, after)
    ensures preferred < |q.pools| && q.pools[preferred] != [] ==> OldestPooled(q, preferred, out, after)
    ensures (preferred < |q.pools| ==> q.pools[preferred] == []) ==>
              && (forall k :: Leads(q.pools, |q.pools|, k) ==> OldestPooled(q, k, out, after))
              && (AllEmptyBut(q.pools, |q.pools|) ==> out.None? && after == q)
  {
    var k := PoolChoice(q.pools, preferred);
    FirstLeads(q.pools, |q.pools|);
    if k < |q.pools| {
      DoneMeans(q, Some(Pool(k)), out, after);
    }
    hide First, Leads, OldestPooled, Removes;
  }

  ghost predicate AllEmpty(q: Queues) {
    && (forall k :: 0 <= k < |q.local| ==> q.local[k] == [])
    && (forall k :: 0 <= k < |q.injected| ==> q.injected[k] == [])
    && (forall k :: 0 <= k < |q.pools| ==> q.pools[k] == [])
  }

  /** A worker's search and a helper's search find nothing exactly when every queue of the runtime is empty. */
  lemma SearchIsComplete(q: Queues, me: nat)
    requires me <= |q.local| == |q.injected|
    ensures HelperChoice(q, me).None? <==> AllEmpty(q)
    ensures me < |q.local| ==> (WorkerChoice(q, me).None? <==> AllEmpty(q))
    ensures AllEmpty(q) <==> AllTasks(q) == multiset{}
  {
    FlatEmpty(q.local);
    FlatEmpty(q.injected);
    FlatEmpty(q.pools);
    EmptyMultiset(Flat(q.local));
    EmptyMultiset(Flat(q.injected));
    EmptyMultiset(Flat(q.pools));
    hide Flat;
    assert AllTasks(q) == multiset{} <==> |AllTasks(q)| == 0;
  }

  lemma EmptyMultiset(s: seq<Task>)
    ensures |multiset(s)| == |s|
  {}

  /** Whatever is removed, the runtime loses that one task and no other. */
  lemma RemovesOne(q: Queues, source: Source, t: Task, after: Queues)
    requires Removes(q, source, t, after)
    ensures AllTasks(q) == AllTasks(after) + multiset{t}
  {
    match source
    case Own(k) => FlatUpdate(q.local, k, after.local[k], [t]);
    case Injected(k) => FlatUpdate(q.injected, k, after.injected[k], [t]);
    case Pool(k) => FlatUpdate(q.pools, k, after.pools[k], [t]);
    case Stolen(k) => FlatUpdate(q.local, k, after.local[k], [t]);
  }

  // ---------------------------------------------------------------- serving a steal

  /** The order in which portable tasks are given away: the preferred pool first, if it exists. */
  function Line(pools: seq<seq<Task>>, preferred: nat): seq<Task> {
    if preferred < |pools| then pools[preferred] + Flat(pools[preferred := []]) else Flat(pools)
  }

  lemma {:induction false} FlatHead(qs: seq<seq<Task>>, k: nat)
    requires k < |qs| && qs[k] != []
    requires forall j :: 0 <= j < k ==> qs[j] == []
    ensures Flat(qs) == [qs[k][0]] + Flat(qs[k := qs[k][1..]])
  {
    var qs' := qs[k := qs[k][1..]];
    if k == 0 {
      assert qs'[1..] == qs[1..];
      assert qs[0] == [qs[0][0]] + qs[0][1..];
    } else {
      FlatHead(qs[1..], k - 1);
      assert qs'[1..] == qs[1..][k - 1 := qs[1..][k - 1][1..]];
    }
  }

  /** The pool the next portable task comes from. */
  function PoolChoice(pools: seq<seq<Task>>, preferred: nat): nat {
    if preferred < |pools| && pools[preferred] != [] then preferred else First(pools, |pools|)
  }

  lemma LineEmpty(pools: seq<seq<Task>>, preferred: nat)
    ensures PoolChoice(pools, preferred) == |pools| <==> Line(pools, preferred) == []
  {
    hide Flat, FirstFrom;
    FlatEmpty(pools);
    if preferred < |pools| && pools[preferred] == [] {
      assert pools[preferred := []] == pools;
      assert [] + Flat(pools) == Flat(pools);
    }
  }

  /** The next task given away is the head of the line, and the rest of the line stays. */
  lemma LineHead(pools: seq<seq<Task>>, preferred: nat, k: nat)
    requires k == PoolChoice(pools, preferred) && k < |pools|
    ensures pools[k] != []
    ensures Line(pools, preferred) == [pools[k][0]] + Line(pools[k := pools[k][1..]], preferred)
  {
    if preferred >= |pools| {
      FlatHead(pools, k);
    } else if k == preferred {
      PreferredHead(pools, k);
    } else {
      OthersHead(pools, preferred, k);
    }
  }

  lemma PreferredHead(pools: seq<seq<Task>>, k: nat)
    requires k < |pools| && pools[k] != []
    ensures Line(pools, k) == [pools[k][0]] + Line(pools[k := pools[k][1..]], k)
  {
    hide Flat;
    assert pools[k := pools[k][1..]][k := []] == pools[k := []];
    var rest := Flat(pools[k := []]);
    assert pools[k] + rest == [pools[k][0]] + (pools[k][1..] + rest);
  }

  lemma OthersHead(pools: seq<seq<Task>>, preferred: nat, k: nat)
    requires k < |pools| && preferred < |pools| && preferred != k && pools[preferred] == [] && pools[k] != []
    requires forall j :: 0 <= j < k ==> pools[j] == []
    ensures Line(pools, preferred) == [pools[k][0]] + Line(pools[k := pools[k][1..]], preferred)
  {
    var rest := pools[preferred := []];
    FlatHead(rest, k);
    hide Flat;
    assert pools[k := pools[k][1..]][preferred := []] == rest[k := pools[k][1..]];
    assert rest == pools;
  }

  lemma {:induction false} FlatLength(qs: seq<seq<Task>>, k: nat)
    requires k < |qs|
    ensures |Flat(qs)| == |qs[k]| + |Flat(qs[k := []])|
  {
    var qs' := qs[k := []];
    if k == 0 {
      assert qs'[1..] == qs[1..];
    } else {
      FlatLength(qs[1..], k - 1);
      assert qs'[1..] == qs[1..][k - 1 := []];
    }
  }

  lemma LineLength(pools: seq<seq<Task>>, preferred: nat)
    ensures |Line(pools, preferred)| == |Flat(pools)|
  {
    if preferred < |pools| {
      FlatLength(pools, preferred);
    }
  }

  lemma {:induction false} FlatPrefix(qs: seq<seq<Task>>, i: nat)
    requires i < |qs|
    ensures |Flat(qs[..i + 1])| == |Flat(qs[..i])| + |qs[i]|
  {
    if i == 0 {
      assert qs[..1] == [qs[0]] && qs[..0] == [];
    } else {
      FlatPrefix(qs[1..], i - 1);
      assert qs[..i + 1][1..] == qs[1..][..i] && qs[..i][1..] == qs[1..][..i - 1];
    }
  }

  /** Each queue lost some of its oldest tasks and nothing else. */
  ghost predicate Suffixes(was: seq<seq<Task>>, now: seq<seq<Task>>) {
    |now| == |was| && forall k :: 0 <= k < |was| ==> |now[k]| <= |was[k]| && now[k] == was[k][|was[k]| - |now[k]|..]
  }

  lemma SuffixesOneMore(was: seq<seq<Task>>, now: seq<seq<Task>>, k: nat)
    requires Suffixes(was, now) && k < |now| && now[k] != []
    ensures Suffixes(was, now[k := now[k][1..]])
  {
    var d := |was[k]| - |now[k]|;
    assert was[k][d..][1..] == was[k][d + 1..];
  }

  // ---------------------------------------------------------------- the runtime

  ghost function Queued(qs: seq<InjectionQueue>): (r: seq<seq<Task>>)
    reads qs
    ensures |r| == |qs| && forall i :: 0 <= i < |qs| ==> r[i] == qs[i].deque
  {
    seq(|qs|, i requires 0 <= i < |qs| reads qs => qs[i].deque)
  }

  ghost predicate Sound(ds: seq<ChaseLevDeque>)
    reads ds, set d <- ds :: d.buffer
  {
    && Distinct(ds)
    && (forall i :: 0 <= i < |ds| ==> ds[i].Valid())
    && (forall i, j :: 0 <= i < j < |ds| ==> ds[i].buffer.slots != ds[j].buffer.slots)
  }

  ghost function Held(ds: seq<ChaseLevDeque>): (r: seq<seq<Task>>)
    requires Sound(ds)
    reads ds, set d <- ds :: d.buffer, set d <- ds :: d.buffer.slots
    ensures |r| == |ds| && forall i :: 0 <= i < |ds| ==> r[i] == ds[i].Contents()
  {
    seq(|ds|, i requires 0 <= i < |ds| && ds[i].Valid()
                reads ds, set d <- ds :: d.buffer, set d <- ds :: d.buffer.slots => ds[i].Contents())
  }

  method PopAt(qs: seq<InjectionQueue>, i: nat) returns (out: Option<Task>)
    requires i < |qs| && Distinct(qs)
    modifies qs[i]
    ensures var was := old(Queued(qs));
            if was[i] == [] then out.None? && Queued(qs) == was
            else out == Some(was[i][0]) && Queued(qs) == was[i := was[i][1..]]
  {
    ghost var was := Queued(qs);
    out := qs[i].Pop();
    assert Queued(qs) == was[i := qs[i].deque];
  }

  method StealAt(ds: seq<ChaseLevDeque>, i: nat) returns (out: Option<Task>)
    requires i < |ds| && Sound(ds)
    modifies ds[i]
    ensures Sound(ds) && forall j :: 0 <= j < |ds| ==> ds[j].buffer == old(ds[j].buffer)
    ensures var was := old(Held(ds));
            if was[i] == [] then out.None? && Held(ds) == was
            else out == Some(was[i][0]) && Held(ds) == was[i := was[i][1..]]
  {
    hide IsPow2;
    ghost var was := Held(ds);
    out := ds[i].Steal();
    assert forall j :: 0 <= j < |ds| && j != i ==> ds[j].Contents() == was[j];
    assert Held(ds) == was[i := ds[i].Contents()];
  }

  method PopOwn(ds: seq<ChaseLevDeque>, i: nat) returns (out: Option<Task>)
    requires i < |ds| && Sound(ds)
    modifies ds[i]
    ensures Sound(ds) && forall j :: 0 <= j < |ds| ==> ds[j].buffer == old(ds[j].buffer)
    ensures LastTaken(old(Held(ds)), i, out, Held(ds))
  {
    hide IsPow2;
    ghost var was := Held(ds);
    out := ds[i].Pop();
    assert forall j :: 0 <= j < |ds| && j != i ==> ds[j].Contents() == was[j];
    assert Held(ds) == was[i := ds[i].Contents()];
  }

  /** Takes from the first queue that has something, leaving out queue `skip`. */
  method PopFirst(qs: seq<InjectionQueue>, skip: nat) returns (out: Option<Task>)
    requires Distinct(qs)
    modifies qs
    ensures HeadTaken(old(Queued(qs)), First(old(Queued(qs)), skip), out, Queued(qs))
  {
    ghost var was := Queued(qs);
    for i := 0 to |qs|
      invariant Queued(qs) == was
      invariant FirstFrom(was, skip, i) == First(was, skip)
    {
      if i != skip {
        out := PopAt(qs, i);
        if out.Some? {
          return;
        }
      }
    }
    out := None;
  }

  /** Steals from the first deque that has something, leaving out deque `skip`. */
  method StealFirst(ds: seq<ChaseLevDeque>, skip: nat) returns (out: Option<Task>)
    requires Sound(ds)
    modifies ds
    ensures Sound(ds) && forall j :: 0 <= j < |ds| ==> ds[j].buffer == old(ds[j].buffer)
    ensures var was, k := old(Held(ds)), First(old(Held(ds)), skip);
            if k == |ds| then out.None? && Held(ds) == was
            else out == Some(was[k][0]) && Held(ds) == was[k := was[k][1..]]
  {
    ghost var was := Held(ds);
    for i := 0 to |ds|
      invariant Sound(ds) && Held(ds) == was
      invariant forall j :: 0 <= j < |ds| ==> ds[j].buffer == old(ds[j].buffer)
      invariant FirstFrom(was, skip, i) == First(was, skip)
    {
      if i != skip {
        out := StealAt(ds, i);
        if out.Some? {
          return;
        }
      }
    }
    out := None;
  }

  method PushAt(ds: seq<ChaseLevDeque>, i: nat, t: Task)
    requires i < |ds| && Sound(ds)
    modifies ds[i], ds[i].buffer.slots
    ensures Sound(ds)
    ensures Held(ds) == old(Held(ds))[i := old(Held(ds))[i] + [t]]
  {
    hide IsPow2;
    ghost var was := Held(ds);
    ds[i].Push(t);
    assert forall j :: 0 <= j < |ds| && j != i ==> ds[j].buffer == old(ds[j].buffer) && ds[j].Contents() == was[j];
    assert Held(ds) == was[i := ds[i].Contents()];
  }

  function AddLocal(q: Queues, k: nat, t: Task): Queues
    requires k < |q.local|
  {
    q.(local := q.local[k := q.local[k] + [t]])
  }

  function AddInjected(q: Queues, k: nat, t: Task): Queues
    requires k < |q.injected|
  {
    q.(injected := q.injected[k := q.injected[k] + [t]])
  }

  function AddPool(q: Queues, k: nat, t: Task): Queues
    requires k < |q.pools|
  {
    q.(pools := q.pools[k := q.pools[k] + [t]])
  }

  /** A submission loses no task and adds exactly the one submitted, wherever it goes. */
  lemma AddsOne(q: Queues, k: nat, t: Task)
    ensures k < |q.local| ==> AllTasks(AddLocal(q, k, t)) == AllTasks(q) + multiset{t}
    ensures k < |q.injected| ==> AllTasks(AddInjected(q, k, t)) == AllTasks(q) + multiset{t}
    ensures k < |q.pools| ==> AllTasks(AddPool(q, k, t)) == AllTasks(q) + multiset{t}
  {
    if k < |q.local| {
      AddToRow(q.local, k, t);
    }
    if k < |q.injected| {
      AddToRow(q.injected, k, t);
    }
    if k < |q.pools| {
      AddToRow(q.pools, k, t);
    }
    hide Flat;
    Reorder(multiset(Flat(q.local)), multiset(Flat(q.injected)), multiset(Flat(q.pools)), multiset{t});
  }

  lemma Reorder(a: multiset<Task>, b: multiset<Task>, c: multiset<Task>, x: multiset<Task>)
    ensures (a + x) + b + c == a + b + c + x
    ensures a + (b + x) + c == a + b + c + x
    ensures a + b + (c + x) == a + b + c + x
  {}

  lemma AddToRow(qs: seq<seq<Task>>, k: nat, t: Task)
    requires k < |qs|
    ensures multiset(Flat(qs[k := qs[k] + [t]])) == multiset(Flat(qs)) + multiset{t}
  {
    hide Flat;
    var row := qs[k := qs[k] + [t]];
    FlatUpdate(row, k, qs[k], [t]);
    assert row[k := qs[k]] == qs;
  }

  /** One more task submitted, under the next id; ids wrap at 64 bits. */
  ghost predicate Counted(id: u64, submitted: nat, id': u64, submitted': nat) {
    id' == (id + 1) % 0x1_0000_0000_0000_0000 && submitted' == submitted + 1
  }

  method NewQueues(n: nat) returns (qs: seq<InjectionQueue>)
    ensures |qs| == n && Distinct(qs) && fresh(qs)
    ensures forall i :: 0 <= i < n ==> qs[i].deque == []
  {
    qs := [];
    while |qs| < n
      invariant |qs| <= n && Distinct(qs) && fresh(qs)
      invariant forall i :: 0 <= i < |qs| ==> qs[i].deque == []
    {
      var q := new InjectionQueue();
      qs := qs + [q];
    }
  }

  method NewDeques(n: nat) returns (ds: seq<ChaseLevDeque>)
    ensures |ds| == n && Sound(ds) && fresh(ds)
    ensures forall i :: 0 <= i < n ==> ds[i].Contents() == []
  {
    ds := [];
    while |ds| < n
      invariant |ds| <= n && Sound(ds) && fresh(ds)
      invariant forall i :: 0 <= i < |ds| ==> ds[i].Contents() == [] && fresh(ds[i].buffer.slots)
    {
      var d := new ChaseLevDeque(INITIAL_CAPACITY);
      ds := ds + [d];
    }
  }

  class Runtime {
    const deques: seq<ChaseLevDeque>
    const injection: seq<InjectionQueue>
    const pools: seq<InjectionQueue>
    var nextId: u64
    var nodeId: u32
    var injectionNext: u32
    var submitted: nat
    var completed: nat
    var localExecuted: nat
    /** What was counted and observed, in order. */
    ghost var trace: seq<Mark>

    constructor (numWorkers: nat)
      ensures Valid() && |deques| == numWorkers && AllEmpty(View())
      ensures nextId == 1 && submitted == 0 && completed == 0 && localExecuted == 0 && trace == []
      ensures injectionNext == 0 && nodeId == 0
    {
      var ps := NewQueues(TYPE_COUNT);
      var iqs := NewQueues(numWorkers);
      var ds := NewDeques(numWorkers);
      pools, injection, deques := ps, iqs, ds;
      nextId, nodeId, injectionNext, submitted, completed, localExecuted, trace := 1, 0, 0, 0, 0, 0, [];
    }

    ghost predicate Valid()
      reads deques, set d <- deques :: d.buffer
    {
      && |deques| == |injection| && |pools| == TYPE_COUNT
      && Sound(deques) && Distinct(injection) && Distinct(pools)
      && (forall q :: q in injection ==> q !in pools)
    }

    ghost function View(): (q: Queues)
      requires Valid()
      reads deques, set d <- deques :: d.buffer, set d <- deques :: d.buffer.slots, injection, pools
      ensures |q.local| == |q.injected| == |deques| && |q.pools| == TYPE_COUNT
    {
      Queues(Held(deques), Queued(injection), Queued(pools))
    }

    lemma RowsApart()
      requires Valid()
      ensures forall i :: 0 <= i < |pools| ==> pools[i] !in injection
      ensures forall i :: 0 <= i < |injection| ==> injection[i] !in pools
    {
      hide Sound;
      forall i | 0 <= i < |pools|
        ensures pools[i] !in injection
      {
        assert pools[i] in pools;
      }
    }

    /** The owner of deque `me` pops it. */
    method PopLocal(me: nat) returns (out: Option<Task>)
      requires Valid() && me < |deques|
      modifies deques
      ensures Valid()
      ensures Took(old(View()), Own(me), old(View()).local[me] == [], out, View())
    {
      hide LastTaken, Took;
      ghost var before := View();
      out := PopOwn(deques, me);
      hide Sound;
      assert View() == before.(local := View().local);
      TookOwn(before, me, out, View());
    }

    method PopInjected(me: nat) returns (out: Option<Task>)
      requires Valid() && me < |deques|
      modifies injection
      ensures Valid()
      ensures Took(old(View()), Injected(me), old(View()).injected[me] == [], out, View())
    {
      ghost var before := View();
      RowsApart();
      assert injection[me] in injection;
      out := PopAt(injection, me);
      assert forall i :: 0 <= i < |pools| ==> pools[i].deque == old(pools[i].deque);
      assert Queued(pools) == before.pools;
      assert Held(deques) == before.local;
    }

    method PopPools() returns (out: Option<Task>)
      requires Valid()
      modifies pools
      ensures Valid()
      ensures var k := First(old(View()).pools, TYPE_COUNT);
              Took(old(View()), Pool(k), k >= TYPE_COUNT, out, View())
    {
      hide First, FirstFrom, Took, HeadTaken;
      ghost var before := View();
      RowsApart();
      out := PopFirst(pools, |pools|);
      assert forall i :: 0 <= i < |injection| ==> injection[i].deque == old(injection[i].deque);
      assert Queued(injection) == before.injected;
      assert Held(deques) == before.local;
      TookPool(before, First(before.pools, TYPE_COUNT), out, View());
    }

    method PopInjectedBut(skip: nat) returns (out: Option<Task>)
      requires Valid()
      modifies injection
      ensures Valid()
      ensures var k := First(old(View()).injected, skip);
              Took(old(View()), Injected(k), k >= |deques|, out, View())
    {
      hide First, FirstFrom, Took, HeadTaken;
      ghost var before := View();
      RowsApart();
      out := PopFirst(injection, skip);
      assert forall i :: 0 <= i < |pools| ==> pools[i].deque == old(pools[i].deque);
      assert Queued(pools) == before.pools;
      assert Held(deques) == before.local;
      TookInjected(before, First(before.injected, skip), out, View());
    }

    method StealBut(skip: nat) returns (out: Option<Task>)
      requires Valid()
      modifies deques
      ensures Valid()
      ensures var k := First(old(View()).local, skip);
              Took(old(View()), Stolen(k), k == |deques|, out, View())
    {
      out := StealFirst(deques, skip);
    }

    /** Worker `me` looks for one task to execute. */
    method FindWork(me: nat) returns (out: Option<Task>)
      requires Valid() && me < |deques|
      modifies deques, injection, pools
      ensures Valid()
      ensures Done(old(View()), WorkerChoice(old(View()), me), out, View())
      ensures var q := old(View());
              && (q.local[me] != [] ==> NewestOf(q, me, out, View()))
              && (q.local[me] == [] && q.injected[me] != [] ==> OldestInjected(q, me, out, View()))
              && (q.local[me] == q.injected[me] == [] ==>
                    && (forall k :: Leads(q.pools, TYPE_COUNT, k) ==> OldestPooled(q, k, out, View()))
                    && (AllEmptyBut(q.pools, TYPE_COUNT) ==>
                          && (forall k :: Leads(q.injected, me, k) ==> OldestInjected(q, k, out, View()))
                          && (AllEmptyBut(q.injected, me) ==>
                                && (forall k :: Leads(q.local, me, k) ==> OldestOf(q, k, out, View()))
                                && (AllEmptyBut(q.local, me) ==> out.None? && View() == q))))
    {
      hide Valid, View, Removes, First, Leads, AllEmptyBut, NewestOf, OldestOf, OldestInjected, OldestPooled;
      ghost var before := View();
      out := PopLocal(me);
      if out.None? {
        out := PopInjected(me);
      }
      if out.None? {
        out := PopPools();
      }
      if out.None? {
        out := PopInjectedBut(me);
      }
      if out.None? {
        out := StealBut(me);
      }
      WorkerOrder(before, me, out, View());
    }

    /** A thread that waits in `get` looks for one task; `me` is its worker, or `|deques|` if it is none. */
    method HelpOne(me: nat) returns (out: Option<Task>)
      requires Valid() && me <= |deques|
      modifies deques, injection, pools
      ensures Valid()
      ensures Done(old(View()), HelperChoice(old(View()), me), out, View())
      ensures var q := old(View());
              && (me < |deques| && q.local[me] != [] ==> NewestOf(q, me, out, View()))
              && ((me < |deques| ==> q.local[me] == []) ==>
                    && (forall k :: Leads(q.injected, |deques|, k) ==> OldestInjected(q, k, out, View()))
                    && (AllEmptyBut(q.injected, |deques|) ==>
                          && (forall k :: Leads(q.pools, TYPE_COUNT, k) ==> OldestPooled(q, k, out, View()))
                          && (AllEmptyBut(q.pools, TYPE_COUNT) ==>
                                && (forall k :: Leads(q.local, me, k) ==> OldestOf(q, k, out, View()))
                                && (AllEmptyBut(q.local, me) ==> out.None? && View() == q))))
    {
      hide Valid, View, Removes, First, Leads, AllEmptyBut, NewestOf, OldestOf, OldestInjected, OldestPooled;
      ghost var before := View();
      out := None;
      if me < |deques| {
        out := PopLocal(me);
      }
      if out.None? {
        out := PopInjectedBut(|deques|);
      }
      if out.None? {
        out := PopPools();
      }
      if out.None? {
        out := StealBut(me);
      }
      HelperOrder(before, me, out, View());
    }

    /** Hands out one portable task, of the preferred type if it exists and has one. */
    method TakePortable(preferred: u16) returns (out: Option<Task>)
      requires Valid()
      modifies pools
      ensures Valid()
      ensures var k := PoolChoice(old(View()).pools, preferred);
              Took(old(View()), Pool(k), k >= TYPE_COUNT, out, View())
      ensures var q := old(View());
              && (preferred < TYPE_COUNT && q.pools[preferred] != [] ==> OldestPooled(q, preferred, out, View()))
              && ((preferred < TYPE_COUNT ==> q.pools[preferred] == []) ==>
                    && (forall k :: Leads(q.pools, TYPE_COUNT, k) ==> OldestPooled(q, k, out, View()))
                    && (AllEmptyBut(q.pools, TYPE_COUNT) ==> out.None? && View() == q))
    {
      hide Valid, View, Removes, First, Leads, AllEmptyBut, OldestPooled;
      ghost var before := View();
      out := None;
      if preferred < TYPE_COUNT {
        out := PopPool(preferred);
      }
      if out.None? {
        out := PopPools();
      }
      PortableOrder(before, preferred, out, View());
    }

    method PopPool(k: nat) returns (out: Option<Task>)
      requires Valid() && k < TYPE_COUNT
      modifies pools
      ensures Valid()
      ensures Took(old(View()), Pool(k), old(View()).pools[k] == [], out, View())
    {
      ghost var before := View();
      RowsApart();
      assert pools[k] in pools;
      out := PopAt(pools, k);
      assert forall i :: 0 <= i < |injection| ==> injection[i].deque == old(injection[i].deque);
      assert Queued(injection) == before.injected;
      assert Held(deques) == before.local;
    }

    method PortableAvailable() returns (total: nat)
      requires Valid()
      ensures total == |Flat(View().pools)|
    {
      total := 0;
      ghost var row := View().pools;
      for i := 0 to |pools|
        invariant total == |Flat(row[..i])|
      {
        FlatPrefix(row, i);
        var n := pools[i].Size();
        total := total + n;
      }
      assert row[..|pools|] == row;
    }

    /** `submit_task` on worker `me`, or on no worker if `me` is `|deques|`: counted before it is pushed. */
    method SubmitTask(task: Task, me: nat)
      requires Valid() && me <= |deques| && |deques| > 0
      modifies this, deques, set d <- deques :: d.buffer.slots, injection
      ensures Valid() && (me == |deques| ==> forall d <- deques :: d.buffer == old(d.buffer))
      ensures Counted(old(nextId), old(submitted), nextId, submitted)
      ensures completed == old(completed) && localExecuted == old(localExecuted) && nodeId == old(nodeId)
      ensures trace == old(trace) + [Submitted]
      ensures var t := task.(taskId := old(nextId));
              if me < |deques| then
                injectionNext == old(injectionNext) && View() == AddLocal(old(View()), me, t)
              else
                && injectionNext == (old(injectionNext) + 1) % 0x1_0000_0000
                && View() == AddInjected(old(View()), old(injectionNext) % |deques|, t)
    {
      hide Held, Queued, Sound, View, AddLocal, AddInjected, Counted;
      var id := CountSubmitted();
      var t := task.(taskId := id);
      if me < |deques| {
        PushLocal(me, t);
      } else {
        var k := NextInjection();
        Inject(k, t);
      }
    }

    /** `next_id_++` and `submitted_.fetch_add(1)`. */
    method CountSubmitted() returns (id: u64)
      modifies `nextId, `submitted, `trace
      ensures id == old(nextId) && Counted(old(nextId), old(submitted), nextId, submitted)
      ensures trace == old(trace) + [Submitted]
    {
      id := nextId;
      nextId := (nextId + 1) % 0x1_0000_0000_0000_0000;
      submitted := submitted + 1;
      trace := trace + [Submitted];
    }

    /** Round robin over the injection queues. */
    method NextInjection() returns (k: nat)
      requires |deques| > 0
      modifies `injectionNext
      ensures k == old(injectionNext) % |deques| && injectionNext == (old(injectionNext) + 1) % 0x1_0000_0000
    {
      k := injectionNext % |deques|;
      injectionNext := (injectionNext + 1) % 0x1_0000_0000;
    }

    method PushLocal(me: nat, t: Task)
      requires Valid() && me < |deques|
      modifies deques, set d <- deques :: d.buffer.slots
      ensures Valid() && View() == AddLocal(old(View()), me, t)
    {
      PushAt(deques, me, t);
    }

    method Inject(k: nat, t: Task)
      requires Valid() && k < |deques|
      modifies injection
      ensures Valid() && View() == AddInjected(old(View()), k, t)
    {
      ghost var before := View();
      RowsApart();
      assert injection[k] in injection;
      injection[k].Push(t);
      assert Queued(injection) == before.injected[k := before.injected[k] + [t]];
      assert forall i :: 0 <= i < |pools| ==> pools[i].deque == old(pools[i].deque);
      assert Queued(pools) == before.pools;
      assert Held(deques) == before.local;
    }

    /** The type picks the pool; the source indexes an array of `Count` pools with it. */
    method SubmitPortable(taskType: u16, payload: Bytes, costHint: u32)
      requires Valid() && taskType < TYPE_COUNT
      modifies this, pools
      ensures Valid()
      ensures Counted(old(nextId), old(submitted), nextId, submitted)
      ensures completed == old(completed) && localExecuted == old(localExecuted) && nodeId == old(nodeId)
      ensures trace == old(trace) + [Submitted]
      ensures injectionNext == old(injectionNext)
      ensures View() == AddPool(old(View()), taskType, Task(old(nextId), 0, 0, costHint, nodeId, taskType, payload))
    {
      hide Held, Queued, Sound;
      var id := CountSubmitted();
      var t := Task(id, 0, 0, costHint, nodeId, taskType, payload);
      PushPool(taskType, t);
    }

    method PushPool(k: nat, t: Task)
      requires Valid() && k < TYPE_COUNT
      modifies pools
      ensures Valid() && View() == AddPool(old(View()), k, t)
    {
      ghost var before := View();
      RowsApart();
      assert pools[k] in pools;
      pools[k].Push(t);
      assert Queued(pools) == before.pools[k := before.pools[k] + [t]];
      assert forall i :: 0 <= i < |injection| ==> injection[i].deque == old(injection[i].deque);
      assert Queued(injection) == before.injected;
      assert Held(deques) == before.local;
    }

    /** The observer sees the task, and only then is it counted as completed. */
    method OnRemoteTaskComplete(t: Task)
      modifies `completed, `trace
      ensures completed == old(completed) + 1 && trace == old(trace) + [Observed(t), Completed]
    {
      trace := trace + [Observed(t)];
      FinishOne();
    }

    method FinishOne()
      modifies `completed, `trace
      ensures completed == old(completed) + 1 && trace == old(trace) + [Completed]
    {
      completed := completed + 1;
      trace := trace + [Completed];
    }
  }
}
