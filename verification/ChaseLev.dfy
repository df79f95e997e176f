/**
  The Chase-Lev deque of include/runtime/ChaseLevDeque.hpp as an interleaving transition system.

  Every atomic load, store or compare-and-swap is one step.  One owner pushes and pops, any number
  of thieves steal, and every actor carries its own program counter and local variables.  Steps are
  sequentially consistent.  Indices are unbounded integers.

  `Contents` is the abstract deque.  It is not a history variable: it is read off the current
  buffer, `top`, `bottom` and the owner's program counter.
 */
module ChaseLev {
  import opened Arithmetic
  import opened Tasks

  type Ptr = nat

  /** A ring buffer is its slots; its capacity is their number, and `mask` is the capacity less one. */
  type Buffer = seq<Ptr>

  // ---------------------------------------------------------------- slots

  /** Bitwise and of two natural numbers, bit by bit. */
  function BitAnd(x: nat, y: nat): nat
    decreases x
  {
    if x == 0 then 0 else (x % 2) * (y % 2) + 2 * BitAnd(x / 2, y / 2)
  }

  /** `idx & mask` is `idx % capacity`, because every capacity is a power of two. */
  lemma {:induction false} MaskIsModulo(x: nat, k: nat)
    ensures BitAnd(x, Pow2(k) - 1) == x % Pow2(k)
    decreases k
  {
    if k == 0 {
      AndZero(x);
    } else {
      var h := Pow2(k - 1);
      var y := Pow2(k) - 1;
      assert y == 2 * (h - 1) + 1;
      assert y % 2 == 1 && y / 2 == h - 1;
      AndStep(x, y);
      MaskIsModulo(x / 2, k - 1);
      HalveModulo(x, h);
    }
  }

  lemma AndZero(x: nat)
    ensures BitAnd(x, 0) == 0
  {}

  lemma AndStep(x: nat, y: nat)
    requires y % 2 == 1
    ensures BitAnd(x, y) == x % 2 + 2 * BitAnd(x / 2, y / 2)
  {}

  function Get(buf: Buffer, i: int): Ptr {
    if |buf| == 0 then 0 else buf[i % |buf|]
  }

  function Put(buf: Buffer, i: int, p: Ptr): Buffer {
    if |buf| == 0 then buf else buf[i % |buf| := p]
  }

  lemma PutGet(buf: Buffer, i: int, p: Ptr)
    requires |buf| > 0
    ensures |Put(buf, i, p)| == |buf|
    ensures Get(Put(buf, i, p), i) == p
    ensures forall j {:trigger Get(Put(buf, i, p), j)} ::
              i - |buf| < j < i + |buf| && j != i ==> Get(Put(buf, i, p), j) == Get(buf, j)
  {
    forall j {:trigger Get(Put(buf, i, p), j)} | i - |buf| < j < i + |buf| && j != i
      ensures Get(Put(buf, i, p), j) == Get(buf, j)
    {
      if j < i {
        SlotsDiffer(j, i, |buf|);
      } else {
        SlotsDiffer(i, j, |buf|);
      }
    }
  }

  // ---------------------------------------------------------------- state

  /** The owner's next atomic step, with the locals it has loaded so far. */
  datatype OwnerPc =
    | Idle
    | PushLoadBottom(task: Task)
    | PushLoadTop(task: Task, b: int)
    | PushLoadBuffer(task: Task, b: int, t: int)
    | GrowCopy(task: Task, b: int, t: int, grown: nat, i: int)
    | GrowPublish(task: Task, b: int, grown: nat)
    | PushPut(task: Task, b: int, buf: nat)
    | PushPublish(b: int, ptr: Ptr)
    | PopLoadBottom
    | PopLoadBuffer(b: int)
    | PopStoreBottom(b: int, buf: nat)
    | PopLoadTop(b: int, buf: nat)
    | PopGet(b: int, buf: nat, t: int)
    | PopCas(b: int, t: int, ptr: Ptr)
    | PopRestoreWon(b: int, ptr: Ptr)
    | PopRestoreFailed(b: int)
    | PopDeref(ptr: Ptr)

  /** A thief's next atomic step; a thread that is not inside `steal` is not in the map. */
  datatype ThiefPc =
    | StealLoadTop
    | StealLoadBottom(t: int)
    | StealLoadBuffer(t: int)
    | StealGet(t: int, buf: nat)
    | StealCas(t: int, ptr: Ptr)
    | StealDeref(ptr: Ptr)

  datatype Delivery = Delivery(ptr: Ptr, task: Task)

  /**
    `bufs` holds every buffer ever allocated, retired ones included; `cur` is the one `buffer_`
    points to.  `heap` is the set of live task allocations.  `pushed` logs the task of every
    allocation, `delivered` what the winners moved out, and `fault` records a dereference or a
    delete of memory that is not live.
   */
  datatype State = State(
    top: int,
    bottom: int,
    cur: nat,
    bufs: seq<Buffer>,
    heap: map<Ptr, Task>,
    owner: OwnerPc,
    thieves: map<nat, ThiefPc>,
    pushed: seq<Task>,
    delivered: seq<Delivery>,
    fault: bool)

  function BufferAt(s: State, k: nat): Buffer {
    if k < |s.bufs| then s.bufs[k] else []
  }

  function Current(s: State): Buffer {
    BufferAt(s, s.cur)
  }

  /** The constructor: one buffer of power-of-two capacity, its slots not yet written. */
  ghost predicate Init(s: State) {
    && s.top == 0 && s.bottom == 0 && s.cur == 0
    && |s.bufs| == 1 && IsPow2(|s.bufs[0]|)
    && s.heap == map[] && s.owner == Idle && s.thieves == map[]
    && s.pushed == [] && s.delivered == [] && !s.fault
  }

  // ---------------------------------------------------------------- steps

  /** The scheduler's choice of who moves; `junk` is what a freshly allocated ring happens to hold. */
  datatype Action =
    | CallPush(task: Task)
    | CallPop
    | Owner(junk: Buffer)
    | CallSteal(thief: nat)
    | Thief(thief: nat)

  function Allocated(junk: Buffer, n: nat): (buf: Buffer)
    ensures |buf| == n
  {
    if |junk| == n then junk else seq(n, _ => 0)
  }

  /** `out = std::move(*p); delete p;` */
  function Deliver(s: State, p: Ptr): State {
    if p in s.heap then
      s.(heap := s.heap - {p}, delivered := s.delivered + [Delivery(p, s.heap[p])])
    else
      s.(fault := true)
  }

  function OwnerNext(s: State, junk: Buffer): State {
    match s.owner
    case Idle => s
    case PushLoadBottom(task) => s.(owner := PushLoadTop(task, s.bottom))
    case PushLoadTop(task, b) => s.(owner := PushLoadBuffer(task, b, s.top))
    case PushLoadBuffer(task, b, t) =>
      if b - t >= |Current(s)| - 1 then
        s.(bufs := s.bufs + [Allocated(junk, 2 * |Current(s)|)],
           owner := GrowCopy(task, b, t, |s.bufs|, t))
      else
        s.(owner := PushPut(task, b, s.cur))
    case GrowCopy(task, b, t, grown, i) =>
      if i < b && grown < |s.bufs| then
        s.(bufs := s.bufs[grown := Put(s.bufs[grown], i, Get(Current(s), i))],
           owner := GrowCopy(task, b, t, grown, i + 1))
      else
        s.(owner := GrowPublish(task, b, grown))
    case GrowPublish(task, b, grown) =>
      s.(cur := grown, owner := PushPut(task, b, grown))
    case PushPut(task, b, buf) =>
      var p := |s.pushed|;
      s.(heap := s.heap[p := task], pushed := s.pushed + [task],
         bufs := if buf < |s.bufs| then s.bufs[buf := Put(s.bufs[buf], b, p)] else s.bufs,
         owner := PushPublish(b, p))
    case PushPublish(b, _) => s.(bottom := b + 1, owner := Idle)
    case PopLoadBottom => s.(owner := PopLoadBuffer(s.bottom - 1))
    case PopLoadBuffer(b) => s.(owner := PopStoreBottom(b, s.cur))
    case PopStoreBottom(b, buf) => s.(bottom := b, owner := PopLoadTop(b, buf))
    case PopLoadTop(b, buf) =>
      if s.top > b then s.(owner := PopRestoreFailed(b)) else s.(owner := PopGet(b, buf, s.top))
    case PopGet(b, buf, t) =>
      var p := Get(BufferAt(s, buf), b);
      if t == b then s.(owner := PopCas(b, t, p)) else s.(owner := PopDeref(p))
    case PopCas(b, t, p) =>
      if s.top == t then s.(top := t + 1, owner := PopRestoreWon(b, p))
      else s.(owner := PopRestoreFailed(b))
    case PopRestoreWon(b, p) => s.(bottom := b + 1, owner := PopDeref(p))
    case PopRestoreFailed(b) => s.(bottom := b + 1, owner := Idle)
    case PopDeref(p) => Deliver(s, p).(owner := Idle)
  }

  function SetThief(s: State, id: nat, pc: ThiefPc): State {
    s.(thieves := s.thieves[id := pc])
  }

  function ThiefReturns(s: State, id: nat): State {
    s.(thieves := s.thieves - {id})
  }

  function ThiefNext(s: State, id: nat): State
    requires id in s.thieves
  {
    match s.thieves[id]
    case StealLoadTop => SetThief(s, id, StealLoadBottom(s.top))
    case StealLoadBottom(t) =>
      if t >= s.bottom then ThiefReturns(s, id) else SetThief(s, id, StealLoadBuffer(t))
    case StealLoadBuffer(t) => SetThief(s, id, StealGet(t, s.cur))
    case StealGet(t, buf) => SetThief(s, id, StealCas(t, Get(BufferAt(s, buf), t)))
    case StealCas(t, p) =>
      if s.top == t then SetThief(s, id, StealDeref(p)).(top := t + 1) else ThiefReturns(s, id)
    case StealDeref(p) => ThiefReturns(Deliver(s, p), id)
  }

  /** One step of the chosen actor; an action that is not possible in `s` changes nothing. */
  function Next(s: State, a: Action): State {
    match a
    case CallPush(task) => if s.owner == Idle then s.(owner := PushLoadBottom(task)) else s
    case CallPop => if s.owner == Idle then s.(owner := PopLoadBottom) else s
    case Owner(junk) => OwnerNext(s, junk)
    case CallSteal(id) => if id in s.thieves then s else SetThief(s, id, StealLoadTop)
    case Thief(id) => if id in s.thieves then ThiefNext(s, id) else s
  }

  /** The state after an arbitrary schedule. */
  function Run(s: State, schedule: seq<Action>): State
    decreases |schedule|
  {
    if schedule == [] then s
    else Next(Run(s, schedule[..|schedule| - 1]), schedule[|schedule| - 1])
  }

  // ---------------------------------------------------------------- abstraction

  /**
    One past the newest index still in the deque.  Lowering `bottom` does not yet remove anything:
    the owner's pop takes effect when it loads a `top` below its index, or at its CAS.
   */
  function End(s: State): int {
    match s.owner
    case PopLoadTop(b, _) => b + 1
    case PopGet(b, _, t) => if t < b then b else b + 1
    case PopCas(b, _, _) => b + 1
    case PopRestoreWon(b, _) => b + 1
    case PopRestoreFailed(b) => b + 1
    case _ => s.bottom
  }

  function At(s: State, i: int): Ptr {
    Get(Current(s), i)
  }

  function Contents(s: State): seq<Ptr> {
    if s.top <= End(s) then seq<Ptr>(End(s) - s.top, j => At(s, s.top + j)) else []
  }

  /** What a step does to the abstract deque and to the call that makes it. */
  datatype Event =
    | Silent
    | Pushed(ptr: Ptr)
    | Popped(ptr: Ptr)
    | Stolen(thief: nat, ptr: Ptr)
    | PopFails
    | StealFindsEmpty(thief: nat)
    | StealLosesRace(thief: nat, index: int)

  function EventOf(s: State, a: Action): Event {
    match a
    case Owner(_) =>
      (match s.owner
       case PushPublish(_, p) => Pushed(p)
       case PopLoadTop(b, _) => if s.top > b then PopFails else if s.top < b then Popped(At(s, b)) else Silent
       case PopCas(_, t, p) => if s.top == t then Popped(p) else PopFails
       case _ => Silent)
    case Thief(id) =>
      if id !in s.thieves then Silent else
      (match s.thieves[id]
       case StealLoadBottom(t) => if t >= s.bottom then StealFindsEmpty(id) else Silent
       case StealCas(t, p) => if s.top == t then Stolen(id, p) else StealLosesRace(id, t)
       case _ => Silent)
    case _ => Silent
  }

  /** The sequential specification: a plain double-ended sequence; None if it cannot do `e`. */
  function Play(q: seq<Ptr>, e: Event): Option<seq<Ptr>> {
    match e
    case Pushed(p) => Some(q + [p])
    case Popped(p) => if |q| > 0 && q[|q| - 1] == p then Some(q[..|q| - 1]) else None
    case Stolen(_, p) => if |q| > 0 && q[0] == p then Some(q[1..]) else None
    case PopFails => if q == [] then Some(q) else None
    case _ => Some(q)
  }

  // ---------------------------------------------------------------- the invariant

  ghost predicate BuffersOk(s: State) {
    && s.cur < |s.bufs|
    && (forall k :: 0 <= k < |s.bufs| ==> IsPow2(|s.bufs[k]|) && |s.bufs[k]| > 0)
    && |s.bufs| == (if s.owner.GrowCopy? || s.owner.GrowPublish? then s.cur + 2 else s.cur + 1)
  }

  /** What the owner's locals still say about the shared state. */
  ghost predicate OwnerOk(s: State)
    requires s.cur < |s.bufs|
  {
    var cap := |Current(s)|;
    match s.owner
    case PushLoadTop(_, b) => b == s.bottom
    case PushLoadBuffer(_, b, t) => b == s.bottom && 0 <= t <= s.top && b - t < cap
    case GrowCopy(_, b, t, grown, i) =>
      && b == s.bottom && 0 <= t <= s.top && b - t < cap && t <= i <= b
      && grown == s.cur + 1 < |s.bufs| && |s.bufs[grown]| == 2 * cap
      && (forall j {:trigger At(s, j)} :: t <= j < i ==> Get(s.bufs[grown], j) == At(s, j))
    case GrowPublish(_, b, grown) =>
      && b == s.bottom && grown == s.cur + 1 < |s.bufs| && |s.bufs[grown]| == 2 * cap
      && (forall j {:trigger At(s, j)} :: s.top <= j < b ==> Get(s.bufs[grown], j) == At(s, j))
    case PushPut(_, b, buf) => b == s.bottom && buf == s.cur && b - s.top < cap - 1
    case PushPublish(b, p) => b == s.bottom && At(s, b) == p && b - s.top < cap - 1
    case PopLoadBuffer(b) => s.bottom == b + 1
    case PopStoreBottom(b, buf) => s.bottom == b + 1 && buf == s.cur
    case PopLoadTop(b, buf) => s.bottom == b && buf == s.cur
    case PopGet(b, buf, t) => s.bottom == b && buf == s.cur && t <= b && t <= s.top
    case PopCas(b, t, p) => s.bottom == b && t == b && t <= s.top && p == At(s, b)
    case PopRestoreWon(b, _) => s.bottom == b && s.top == b + 1
    case PopRestoreFailed(b) => s.bottom == b && s.top == b + 1
    case _ => true
  }

  /**
    What a thief's locals say.  A stale `t` (below `top`) makes no promise about the slot that was
    read, and its CAS must fail; a `t` that still equals `top` names the oldest element.
   */
  ghost predicate ThiefOk(s: State, pc: ThiefPc) {
    match pc
    case StealLoadTop => true
    case StealLoadBottom(t) => t <= s.top
    case StealLoadBuffer(t) => t <= s.top && (t == s.top ==> t < End(s))
    case StealGet(t, buf) =>
      t <= s.top && buf <= s.cur && (t == s.top ==> t < End(s) && Get(BufferAt(s, buf), t) == At(s, t))
    case StealCas(t, p) => t <= s.top && (t == s.top ==> t < End(s) && p == At(s, t))
    case StealDeref(_) => true
  }

  ghost predicate ThievesOk(s: State) {
    forall id :: id in s.thieves ==> ThiefOk(s, s.thieves[id])
  }

  ghost predicate Shape(s: State) {
    && BuffersOk(s)
    && 0 <= s.top <= End(s)
    && End(s) - s.top < |Current(s)|
    && OwnerOk(s)
    && ThievesOk(s)
  }

  /** The allocation the owner alone answers for: about to be published, or taken and not yet moved out. */
  function Held(s: State): set<Ptr> {
    match s.owner
    case PushPublish(_, p) => {p}
    case PopGet(b, _, t) => if t < b then {At(s, b)} else {}
    case PopRestoreWon(_, p) => {p}
    case PopDeref(p) => {p}
    case _ => {}
  }

  /** What each winning thief has taken and not yet moved out. */
  function Loot(s: State): map<nat, Ptr> {
    map id | id in s.thieves && s.thieves[id].StealDeref? :: s.thieves[id].ptr
  }

  /** Every live allocation has exactly one holder, and every holder's pointer is live. */
  ghost predicate Accounted(q: seq<Ptr>, held: set<Ptr>, loot: map<nat, Ptr>, live: set<Ptr>) {
    && (forall i, j :: 0 <= i < j < |q| ==> q[i] != q[j])
    && (forall i :: 0 <= i < |q| ==> q[i] in live && q[i] !in held)
    && (forall p :: p in held ==> p in live)
    && (forall id :: id in loot ==> loot[id] in live && loot[id] !in held && loot[id] !in q)
    && (forall id, id' :: id in loot && id' in loot && loot[id] == loot[id'] ==> id == id')
    && (forall p :: p in live ==> p in q || p in held || p in loot.Values)
  }

  ghost predicate HoldersOk(s: State) {
    Accounted(Contents(s), Held(s), Loot(s), s.heap.Keys)
  }

  /** The log: every allocation is live or was delivered, once, with the task it was pushed with. */
  ghost predicate LogOk(s: State) {
    && !s.fault
    && (forall p :: p in s.heap ==> p < |s.pushed| && s.heap[p] == s.pushed[p])
    && (forall k :: 0 <= k < |s.delivered| ==>
          s.delivered[k].ptr < |s.pushed| && s.delivered[k].ptr !in s.heap
          && s.delivered[k].task == s.pushed[s.delivered[k].ptr])
    && (forall k, l :: 0 <= k < l < |s.delivered| ==> s.delivered[k].ptr != s.delivered[l].ptr)
    && (forall p :: 0 <= p < |s.pushed| ==> p in s.heap || WasDelivered(s, p))
  }

  ghost predicate WasDelivered(s: State, p: Ptr) {
    exists k :: 0 <= k < |s.delivered| && s.delivered[k].ptr == p
  }

  ghost predicate Inv(s: State) {
    Shape(s) && HoldersOk(s) && LogOk(s)
  }
}
