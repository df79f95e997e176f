/** What a call of `push` was given is what the call of `pop` or `steal` that takes it returns. */
module ChaseLevDelivery {
  import opened Tasks
  import opened ChaseLev
  import opened ChaseLevSafety

  // ---------------------------------------------------------------- pushes

  /** The owner is in a push that was given `task` and stores it as allocation `p`. */
  predicate InPush(s: State, task: Task, p: Ptr) {
    match s.owner
    case PushPublish(_, q) => q == p && p < |s.pushed| && s.pushed[p] == task
    case _ => Unstored(s.owner) == [task] && p == |s.pushed|
  }

  lemma InPushStays(r: State, a: Action, task: Task, p: Ptr)
    requires InPush(r, task, p)
    ensures if EventOf(r, a).Pushed? then EventOf(r, a).ptr == p && r.pushed[p] == task
            else InPush(Next(r, a), task, p)
  {
    hide Get, Put, Allocated, BufferAt;
    if a.Thief? && a.thief in r.thieves {
      ThiefFrame(r, a.thief);
      hide ThiefNext;
    }
  }

  /** The argument of a call of `push` is what that call stores: the next task published is this one, unchanged. */
  lemma {:induction false} PushStoresItsArgument(s: State, schedule: seq<Action>, i: nat, j: nat)
    requires i < j < |schedule| && schedule[i].CallPush? && StateAt(s, schedule, i).owner == Idle
    requires forall k {:trigger StateAt(s, schedule, k)} ::
               i < k < j ==> !EventOf(StateAt(s, schedule, k), schedule[k]).Pushed?
    requires EventOf(StateAt(s, schedule, j), schedule[j]).Pushed?
    ensures var p := EventOf(StateAt(s, schedule, j), schedule[j]).ptr;
            && p == |StateAt(s, schedule, i).pushed| < |StateAt(s, schedule, j).pushed|
            && StateAt(s, schedule, j).pushed[p] == schedule[i].task
  {
    var task, p := schedule[i].task, |StateAt(s, schedule, i).pushed|;
    StateAtStep(s, schedule, i);
    hide EventOf;
    var k := i + 1;
    assert InPush(StateAt(s, schedule, k), task, p);
    hide Next, StateAt, Unstored;
    while k < j
      invariant i < k <= j && InPush(StateAt(s, schedule, k), task, p)
    {
      StateAtStep(s, schedule, k);
      InPushStays(StateAt(s, schedule, k), schedule[k], task, p);
      k := k + 1;
    }
    InPushStays(StateAt(s, schedule, j), schedule[j], task, p);
  }

  lemma InPushFrom(r: State, a: Action, task: Task, p: Ptr)
    requires InPush(Next(r, a), task, p)
    ensures InPush(r, task, p) || (a == CallPush(task) && r.owner == Idle)
  {
    hide Get, Put, Allocated, BufferAt;
    if a.Thief? && a.thief in r.thieves {
      ThiefFrame(r, a.thief);
      hide ThiefNext;
    }
  }

  /** The call of `push` at step `c` has been running ever since, up to step `j`. */
  ghost predicate PushingSince(s: State, schedule: seq<Action>, task: Task, p: Ptr, c: nat, j: nat)
    requires c < j <= |schedule|
  {
    && schedule[c] == CallPush(task) && StateAt(s, schedule, c).owner == Idle
    && forall k {:trigger StateAt(s, schedule, k)} :: c < k <= j ==> InPush(StateAt(s, schedule, k), task, p)
  }

  lemma {:induction false} CallPoint(s: State, schedule: seq<Action>, task: Task, p: Ptr, j: nat) returns (c: nat)
    requires Init(s) && j <= |schedule| && InPush(StateAt(s, schedule, j), task, p)
    ensures c < j && PushingSince(s, schedule, task, p, c, j)
  {
    hide Next, EventOf;
    if j == 0 {
      assert false;
    } else {
      StateAtStep(s, schedule, j - 1);
      InPushFrom(StateAt(s, schedule, j - 1), schedule[j - 1], task, p);
      hide InPush;
      if InPush(StateAt(s, schedule, j - 1), task, p) {
        c := CallPoint(s, schedule, task, p, j - 1);
      } else {
        c := j - 1;
      }
    }
  }

  /** The push of `p` is over. */
  predicate IsPublished(s: State, p: Ptr) {
    p < |s.pushed| && !(s.owner.PushPublish? && s.owner.ptr == p)
  }

  lemma PublishedFrom(r: State, a: Action, p: Ptr)
    requires IsPublished(Next(r, a), p)
    ensures p < |r.pushed| && Next(r, a).pushed[p] == r.pushed[p]
    ensures IsPublished(r, p) || (EventOf(r, a) == Pushed(p) && InPush(r, r.pushed[p], p))
  {
    hide Get, Put, Allocated, BufferAt;
    if a.Thief? && a.thief in r.thieves {
      ThiefFrame(r, a.thief);
      hide ThiefNext;
    }
  }

  /** `p` was published at step `d` by the call of `push` made at step `c`, whose argument was `task`. */
  ghost predicate PushedBy(s: State, schedule: seq<Action>, p: Ptr, task: Task, c: nat, d: nat)
    requires c < d < |schedule|
  {
    EventOf(StateAt(s, schedule, d), schedule[d]) == Pushed(p) && PushingSince(s, schedule, task, p, c, d)
  }

  lemma {:induction false} PublishPoint(s: State, schedule: seq<Action>, p: Ptr, j: nat) returns (c: nat, d: nat)
    requires Init(s) && j <= |schedule| && IsPublished(StateAt(s, schedule, j), p)
    ensures c < d < j && PushedBy(s, schedule, p, StateAt(s, schedule, j).pushed[p], c, d)
  {
    hide Next, EventOf, InPush;
    if j == 0 {
      assert false;
    } else {
      StateAtStep(s, schedule, j - 1);
      PublishedFrom(StateAt(s, schedule, j - 1), schedule[j - 1], p);
      if IsPublished(StateAt(s, schedule, j - 1), p) {
        c, d := PublishPoint(s, schedule, p, j - 1);
      } else {
        d := j - 1;
        c := CallPoint(s, schedule, StateAt(s, schedule, d).pushed[p], p, d);
      }
    }
  }

  /** Only a task whose push is over is ever taken. */
  lemma TakenIsPublished(r: State, a: Action, p: Ptr)
    requires Inv(r) && (EventOf(r, a) == Popped(p) || exists id :: EventOf(r, a) == Stolen(id, p))
    ensures IsPublished(r, p)
  {
    var q, q' := Contents(r), Contents(Next(r, a));
    Step(r, a);
    assert p in q;
    hide Contents, Loot, Shape, Get, Next, EventOf;
  }

  lemma LogGrows(r: State, a: Action)
    ensures r.pushed <= Next(r, a).pushed
  {
    hide Get, Put, Allocated, BufferAt;
    if a.Thief? && a.thief in r.thieves {
      ThiefFrame(r, a.thief);
      hide ThiefNext;
    }
  }

  lemma {:induction false} LogKept(s: State, schedule: seq<Action>, i: nat, j: nat)
    requires i <= j <= |schedule|
    ensures StateAt(s, schedule, i).pushed <= StateAt(s, schedule, j).pushed
    decreases j
  {
    hide Next;
    if i < j {
      LogKept(s, schedule, i, j - 1);
      StateAtStep(s, schedule, j - 1);
      LogGrows(StateAt(s, schedule, j - 1), schedule[j - 1]);
    }
  }

  lemma TakenWasPushed(s: State, schedule: seq<Action>, p: Ptr, i: nat, j: nat) returns (c: nat, d: nat)
    requires Init(s) && i < j < |schedule|
    requires var e := EventOf(StateAt(s, schedule, i), schedule[i]); e == Popped(p) || exists id :: e == Stolen(id, p)
    ensures c < d < i && p < |StateAt(s, schedule, j).pushed|
    ensures PushedBy(s, schedule, p, StateAt(s, schedule, j).pushed[p], c, d)
  {
    hide EventOf, PushedBy, Inv;
    RunInv(s, schedule[..i]);
    TakenIsPublished(StateAt(s, schedule, i), schedule[i], p);
    c, d := PublishPoint(s, schedule, p, i);
    LogKept(s, schedule, i, j);
  }

  // ---------------------------------------------------------------- growth

  /** The push loaded `top` at step `i`, with `n` tasks in the deque, and has not yet chosen its buffer. */
  ghost predicate LoadedAt(s: State, schedule: seq<Action>, n: int, i: nat, j: nat)
    requires i < j <= |schedule|
  {
    && schedule[i].Owner? && StateAt(s, schedule, i).owner.PushLoadTop? && |Contents(StateAt(s, schedule, i))| == n
    && forall k {:trigger StateAt(s, schedule, k)} :: i < k <= j ==> StateAt(s, schedule, k).owner.PushLoadBuffer?
  }

  lemma LoadedFrom(r: State, a: Action)
    requires Shape(r) && Next(r, a).owner.PushLoadBuffer?
    ensures Next(r, a).owner == r.owner
            || (a.Owner? && r.owner.PushLoadTop? && Next(r, a).owner.b - Next(r, a).owner.t == |Contents(r)|)
  {
    hide Get, Put, Allocated, BufferAt, ThievesOk, BuffersOk;
    if a.Thief? && a.thief in r.thieves {
      ThiefFrame(r, a.thief);
      hide ThiefNext;
    }
  }

  lemma {:induction false} LoadTopPoint(s: State, schedule: seq<Action>, j: nat) returns (i: nat)
    requires Init(s) && j <= |schedule| && StateAt(s, schedule, j).owner.PushLoadBuffer?
    ensures i < j
    ensures LoadedAt(s, schedule, StateAt(s, schedule, j).owner.b - StateAt(s, schedule, j).owner.t, i, j)
  {
    hide Next, Contents, Shape;
    if j == 0 {
      assert false;
    } else {
      StateAtStep(s, schedule, j - 1);
      RunInv(s, schedule[..j - 1]);
      LoadedFrom(StateAt(s, schedule, j - 1), schedule[j - 1]);
      if StateAt(s, schedule, j - 1).owner.PushLoadBuffer? {
        i := LoadTopPoint(s, schedule, j - 1);
      } else {
        i := j - 1;
      }
    }
  }

  /** A push doubles the ring exactly if the deque held the capacity less one when the call loaded `top`, and
      it never held more. */
  lemma GrowsExactlyWhenFull(s: State, schedule: seq<Action>, j: nat)
    requires Init(s) && j < |schedule| && schedule[j].Owner? && StateAt(s, schedule, j).owner.PushLoadBuffer?
    ensures var r, r' := StateAt(s, schedule, j), StateAt(s, schedule, j + 1);
            exists n, i: nat ::
              && i < j && LoadedAt(s, schedule, n, i, j) && n < |Current(r)|
              && (r'.owner.GrowCopy? <==> n == |Current(r)| - 1)
              && |r'.bufs| == |r.bufs| + (if n == |Current(r)| - 1 then 1 else 0)
              && (r'.owner.GrowCopy? ==> |r'.bufs[|r.bufs|]| == 2 * |Current(r)|)
  {
    var r := StateAt(s, schedule, j);
    RunInv(s, schedule[..j]);
    StateAtStep(s, schedule, j);
    var i := LoadTopPoint(s, schedule, j);
    assert r.owner.b - r.owner.t < |Current(r)|;
    hide Run, LoadedAt, Inv;
  }

  // ---------------------------------------------------------------- the owner

  /** The owner's pop has taken `p` and not yet moved it out. */
  predicate OwnerTook(s: State, p: Ptr) {
    match s.owner
    case PopGet(b, _, t) => t < b && At(s, b) == p
    case PopRestoreWon(_, q) => q == p
    case PopDeref(q) => q == p
    case _ => false
  }

  lemma OwnerTookFrom(r: State, a: Action, p: Ptr)
    requires Shape(r) && OwnerTook(Next(r, a), p)
    ensures OwnerTook(r, p) || EventOf(r, a) == Popped(p)
  {
    match a
    case Owner(junk) => OwnStepTook(r, junk, p);
    case Thief(id) =>
      if id in r.thieves {
        ThiefFrame(r, id);
        hide ThiefNext, Get;
      }
    case _ =>
      hide Get;
  }

  lemma OwnStepTook(r: State, junk: Buffer, p: Ptr)
    requires Shape(r) && OwnerTook(OwnerNext(r, junk), p)
    ensures OwnerTook(r, p) || EventOf(r, Owner(junk)) == Popped(p)
  {
    hide Get, Put, Allocated;
  }

  /** The pop took `p` at step `i` and has been in the same call ever since. */
  ghost predicate OwnerTookAt(s: State, schedule: seq<Action>, p: Ptr, i: nat, j: nat)
    requires i < j <= |schedule|
  {
    && EventOf(StateAt(s, schedule, i), schedule[i]) == Popped(p)
    && forall k {:trigger StateAt(s, schedule, k)} :: i < k <= j ==> OwnerTook(StateAt(s, schedule, k), p)
  }

  lemma {:induction false} OwnerTakePoint(s: State, schedule: seq<Action>, p: Ptr, j: nat) returns (i: nat)
    requires Init(s) && j <= |schedule| && OwnerTook(StateAt(s, schedule, j), p)
    ensures i < j && OwnerTookAt(s, schedule, p, i, j)
  {
    hide Next, EventOf, Shape;
    if j == 0 {
      assert false;
    } else {
      StateAtStep(s, schedule, j - 1);
      RunInv(s, schedule[..j - 1]);
      OwnerTookFrom(StateAt(s, schedule, j - 1), schedule[j - 1], p);
      hide OwnerTook;
      if OwnerTook(StateAt(s, schedule, j - 1), p) {
        i := OwnerTakePoint(s, schedule, p, j - 1);
      } else {
        i := j - 1;
      }
    }
  }

  lemma OwnerHoldsLive(r: State)
    requires Inv(r) && r.owner.PopDeref?
    ensures r.owner.ptr in r.heap
  {
    assert r.owner.ptr in Held(r);
    hide Shape, Contents, Loot;
  }

  lemma OwnerDelivers(r: State, a: Action)
    requires Inv(r) && a.Owner? && r.owner.PopDeref?
    ensures var p, r' := r.owner.ptr, Next(r, a);
            p < |r.pushed| && r'.delivered == r.delivered + [Delivery(p, r.pushed[p])] && r'.owner == Idle
  {
    hide Shape, HoldersOk, Contents, Held, Loot, Get, Put, WasDelivered, ThiefNext;
    OwnerHoldsLive(r);
  }

  /** The pop that moves out `p` is the call that took `p` from the deque, at step `i`, and it returns the
      argument of the call of `push`, at step `c`, that had published `p` before that, at step `d`. */
  lemma PopDeliversWhatItTook(s: State, schedule: seq<Action>, j: nat)
    requires Init(s) && j < |schedule| && schedule[j].Owner?
    requires StateAt(s, schedule, j).owner.PopDeref?
    ensures var r, r' := StateAt(s, schedule, j), StateAt(s, schedule, j + 1);
            var p := r.owner.ptr;
            && r'.owner == Idle
            && exists task, c: nat, d: nat, i: nat ::
                 && c < d < i < j && PushedBy(s, schedule, p, task, c, d) && OwnerTookAt(s, schedule, p, i, j)
                 && r'.delivered == r.delivered + [Delivery(p, task)]
  {
    var r := StateAt(s, schedule, j);
    RunInv(s, schedule[..j]);
    OwnerDelivers(r, schedule[j]);
    hide Inv, PushedBy, Next, EventOf;
    StateAtStep(s, schedule, j);
    var i := OwnerTakePoint(s, schedule, r.owner.ptr, j);
    var c, d := TakenWasPushed(s, schedule, r.owner.ptr, i, j);
    hide Run, OwnerTookAt;
    assert c < d < i < j && PushedBy(s, schedule, r.owner.ptr, r.pushed[r.owner.ptr], c, d);
  }

  // ---------------------------------------------------------------- thieves

  predicate ThiefTook(s: State, id: nat, p: Ptr) {
    id in s.thieves && s.thieves[id] == StealDeref(p)
  }

  lemma ThiefTookFrom(r: State, a: Action, id: nat, p: Ptr)
    requires ThiefTook(Next(r, a), id, p)
    ensures ThiefTook(r, id, p) || EventOf(r, a) == Stolen(id, p)
  {
    hide Get, Put, Allocated;
    if a.Owner? {
      OwnerKeepsThieves(r, a.junk);
      hide OwnerNext;
    }
  }

  ghost predicate ThiefTookAt(s: State, schedule: seq<Action>, id: nat, p: Ptr, i: nat, j: nat)
    requires i < j <= |schedule|
  {
    && EventOf(StateAt(s, schedule, i), schedule[i]) == Stolen(id, p)
    && forall k {:trigger StateAt(s, schedule, k)} :: i < k <= j ==> ThiefTook(StateAt(s, schedule, k), id, p)
  }

  lemma {:induction false} ThiefTakePoint(s: State, schedule: seq<Action>, id: nat, p: Ptr, j: nat) returns (i: nat)
    requires Init(s) && j <= |schedule| && ThiefTook(StateAt(s, schedule, j), id, p)
    ensures i < j && ThiefTookAt(s, schedule, id, p, i, j)
  {
    hide Next, EventOf;
    if j == 0 {
      assert false;
    } else {
      StateAtStep(s, schedule, j - 1);
      ThiefTookFrom(StateAt(s, schedule, j - 1), schedule[j - 1], id, p);
      hide ThiefTook;
      if ThiefTook(StateAt(s, schedule, j - 1), id, p) {
        i := ThiefTakePoint(s, schedule, id, p, j - 1);
      } else {
        i := j - 1;
      }
    }
  }

  lemma ThiefHoldsLive(r: State, id: nat)
    requires Inv(r) && id in r.thieves && r.thieves[id].StealDeref?
    ensures r.thieves[id].ptr in r.heap
  {
    assert id in Loot(r);
    hide Shape, Contents, Held;
  }

  lemma ThiefDelivers(r: State, id: nat)
    requires Inv(r) && id in r.thieves && r.thieves[id].StealDeref?
    ensures var p, r' := r.thieves[id].ptr, Next(r, Thief(id));
            p < |r.pushed| && r'.delivered == r.delivered + [Delivery(p, r.pushed[p])] && id !in r'.thieves
  {
    hide Shape, HoldersOk, Contents, Held, Loot, Get, Put, WasDelivered, OwnerNext;
    ThiefHoldsLive(r, id);
  }

  /** The steal that moves out `p` is the call whose CAS took `p`, at step `i`, and it returns the argument of
      the call of `push`, at step `c`, that had published `p` before that, at step `d`. */
  lemma StealDeliversWhatItTook(s: State, schedule: seq<Action>, id: nat, j: nat)
    requires Init(s) && j < |schedule| && schedule[j] == Thief(id)
    requires id in StateAt(s, schedule, j).thieves && StateAt(s, schedule, j).thieves[id].StealDeref?
    ensures var r, r' := StateAt(s, schedule, j), StateAt(s, schedule, j + 1);
            var p := r.thieves[id].ptr;
            && id !in r'.thieves
            && exists task, c: nat, d: nat, i: nat ::
                 && c < d < i < j && PushedBy(s, schedule, p, task, c, d) && ThiefTookAt(s, schedule, id, p, i, j)
                 && r'.delivered == r.delivered + [Delivery(p, task)]
  {
    var r := StateAt(s, schedule, j);
    RunInv(s, schedule[..j]);
    hide Inv, PushedBy, Next, EventOf;
    StateAtStep(s, schedule, j);
    ThiefDelivers(r, id);
    var i := ThiefTakePoint(s, schedule, id, r.thieves[id].ptr, j);
    var c, d := TakenWasPushed(s, schedule, r.thieves[id].ptr, i, j);
    hide Run, ThiefTookAt;
    assert c < d < i < j && PushedBy(s, schedule, r.thieves[id].ptr, r.pushed[r.thieves[id].ptr], c, d);
  }

  // ---------------------------------------------------------------- pops that fail

  lemma OwnerFailedFrom(r: State, a: Action)
    requires Next(r, a).owner.PopRestoreFailed?
    ensures r.owner.PopRestoreFailed? || EventOf(r, a) == PopFails
  {
    hide Get, Put, Allocated;
    if a.Thief? && a.thief in r.thieves {
      ThiefFrame(r, a.thief);
      hide ThiefNext;
    }
  }

  /** The pop failed at step `i`, on an empty deque, and has been in the same call ever since. */
  ghost predicate OwnerFailedAt(s: State, schedule: seq<Action>, i: nat, j: nat)
    requires i < j <= |schedule|
  {
    && EventOf(StateAt(s, schedule, i), schedule[i]) == PopFails && Contents(StateAt(s, schedule, i)) == []
    && forall k {:trigger StateAt(s, schedule, k)} :: i < k <= j ==> StateAt(s, schedule, k).owner.PopRestoreFailed?
  }

  lemma {:induction false} OwnerFailPoint(s: State, schedule: seq<Action>, j: nat) returns (i: nat)
    requires Init(s) && j <= |schedule| && StateAt(s, schedule, j).owner.PopRestoreFailed?
    ensures i < j && OwnerFailedAt(s, schedule, i, j)
  {
    hide Next, EventOf, Inv, Contents;
    if j == 0 {
      assert false;
    } else {
      StateAtStep(s, schedule, j - 1);
      RunInv(s, schedule[..j - 1]);
      OwnerFailedFrom(StateAt(s, schedule, j - 1), schedule[j - 1]);
      if StateAt(s, schedule, j - 1).owner.PopRestoreFailed? {
        i := OwnerFailPoint(s, schedule, j - 1);
      } else {
        Step(StateAt(s, schedule, j - 1), schedule[j - 1]);
        i := j - 1;
      }
    }
  }

  /** The pop that returns false is the call that found the deque empty, and it delivers nothing. */
  lemma PopFailsOnEmpty(s: State, schedule: seq<Action>, j: nat)
    requires Init(s) && j < |schedule| && schedule[j].Owner?
    requires StateAt(s, schedule, j).owner.PopRestoreFailed?
    ensures var r, r' := StateAt(s, schedule, j), StateAt(s, schedule, j + 1);
            && r'.owner == Idle && r'.delivered == r.delivered
            && exists i: nat :: i < j && OwnerFailedAt(s, schedule, i, j)
  {
    StateAtStep(s, schedule, j);
    var i := OwnerFailPoint(s, schedule, j);
    hide Run, OwnerFailedAt;
  }

  // ---------------------------------------------------------------- steals that report a contested task as none

  /** The owner is deciding its pop of the one task there is. */
  predicate Contested(s: State) {
    PopUndecided(s) && s.bottom == s.top
  }

  /** The thief has passed its test for emptiness with the index `t`. */
  predicate PastTest(s: State, id: nat, t: int) {
    id in s.thieves && (s.thieves[id].StealLoadBuffer? || s.thieves[id].StealGet? || s.thieves[id].StealCas?)
    && s.thieves[id].t == t
  }

  /** An empty answer to a thief whose index is current is given on an empty or on a contested deque. */
  lemma EmptyAnswer(r: State, id: nat)
    requires Shape(r) && EventOf(r, Thief(id)) == StealFindsEmpty(id) && r.thieves[id].t == r.top
    ensures Contents(r) == [] || Contested(r)
  {
    hide Get;
  }

  /** Until `top` moves the deque stays contested, and no thief newly passes the test. */
  lemma ContestedStep(r: State, a: Action, id: nat)
    requires Shape(r) && Contested(r) && Next(r, a).top == r.top
    ensures Contested(Next(r, a))
    ensures PastTest(Next(r, a), id, r.top) ==> PastTest(r, id, r.top)
  {
    match a
    case Owner(junk) => ContestedOwner(r, junk); OwnerKeepsThieves(r, junk);
    case Thief(other) =>
      if other in r.thieves {
        ContestedThief(r, other, id);
      }
    case _ =>
  }

  lemma ContestedOwner(r: State, junk: Buffer)
    requires Shape(r) && Contested(r) && OwnerNext(r, junk).top == r.top
    ensures Contested(OwnerNext(r, junk))
  {
    hide Get;
  }

  lemma ContestedThief(r: State, other: nat, id: nat)
    requires Contested(r) && other in r.thieves && ThiefNext(r, other).top == r.top
    ensures Contested(ThiefNext(r, other))
    ensures PastTest(ThiefNext(r, other), id, r.top) ==> PastTest(r, id, r.top)
  {
    hide Get;
  }

  lemma {:induction false} TopRises(s: State, schedule: seq<Action>, i: nat, j: nat)
    requires i <= j <= |schedule|
    ensures StateAt(s, schedule, i).top <= StateAt(s, schedule, j).top
    decreases j
  {
    hide Next, EventOf;
    if i < j {
      TopRises(s, schedule, i, j - 1);
      StateAtStep(s, schedule, j - 1);
      TopMovesByTakes(StateAt(s, schedule, j - 1), schedule[j - 1]);
    }
  }

  lemma {:induction false} ContestedStays(s: State, schedule: seq<Action>, i: nat, j: nat, id: nat)
    requires Init(s) && i <= j <= |schedule| && Contested(StateAt(s, schedule, i))
    requires StateAt(s, schedule, j).top == StateAt(s, schedule, i).top
    ensures Contested(StateAt(s, schedule, j))
    ensures var t := StateAt(s, schedule, i).top;
            PastTest(StateAt(s, schedule, j), id, t) ==> PastTest(StateAt(s, schedule, i), id, t)
    decreases j
  {
    hide Next, Contested, PastTest, Shape;
    if i < j {
      TopRises(s, schedule, i, j - 1);
      TopRises(s, schedule, j - 1, j);
      ContestedStays(s, schedule, i, j - 1, id);
      RunInv(s, schedule[..j - 1]);
      StateAtStep(s, schedule, j - 1);
      ContestedStep(StateAt(s, schedule, j - 1), schedule[j - 1], id);
    }
  }

  /** While the deque is contested, a take is by the pop being decided or by a thief past its test. */
  lemma ContestedTake(s: State, schedule: seq<Action>, i: nat, j: nat)
    requires Init(s) && i <= j < |schedule| && Contested(StateAt(s, schedule, i))
    requires StateAt(s, schedule, j).top == StateAt(s, schedule, i).top
    requires IsTake(EventOf(StateAt(s, schedule, j), schedule[j]))
    ensures var t, e := StateAt(s, schedule, i).top, EventOf(StateAt(s, schedule, j), schedule[j]);
            && (e.Popped? ==> UndecidedFrom(s, schedule, i, j))
            && (e.Stolen? ==> PastTest(StateAt(s, schedule, i), e.thief, t))
  {
    var r, e := StateAt(s, schedule, j), EventOf(StateAt(s, schedule, j), schedule[j]);
    if e.Stolen? {
      StolenPastTest(r, schedule[j]);
      ContestedStays(s, schedule, i, j, e.thief);
    } else {
      forall m {:trigger StateAt(s, schedule, m)} | i <= m <= j
        ensures PopUndecided(StateAt(s, schedule, m))
      {
        TopRises(s, schedule, i, m);
        TopRises(s, schedule, m, j);
        ContestedStays(s, schedule, i, m, 0);
      }
    }
  }

  /** The owner is in the same pop, not yet decided, from step `i` to step `j`. */
  ghost predicate UndecidedFrom(s: State, schedule: seq<Action>, i: nat, j: nat)
    requires i <= j <= |schedule|
  {
    forall m {:trigger StateAt(s, schedule, m)} :: i <= m <= j ==> PopUndecided(StateAt(s, schedule, m))
  }

  /**
    A steal with a current index that reports empty at step `i` while there is a task misses nothing it
    could have had: the next take, at step `j`, is by the pop that was being decided or by another thief
    that had passed its own test before.
   */
  lemma ContestedTaskIsReserved(s: State, schedule: seq<Action>, id: nat, i: nat, j: nat)
    requires Init(s) && i <= j < |schedule| && schedule[i] == Thief(id)
    requires EventOf(StateAt(s, schedule, i), schedule[i]) == StealFindsEmpty(id)
    requires StateAt(s, schedule, i).thieves[id].t == StateAt(s, schedule, i).top
    requires Contents(StateAt(s, schedule, i)) != []
    requires StateAt(s, schedule, j).top == StateAt(s, schedule, i).top
    requires IsTake(EventOf(StateAt(s, schedule, j), schedule[j]))
    ensures var t, e := StateAt(s, schedule, i).top, EventOf(StateAt(s, schedule, j), schedule[j]);
            && (e.Popped? ==> UndecidedFrom(s, schedule, i, j))
            && (e.Stolen? ==> e.thief != id && PastTest(StateAt(s, schedule, i), e.thief, t))
  {
    RunInv(s, schedule[..i]);
    EmptyAnswer(StateAt(s, schedule, i), id);
    assert !PastTest(StateAt(s, schedule, i), id, StateAt(s, schedule, i).top);
    hide Contents, Shape;
    ContestedTake(s, schedule, i, j);
  }

  lemma StolenPastTest(r: State, a: Action)
    requires EventOf(r, a).Stolen?
    ensures PastTest(r, EventOf(r, a).thief, r.top)
  {
    hide Get;
  }
}
