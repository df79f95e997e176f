/** Safety of the Chase-Lev deque over every schedule. */
module ChaseLevSafety {
  import opened Counting
  import opened Tasks
  import opened Arithmetic
  import opened ChaseLev

  // ---------------------------------------------------------------- shape

  /** Thieves keep their promises when `top` and the live slots are untouched. */
  lemma ThievesFrame(s: State, s': State)
    requires ThievesOk(s) && s.cur < |s.bufs| <= |s'.bufs| && s.cur <= s'.cur
    requires s'.thieves == s.thieves && s'.top == s.top
    requires End(s') >= End(s) || s.top < End(s')
    requires s.top < End(s) ==> At(s', s.top) == At(s, s.top)
    requires forall k :: 0 <= k <= s.cur && s.top < End(s) ==>
                           Get(s'.bufs[k], s.top) == Get(s.bufs[k], s.top)
    ensures ThievesOk(s')
  {
    hide Get;
    forall id | id in s'.thieves
      ensures ThiefOk(s', s'.thieves[id])
    {
      assert ThiefOk(s, s.thieves[id]);
    }
  }

  lemma GrowCopyFrame(s: State, junk: Buffer)
    requires Shape(s) && s.owner.GrowCopy?
    ensures var s' := OwnerNext(s, junk);
            && s'.top == s.top && End(s') == End(s) && s'.thieves == s.thieves && s'.cur == s.cur
            && |s'.bufs| == |s.bufs|
            && (forall k :: 0 <= k < |s.bufs| ==> |s'.bufs[k]| == |s.bufs[k]|)
            && (forall k :: 0 <= k <= s.cur ==> s'.bufs[k] == s.bufs[k])
  {
    hide Get, IsPow2, Pow2;
  }

  lemma GrowCopyProgress(s: State, junk: Buffer)
    requires Shape(s) && s.owner.GrowCopy?
    ensures OwnerOk(OwnerNext(s, junk))
  {
    var s' := OwnerNext(s, junk);
    GrowCopyFrame(s, junk);
    assert forall j :: At(s', j) == At(s, j);
    var i, grown := s.owner.i, s.owner.grown;
    if i < s.owner.b {
      PutGet(s.bufs[grown], i, At(s, i));
      hide Get, Put, IsPow2, Pow2;
      assert s'.bufs[grown] == Put(s.bufs[grown], i, At(s, i));
      forall j {:trigger At(s', j)} | s'.owner.t <= j < s'.owner.i
        ensures Get(s'.bufs[grown], j) == At(s', j)
      {
        assert At(s, j) == At(s', j);
      }
    }
  }

  lemma GrowCopyKeepsShape(s: State, junk: Buffer)
    requires Shape(s) && s.owner.GrowCopy?
    ensures Shape(OwnerNext(s, junk))
  {
    hide Get, Put, IsPow2, Pow2;
    GrowCopyFrame(s, junk);
    GrowCopyProgress(s, junk);
    ThievesFrame(s, OwnerNext(s, junk));
  }

  lemma GrowPublishKeepsShape(s: State, junk: Buffer)
    requires Shape(s) && s.owner.GrowPublish?
    ensures Shape(OwnerNext(s, junk))
  {
    hide Get, Put, IsPow2, Pow2;
    var s' := OwnerNext(s, junk);
    assert s.top < End(s) ==> At(s', s.top) == At(s, s.top);
    ThievesFrame(s, s');
  }

  lemma PushPutFrame(s: State, junk: Buffer)
    requires Shape(s) && s.owner.PushPut?
    ensures var s' := OwnerNext(s, junk);
            && End(s') == End(s) && s'.top == s.top && |Current(s')| == |Current(s)|
            && At(s', s.bottom) == |s.pushed|
            && forall i {:trigger At(s', i)} {:trigger At(s, i)} :: s.top <= i < End(s) ==> At(s', i) == At(s, i)
  {
    PutGet(Current(s), s.bottom, |s.pushed|);
    var s' := OwnerNext(s, junk);
    assert Current(s') == Put(Current(s), s.bottom, |s.pushed|);
  }

  lemma PushPutKeepsShape(s: State, junk: Buffer)
    requires Shape(s) && s.owner.PushPut?
    ensures Shape(OwnerNext(s, junk))
  {
    hide Get, Put, IsPow2, Pow2;
    var s' := OwnerNext(s, junk);
    PushPutFrame(s, junk);
    ThievesFrame(s, s');
  }

  lemma StartGrowingKeepsShape(s: State, junk: Buffer)
    requires Shape(s) && s.owner.PushLoadBuffer?
    ensures Shape(OwnerNext(s, junk))
  {
    Doubling(|Current(s)|);
    hide Get, Put, IsPow2, Pow2;
    var s' := OwnerNext(s, junk);
    assert Current(s') == Current(s);
    ThievesFrame(s, s');
  }

  lemma PopCasKeepsShape(s: State, junk: Buffer)
    requires Shape(s) && s.owner.PopCas?
    ensures Shape(OwnerNext(s, junk))
  {
    hide Get, Put, IsPow2, Pow2;
    var s' := OwnerNext(s, junk);
    forall id | id in s'.thieves
      ensures ThiefOk(s', s'.thieves[id])
    {
      assert ThiefOk(s, s.thieves[id]);
    }
  }

  /** The owner's other steps touch no slot and do not move `top`. */
  predicate Plain(pc: OwnerPc) {
    !pc.PushLoadBuffer? && !pc.GrowCopy? && !pc.GrowPublish? && !pc.PushPut? && !pc.PopCas?
  }

  lemma PlainFrame(s: State, junk: Buffer)
    requires Plain(s.owner)
    ensures var s' := OwnerNext(s, junk);
            && s'.top == s.top && s'.bufs == s.bufs && s'.cur == s.cur && s'.thieves == s.thieves
            && !s'.owner.GrowCopy? && !s'.owner.GrowPublish?
  {
    hide Get, Put, Allocated;
  }

  /** The end of the deque stays between `top` and the capacity, and moves back only past live elements. */
  ghost predicate EndFits(s: State, s': State) {
    && s'.top <= End(s') && End(s') - s'.top < |Current(s')|
    && (End(s') >= End(s) || s.top < End(s'))
  }

  predicate PopDeciding(pc: OwnerPc) {
    pc.PopStoreBottom? || pc.PopLoadTop? || pc.PopGet?
  }

  predicate PopEnding(pc: OwnerPc) {
    pc.PopRestoreWon? || pc.PopRestoreFailed? || pc.PopDeref? || pc.PopLoadBottom? || pc.PopLoadBuffer?
  }

  lemma PopDecidingEnd(s: State, junk: Buffer)
    requires OwnerEnd(s) && PopDeciding(s.owner) && Current(OwnerNext(s, junk)) == Current(s)
    ensures EndFits(s, OwnerNext(s, junk))
  {
    hide Get, Put, Current;
  }

  lemma PopEndingEnd(s: State, junk: Buffer)
    requires OwnerEnd(s) && PopEnding(s.owner) && Current(OwnerNext(s, junk)) == Current(s)
    ensures EndFits(s, OwnerNext(s, junk))
  {
    hide Get, Put, Current, Deliver;
    if s.owner.PopDeref? {
      DeliverEnd(s, s.owner.ptr);
    }
  }

  lemma DeliverEnd(s: State, p: Ptr)
    ensures Deliver(s, p).top == s.top && Deliver(s, p).bottom == s.bottom
  {}

  lemma PushingEnd(s: State, junk: Buffer)
    requires OwnerEnd(s) && Plain(s.owner) && !PopDeciding(s.owner) && !PopEnding(s.owner)
    requires Current(OwnerNext(s, junk)) == Current(s)
    ensures EndFits(s, OwnerNext(s, junk))
  {
    hide Get, Put, Current;
  }

  /** What `Shape` says without the thieves and the buffers. */
  ghost predicate OwnerEnd(s: State) {
    s.cur < |s.bufs| && 0 <= s.top <= End(s) && End(s) - s.top < |Current(s)| && OwnerOk(s)
  }

  lemma PlainEnd(s: State, junk: Buffer)
    requires Shape(s) && Plain(s.owner)
    ensures EndFits(s, OwnerNext(s, junk))
  {
    assert OwnerEnd(s);
    hide Shape, OwnerEnd, EndFits, OwnerNext, Get;
    assert Current(OwnerNext(s, junk)) == Current(s) by { PlainFrame(s, junk); }
    if PopDeciding(s.owner) {
      PopDecidingEnd(s, junk);
    } else if PopEnding(s.owner) {
      PopEndingEnd(s, junk);
    } else {
      PushingEnd(s, junk);
    }
  }

  lemma PlainOwner(s: State, junk: Buffer)
    requires Shape(s) && Plain(s.owner)
    ensures s.cur < |OwnerNext(s, junk).bufs|
    ensures OwnerOk(OwnerNext(s, junk))
  {
    hide Get, Put, IsPow2, Pow2;
    assert Current(OwnerNext(s, junk)) == Current(s) by { PlainFrame(s, junk); }
  }

  lemma OwnerKeepsShape(s: State, junk: Buffer)
    requires Shape(s)
    ensures Shape(OwnerNext(s, junk))
  {
    match s.owner
    case PushLoadBuffer(_, _, _) => StartGrowingKeepsShape(s, junk);
    case GrowCopy(_, _, _, _, _) => GrowCopyKeepsShape(s, junk);
    case GrowPublish(_, _, _) => GrowPublishKeepsShape(s, junk);
    case PushPut(_, _, _) => PushPutKeepsShape(s, junk);
    case PopCas(_, _, _) => PopCasKeepsShape(s, junk);
    case _ =>
      hide Get, Put, IsPow2, Pow2, OwnerNext;
      var s' := OwnerNext(s, junk);
      PlainFrame(s, junk);
      PlainEnd(s, junk);
      PlainOwner(s, junk);
      ThievesFrame(s, s');
  }

  lemma ThiefFrame(s: State, id: nat)
    requires id in s.thieves
    ensures var s' := ThiefNext(s, id);
            && s'.bufs == s.bufs && s'.cur == s.cur && s'.owner == s.owner && s'.bottom == s.bottom
            && End(s') == End(s) && Current(s') == Current(s) && s'.pushed == s.pushed
            && (s'.top == s.top || s'.top == s.top + 1)
            && (s'.top != s.top ==> s.thieves[id].StealCas? && s.thieves[id].t == s.top)
            && (forall other :: other != id ==>
                  (other in s'.thieves <==> other in s.thieves)
                  && (other in s.thieves ==> s'.thieves[other] == s.thieves[other]))
            && (forall j :: At(s', j) == At(s, j))
  {
    hide Get;
  }

  lemma ThiefSelf(s: State, id: nat)
    requires Shape(s) && id in s.thieves
    ensures id in ThiefNext(s, id).thieves ==> ThiefOk(ThiefNext(s, id), ThiefNext(s, id).thieves[id])
  {
    hide Get, IsPow2;
    assert ThiefOk(s, s.thieves[id]);
    assert BufferAt(s, s.cur) == Current(s);
  }

  lemma TopMoveOwner(s: State, s': State)
    requires Shape(s)
    requires s'.bufs == s.bufs && s'.cur == s.cur && s'.owner == s.owner && s'.bottom == s.bottom
    requires s.top <= s'.top <= End(s)
    ensures OwnerOk(s')
  {
    hide Get, IsPow2;
    assert Current(s') == Current(s);
    assert forall j :: At(s', j) == At(s, j);
  }

  lemma ThiefKeepsShape(s: State, id: nat)
    requires Shape(s) && id in s.thieves
    ensures Shape(ThiefNext(s, id))
  {
    var s' := ThiefNext(s, id);
    assert ThiefOk(s, s.thieves[id]);
    ThiefFrame(s, id);
    ThiefSelf(s, id);
    hide Get, IsPow2, ThiefNext;
    TopMoveOwner(s, s');
    forall other | other in s'.thieves && other != id
      ensures ThiefOk(s', s'.thieves[other])
    {
      assert ThiefOk(s, s.thieves[other]);
    }
  }

  lemma ShapeKept(s: State, a: Action)
    requires Shape(s)
    ensures Shape(Next(s, a))
  {
    hide Get, Put, IsPow2, Pow2;
    match a
    case Owner(junk) => OwnerKeepsShape(s, junk);
    case Thief(id) => if id in s.thieves { ThiefKeepsShape(s, id); }
    case CallSteal(id) =>
      var s' := Next(s, a);
      TopMoveOwner(s, s');
      forall other | other in s'.thieves
        ensures ThiefOk(s', s'.thieves[other])
      {
        assert other in s.thieves ==> ThiefOk(s, s.thieves[other]);
      }
    case _ =>
      var s' := Next(s, a);
      assert Current(s') == Current(s);
      ThievesFrame(s, s');
  }

  // ---------------------------------------------------------------- what each step moves

  lemma ContentsFrame(s: State, s': State)
    requires s'.top == s.top && End(s') == End(s)
    requires forall i {:trigger At(s', i)} :: s.top <= i < End(s) ==> At(s', i) == At(s, i)
    ensures Contents(s') == Contents(s)
  {
    hide Get;
  }

  /** Everything but the log is as before, up to slots nobody can reach. */
  ghost predicate Unmoved(s: State, s': State) {
    Contents(s') == Contents(s) && Held(s') == Held(s) && Loot(s') == Loot(s) && s'.heap == s.heap
    && s'.pushed == s.pushed && s'.delivered == s.delivered && s'.fault == s.fault
  }

  /** A push, seen from the heap: the new task becomes the owner's, then the newest element. */
  lemma PushPutMoves(s: State, junk: Buffer)
    requires Shape(s) && s.owner.PushPut?
    ensures var s' := OwnerNext(s, junk);
            && Contents(s') == Contents(s) && Held(s) == {} && Held(s') == {|s.pushed|}
            && Loot(s') == Loot(s) && s'.heap == s.heap[|s.pushed| := s.owner.task]
            && s'.pushed == s.pushed + [s.owner.task] && s'.delivered == s.delivered && s'.fault == s.fault
  {
    PushPutFrame(s, junk);
    ContentsFrame(s, OwnerNext(s, junk));
  }

  lemma PushPublishMoves(s: State, junk: Buffer)
    requires Shape(s) && s.owner.PushPublish?
    ensures var s' := OwnerNext(s, junk);
            && Contents(s') == Contents(s) + [s.owner.ptr] && Held(s) == {s.owner.ptr} && Held(s') == {}
            && Loot(s') == Loot(s) && s'.heap == s.heap
            && s'.pushed == s.pushed && s'.delivered == s.delivered && s'.fault == s.fault
  {
    hide Get;
    var s' := OwnerNext(s, junk);
    assert forall i :: At(s', i) == At(s, i);
  }

  /** A pop that finds at least two elements takes the newest at the moment it loads `top`. */
  lemma PopLoadTopMoves(s: State, junk: Buffer)
    requires Shape(s) && s.owner.PopLoadTop?
    ensures var s' := OwnerNext(s, junk);
            && Loot(s') == Loot(s) && s'.heap == s.heap
            && s'.pushed == s.pushed && s'.delivered == s.delivered && s'.fault == s.fault
            && Held(s) == {}
            && (if s.top < s.owner.b then
                  Contents(s) == Contents(s') + [At(s, s.owner.b)] && Held(s') == {At(s, s.owner.b)}
                else
                  Contents(s') == Contents(s) && Held(s') == {} && (s.top > s.owner.b ==> Contents(s) == []))
  {
    hide Get;
    var s' := OwnerNext(s, junk);
    assert forall i :: At(s', i) == At(s, i);
  }

  /** A pop of the last element takes it at its CAS, and fails only on an empty deque. */
  lemma PopCasMoves(s: State, junk: Buffer)
    requires Shape(s) && s.owner.PopCas?
    ensures var s' := OwnerNext(s, junk);
            && Loot(s') == Loot(s) && s'.heap == s.heap
            && s'.pushed == s.pushed && s'.delivered == s.delivered && s'.fault == s.fault
            && Held(s) == {} && Contents(s') == []
            && (if s.top == s.owner.t then
                  Contents(s) == [s.owner.ptr] && Held(s') == {s.owner.ptr}
                else
                  Contents(s) == [] && Held(s') == {})
  {
    hide Get;
    var s' := OwnerNext(s, junk);
    assert forall i :: At(s', i) == At(s, i);
  }

  lemma GrowingMoves(s: State, junk: Buffer)
    requires Shape(s) && (s.owner.PushLoadBuffer? || s.owner.GrowCopy? || s.owner.GrowPublish?)
    ensures Unmoved(s, OwnerNext(s, junk))
  {
    hide Get, Put;
    var s' := OwnerNext(s, junk);
    if s.owner.GrowCopy? {
      GrowCopyFrame(s, junk);
    }
    assert s.owner.GrowPublish? || Current(s') == Current(s);
    ContentsFrame(s, s');
  }

  /** Steps that only load, or restore `bottom`, move nothing. */
  predicate Neutral(pc: OwnerPc) {
    Plain(pc) && !pc.PushPublish? && !pc.PopLoadTop? && !pc.PopDeref?
  }

  lemma NeutralEnd(s: State, junk: Buffer)
    requires Shape(s) && Neutral(s.owner)
    ensures End(OwnerNext(s, junk)) == End(s)
  {
    hide Get, Put, Allocated;
  }

  lemma NeutralHeld(s: State, junk: Buffer)
    requires Shape(s) && Neutral(s.owner)
    ensures Held(OwnerNext(s, junk)) == Held(s)
  {
    hide Get, Put, Allocated;
  }

  lemma NeutralLog(s: State, junk: Buffer)
    requires Neutral(s.owner)
    ensures var s' := OwnerNext(s, junk);
            s'.heap == s.heap && s'.pushed == s.pushed && s'.delivered == s.delivered && s'.fault == s.fault
  {
    hide Get, Put, Allocated;
  }

  lemma NeutralMoves(s: State, junk: Buffer)
    requires Shape(s) && Neutral(s.owner)
    ensures Unmoved(s, OwnerNext(s, junk))
  {
    PlainFrame(s, junk);
    NeutralEnd(s, junk);
    NeutralHeld(s, junk);
    NeutralLog(s, junk);
    hide Get, OwnerNext;
    ContentsFrame(s, OwnerNext(s, junk));
  }

  lemma PopDerefMoves(s: State, junk: Buffer)
    requires Shape(s) && s.owner.PopDeref?
    ensures var s' := OwnerNext(s, junk);
            var d := Deliver(s, s.owner.ptr);
            && Contents(s') == Contents(s) && Held(s) == {s.owner.ptr} && Held(s') == {} && Loot(s') == Loot(s)
            && s'.heap == d.heap && s'.pushed == s.pushed && s'.delivered == d.delivered && s'.fault == d.fault
  {
    hide Get;
    ContentsFrame(s, OwnerNext(s, junk));
  }

  /** A thief's CAS succeeds only on the oldest element, whatever buffer it read the slot from. */
  lemma StealCasMoves(s: State, id: nat)
    requires Shape(s) && id in s.thieves && s.thieves[id].StealCas? && s.top == s.thieves[id].t
    ensures var s' := ThiefNext(s, id);
            var p := s.thieves[id].ptr;
            && Contents(s) == [p] + Contents(s') && Held(s') == Held(s)
            && id !in Loot(s) && Loot(s') == Loot(s)[id := p] && s'.heap == s.heap
            && s'.pushed == s.pushed && s'.delivered == s.delivered && s'.fault == s.fault
  {
    hide Get;
    ThiefFrame(s, id);
    assert ThiefOk(s, s.thieves[id]);
  }

  lemma StealDerefMoves(s: State, id: nat)
    requires Shape(s) && id in s.thieves && s.thieves[id].StealDeref?
    ensures var s' := ThiefNext(s, id);
            var d := Deliver(s, s.thieves[id].ptr);
            && Contents(s') == Contents(s) && Held(s') == Held(s)
            && id in Loot(s) && Loot(s)[id] == s.thieves[id].ptr && Loot(s') == Loot(s) - {id}
            && s'.heap == d.heap && s'.pushed == s.pushed && s'.delivered == d.delivered && s'.fault == d.fault
  {
    ThiefFrame(s, id);
    hide Get, Shape;
    assert Shape(s);
    ContentsFrame(s, ThiefNext(s, id));
  }

  lemma StealOtherMoves(s: State, id: nat)
    requires id in s.thieves && !s.thieves[id].StealDeref?
    requires s.thieves[id].StealCas? ==> s.top != s.thieves[id].t
    ensures Unmoved(s, ThiefNext(s, id))
  {
    ThiefFrame(s, id);
    hide Get;
    ContentsFrame(s, ThiefNext(s, id));
  }

  // ---------------------------------------------------------------- holders

  lemma AccountAllocation(q: seq<Ptr>, loot: map<nat, Ptr>, live: set<Ptr>, p: Ptr)
    requires Accounted(q, {}, loot, live) && p !in live
    ensures Accounted(q, {p}, loot, live + {p})
  {}

  lemma AccountPublication(q: seq<Ptr>, loot: map<nat, Ptr>, live: set<Ptr>, p: Ptr)
    requires Accounted(q, {p}, loot, live)
    ensures Accounted(q + [p], {}, loot, live)
  {
    assert forall x :: x in q + [p] <==> x in q || x == p;
  }

  lemma AccountPop(q: seq<Ptr>, loot: map<nat, Ptr>, live: set<Ptr>, p: Ptr)
    requires Accounted(q + [p], {}, loot, live)
    ensures Accounted(q, {p}, loot, live)
  {
    var all := q + [p];
    assert all[|q|] == p;
    assert forall i :: 0 <= i < |q| ==> q[i] == all[i];
    assert forall x :: x in all <==> x in q || x == p;
  }

  lemma AccountSteal(q: seq<Ptr>, held: set<Ptr>, loot: map<nat, Ptr>, live: set<Ptr>, id: nat, p: Ptr)
    requires Accounted([p] + q, held, loot, live) && id !in loot
    ensures Accounted(q, held, loot[id := p], live)
  {
    var all := [p] + q;
    assert all[0] == p;
    assert forall i :: 0 <= i < |q| ==> q[i] == all[i + 1];
    assert forall x :: x in all <==> x in q || x == p;
    var loot' := loot[id := p];
    assert loot'[id] == p;
    forall x | x in live
      ensures x in q || x in held || x in loot'.Values
    {
      if x in loot.Values {
        var k :| k in loot && loot[k] == x;
        assert loot'[k] == x;
      }
    }
  }

  lemma AccountOwnerFree(q: seq<Ptr>, loot: map<nat, Ptr>, live: set<Ptr>, p: Ptr)
    requires Accounted(q, {p}, loot, live)
    ensures p in live && Accounted(q, {}, loot, live - {p})
  {}

  lemma AccountThiefFree(q: seq<Ptr>, held: set<Ptr>, loot: map<nat, Ptr>, live: set<Ptr>, id: nat)
    requires Accounted(q, held, loot, live) && id in loot
    ensures loot[id] in live && Accounted(q, held, loot - {id}, live - {loot[id]})
  {
    var loot' := loot - {id};
    forall x | x in live - {loot[id]}
      ensures x in q || x in held || x in loot'.Values
    {
      if x in loot.Values {
        var k :| k in loot && loot[k] == x;
        assert k in loot' && loot'[k] == x;
      }
    }
  }

  lemma DeliverKeepsLog(s: State, p: Ptr)
    requires LogOk(s) && p in s.heap
    ensures LogOk(Deliver(s, p))
  {
    DeliverPlaces(s, p);
    hide WasDelivered;
    assert Deliver(s, p).delivered[|s.delivered|] == Delivery(p, s.pushed[p]);
  }

  lemma DeliverPlaces(s: State, p: Ptr)
    requires LogOk(s) && p in s.heap
    ensures var s' := Deliver(s, p); forall x :: 0 <= x < |s'.pushed| ==> x in s'.heap || WasDelivered(s', x)
  {
    var s' := Deliver(s, p);
    var n := |s.delivered|;
    forall x | 0 <= x < |s'.pushed|
      ensures x in s'.heap || WasDelivered(s', x)
    {
      if x == p {
        assert s'.delivered[n].ptr == x;
      } else if x !in s.heap {
        var k :| 0 <= k < n && s.delivered[k].ptr == x;
        assert s'.delivered[k].ptr == x;
      }
    }
  }

  lemma SameLog(s: State, s': State)
    requires LogOk(s) && s'.heap == s.heap && s'.pushed == s.pushed
    requires s'.delivered == s.delivered && s'.fault == s.fault
    ensures LogOk(s')
  {
    forall x | 0 <= x < |s'.pushed|
      ensures x in s'.heap || WasDelivered(s', x)
    {
      assert x in s.heap || WasDelivered(s, x);
    }
  }

  lemma AllocationKeepsLog(s: State, s': State, task: Task)
    requires LogOk(s) && s'.heap == s.heap[|s.pushed| := task] && s'.pushed == s.pushed + [task]
    requires s'.delivered == s.delivered && s'.fault == s.fault
    ensures LogOk(s')
  {
    forall x | 0 <= x < |s'.pushed|
      ensures x in s'.heap || WasDelivered(s', x)
    {
      if x < |s.pushed| {
        assert x in s.heap || WasDelivered(s, x);
      }
    }
  }

  // ---------------------------------------------------------------- one step

  ghost predicate StepOk(s: State, a: Action) {
    && HoldersOk(Next(s, a)) && LogOk(Next(s, a))
    && Play(Contents(s), EventOf(s, a)) == Some(Contents(Next(s, a)))
  }

  lemma PushPutStep(s: State, junk: Buffer)
    requires Inv(s) && s.owner.PushPut?
    ensures StepOk(s, Owner(junk))
  {
    var s' := OwnerNext(s, junk);
    PushPutMoves(s, junk);
    hide OwnerNext, Contents, Held, Loot, Shape, Get;
    AccountAllocation(Contents(s), Loot(s), s.heap.Keys, |s.pushed|);
    assert s'.heap.Keys == s.heap.Keys + {|s.pushed|};
    AllocationKeepsLog(s, s', s.owner.task);
  }

  lemma PushPublishStep(s: State, junk: Buffer)
    requires Inv(s) && s.owner.PushPublish?
    ensures StepOk(s, Owner(junk))
  {
    PushPublishMoves(s, junk);
    hide OwnerNext, Contents, Held, Loot, Shape, Get;
    AccountPublication(Contents(s), Loot(s), s.heap.Keys, s.owner.ptr);
    SameLog(s, OwnerNext(s, junk));
  }

  lemma PopLoadTopHolders(s: State, junk: Buffer)
    requires Inv(s) && s.owner.PopLoadTop?
    ensures HoldersOk(OwnerNext(s, junk))
  {
    PopLoadTopMoves(s, junk);
    hide OwnerNext, Contents, Held, Loot, Shape, Get, LogOk;
    if s.top < s.owner.b {
      AccountPop(Contents(OwnerNext(s, junk)), Loot(s), s.heap.Keys, At(s, s.owner.b));
    }
  }

  lemma PopLoadTopStep(s: State, junk: Buffer)
    requires Inv(s) && s.owner.PopLoadTop?
    ensures StepOk(s, Owner(junk))
  {
    hide OwnerNext, Contents, Held, Loot, Shape, Get, HoldersOk, LogOk;
    PopLoadTopHolders(s, junk);
    PopLoadTopMoves(s, junk);
    SameLog(s, OwnerNext(s, junk));
    PlayPopped(Contents(OwnerNext(s, junk)), At(s, s.owner.b));
  }

  lemma PlayPopped(q: seq<Ptr>, p: Ptr)
    ensures Play(q + [p], Popped(p)) == Some(q)
  {
    assert (q + [p])[..|q|] == q;
  }

  lemma PopCasHolders(s: State, junk: Buffer)
    requires Inv(s) && s.owner.PopCas?
    ensures HoldersOk(OwnerNext(s, junk))
  {
    PopCasMoves(s, junk);
    hide OwnerNext, Contents, Held, Loot, Shape, Get;
    if s.top == s.owner.t {
      assert Contents(s) == [] + [s.owner.ptr];
      AccountPop([], Loot(s), s.heap.Keys, s.owner.ptr);
    }
  }

  lemma PopCasStep(s: State, junk: Buffer)
    requires Inv(s) && s.owner.PopCas?
    ensures StepOk(s, Owner(junk))
  {
    PopCasHolders(s, junk);
    PopCasMoves(s, junk);
    hide OwnerNext, Contents, Held, Loot, Shape, Get, HoldersOk;
    SameLog(s, OwnerNext(s, junk));
  }

  lemma PopDerefStep(s: State, junk: Buffer)
    requires Inv(s) && s.owner.PopDeref?
    ensures StepOk(s, Owner(junk))
  {
    var s' := OwnerNext(s, junk);
    PopDerefMoves(s, junk);
    hide OwnerNext, Contents, Held, Loot, Shape, Get;
    var p := s.owner.ptr;
    AccountOwnerFree(Contents(s), Loot(s), s.heap.Keys, p);
    DeliverKeepsLog(s, p);
    assert s'.heap.Keys == s.heap.Keys - {p};
    SameLog(Deliver(s, p), s');
  }

  /** The owner's step keeps the invariant and is a step of the sequential deque. */
  lemma OwnerStep(s: State, junk: Buffer)
    requires Inv(s)
    ensures StepOk(s, Owner(junk))
  {
    match s.owner
    case PushPut(_, _, _) => PushPutStep(s, junk);
    case PushPublish(_, _) => PushPublishStep(s, junk);
    case PopLoadTop(_, _) => PopLoadTopStep(s, junk);
    case PopCas(_, _, _) => PopCasStep(s, junk);
    case PopDeref(_) => PopDerefStep(s, junk);
    case _ =>
      if Neutral(s.owner) { NeutralMoves(s, junk); } else { GrowingMoves(s, junk); }
      hide OwnerNext, Contents, Held, Loot, Shape, Get;
      SameLog(s, OwnerNext(s, junk));
  }

  lemma StealDerefStep(s: State, id: nat)
    requires Inv(s) && id in s.thieves && s.thieves[id].StealDeref?
    ensures StepOk(s, Thief(id))
  {
    hide ThiefNext, Contents, Held, Loot, Shape, Get, Accounted, LogOk, Deliver;
    var s' := ThiefNext(s, id);
    var p := s.thieves[id].ptr;
    StealDerefMoves(s, id);
    AccountThiefFree(Contents(s), Held(s), Loot(s), s.heap.Keys, id);
    DeliverKeepsLog(s, p);
    DerefLog(s, id);
    assert s'.heap.Keys == s.heap.Keys - {p};
  }

  lemma DerefLog(s: State, id: nat)
    requires id in s.thieves && s.thieves[id].StealDeref? && LogOk(Deliver(s, s.thieves[id].ptr))
    requires s.thieves[id].ptr in s.heap
    ensures LogOk(ThiefNext(s, id)) && ThiefNext(s, id).heap == s.heap - {s.thieves[id].ptr}
  {
    SameLog(Deliver(s, s.thieves[id].ptr), ThiefNext(s, id));
  }

  lemma StealCasStep(s: State, id: nat)
    requires Inv(s) && id in s.thieves && s.thieves[id].StealCas? && s.top == s.thieves[id].t
    ensures StepOk(s, Thief(id))
  {
    hide ThiefNext, Contents, Held, Loot, Shape, Get, Accounted, LogOk;
    var s' := ThiefNext(s, id);
    StealCasMoves(s, id);
    AccountSteal(Contents(s'), Held(s), Loot(s), s.heap.Keys, id, s.thieves[id].ptr);
    SameLog(s, s');
    hide HoldersOk;
    assert Contents(s)[1..] == Contents(s');
  }

  lemma StealOtherStep(s: State, id: nat)
    requires Inv(s) && id in s.thieves && !s.thieves[id].StealDeref?
    requires s.thieves[id].StealCas? ==> s.top != s.thieves[id].t
    ensures StepOk(s, Thief(id))
  {
    hide ThiefNext, Contents, Held, Loot, Shape, Get, LogOk, Accounted;
    StealOtherMoves(s, id);
    SameLog(s, ThiefNext(s, id));
  }

  lemma ThiefStep(s: State, id: nat)
    requires Inv(s) && id in s.thieves
    ensures StepOk(s, Thief(id))
  {
    hide ThiefNext, Contents, Held, Loot, Shape, Get, Inv, StepOk;
    if s.thieves[id].StealDeref? {
      StealDerefStep(s, id);
    } else if s.thieves[id].StealCas? && s.top == s.thieves[id].t {
      StealCasStep(s, id);
    } else {
      StealOtherStep(s, id);
    }
  }

  /** Starting a call changes no shared state. */
  lemma CallStep(s: State, a: Action)
    requires !a.Owner? && !a.Thief?
    ensures Unmoved(s, Next(s, a))
  {
    hide Get;
    ContentsFrame(s, Next(s, a));
  }

  lemma Step(s: State, a: Action)
    requires Inv(s)
    ensures Inv(Next(s, a))
    ensures Play(Contents(s), EventOf(s, a)) == Some(Contents(Next(s, a)))
  {
    ShapeKept(s, a);
    match a
    case Owner(junk) => OwnerStep(s, junk);
    case Thief(id) => if id in s.thieves { ThiefStep(s, id); }
    case _ =>
      CallStep(s, a);
      hide Next, Contents, Held, Loot, Shape;
      SameLog(s, Next(s, a));
  }

  // ---------------------------------------------------------------- whole runs

  lemma InitInv(s: State)
    requires Init(s)
    ensures Inv(s) && Contents(s) == []
  {}

  lemma {:induction false} RunInv(s: State, schedule: seq<Action>)
    requires Init(s)
    ensures Inv(Run(s, schedule))
    decreases |schedule|
  {
    if schedule == [] {
      InitInv(s);
    } else {
      var n := |schedule| - 1;
      RunInv(s, schedule[..n]);
      Step(Run(s, schedule[..n]), schedule[n]);
    }
  }

  /** The events of a run, in order. */
  function Events(s: State, schedule: seq<Action>): (es: seq<Event>)
    ensures |es| == |schedule|
    decreases |schedule|
  {
    if schedule == [] then []
    else
      var n := |schedule| - 1;
      Events(s, schedule[..n]) + [EventOf(Run(s, schedule[..n]), schedule[n])]
  }

  /** The events played on a plain double-ended sequence; None if one of them is not possible there. */
  function PlayAll(q: seq<Ptr>, es: seq<Event>): Option<seq<Ptr>>
    decreases |es|
  {
    if es == [] then Some(q)
    else
      var mid :- PlayAll(q, es[..|es| - 1]);
      Play(mid, es[|es| - 1])
  }

  /**
    Refinement.  Under every schedule of one owner and any number of thieves, through any number of
    growths, the pushes, pops and steals form a history of a plain double-ended sequence.
   */
  lemma {:induction false} RefinesDeque(s: State, schedule: seq<Action>)
    requires Init(s)
    ensures PlayAll([], Events(s, schedule)) == Some(Contents(Run(s, schedule)))
    decreases |schedule|
  {
    if schedule == [] {
      InitInv(s);
    } else {
      var n := |schedule| - 1;
      var before := Run(s, schedule[..n]);
      RefinesDeque(s, schedule[..n]);
      RunInv(s, schedule[..n]);
      Step(before, schedule[n]);
      var es := Events(s, schedule);
      assert es[..n] == Events(s, schedule[..n]);
    }
  }

  // ---------------------------------------------------------------- what the callers pushed

  /** The arguments of the calls of `push`, in order.  A schedule may name a call while another one is
      running; that is no call. */
  function PushCalls(s: State, schedule: seq<Action>): seq<Task>
    decreases |schedule|
  {
    if schedule == [] then []
    else
      var n := |schedule| - 1;
      PushCalls(s, schedule[..n])
      + if schedule[n].CallPush? && Run(s, schedule[..n]).owner == Idle then [schedule[n].task] else []
  }

  /** The argument of a push that has not stored it yet. */
  function Unstored(pc: OwnerPc): seq<Task> {
    match pc
    case PushLoadBottom(task) => [task]
    case PushLoadTop(task, _) => [task]
    case PushLoadBuffer(task, _, _) => [task]
    case GrowCopy(task, _, _, _, _) => [task]
    case GrowPublish(task, _, _) => [task]
    case PushPut(task, _, _) => [task]
    case _ => []
  }

  lemma StepStores(r: State, a: Action)
    ensures Next(r, a).pushed + Unstored(Next(r, a).owner)
         == r.pushed + Unstored(r.owner) + if a.CallPush? && r.owner == Idle then [a.task] else []
  {
    hide Get, Put, Allocated, BufferAt;
    if a.Thief? && a.thief in r.thieves {
      ThiefFrame(r, a.thief);
      hide ThiefNext;
    }
  }

  /** Under every schedule the tasks pushed are the arguments of the calls, unchanged and in order. */
  lemma {:induction false} PushedAsCalled(s: State, schedule: seq<Action>)
    requires Init(s)
    ensures Run(s, schedule).pushed + Unstored(Run(s, schedule).owner) == PushCalls(s, schedule)
    decreases |schedule|
  {
    if schedule != [] {
      hide Next, Unstored;
      var n := |schedule| - 1;
      PushedAsCalled(s, schedule[..n]);
      StepStores(Run(s, schedule[..n]), schedule[n]);
    }
  }

  // ---------------------------------------------------------------- one place for every task

  /** Where an allocated task is; the four answers exclude one another by `ExactlyOnePlace`. */
  ghost predicate InDeque(s: State, p: Ptr) {
    p in Contents(s)
  }

  ghost predicate InFlight(s: State, p: Ptr) {
    p in Held(s) || p in Loot(s).Values
  }

  /**
    No loss and no duplicate.  In every reachable state the argument of each call of `push` is in
    exactly one place: still in the locals of its push, in the deque, in the hands of one in-flight
    push or winning take, or delivered.  It is in the deque at one index, with at most one thief,
    delivered at most once and then unchanged, and no freed task was ever dereferenced or deleted again.
   */
  lemma ExactlyOnePlace(s: State, schedule: seq<Action>, p: Ptr)
    requires Init(s)
    requires p < |PushCalls(s, schedule)|
    ensures var r, calls := Run(s, schedule), PushCalls(s, schedule);
            && !r.fault
            && (if p < |r.pushed| then InDeque(r, p) || InFlight(r, p) || WasDelivered(r, p)
                else p == |r.pushed| && Unstored(r.owner) == [calls[p]]
                     && !InDeque(r, p) && !InFlight(r, p) && !WasDelivered(r, p))
            && !(InDeque(r, p) && InFlight(r, p))
            && !(InDeque(r, p) && WasDelivered(r, p))
            && !(InFlight(r, p) && WasDelivered(r, p))
            && !(p in Held(r) && p in Loot(r).Values)
            && (forall i, j :: 0 <= i < j < |Contents(r)| ==> Contents(r)[i] != Contents(r)[j])
            && (forall id, id' :: id in Loot(r) && id' in Loot(r) && Loot(r)[id] == Loot(r)[id'] ==> id == id')
            && (forall k, l :: 0 <= k < l < |r.delivered| ==> r.delivered[k].ptr != r.delivered[l].ptr)
            && (forall k :: 0 <= k < |r.delivered| && r.delivered[k].ptr == p ==> r.delivered[k].task == calls[p])
            && (p in r.heap <==> p < |r.pushed| && !WasDelivered(r, p))
            && (p in r.heap ==> r.heap[p] == calls[p])
  {
    RunInv(s, schedule);
    PushedAsCalled(s, schedule);
    hide Contents, Held, Loot, Shape, Get, Run, PushCalls;
    var r := Run(s, schedule);
    assert p < |r.pushed| ==> p in r.heap || WasDelivered(r, p);
  }

  /**
    A thief whose CAS succeeds holds the task pushed at that index: the oldest element, still live,
    even if the slot was read from a retired buffer or the owner has since gone round the ring.
   */
  lemma WinningThiefHoldsOldest(s: State, schedule: seq<Action>, id: nat)
    requires Init(s)
    requires id in Run(s, schedule).thieves && Run(s, schedule).thieves[id].StealCas?
    requires Run(s, schedule).top == Run(s, schedule).thieves[id].t
    ensures var r := Run(s, schedule);
            var p := r.thieves[id].ptr;
            && |Contents(r)| > 0 && p == Contents(r)[0]
            && p in r.heap && p < |PushCalls(s, schedule)| && r.heap[p] == PushCalls(s, schedule)[p]
            && Contents(Next(r, Thief(id))) == Contents(r)[1..]
            && (forall other :: other in Loot(r) ==> Loot(r)[other] != p)
  {
    RunInv(s, schedule);
    PushedAsCalled(s, schedule);
    var r := Run(s, schedule);
    hide PushCalls, Unstored, Run, Inv;
    WinnerHoldsOldest(r, id);
  }

  lemma WinnerHoldsOldest(r: State, id: nat)
    requires Inv(r) && id in r.thieves && r.thieves[id].StealCas? && r.top == r.thieves[id].t
    ensures var p := r.thieves[id].ptr;
            && |Contents(r)| > 0 && p == Contents(r)[0]
            && p in r.heap && p < |r.pushed| && r.heap[p] == r.pushed[p]
            && Contents(Next(r, Thief(id))) == Contents(r)[1..]
            && (forall other :: other in Loot(r) ==> Loot(r)[other] != p)
  {
    var q, q', p := Contents(r), Contents(ThiefNext(r, id)), r.thieves[id].ptr;
    hide Contents, Held, Loot, Shape, Get, ThiefNext, Accounted;
    StealCasMoves(r, id);
    FrontIsLive(q, Held(r), Loot(r), r.heap.Keys);
    hide HoldersOk;
    assert q == [p] + q';
    assert q[0] == p && q[1..] == q';
  }

  lemma FrontIsLive(q: seq<Ptr>, held: set<Ptr>, loot: map<nat, Ptr>, live: set<Ptr>)
    requires Accounted(q, held, loot, live) && |q| > 0
    ensures q[0] in live && forall other :: other in loot ==> loot[other] != q[0]
  {
    assert q[0] in q;
  }

  /** When every call has returned, the live tasks are exactly those the destructor's loop deletes. */
  lemma DestructorFreesTheRest(s: State, schedule: seq<Action>)
    requires Init(s)
    requires Run(s, schedule).owner == Idle && Run(s, schedule).thieves == map[]
    ensures var r := Run(s, schedule);
            && r.top <= r.bottom && r.cur < |r.bufs|
            && |Contents(r)| == r.bottom - r.top
            && (forall i {:trigger Get(r.bufs[r.cur], i)} :: r.top <= i < r.bottom ==>
                  Contents(r)[i - r.top] == Get(r.bufs[r.cur], i))
            && r.heap.Keys == Elements(Contents(r))
            && |r.delivered| + |Contents(r)| == |r.pushed|
  {
    RunInv(s, schedule);
    QuietState(Run(s, schedule));
  }

  lemma QuietState(r: State)
    requires Inv(r) && r.owner == Idle && r.thieves == map[]
    ensures r.top <= r.bottom && r.cur < |r.bufs|
    ensures |Contents(r)| == r.bottom - r.top
    ensures forall i {:trigger Get(r.bufs[r.cur], i)} :: r.top <= i < r.bottom ==>
              Contents(r)[i - r.top] == Get(r.bufs[r.cur], i)
    ensures r.heap.Keys == Elements(Contents(r))
    ensures |r.delivered| + |Contents(r)| == |r.pushed|
  {
    hide Get;
    assert Held(r) == {} && Loot(r) == map[];
    CountDeliveries(r);
    AllInQueue(Contents(r), r.heap.Keys);
    forall i {:trigger Get(r.bufs[r.cur], i)} | r.top <= i < r.bottom
      ensures Contents(r)[i - r.top] == Get(r.bufs[r.cur], i)
    {
      assert Contents(r)[i - r.top] == At(r, r.top + (i - r.top));
    }
  }

  lemma AllInQueue(q: seq<Ptr>, live: set<Ptr>)
    requires Accounted(q, {}, map[], live)
    ensures live == Elements(q) && Distinct(q)
  {}

  function Pointers(ds: seq<Delivery>): (ps: seq<Ptr>)
    ensures |ps| == |ds|
    ensures forall k :: 0 <= k < |ds| ==> ps[k] == ds[k].ptr
  {
    if ds == [] then [] else Pointers(ds[..|ds| - 1]) + [ds[|ds| - 1].ptr]
  }

  lemma DeliveredIsTheRest(r: State)
    requires LogOk(r)
    ensures Distinct(Pointers(r.delivered))
    ensures Elements(Pointers(r.delivered)) !! r.heap.Keys
    ensures Elements(Pointers(r.delivered)) + r.heap.Keys == Below(|r.pushed|)
  {
    hide Pointers;
    var gone := Pointers(r.delivered);
    forall p | p in Below(|r.pushed|)
      ensures p in Elements(gone) + r.heap.Keys
    {
      if p !in r.heap {
        assert WasDelivered(r, p);
        var k :| 0 <= k < |r.delivered| && r.delivered[k].ptr == p;
        assert gone[k] == p;
      }
    }
  }

  lemma CountDeliveries(r: State)
    requires LogOk(r) && Accounted(Contents(r), {}, map[], r.heap.Keys)
    ensures |r.delivered| + |Contents(r)| == |r.pushed|
  {
    var q, gone := Contents(r), Pointers(r.delivered);
    AllInQueue(q, r.heap.Keys);
    DeliveredIsTheRest(r);
    hide Accounted, LogOk, Contents;
    DistinctCount(q);
    DistinctCount(gone);
  }

  // ---------------------------------------------------------------- failed steals

  /** The state before step `k` of the schedule. */
  function StateAt(s: State, schedule: seq<Action>, k: nat): State
    requires k <= |schedule|
  {
    Run(s, schedule[..k])
  }

  lemma StateAtStep(s: State, schedule: seq<Action>, k: nat)
    requires k < |schedule|
    ensures StateAt(s, schedule, k + 1) == Next(StateAt(s, schedule, k), schedule[k])
  {
    assert schedule[..k + 1][..k] == schedule[..k];
  }

  /** The thief is inside a call of `steal` that loaded `t` from `top`. */
  predicate Carries(pc: ThiefPc, t: int) {
    (pc.StealLoadBottom? || pc.StealLoadBuffer? || pc.StealGet? || pc.StealCas?) && pc.t == t
  }

  /** The thief's call loaded `t` at step `i` and has been running ever since. */
  ghost predicate InCallSince(s: State, schedule: seq<Action>, id: nat, t: int, i: nat, j: nat)
    requires i < j <= |schedule|
  {
    && id in StateAt(s, schedule, i).thieves && StateAt(s, schedule, i).thieves[id] == StealLoadTop
    && StateAt(s, schedule, i).top == t
    && forall m {:trigger StateAt(s, schedule, m)} :: i < m <= j ==>
         id in StateAt(s, schedule, m).thieves && Carries(StateAt(s, schedule, m).thieves[id], t)
  }

  lemma CarriesFromLoad(r: State, a: Action, id: nat, t: int)
    requires id in Next(r, a).thieves && Carries(Next(r, a).thieves[id], t)
    ensures id in r.thieves
    ensures Carries(r.thieves[id], t) || (r.thieves[id] == StealLoadTop && r.top == t)
  {
    hide Get, Put, Allocated;
    if a.Owner? {
      OwnerKeepsThieves(r, a.junk);
    }
  }

  lemma OwnerKeepsThieves(r: State, junk: Buffer)
    ensures OwnerNext(r, junk).thieves == r.thieves
  {
    hide Get, Put, Allocated, BufferAt;
  }

  lemma {:induction false} LoadPoint(s: State, schedule: seq<Action>, id: nat, t: int, j: nat) returns (i: nat)
    requires Init(s) && j <= |schedule|
    requires id in StateAt(s, schedule, j).thieves && Carries(StateAt(s, schedule, j).thieves[id], t)
    ensures i < j && InCallSince(s, schedule, id, t, i, j)
  {
    hide Next, Get;
    if j == 0 {
      assert false;
    } else {
      StateAtStep(s, schedule, j - 1);
      var r := StateAt(s, schedule, j - 1);
      CarriesFromLoad(r, schedule[j - 1], id, t);
      if Carries(r.thieves[id], t) {
        i := LoadPoint(s, schedule, id, t, j - 1);
      } else {
        i := j - 1;
      }
    }
  }

  predicate IsTake(e: Event) {
    e.Popped? || e.Stolen?
  }

  lemma TopMovesByTakes(r: State, a: Action)
    ensures Next(r, a).top == r.top || (Next(r, a).top == r.top + 1 && IsTake(EventOf(r, a)))
  {
    hide Get, Put, Allocated, BufferAt;
    if a.Owner? {
      OwnerTop(r, a.junk);
    }
  }

  lemma OwnerTop(r: State, junk: Buffer)
    ensures OwnerNext(r, junk).top == (if r.owner.PopCas? && r.top == r.owner.t then r.top + 1 else r.top)
  {
    hide Get, Put, Allocated, BufferAt;
  }

  /** `top` can only pass an index through a take of that index. */
  lemma {:induction false} TakenBetween(s: State, schedule: seq<Action>, t: int, i: nat, j: nat) returns (k: nat)
    requires i <= j <= |schedule|
    requires StateAt(s, schedule, i).top <= t < StateAt(s, schedule, j).top
    ensures i <= k < j && StateAt(s, schedule, k).top == t
    ensures IsTake(EventOf(StateAt(s, schedule, k), schedule[k]))
    ensures StateAt(s, schedule, k + 1).top == t + 1
    decreases j - i
  {
    hide Next, EventOf, IsTake;
    StateAtStep(s, schedule, j - 1);
    TopMovesByTakes(StateAt(s, schedule, j - 1), schedule[j - 1]);
    if t < StateAt(s, schedule, j - 1).top {
      k := TakenBetween(s, schedule, t, i, j - 1);
    } else {
      k := j - 1;
    }
  }

  /**
    A steal that loses its CAS loses it to a take of the very index it wanted, made by another
    actor after this call loaded `top`.
   */
  lemma LostRaceMeansTaken(s: State, schedule: seq<Action>, id: nat, t: int, j: nat)
    requires Init(s) && j < |schedule|
    requires EventOf(StateAt(s, schedule, j), schedule[j]) == StealLosesRace(id, t)
    ensures exists i: nat, k: nat ::
              && i < k < j && InCallSince(s, schedule, id, t, i, j)
              && StateAt(s, schedule, k).top == t
              && IsTake(EventOf(StateAt(s, schedule, k), schedule[k])) && schedule[k] != Thief(id)
  {
    var r := StateAt(s, schedule, j);
    RunInv(s, schedule[..j]);
    assert ThiefOk(r, r.thieves[id]);
    var i := LoadPoint(s, schedule, id, t, j);
    var k := TakenBetween(s, schedule, t, i, j);
    hide Get, Put, Allocated, OwnerNext, Inv, Run;
    if k == i {
      StateAtStep(s, schedule, i);
    } else if schedule[k] == Thief(id) {
      StateAtStep(s, schedule, k);
    }
  }

  // ---------------------------------------------------------------- steals that report empty

  /** The owner has lowered `bottom` onto the last element and has not yet decided its pop. */
  predicate PopUndecided(s: State) {
    s.owner.PopLoadTop? || (s.owner.PopGet? && s.owner.t == s.owner.b) || s.owner.PopCas?
  }

  /**
    A steal that gives up because `t >= bottom` does so exactly when the deque is empty or its one
    element is the object of an undecided pop.
   */
  lemma EmptyStealIsEmptyOrContested(s: State, schedule: seq<Action>, id: nat)
    requires Init(s)
    requires id in Run(s, schedule).thieves && Run(s, schedule).thieves[id].StealLoadBottom?
    requires Run(s, schedule).thieves[id].t == Run(s, schedule).top
    ensures var r := Run(s, schedule);
            EventOf(r, Thief(id)) == StealFindsEmpty(id) <==>
            Contents(r) == [] || (|Contents(r)| == 1 && PopUndecided(r))
  {
    RunInv(s, schedule);
    hide Get, HoldersOk, LogOk, Run;
  }

  /** With a stale `t` the deque may hold anything only if the steal goes on; giving up means it is empty. */
  lemma StaleEmptyStealIsEmpty(s: State, schedule: seq<Action>, id: nat)
    requires Init(s)
    requires EventOf(Run(s, schedule), Thief(id)) == StealFindsEmpty(id)
    requires Run(s, schedule).thieves[id].t != Run(s, schedule).top
    ensures Contents(Run(s, schedule)) == []
  {
    RunInv(s, schedule);
    var r := Run(s, schedule);
    assert ThiefOk(r, r.thieves[id]);
    hide Get, HoldersOk, LogOk, Run;
  }

  /** States of the witness below: a ring of two slots, and a single task whose pointer is 0. */
  function Witness(owner: OwnerPc, bottom: int, tasks: seq<Task>, thieves: map<nat, ThiefPc>): State {
    State(0, bottom, 0, [[0, 0]], if |tasks| > 0 then map[0 := tasks[0]] else map[], owner, thieves, tasks, [], false)
  }

  lemma WitnessPush(task: Task)
    ensures Next(Witness(Idle, 0, [], map[]), CallPush(task)) == Witness(PushLoadBottom(task), 0, [], map[])
    ensures Next(Witness(PushLoadBottom(task), 0, [], map[]), Owner([])) == Witness(PushLoadTop(task, 0), 0, [], map[])
    ensures Next(Witness(PushLoadTop(task, 0), 0, [], map[]), Owner([]))
         == Witness(PushLoadBuffer(task, 0, 0), 0, [], map[])
    ensures Next(Witness(PushLoadBuffer(task, 0, 0), 0, [], map[]), Owner([]))
         == Witness(PushPut(task, 0, 0), 0, [], map[])
  {}

  lemma WitnessStore(task: Task)
    ensures Next(Witness(PushPut(task, 0, 0), 0, [], map[]), Owner([])) == Witness(PushPublish(0, 0), 0, [task], map[])
    ensures Next(Witness(PushPublish(0, 0), 0, [task], map[]), Owner([])) == Witness(Idle, 1, [task], map[])
  {
    assert Put([0, 0], 0, 0) == [0, 0];
    assert [[0, 0]][0 := [0, 0]] == [[0, 0]];
    assert map[][0 := task] == map[0 := task];
  }

  lemma WitnessPop(task: Task)
    ensures Next(Witness(Idle, 1, [task], map[]), CallPop) == Witness(PopLoadBottom, 1, [task], map[])
    ensures Next(Witness(PopLoadBottom, 1, [task], map[]), Owner([])) == Witness(PopLoadBuffer(0), 1, [task], map[])
    ensures Next(Witness(PopLoadBuffer(0), 1, [task], map[]), Owner([]))
         == Witness(PopStoreBottom(0, 0), 1, [task], map[])
    ensures Next(Witness(PopStoreBottom(0, 0), 1, [task], map[]), Owner([]))
         == Witness(PopLoadTop(0, 0), 0, [task], map[])
  {}

  lemma WitnessSteal(task: Task)
    ensures Next(Witness(PopLoadTop(0, 0), 0, [task], map[]), CallSteal(0))
         == Witness(PopLoadTop(0, 0), 0, [task], map[0 := StealLoadTop])
    ensures Next(Witness(PopLoadTop(0, 0), 0, [task], map[0 := StealLoadTop]), Thief(0))
         == Witness(PopLoadTop(0, 0), 0, [task], map[0 := StealLoadBottom(0)])
  {}

  function ContestedSchedule(task: Task): seq<Action> {
    [CallPush(task), Owner([]), Owner([]), Owner([]), Owner([]), Owner([]),
     CallPop, Owner([]), Owner([]), Owner([]), CallSteal(0), Thief(0)]
  }

  lemma ContestedPush(s: State, a: seq<Action>, task: Task)
    requires |a| >= 6 && a[0] == CallPush(task)
    requires a[1] == a[2] == a[3] == a[4] == a[5] == Owner([])
    requires Run(s, a[..0]) == Witness(Idle, 0, [], map[])
    ensures Run(s, a[..6]) == Witness(Idle, 1, [task], map[])
  {
    hide *;
    WitnessPush(task);
    WitnessStore(task);
    var r := RunOne(s, a, 0, Run(s, a[..0]));
    r := RunOne(s, a, 1, r);
    r := RunOne(s, a, 2, r);
    r := RunOne(s, a, 3, r);
    r := RunOne(s, a, 4, r);
    r := RunOne(s, a, 5, r);
  }

  lemma ContestedPop(s: State, a: seq<Action>, task: Task)
    requires |a| >= 10 && a[6] == CallPop && a[7] == a[8] == a[9] == Owner([])
    requires Run(s, a[..6]) == Witness(Idle, 1, [task], map[])
    ensures Run(s, a[..10]) == Witness(PopLoadTop(0, 0), 0, [task], map[])
  {
    hide *;
    WitnessPop(task);
    var r := RunOne(s, a, 6, Run(s, a[..6]));
    r := RunOne(s, a, 7, r);
    r := RunOne(s, a, 8, r);
    r := RunOne(s, a, 9, r);
  }

  lemma ContestedRun(s: State, task: Task)
    requires s == Run(s, ContestedSchedule(task)[..0]) && s == Witness(Idle, 0, [], map[])
    ensures Run(s, ContestedSchedule(task)) == Witness(PopLoadTop(0, 0), 0, [task], map[0 := StealLoadBottom(0)])
  {
    var a := ContestedSchedule(task);
    assert a[..12] == a;
    hide Run, Next, Witness;
    ContestedPush(s, a, task);
    ContestedPop(s, a, task);
    WitnessSteal(task);
    var r := RunOne(s, a, 10, Run(s, a[..10]));
    r := RunOne(s, a, 11, r);
  }

  /** So a steal can report "empty" while the deque holds a task: its one task is contested. */
  lemma EmptyStealCanBeWrong(s: State, task: Task)
    requires Init(s) && s.bufs == [[0, 0]]
    ensures var r := Run(s, ContestedSchedule(task));
            EventOf(r, Thief(0)) == StealFindsEmpty(0) && |Contents(r)| == 1
  {
    assert s == Run(s, ContestedSchedule(task)[..0]) && s == Witness(Idle, 0, [], map[]);
    ContestedRun(s, task);
    hide Run, ContestedSchedule;
  }

  lemma RunOne(s: State, a: seq<Action>, k: nat, r: State) returns (r': State)
    requires k < |a| && r == Run(s, a[..k])
    ensures r' == Next(r, a[k]) && r' == Run(s, a[..k + 1])
  {
    r' := Next(r, a[k]);
    assert a[..k + 1][..k] == a[..k];
  }
}
