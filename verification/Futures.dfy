/**
  include/Futures/Future.hpp: one `set` racing with any number of `then` calls.  Each section under the
  mutex is one step, and so is each call of a continuation outside it.  Continuation `i` is the one
  passed by the `i`-th `then`.
 */
module Futures {
  import opened Tasks

  /** Where a call of `then` is. */
  datatype Caller = NotCalled | RunsItself | Returned

  /** Where the call of `set` is; `toRun` are the continuations it has taken and not yet run. */
  datatype Setter = NotSet | Running(toRun: seq<nat>)

  datatype Future<T> = Future(
    value: Option<T>,
    continuations: seq<nat>,
    setter: Setter,
    callers: seq<Caller>,
    log: seq<(nat, T)>)

  datatype Action<T> = Set(v: T) | RunTaken | Then(i: nat) | RunOwn(i: nat)

  /** `ready_` is set together with `value_`, under the lock. */
  function Next<T>(f: Future<T>, a: Action<T>): Future<T> {
    match a
    case Set(v) =>
      if f.setter.NotSet? then f.(value := Some(v), setter := Running(f.continuations), continuations := [])
      else f
    case RunTaken =>
      if f.setter.Running? && f.setter.toRun != [] && f.value.Some? then
        f.(log := f.log + [(f.setter.toRun[0], f.value.value)], setter := Running(f.setter.toRun[1..]))
      else f
    case Then(i) =>
      if i < |f.callers| && f.callers[i].NotCalled? then
        if f.value.None? then f.(continuations := f.continuations + [i], callers := f.callers[i := Returned])
        else f.(callers := f.callers[i := RunsItself])
      else f
    case RunOwn(i) =>
      if i < |f.callers| && f.callers[i].RunsItself? && f.value.Some? then
        f.(log := f.log + [(i, f.value.value)], callers := f.callers[i := Returned])
      else f
  }

  function Run<T>(f: Future<T>, steps: seq<Action<T>>): Future<T>
    decreases |steps|
  {
    if steps == [] then f else Next(Run(f, steps[..|steps| - 1]), steps[|steps| - 1])
  }

  ghost predicate Init<T>(f: Future<T>) {
    && f.value == None && f.continuations == [] && f.setter == NotSet && f.log == []
    && forall i :: 0 <= i < |f.callers| ==> f.callers[i] == NotCalled
  }

  function Ids<T>(log: seq<(nat, T)>): seq<nat> {
    seq(|log|, k requires 0 <= k < |log| => log[k].0)
  }

  function Taken(s: Setter): seq<nat> {
    if s.Running? then s.toRun else []
  }

  /** Every continuation of a call that has returned is in exactly one place: waiting, taken by `set`, or run. */
  function Places<T>(f: Future<T>): multiset<nat> {
    multiset(f.continuations) + multiset(Taken(f.setter)) + multiset(Ids(f.log))
  }

  ghost predicate Inv<T>(f: Future<T>) {
    && (f.value.None? <==> f.setter.NotSet?)
    && (f.value.None? ==> f.log == [] && forall i :: 0 <= i < |f.callers| ==> !f.callers[i].RunsItself?)
    && (f.value.Some? ==> f.continuations == [])
    && (forall k :: 0 <= k < |f.log| ==> f.value == Some(f.log[k].1))
    && (forall i: nat :: Places(f)[i] == if i < |f.callers| && f.callers[i].Returned? then 1 else 0)
  }

  lemma IdsOneMore<T>(log: seq<(nat, T)>, e: (nat, T))
    ensures Ids(log + [e]) == Ids(log) + [e.0]
  {}

  lemma SetKeeps<T>(f: Future<T>, v: T)
    requires Inv(f)
    ensures Inv(Next(f, Set(v)))
  {
    var f' := Next(f, Set(v));
    assert Places(f') == Places(f);
    hide Places;
  }

  /** A `then` before `set` queues its continuation and returns. */
  lemma ThenQueues<T>(f: Future<T>, i: nat)
    requires Inv(f) && i < |f.callers| && f.callers[i].NotCalled? && f.value.None?
    ensures Inv(Next(f, Then(i)))
  {
    var f' := Next(f, Then(i));
    assert f'.continuations == f.continuations + [i];
    assert Places(f') == Places(f) + multiset{i};
    hide Places;
  }

  lemma ThenKeeps<T>(f: Future<T>, i: nat)
    requires Inv(f)
    ensures Inv(Next(f, Then(i)))
  {
    if i < |f.callers| && f.callers[i].NotCalled? && f.value.None? {
      ThenQueues(f, i);
    } else {
      assert Places(Next(f, Then(i))) == Places(f);
      hide Places;
    }
  }

  lemma RunOwnKeeps<T>(f: Future<T>, i: nat)
    requires Inv(f)
    ensures Inv(Next(f, RunOwn(i)))
  {
    var f' := Next(f, RunOwn(i));
    if i < |f.callers| && f.callers[i].RunsItself? {
      IdsOneMore(f.log, f'.log[|f.log|]);
      assert Places(f') == Places(f) + multiset{i};
    }
    hide Places;
  }

  lemma HeadMoves(waiting: multiset<nat>, taken: seq<nat>, ran: multiset<nat>)
    requires taken != []
    ensures waiting + multiset(taken[1..]) + (ran + multiset{taken[0]}) == waiting + multiset(taken) + ran
  {
    assert taken == [taken[0]] + taken[1..];
    assert multiset(taken) == multiset{taken[0]} + multiset(taken[1..]);
  }

  /** Running a taken continuation moves it from one place to another. */
  lemma RunTakenPlaces<T>(f: Future<T>)
    requires f.setter.Running? && f.setter.toRun != [] && f.value.Some?
    ensures Places(Next(f, RunTaken)) == Places(f)
  {
    var f' := Next(f, RunTaken);
    var i := f.setter.toRun[0];
    IdsOneMore(f.log, (i, f.value.value));
    hide Ids;
    assert multiset(Ids(f'.log)) == multiset(Ids(f.log)) + multiset{i};
    HeadMoves(multiset(f.continuations), f.setter.toRun, multiset(Ids(f.log)));
  }

  lemma RunTakenKeeps<T>(f: Future<T>)
    requires Inv(f)
    ensures Inv(Next(f, RunTaken))
  {
    hide Places;
    if f.setter.Running? && f.setter.toRun != [] {
      RunTakenPlaces(f);
    }
  }

  lemma StepKeeps<T>(f: Future<T>, a: Action<T>)
    requires Inv(f)
    ensures Inv(Next(f, a))
  {
    hide Inv, Next;
    match a
    case Set(v) => SetKeeps(f, v);
    case RunTaken => RunTakenKeeps(f);
    case Then(i) => ThenKeeps(f, i);
    case RunOwn(i) => RunOwnKeeps(f, i);
  }

  lemma SameCallers<T>(f: Future<T>, a: Action<T>)
    ensures |Next(f, a).callers| == |f.callers|
  {}

  lemma {:induction false} RunInv<T>(f: Future<T>, steps: seq<Action<T>>)
    requires Init(f)
    ensures Inv(Run(f, steps)) && |Run(f, steps).callers| == |f.callers|
    decreases |steps|
  {
    if steps != [] {
      hide Inv, Next;
      var n := |steps| - 1;
      RunInv(f, steps[..n]);
      StepKeeps(Run(f, steps[..n]), steps[n]);
      SameCallers(Run(f, steps[..n]), steps[n]);
    }
  }

  lemma {:induction false} ValueStays<T>(f: Future<T>, steps: seq<Action<T>>, k: nat)
    requires k <= |steps| && Run(f, steps[..k]).value.Some? && Run(f, steps[..k]).setter.Running?
    ensures Run(f, steps).value == Run(f, steps[..k]).value && Run(f, steps).setter.Running?
    decreases |steps|
  {
    if k == |steps| {
      assert steps[..k] == steps;
    } else {
      assert steps[..|steps| - 1][..k] == steps[..k];
      ValueStays(f, steps[..|steps| - 1], k);
    }
  }

  /** The value of the future is the one given to the first call of `set`, from that step on. */
  lemma FirstSetWins<T>(f: Future<T>, steps: seq<Action<T>>, k: nat)
    requires k < |steps| && steps[k].Set? && Run(f, steps[..k]).setter.NotSet?
    ensures Run(f, steps).value == Some(steps[k].v)
  {
    assert steps[..k + 1][..k] == steps[..k];
    ValueStays(f, steps, k + 1);
  }

  ghost predicate AllReturned<T>(f: Future<T>) {
    f.setter == Running([]) && forall i :: 0 <= i < |f.callers| ==> f.callers[i].Returned?
  }

  /**
    Whatever the order of `set` and the calls of `then`, no continuation has run twice or with another
    value than the one that was set, and once all the calls have returned each has run exactly once.
   */
  lemma EveryContinuationRunsOnce<T>(f: Future<T>, steps: seq<Action<T>>)
    requires Init(f)
    ensures var r := Run(f, steps);
            && (forall i: nat :: multiset(Ids(r.log))[i] <= 1)
            && (forall k :: 0 <= k < |r.log| ==> r.value == Some(r.log[k].1))
            && (AllReturned(r) ==> forall i: nat :: i < |f.callers| ==> multiset(Ids(r.log))[i] == 1)
  {
    RunInv(f, steps);
    var r := Run(f, steps);
    assert forall i: nat :: multiset(Ids(r.log))[i] <= Places(r)[i];
    hide Run;
  }

  // ---------------------------------------------------------------- the order of the calls

  /** A call of `then` before the value is set registers its continuation. */
  function NewlyRegistered<T>(f: Future<T>, a: Action<T>): seq<nat> {
    if a.Then? && a.i < |f.callers| && f.callers[a.i].NotCalled? && f.value.None? then [a.i] else []
  }

  /** What `set` runs in this step, read off the log. */
  function NewlyRun<T>(f: Future<T>, a: Action<T>): seq<nat> {
    var f' := Next(f, a);
    if a.RunTaken? && |f.log| < |f'.log| then [f'.log[|f.log|].0] else []
  }

  /** The continuations registered before the value was set, in the order of the calls of `then`. */
  function Registered<T>(f: Future<T>, steps: seq<Action<T>>): seq<nat>
    decreases |steps|
  {
    if steps == [] then []
    else
      var n := |steps| - 1;
      Registered(f, steps[..n]) + NewlyRegistered(Run(f, steps[..n]), steps[n])
  }

  /** The continuations that `set` has run, in the order in which it ran them. */
  function RunBySet<T>(f: Future<T>, steps: seq<Action<T>>): seq<nat>
    decreases |steps|
  {
    if steps == [] then []
    else
      var n := |steps| - 1;
      RunBySet(f, steps[..n]) + NewlyRun(Run(f, steps[..n]), steps[n])
  }

  /** The continuations waiting for the value, or taken by `set` and not yet run. */
  function Unrun<T>(f: Future<T>): seq<nat> {
    Taken(f.setter) + f.continuations
  }

  lemma StepInOrder<T>(f: Future<T>, a: Action<T>)
    requires Inv(f)
    ensures NewlyRun(f, a) + Unrun(Next(f, a)) == Unrun(f) + NewlyRegistered(f, a)
  {
    hide Places;
    if a.RunTaken? && f.setter.Running? && f.setter.toRun != [] {
      assert f.setter.toRun == [f.setter.toRun[0]] + f.setter.toRun[1..];
    }
  }

  lemma Shift(ran: seq<nat>, left: seq<nat>, all: seq<nat>, moved: seq<nat>, left': seq<nat>, added: seq<nat>)
    requires ran + left == all && moved + left' == left + added
    ensures (ran + moved) + left' == all + added
  {
    assert (ran + moved) + left' == ran + (moved + left');
    assert ran + (left + added) == (ran + left) + added;
  }

  lemma {:induction false} OrderKept<T>(f: Future<T>, steps: seq<Action<T>>)
    requires Init(f)
    ensures RunBySet(f, steps) + Unrun(Run(f, steps)) == Registered(f, steps)
    decreases |steps|
  {
    if steps != [] {
      hide Inv, Next, Unrun, NewlyRun, NewlyRegistered;
      var n := |steps| - 1;
      var r := Run(f, steps[..n]);
      RunInv(f, steps[..n]);
      StepInOrder(r, steps[n]);
      OrderKept(f, steps[..n]);
      Shift(RunBySet(f, steps[..n]), Unrun(r), Registered(f, steps[..n]),
            NewlyRun(r, steps[n]), Unrun(Next(r, steps[n])), NewlyRegistered(r, steps[n]));
    }
  }

  /** `set` runs the continuations registered before it in the order of their registration, and all of them. */
  lemma SetRunsInOrder<T>(f: Future<T>, steps: seq<Action<T>>)
    requires Init(f)
    ensures RunBySet(f, steps) <= Registered(f, steps)
    ensures Run(f, steps).setter == Running([]) ==> RunBySet(f, steps) == Registered(f, steps)
  {
    RunInv(f, steps);
    OrderKept(f, steps);
    hide Run, RunBySet, Registered, Places;
  }
}
