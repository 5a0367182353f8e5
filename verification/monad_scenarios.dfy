/**
 * The scenario of packages/observable/src/__tests__/Monad.test.ts:7-44.
 * The source is `mutN = mutable(startWith(1, unobserveN))`; `f(n)` hands
 * out a new `mutable(startWith(n * 10, unobserveM))` on each call, and the
 * source takes the values 1, 2 and 3, so the arena holds three targets and
 * the source state `n` picks target `n - 1`. The bound cell is observed by
 * callback 1. Each step is a lemma whose postcondition is one test call,
 * taking the world the previous step left.
 */
module MonadScenarios {
  import opened Wrappers
  import opened Chain
  import opened Observable
  import opened Functor
  import opened Monad
  import opened ObservableScenarios

  /** The two spies handed to `startWith` as teardowns. */
  datatype Spy = UnobserveN | UnobserveM

  /** `f`: the source state `n` picks the target made for it. */
  function Pick(n: int): nat
  {
    if 1 <= n <= 3 then n - 1 else 0
  }

  /** A leaf holding `v` while the bind's subscription (handle 1) observes it; then idle. */
  function Sub(v: int, u: Spy): Cell<int, (), Spy> { Cell(List([Entry(1, ())], 2), Some(Obn(v, u)), 1, 0) }
  function Left(v: int, u: Spy): Cell<int, (), Spy> { Cell(List([], 2), Some(Obn(v, u)), 1, 1) }

  /** The source and the targets. */
  function N(v: int): Cell<int, (), Spy> { Sub(v, UnobserveN) }
  function NIdle(v: int): Cell<int, (), Spy> { Left(v, UnobserveN) }
  function M(v: int): Cell<int, (), Spy> { Sub(v, UnobserveM) }
  function MIdle(v: int): Cell<int, (), Spy> { Left(v, UnobserveM) }

  /** The bound cell observed by callback 1; its teardown holds the source handle 1. Then idle. */
  function B(v: int): Cell<int, nat, nat> { Cell(List([Entry(1, 1)], 2), Some(Obn(v, 1)), 1, 0) }
  function BIdle(v: int): Cell<int, nat, nat> { Cell(List([], 2), Some(Obn(v, 1)), 1, 1) }

  function Unused(): Cell<int, (), Spy> { Fresh() }

  /** The start of target `n - 1`, and of the source, on cells never started. */
  function TargetStart(n: int): Option<Obn<int, Spy>> { Some(Obn(n * 10, UnobserveM)) }
  function SourceStart(): Option<Obn<int, Spy>> { Some(Obn(1, UnobserveN)) }

  /** They are what `startWith(n * 10, unobserveM)` and `startWith(1, unobserveN)` return there. */
  lemma LeafStarts(n: int)
    ensures LeafStart(Unused(), n * 10, UnobserveM) == TargetStart(n) && StartedFor(Unused(), TargetStart(n))
    ensures LeafStart(Fresh<int, (), Spy>(), 1, UnobserveN) == SourceStart() && StartedFor(Fresh<int, (), Spy>(), SourceStart())
  {
  }

  /** The worlds after each call of the test. */
  function W0(): World<int, int, Spy> { World(Fresh(), [Unused(), Unused(), Unused()], Fresh(), None, []) }
  function W1(): World<int, int, Spy> { World(N(1), [M(10), Unused(), Unused()], B(10), Some((0, 1)), []) }
  function W2(): World<int, int, Spy> { World(N(1), [M(11), Unused(), Unused()], B(11), Some((0, 1)), []) }
  function W3(): World<int, int, Spy>
  {
    World(N(2), [MIdle(11), M(20), Unused()], B(20), Some((1, 1)), [TargetDown(0, UnobserveM)])
  }
  function W4(): World<int, int, Spy>
  {
    World(N(2), [MIdle(11), M(30), Unused()], B(30), Some((1, 1)), [TargetDown(0, UnobserveM)])
  }
  function W5(): World<int, int, Spy>
  {
    World(N(3), [MIdle(11), MIdle(30), M(30)], B(30), Some((2, 1)), [TargetDown(0, UnobserveM), TargetDown(1, UnobserveM)])
  }
  function W6(): World<int, int, Spy>
  {
    World(NIdle(3), [MIdle(11), MIdle(30), MIdle(30)], BIdle(30), Some((2, 1)),
          [TargetDown(0, UnobserveM), TargetDown(1, UnobserveM), TargetDown(2, UnobserveM), SourceDown(UnobserveN)])
  }

  lemma SubscribeSource()
    ensures Observed(Fresh<int, (), Spy>(), (), SourceStart()) == (N(1), 1, 1)
  {
    assert [] + [Entry(1, ())] == [Entry(1, ())];
  }

  /** Target `n - 1` starts at `n * 10` under the bind's first subscription. */
  lemma SubscribeTarget(n: int)
    ensures Observed(Unused(), (), TargetStart(n)) == (M(n * 10), n * 10, 1)
  {
    assert [] + [Entry(1, ())] == [Entry(1, ())];
  }

  /** Replacing one of three elements. */
  lemma Replace<X>(a: X, b: X, c: X, x: X)
    ensures [a, b, c][0 := x] == [x, b, c]
    ensures [a, b, c][1 := x] == [a, x, c]
    ensures [a, b, c][2 := x] == [a, b, x]
  {
  }

  /** The leaves keep their lifecycle, observed and idle. */
  lemma Lives(v: int, u: Spy)
    ensures Lifecycle(Sub(v, u)) && Active(Sub(v, u)) && Lifecycle(Left(v, u)) && !Active(Left(v, u))
  {
    assert Sub(v, u).observers.entries[0].id == 1;
  }

  /** An arena of three cells that keep their lifecycle. */
  lemma Arena(a: Cell<int, (), Spy>, b: Cell<int, (), Spy>, c: Cell<int, (), Spy>)
    requires Lifecycle(a) && Lifecycle(b) && Lifecycle(c)
    ensures AllTargets([a, b, c])
  {
    var ts := [a, b, c];
    assert ts[1] == b && ts[2] == c;
  }

  /** The arena before the test: three targets nobody has started. */
  lemma Unstarted()
    ensures AllTargets(W0().targets) && Idle(W0().targets)
  {
    var ts := W0().targets;
    forall k | 0 <= k < 3
      ensures Lifecycle(ts[k]) && !Active(ts[k])
    {
      assert ts[k] == Unused();
    }
  }

  lemma FirstRebound()
    ensures AllTargets(W0().targets) && TarInArena(W0().(src := N(1), tar := None))
    ensures Rebound(W0().(src := N(1), tar := None), Pick, 1, TargetStart(1)) == (W1().(bound := Fresh()), 10)
  {
    Unstarted();
    var ts := W0().targets;
    assert ts[0] == Unused();
    SubscribeTarget(1);
    Replace(Unused(), Unused(), Unused(), M(10));
  }

  lemma FirstStart()
    ensures BindStart(W0(), Pick, SourceStart(), TargetStart(1)) == (W1().(bound := Fresh()), Obn(10, 1))
  {
    SubscribeSource();
    FirstRebound();
  }

  /** Callback 1 subscribes to the bound cell as it starts. */
  lemma SubscribeBound()
    ensures Observed(Fresh<int, nat, nat>(), 1, Some(Obn(10, 1))) == (B(10), 10, 1)
  {
    assert [] + [Entry(1, 1)] == [Entry(1, 1)];
  }

  // __tests__/Monad.test.ts:16-18: observing starts the source at 1 and target 0 at 10.

  lemma Observe()
    ensures BindObserved(W0(), Pick, 1, SourceStart(), TargetStart(1)) == (W1(), 10, 1)
  {
    FirstStart();
    SubscribeBound();
  }

  /** An update of an observed leaf tells the bind's subscription iff the state changes. */
  lemma UpdateLeaf(v: int, u: Spy, t: int -> int)
    ensures Updated(Sub(v, u), t, None) == Outcome(Sub(t(v), u), t(v), if t(v) != v then [()] else [], None)
  {
    assert Values(Sub(v, u).observers) == [()];
  }

  /** The bound cell takes the target's state and tells callback 1 iff it changed. */
  lemma SettleBound(v: int, v': int)
    ensures Updated(B(v), Settle(v'), None) == Outcome(B(v'), v', if v' != v then [1] else [], None)
  {
    assert Values(B(v).observers) == [1];
  }

  /** The bind's disposal of its only subscription to a leaf tears it down. */
  lemma DropLeaf(v: int, u: Spy)
    ensures Unobserved(Sub(v, u), 1) == (Left(v, u), Some(u))
  {
    assert Sub(v, u).observers.entries[0].id == 1;
  }

  /** Before the test nothing is observed. */
  lemma Bound0()
    ensures Binds(W0(), Pick)
  {
    Unstarted();
  }

  /** Observing binds the bind. */
  lemma Bound1()
    ensures Binds(W1(), Pick)
  {
    Bound0();
    SubscribeSource();
    Unstarted();
    BindObservedBinds(W0(), Pick, 1, SourceStart(), TargetStart(1));
    Observe();
  }

  // __tests__/Monad.test.ts:20-23: `mutM.update(inc)` on target 0 tells callback 1 the state 11.

  lemma TargetInc()
    ensures Wired(W1(), Pick)
    ensures TargetUpdated(W1(), Pick, 0, Inc(), None) == (W2(), [(1, 11)])
  {
    Bound1();
    UpdateLeaf(10, UnobserveM, Inc());
    SettleBound(10, 11);
    var r := TargetUpdated(W1(), Pick, 0, Inc(), None);
    assert r.0.targets == [M(11), Unused(), Unused()] by { Replace(M(10), Unused(), Unused(), M(11)); }
    assert r.0.log == [];
    assert r.1 == [(1, 11)] by { assert Tell([1], 11) == [(1, 11)]; }
  }

  lemma Bound2()
    ensures Binds(W2(), Pick)
  {
    Bound1();
    TargetUpdatedBinds(W1(), Pick, 0, Inc(), None);
    TargetInc();
  }

  /** A rebind, given the arena once the new target is subscribed and the world once the old one is disposed. */
  lemma ReboundVia<S, T, D>(w: World<S, T, D>, f: S -> nat, s: S, started: Option<Obn<T, D>>,
                            sub: (Cell<T, (), D>, T, nat), ts: seq<Cell<T, (), D>>, w': World<S, T, D>)
    requires AllTargets(w.targets) && TarInArena(w) && f(s) < |w.targets| && StartedFor(w.targets[f(s)], started)
    requires Observed(w.targets[f(s)], (), started) == sub && w.targets[f(s) := sub.0] == ts
    requires UnobserveTar(w.(targets := ts)) == w'
    ensures Rebound(w, f, s, started) == (w'.(tar := Some((f(s), sub.2))), sub.1)
  {
  }

  /** A disposal of target `k`'s subscription `h` that tears it down. */
  lemma UnobserveVia<S, T, D>(w: World<S, T, D>, k: nat, h: nat, c: Cell<T, (), D>, d: D)
    requires AllTargets(w.targets) && w.tar == Some((k, h)) && k < |w.targets|
    requires Unobserved(w.targets[k], h) == (c, Some(d))
    ensures UnobserveTar(w) == w.(targets := w.targets[k := c], log := w.log + [TargetDown(k, d)])
  {
  }

  /** Disposing the bind's subscription to target `k` of a three-cell arena tears that target down. */
  lemma DropTarget(src: Cell<int, (), Spy>, bound: Cell<int, nat, nat>, ts: seq<Cell<int, (), Spy>>, k: nat, v: int,
                   log: seq<Teardown<Spy>>, ts': seq<Cell<int, (), Spy>>, log': seq<Teardown<Spy>>)
    requires AllTargets(ts) && k < |ts| && ts[k] == M(v)
    requires ts' == ts[k := MIdle(v)] && log' == log + [TargetDown(k, UnobserveM)]
    ensures UnobserveTar(World(src, ts, bound, Some((k, 1)), log)) == World(src, ts', bound, Some((k, 1)), log')
  {
    DropLeaf(v, UnobserveM);
  }

  /** Target 0 goes once target 1 is subscribed. */
  lemma SecondArena()
    ensures AllTargets([M(11), M(20), Unused()])
  {
    Lives(11, UnobserveM);
    Lives(20, UnobserveM);
    Arena(M(11), M(20), Unused());
  }

  lemma DropFirst()
    ensures UnobserveTar(W2().(src := N(2)).(targets := [M(11), M(20), Unused()])) == W3().(bound := B(11), tar := W2().tar)
  {
    SecondArena();
    Replace(M(11), M(20), Unused(), MIdle(11));
    DropTarget(N(2), B(11), [M(11), M(20), Unused()], 0, 11, [], W3().targets, W3().log);
  }

  lemma SecondReady()
    ensures AllTargets(W2().targets) && TarInArena(W2())
    ensures Pick(2) == 1 && W2().targets[1] == Unused()
  {
    Arena(M(11), Unused(), Unused());
    Lives(11, UnobserveM);
    var ts0 := [M(11), Unused(), Unused()];
    assert ts0[1] == Unused();
  }

  lemma SecondSubscribed()
    ensures Observed(Unused(), (), TargetStart(2)) == (M(20), 20, 1) && W2().targets[1 := M(20)] == [M(11), M(20), Unused()]
  {
    SubscribeTarget(2);
    Replace(M(11), Unused(), Unused(), M(20));
  }

  /** The rebind to the source state 2 subscribes to target 1, then tears the old one down. */
  lemma ToSecond()
    ensures AllTargets(W2().targets) && TarInArena(W2())
    ensures Rebound(W2().(src := N(2)), Pick, 2, TargetStart(2)) == (W3().(bound := B(11)), 20)
  {
    SecondReady();
    SecondSubscribed();
    SecondArena();
    DropFirst();
    LeafStarts(2);
    var w0 := W2().(src := N(2));
    ReboundVia(w0, Pick, 2, TargetStart(2), (M(20), 20, 1), [M(11), M(20), Unused()], W3().(bound := B(11), tar := w0.tar));
  }

  // __tests__/Monad.test.ts:25-29: `mutN.update(inc)` rebinds to a new target at 20, which
  // callback 1 hears, and the old target is torn down.

  /** `mutN.update(inc)` on the source holding `n` rebinds the bind to the state `n + 1`. */
  lemma SourceStep(w: World<int, int, Spy>, n: int, started: Option<Obn<int, Spy>>)
    requires |w.targets| == 3 && Wired(w, Pick) && w.src == N(n) && Active(w.bound)
    requires StartedFor(w.targets[Pick(n + 1)], started)
    ensures SourceUpdated(w, Pick, Inc(), None, started) == Rebind(w.(src := N(n + 1)), Pick, n + 1, started)
  {
    UpdateLeaf(n, UnobserveN, Inc());
    assert Updated(w.src, Inc(), None) == Outcome(N(n + 1), n + 1, [()], None);
    assert w.(src := N(n + 1), log := w.log + SourceRan<Spy>(None)) == w.(src := N(n + 1));
  }

  /** The rebind from a target holding `b` to one holding `b'` tells callback 1 `b'` iff they differ. */
  lemma SettleStep(w: World<int, int, Spy>, s: int, b: int, started: Option<Obn<int, Spy>>, w': World<int, int, Spy>, b': int)
    requires AllTargets(w.targets) && TarInArena(w) && Pick(s) < |w.targets| && StartedFor(w.targets[Pick(s)], started)
    requires w.bound == B(b) && w'.bound == B(b')
    requires Rebound(w, Pick, s, started) == (w'.(bound := B(b)), b')
    ensures Lifecycle(w.bound) && Active(w.bound)
    ensures Rebind(w, Pick, s, started) == (w', if b' != b then [(1, b')] else [])
  {
    DropBound(b);
    SettleBound(b, b');
    var r := Rebind(w, Pick, s, started);
    assert r.0 == w'.(bound := B(b)).(bound := B(b'));
    if b' != b {
      assert Tell([1], b') == [(1, b')];
    } else {
      assert Tell([], b') == [];
    }
  }

  lemma SourceInc()
    ensures Wired(W2(), Pick)
    ensures SourceUpdated(W2(), Pick, Inc(), None, TargetStart(2)) == (W3(), [(1, 20)])
  {
    Bound2();
    ToSecond();
    LeafStarts(2);
    SettleStep(W2().(src := N(2)), 2, 11, TargetStart(2), W3(), 20);
    SourceStep(W2(), 1, TargetStart(2));
  }

  lemma Bound3()
    ensures Binds(W3(), Pick)
  {
    Bound2();
    UpdateLeaf(1, UnobserveN, Inc());
    var ts := W2().targets;
    assert ts[Pick(2)] == Unused();
    SourceUpdatedBinds(W2(), Pick, Inc(), None, TargetStart(2));
    SourceInc();
  }

  // __tests__/Monad.test.ts:31-34: `mutM.update(add(10))` on the new target tells callback 1 the state 30.

  lemma TargetAdd()
    ensures Wired(W3(), Pick)
    ensures TargetUpdated(W3(), Pick, 1, Add(10), None) == (W4(), [(1, 30)])
  {
    Bound3();
    UpdateLeaf(20, UnobserveM, Add(10));
    SettleBound(20, 30);
    var r := TargetUpdated(W3(), Pick, 1, Add(10), None);
    assert r.0.targets == [MIdle(11), M(30), Unused()] by { Replace(MIdle(11), M(20), Unused(), M(30)); }
    assert r.0.log == [TargetDown(0, UnobserveM)];
    assert r.1 == [(1, 30)] by { assert Tell([1], 30) == [(1, 30)]; }
  }

  lemma Bound4()
    ensures Binds(W4(), Pick)
  {
    Bound3();
    TargetUpdatedBinds(W3(), Pick, 1, Add(10), None);
    TargetAdd();
  }

  /** Target 1 goes once target 2 is subscribed. */
  lemma ThirdArena()
    ensures AllTargets([MIdle(11), M(30), M(30)])
  {
    Lives(11, UnobserveM);
    Lives(30, UnobserveM);
    Arena(MIdle(11), M(30), M(30));
  }

  lemma DropSecond()
    ensures UnobserveTar(W4().(src := N(3)).(targets := [MIdle(11), M(30), M(30)])) == W5().(bound := B(30), tar := W4().tar)
  {
    ThirdArena();
    var ts := [MIdle(11), M(30), M(30)];
    Replace(MIdle(11), M(30), M(30), MIdle(30));
    DropTarget(N(3), B(30), ts, 1, 30, [TargetDown(0, UnobserveM)], W5().targets, W5().log);
  }

  lemma ThirdReady()
    ensures AllTargets(W4().targets) && TarInArena(W4())
    ensures Pick(3) == 2 && W4().targets[2] == Unused()
  {
    Arena(MIdle(11), M(30), Unused());
    Lives(11, UnobserveM);
    Lives(30, UnobserveM);
    var ts0 := [MIdle(11), M(30), Unused()];
    assert ts0[2] == Unused();
  }

  lemma ThirdSubscribed()
    ensures Observed(Unused(), (), TargetStart(3)) == (M(30), 30, 1) && W4().targets[2 := M(30)] == [MIdle(11), M(30), M(30)]
  {
    SubscribeTarget(3);
    Replace(MIdle(11), M(30), Unused(), M(30));
  }

  /** The rebind to the source state 3 subscribes to target 2, then tears the old one down. */
  lemma ToThird()
    ensures AllTargets(W4().targets) && TarInArena(W4())
    ensures Rebound(W4().(src := N(3)), Pick, 3, TargetStart(3)) == (W5().(bound := B(30)), 30)
  {
    ThirdReady();
    ThirdSubscribed();
    ThirdArena();
    DropSecond();
    LeafStarts(3);
    var w0 := W4().(src := N(3));
    ReboundVia(w0, Pick, 3, TargetStart(3), (M(30), 30, 1), [MIdle(11), M(30), M(30)], W5().(bound := B(30), tar := w0.tar));
  }

  // __tests__/Monad.test.ts:36-38: `mutN.update(inc)` rebinds to a new target that also holds 30:
  // callback 1 hears nothing, and the old target is torn down.

  lemma SourceIncSilent()
    ensures Wired(W4(), Pick)
    ensures SourceUpdated(W4(), Pick, Inc(), None, TargetStart(3)) == (W5(), [])
  {
    Bound4();
    ToThird();
    LeafStarts(3);
    SettleStep(W4().(src := N(3)), 3, 30, TargetStart(3), W5(), 30);
    SourceStep(W4(), 2, TargetStart(3));
  }

  lemma Bound5()
    ensures Binds(W5(), Pick)
  {
    Bound4();
    UpdateLeaf(2, UnobserveN, Inc());
    var ts := W4().targets;
    assert ts[Pick(3)] == Unused();
    SourceUpdatedBinds(W4(), Pick, Inc(), None, TargetStart(3));
    SourceIncSilent();
  }

  /** Callback 1 leaves the bound cell, which tears it down. */
  lemma DropBound(v: int)
    ensures Lifecycle(B(v)) && Unobserved(B(v), 1) == (BIdle(v), Some(1))
  {
    assert B(v).observers.entries[0].id == 1;
  }

  // __tests__/Monad.test.ts:40-43: `obn.unobserve()` tears down the current target, then the source.

  /** The bound teardown first disposes target 2. */
  lemma DropThird()
    ensures AllTargets(W5().targets) && TarInArena(W5())
    ensures UnobserveTar(W5().(bound := BIdle(30))) == W6().(src := N(3), log := W5().log + [TargetDown(2, UnobserveM)])
  {
    ThirdArena();
    Replace(MIdle(11), MIdle(30), M(30), MIdle(30));
    DropTarget(N(3), BIdle(30), W5().targets, 2, 30, W5().log, W6().targets, W5().log + [TargetDown(2, UnobserveM)]);
  }

  /** What `BindUnobserved` asks of the world. */
  predicate Leavable(w: World<int, int, Spy>)
  {
    Lifecycle(w.src) && Lifecycle(w.bound) && AllTargets(w.targets) && TarInArena(w)
  }

  /** Callback 1's departure, once the current target is disposed, tears the source down. */
  lemma LeaveBound(w: World<int, int, Spy>, v: int, n: int, w': World<int, int, Spy>)
    requires w.src == N(n) && w.bound == B(v) && AllTargets(w.targets) && TarInArena(w)
    requires UnobserveTar(w.(bound := BIdle(v))) == w'
    ensures Leavable(w) && BindUnobserved(w, 1) == w'.(src := NIdle(n), log := w'.log + [SourceDown(UnobserveN)])
  {
    Lives(n, UnobserveN);
    DropBound(v);
    DropLeaf(n, UnobserveN);
  }

  lemma Unobserve()
    ensures Leavable(W5()) && BindUnobserved(W5(), 1) == W6()
  {
    DropThird();
    var log := W5().log + [TargetDown(2, UnobserveM)];
    LeaveBound(W5(), 30, 3, W6().(src := N(3), log := log));
    assert log + [SourceDown(UnobserveN)] == W6().log;
  }
}
