/**
 * `bind` of packages/observable/src/Monad.ts.
 *
 * `bind(f)(src)` is a cell whose start subscribes to the source and to the
 * target `f(s)` of the source state `s`, and which keeps the disposer of the
 * current target subscription in the mutable `unobserveTar`. Every source
 * notification rebinds: it subscribes to the new target first, then disposes
 * the old one. The observables `f` hands out are an arena of target cells,
 * and `f` gives a target's number. The source and the targets are observed
 * by the bind alone, through one handler each, so their observer lists hold
 * `()`; the bound cell's observers are outer callbacks, numbered, and its
 * teardown holds the handle of the source subscription.
 */
module Monad {
  import opened Wrappers
  import opened Chain
  import opened Observable
  import opened Functor

  /** A teardown that ran: that of target `k`, or that of the source. */
  datatype Teardown<D> = TargetDown(k: nat, d: D) | SourceDown(d: D)

  /**
   * Everything one bind touches: the source, the target arena, the bound
   * cell, `unobserveTar` (None is the initial `noop`, Some((k, h)) disposes
   * subscription `h` of target `k`) and the teardowns run so far, in order.
   */
  datatype World<S, T, D> = World(src: Cell<S, (), D>, targets: seq<Cell<T, (), D>>, bound: Cell<T, nat, nat>,
                                  tar: Option<(nat, nat)>, log: seq<Teardown<D>>)

  predicate AllTargets<T, D>(targets: seq<Cell<T, (), D>>)
  {
    forall k :: 0 <= k < |targets| ==> Lifecycle(targets[k])
  }

  /** `unobserveTar` names a target of the arena. */
  predicate TarInArena<S, T, D>(w: World<S, T, D>)
  {
    w.tar.Some? ==> w.tar.value.0 < |w.targets|
  }

  /** No target is observed. */
  predicate Idle<T, D>(targets: seq<Cell<T, (), D>>)
  {
    forall j :: 0 <= j < |targets| ==> !Active(targets[j])
  }

  /**
   * The target `tar` names has one observer, the subscription `tar`
   * disposes, and no other target is observed.
   */
  predicate Current<T, D>(targets: seq<Cell<T, (), D>>, tar: Option<(nat, nat)>)
  {
    && tar.Some? && tar.value.0 < |targets|
    && targets[tar.value.0].observers.entries == [Entry(tar.value.1, ())]
    && forall j :: 0 <= j < |targets| && j != tar.value.0 ==> !Active(targets[j])
  }

  /**
   * The structure of a bind: while the bound cell is observed, the source
   * has one observer, the bind's subscription, whose handle the bound
   * teardown holds, and the target `unobserveTar` names has one observer,
   * the subscription it disposes; no other target is observed. While it is
   * not, nothing is observed. `f` maps into the arena.
   */
  ghost predicate Wired<S(!new), T, D>(w: World<S, T, D>, f: S -> nat)
  {
    && Lifecycle(w.src) && Lifecycle(w.bound) && AllTargets(w.targets) && TarInArena(w)
    && (forall s :: f(s) < |w.targets|)
    && (Active(w.bound) ==>
          && w.bound.obn.Some?
          && w.src.observers.entries == [Entry(w.bound.obn.value.unobserve, ())]
          && Current(w.targets, w.tar))
    && (!Active(w.bound) ==> !Active(w.src) && Idle(w.targets))
  }

  /**
   * `Wired`, and an observed bind follows its source: the current target is
   * `f` of the source state, and the bound cell holds that target's state.
   */
  ghost predicate Binds<S(!new), T, D>(w: World<S, T, D>, f: S -> nat)
  {
    && Wired(w, f)
    && (Active(w.bound) ==>
          && w.src.obn.Some? && w.targets[w.tar.value.0].obn.Some?
          && w.tar.value.0 == f(w.src.obn.value.state)
          && w.bound.obn.value.state == w.targets[w.tar.value.0].obn.value.state)
  }

  /** What the result `u` of a disposal or an update of target `k` adds to the log. */
  function TargetRan<D>(k: nat, u: Option<D>): seq<Teardown<D>>
  {
    if u.Some? then [TargetDown(k, u.value)] else []
  }

  /** The same for the source. */
  function SourceRan<D>(u: Option<D>): seq<Teardown<D>>
  {
    if u.Some? then [SourceDown(u.value)] else []
  }

  /** The transition `() => tar` the bind hands to its own `update` (Monad.ts:9, 14): it ignores the state. */
  function Settle<T>(v: T): T -> T
  {
    _ => v
  }

  /**
   * `unobserveTar()` (Monad.ts:10, 19): disposes the subscription it names,
   * which tears the target down when it was its last observer; the initial
   * `noop` does nothing.
   */
  function UnobserveTar<S, T, D>(w: World<S, T, D>): (r: World<S, T, D>)
    requires AllTargets(w.targets) && TarInArena(w)
    ensures AllTargets(r.targets) && |r.targets| == |w.targets|
    ensures r.src == w.src && r.bound == w.bound && r.tar == w.tar
    ensures w.tar.None? ==> r == w
  {
    if w.tar.None? then w
    else
      var k := w.tar.value.0;
      var u := Unobserved(w.targets[k], w.tar.value.1);
      w.(targets := w.targets[k := u.0], log := w.log + TargetRan(k, u.1))
  }

  /**
   * `setSrc(s)` (Monad.ts:8-13): observe the target `f(s)` (started with
   * `started` when it needs to), then dispose the previous target
   * subscription, then remember the new one. Returns the world and the
   * target's state.
   */
  function Rebound<S, T, D>(w: World<S, T, D>, f: S -> nat, s: S, started: Option<Obn<T, D>>): (r: (World<S, T, D>, T))
    requires AllTargets(w.targets) && TarInArena(w) && f(s) < |w.targets| && StartedFor(w.targets[f(s)], started)
    ensures AllTargets(r.0.targets) && |r.0.targets| == |w.targets| && TarInArena(r.0)
    ensures r.0.src == w.src && r.0.bound == w.bound && r.0.tar.Some? && r.0.tar.value.0 == f(s)
  {
    var j := f(s);
    var o := Observed(w.targets[j], (), started);
    var w' := UnobserveTar(w.(targets := w.targets[j := o.0]));
    (w'.(tar := Some((j, o.2))), o.1)
  }

  /** Disposing the only observer tears a target down. */
  lemma DropSole<T, D>(c: Cell<T, (), D>, h: nat)
    requires Lifecycle(c) && c.observers.entries == [Entry(h, ())]
    ensures c.obn.Some?
    ensures var u := Unobserved(c, h); !Active(u.0) && u.0.obn == c.obn && u.1 == Some(c.obn.value.unobserve)
  {
    assert c.observers.entries[0].id == h;
  }

  /** Disposing the older of two observers leaves the newer one, and the target running. */
  lemma DropOlder<T, D>(c: Cell<T, (), D>, h: nat, h': nat)
    requires Lifecycle(c) && c.observers.entries == [Entry(h, ()), Entry(h', ())]
    ensures var u := Unobserved(c, h); u.0.observers.entries == [Entry(h', ())] && u.0.obn == c.obn && u.1.None?
  {
    assert c.observers.entries[0].id == h;
    assert IndexOf(c.observers.entries, h) == Some(0);
    assert c.observers.entries[..0] + c.observers.entries[1..] == [Entry(h', ())];
  }

  /** The first `setSrc` of a start subscribes to an idle target and disposes nothing. */
  lemma ReboundFirst<S, T, D>(w: World<S, T, D>, f: S -> nat, s: S, started: Option<Obn<T, D>>)
    requires AllTargets(w.targets) && w.tar.None? && f(s) < |w.targets| && StartedFor(w.targets[f(s)], started)
    requires Idle(w.targets)
    ensures var r := Rebound(w, f, s, started);
            && Current(r.0.targets, r.0.tar) && r.0.log == w.log
            && r.0.targets[f(s)].obn.Some? && r.1 == r.0.targets[f(s)].obn.value.state
  {
    var j := f(s);
    var o := Observed(w.targets[j], (), started);
    assert w.targets[j].observers.entries == [];
    var r := Rebound(w, f, s, started);
    assert r.0.targets == w.targets[j := o.0];
  }

  /** A rebind to the current target subscribes again, then drops the old subscription: the target keeps running. */
  lemma ReboundSame<S, T, D>(w: World<S, T, D>, f: S -> nat, s: S, started: Option<Obn<T, D>>)
    requires AllTargets(w.targets) && Current(w.targets, w.tar) && f(s) == w.tar.value.0 && StartedFor(w.targets[f(s)], started)
    ensures var r := Rebound(w, f, s, started);
            && Current(r.0.targets, r.0.tar) && r.0.log == w.log
            && r.0.targets[f(s)].obn == w.targets[f(s)].obn
            && r.0.targets[f(s)].obn.Some? && r.1 == r.0.targets[f(s)].obn.value.state
  {
    var j, h := f(s), w.tar.value.1;
    var o := Observed(w.targets[j], (), started);
    ReobservedSole(w.targets[j], h, started);
    var r := Rebound(w, f, s, started);
    assert r.0.targets == w.targets[j := o.0][j := Unobserved(o.0, h).0];
  }

  /** Observing a target whose sole observer is `h` again, then disposing `h`, leaves the new subscription alone. */
  lemma ReobservedSole<T, D>(c: Cell<T, (), D>, h: nat, started: Option<Obn<T, D>>)
    requires Lifecycle(c) && c.observers.entries == [Entry(h, ())] && StartedFor(c, started)
    ensures var o := Observed(c, (), started);
            var u := Unobserved(o.0, h);
            && c.obn.Some? && o.1 == c.obn.value.state
            && u.0.observers.entries == [Entry(o.2, ())] && u.0.obn == c.obn && u.1.None?
  {
    var o := Observed(c, (), started);
    assert o.0.observers.entries == [Entry(h, ()), Entry(o.2, ())];
    DropOlder(o.0, h, o.2);
  }

  /** A rebind to another target subscribes to it, then tears the old one down. */
  lemma ReboundOther<S, T, D>(w: World<S, T, D>, f: S -> nat, s: S, started: Option<Obn<T, D>>)
    requires AllTargets(w.targets) && Current(w.targets, w.tar) && f(s) < |w.targets| && f(s) != w.tar.value.0
    requires StartedFor(w.targets[f(s)], started)
    ensures var r := Rebound(w, f, s, started);
            var k := w.tar.value.0;
            && Current(r.0.targets, r.0.tar)
            && w.targets[k].obn.Some? && r.0.log == w.log + [TargetDown(k, w.targets[k].obn.value.unobserve)]
            && r.0.targets[f(s)].obn.Some? && r.1 == r.0.targets[f(s)].obn.value.state
  {
    var j, k, h := f(s), w.tar.value.0, w.tar.value.1;
    var o := Observed(w.targets[j], (), started);
    assert w.targets[j].observers.entries == [];
    var ts := w.targets[j := o.0];
    DropSole(ts[k], h);
    var r := Rebound(w, f, s, started);
    assert r.0.targets == ts[k := Unobserved(ts[k], h).0];
    forall i | 0 <= i < |w.targets| && i != j
      ensures !Active(r.0.targets[i])
    {
      if i != k {
        assert r.0.targets[i] == w.targets[i];
      }
    }
  }

  /**
   * The start of the bound cell (Monad.ts:6-22): `unobserveTar` starts as
   * `noop`, the source is observed (started with `srcStarted` when it needs
   * to) and `setSrc` binds its state. Returns the world and the observation:
   * the target's state and the source subscription's handle.
   */
  function BindStart<S, T, D>(w: World<S, T, D>, f: S -> nat, srcStarted: Option<Obn<S, D>>, tarStarted: Option<Obn<T, D>>)
    : (r: (World<S, T, D>, Obn<T, nat>))
    requires Lifecycle(w.src) && StartedFor(w.src, srcStarted) && AllTargets(w.targets)
    requires var s := Observed(w.src, (), srcStarted).1; f(s) < |w.targets| && StartedFor(w.targets[f(s)], tarStarted)
    ensures r.0.bound == w.bound && Lifecycle(r.0.src) && AllTargets(r.0.targets) && |r.0.targets| == |w.targets| && TarInArena(r.0)
  {
    var o := Observed(w.src, (), srcStarted);
    var b := Rebound(w.(src := o.0, tar := None), f, o.1, tarStarted);
    (b.0, Obn(b.1, o.2))
  }

  /**
   * `bind(f)(src).observe(cb)` (Observable.ts:45-50): an observed bound cell
   * just adds `cb`; an idle one runs its start first. Returns the world, the
   * state `cb` sees and its handle.
   */
  function BindObserved<S, T, D>(w: World<S, T, D>, f: S -> nat, cb: nat, srcStarted: Option<Obn<S, D>>, tarStarted: Option<Obn<T, D>>)
    : (r: (World<S, T, D>, T, nat))
    requires Lifecycle(w.src) && Lifecycle(w.bound) && AllTargets(w.targets)
    requires !Active(w.bound) ==> StartedFor(w.src, srcStarted)
    requires !Active(w.bound) ==>
               var s := Observed(w.src, (), srcStarted).1; f(s) < |w.targets| && StartedFor(w.targets[f(s)], tarStarted)
    ensures Lifecycle(r.0.bound) && Active(r.0.bound) && (r.0.bound.observers, r.2) == Appended(w.bound.observers, cb)
    ensures r.0.bound.obn.Some? && r.1 == r.0.bound.obn.value.state
    ensures Active(w.bound) ==> r.0 == w.(bound := r.0.bound) && r.0.bound.obn == w.bound.obn
  {
    if Active(w.bound) then
      var o := Observed(w.bound, cb, None);
      (w.(bound := o.0), o.1, o.2)
    else
      var st := BindStart(w, f, srcStarted, tarStarted);
      var o := Observed(w.bound, cb, Some(st.1));
      (st.0.(bound := o.0), o.1, o.2)
  }

  /**
   * Observing the bind keeps it bound, and the observer sees the state of the
   * target `f` gives for the source state (Monad.ts:14-15;
   * __tests__/Monad.test.ts:16-18). Starting disposes nothing: the first
   * `setSrc` finds `unobserveTar` still `noop` (Monad.ts:7, 10).
   */
  lemma {:induction false} BindObservedBinds<S(!new), T, D>(w: World<S, T, D>, f: S -> nat, cb: nat,
                                                            srcStarted: Option<Obn<S, D>>, tarStarted: Option<Obn<T, D>>)
    requires Binds(w, f)
    requires !Active(w.bound) ==> StartedFor(w.src, srcStarted)
    requires !Active(w.bound) ==> StartedFor(w.targets[f(Observed(w.src, (), srcStarted).1)], tarStarted)
    ensures var r := BindObserved(w, f, cb, srcStarted, tarStarted);
            && Binds(r.0, f)
            && r.0.src.obn.Some? && r.0.tar.Some?
            && r.0.tar.value.0 == f(r.0.src.obn.value.state)
            && r.0.targets[r.0.tar.value.0].obn.Some?
            && r.1 == r.0.targets[r.0.tar.value.0].obn.value.state
            && r.0.log == w.log
  {
    if !Active(w.bound) {
      var o := Observed(w.src, (), srcStarted);
      assert w.src.observers.entries == [];
      var j := f(o.1);
      var t := Observed(w.targets[j], (), tarStarted);
      assert w.targets[j].observers.entries == [];
      var r := BindObserved(w, f, cb, srcStarted, tarStarted);
      assert r.0.targets == w.targets[j := t.0];
    }
  }

  /**
   * `update(t)` on target `k` (Observable.ts:51-58). While the bind observes
   * it, its handler `tar => update(() => tar)` (Monad.ts:9) passes the new
   * state on to the bound cell, whose observers hear it when it differs from
   * the bound state. Returns the world and what the outer observers heard.
   */
  function TargetUpdated<S(!new), T(==), D>(w: World<S, T, D>, f: S -> nat, k: nat, t: T -> T, started: Option<Obn<T, D>>)
    : (r: (World<S, T, D>, seq<Told<T>>))
    requires Wired(w, f) && k < |w.targets| && StartedFor(w.targets[k], started)
    ensures r.0.src == w.src && r.0.tar == w.tar && |r.0.targets| == |w.targets|
  {
    var o := Updated(w.targets[k], t, started);
    var w' := w.(targets := w.targets[k := o.cell], log := w.log + TargetRan(k, o.teardown));
    if o.notified == [] then (w', [])
    else
      assert Active(w.targets[k]);
      var b := Updated(w.bound, Settle(o.state), None);
      (w'.(bound := b.cell), Tell(b.notified, b.state))
  }

  /**
   * A target update keeps the bind bound. On the current target of an
   * observed bind, the bound cell takes the new state, and its observers
   * hear it iff it changed (__tests__/Monad.test.ts:20-23, 31-34); nothing
   * is torn down. Any other target is idle: it starts and stops on its own,
   * and the bound cell hears nothing.
   */
  lemma {:induction false} TargetUpdatedBinds<S(!new), T, D>(w: World<S, T, D>, f: S -> nat, k: nat, t: T -> T, started: Option<Obn<T, D>>)
    requires Binds(w, f) && k < |w.targets| && StartedFor(w.targets[k], started)
    ensures var r := TargetUpdated(w, f, k, t, started);
            && Binds(r.0, f)
            && r.0.targets[k].obn.Some?
            && r.0.targets[k].obn.value.state == t(Begun(w.targets[k], started).obn.value.state)
            && (forall j :: 0 <= j < |w.targets| && j != k ==> r.0.targets[j] == w.targets[j])
            && if Active(w.bound) && k == w.tar.value.0 then
                 var v := r.0.targets[k].obn.value.state;
                 && r.0.bound.obn.Some? && r.0.bound.obn.value.state == v
                 && r.1 == (if v != w.bound.obn.value.state then Tell(Values(w.bound.observers), v) else [])
                 && r.0.log == w.log
               else
                 && r.0.bound == w.bound && r.1 == []
                 && r.0.log == w.log + [TargetDown(k, r.0.targets[k].obn.value.unobserve)]
  {
    var o := Updated(w.targets[k], t, started);
    if Active(w.bound) && k == w.tar.value.0 {
      assert Values(w.targets[k].observers) == [()];
      var b := Updated(w.bound, Settle(o.state), None);
      assert b.cell.obn.value.state == o.state;
    } else {
      assert !Active(w.targets[k]);
    }
  }

  /**
   * `update(() => setSrc(s))` on the observed bound cell (Monad.ts:14):
   * rebind to `f(s)`, then hand the target's state to the bound cell, whose
   * observers hear it when it differs. Returns the world and what they heard.
   */
  function Rebind<S, T(==), D>(w: World<S, T, D>, f: S -> nat, s: S, started: Option<Obn<T, D>>): (r: (World<S, T, D>, seq<Told<T>>))
    requires AllTargets(w.targets) && TarInArena(w) && f(s) < |w.targets| && StartedFor(w.targets[f(s)], started)
    requires Lifecycle(w.bound) && Active(w.bound)
    ensures |r.0.targets| == |w.targets|
  {
    var b := Rebound(w, f, s, started);
    var u := Updated(b.0.bound, Settle(b.1), None);
    (b.0.(bound := u.cell), Tell(u.notified, u.state))
  }

  /** A rebind of an observed bind to the source state `s` keeps it bound, to target `f(s)`. */
  lemma {:induction false} RebindBinds<S(!new), T, D>(w: World<S, T, D>, f: S -> nat, s: S, started: Option<Obn<T, D>>)
    requires Wired(w, f) && Active(w.bound) && w.src.obn.Some? && w.src.obn.value.state == s
    requires StartedFor(w.targets[f(s)], started)
    ensures var r := Rebind(w, f, s, started); Binds(r.0, f) && r.0.src == w.src && r.0.tar.value.0 == f(s)
  {
    if f(s) == w.tar.value.0 {
      ReboundSame(w, f, s, started);
    } else {
      ReboundOther(w, f, s, started);
    }
    var b := Rebound(w, f, s, started);
    var u := Updated(b.0.bound, Settle(b.1), None);
    assert u.cell.obn.value.state == b.1;
  }

  /** The bound observers hear the new target's state iff it differs from the bound state. */
  lemma RebindTold<S, T, D>(w: World<S, T, D>, f: S -> nat, s: S, started: Option<Obn<T, D>>)
    requires AllTargets(w.targets) && TarInArena(w) && f(s) < |w.targets| && StartedFor(w.targets[f(s)], started)
    requires Lifecycle(w.bound) && Active(w.bound)
    ensures var r := Rebind(w, f, s, started);
            && r.0.bound.obn.Some? && r.0.bound.observers == w.bound.observers
            && var b := r.0.bound.obn.value.state;
            && b == Rebound(w, f, s, started).1
            && r.1 == (if b != w.bound.obn.value.state then Tell(Values(w.bound.observers), b) else [])
  {
    var b := Rebound(w, f, s, started);
    var u := Updated(b.0.bound, Settle(b.1), None);
    assert u.state == b.1;
  }

  /**
   * A rebind disposes the old target after subscribing to the new one: it
   * tears the old one down when it is another one, and leaves it running
   * when it is the same.
   */
  lemma RebindLog<S, T, D>(w: World<S, T, D>, f: S -> nat, s: S, started: Option<Obn<T, D>>)
    requires AllTargets(w.targets) && Current(w.targets, w.tar) && f(s) < |w.targets| && StartedFor(w.targets[f(s)], started)
    requires Lifecycle(w.bound) && Active(w.bound)
    ensures var r := Rebind(w, f, s, started);
            var k := w.tar.value.0;
            && w.targets[k].obn.Some?
            && r.0.log == w.log + (if f(s) == k then [] else [TargetDown(k, w.targets[k].obn.value.unobserve)])
            && (f(s) == k ==> r.0.targets[k].obn == w.targets[k].obn)
  {
    if f(s) == w.tar.value.0 {
      ReboundSame(w, f, s, started);
    } else {
      ReboundOther(w, f, s, started);
    }
  }

  /**
   * `update(t)` on the source (Observable.ts:51-58). While the bind observes
   * it, its handler `src => update(() => setSrc(src))` (Monad.ts:14) rebinds
   * inside the bound cell's update, and the bound observers hear the new
   * target's state when it differs from the bound state. Returns the world
   * and what the outer observers heard.
   */
  function SourceUpdated<S(!new,==), T(==), D>(w: World<S, T, D>, f: S -> nat, t: S -> S,
                                           srcStarted: Option<Obn<S, D>>, tarStarted: Option<Obn<T, D>>)
    : (r: (World<S, T, D>, seq<Told<T>>))
    requires Wired(w, f) && StartedFor(w.src, srcStarted)
    requires Active(w.bound) ==> StartedFor(w.targets[f(Updated(w.src, t, srcStarted).state)], tarStarted)
    ensures |r.0.targets| == |w.targets|
  {
    var o := Updated(w.src, t, srcStarted);
    var w' := w.(src := o.cell, log := w.log + SourceRan(o.teardown));
    if o.notified == [] then (w', [])
    else
      assert Active(w.src);
      Rebind(w', f, o.state, tarStarted)
  }

  /**
   * The rebind of an observed bind whose source changed (Monad.ts:8-14):
   * the bind moves to `f` of the new state, and the bound observers hear
   * that target's state iff it differs from the bound state; the old target
   * is disposed after the new one is subscribed.
   */
  lemma {:induction false} SourceRebinds<S(!new), T, D>(w: World<S, T, D>, f: S -> nat, t: S -> S,
                                                        srcStarted: Option<Obn<S, D>>, tarStarted: Option<Obn<T, D>>)
    requires Binds(w, f) && StartedFor(w.src, srcStarted) && Active(w.bound)
    requires StartedFor(w.targets[f(Updated(w.src, t, srcStarted).state)], tarStarted)
    requires Updated(w.src, t, srcStarted).state != w.src.obn.value.state
    ensures var r := SourceUpdated(w, f, t, srcStarted, tarStarted);
            var k, k' := w.tar.value.0, f(Updated(w.src, t, srcStarted).state);
            && Binds(r.0, f) && r.0.src == Updated(w.src, t, srcStarted).cell
            && r.0.tar.value.0 == k'
            && var b := r.0.bound.obn.value.state;
            && r.1 == (if b != w.bound.obn.value.state then Tell(Values(w.bound.observers), b) else [])
            && r.0.log == w.log + (if k' == k then [] else [TargetDown(k, w.targets[k].obn.value.unobserve)])
            && (k' == k ==> r.0.targets[k].obn == w.targets[k].obn)
  {
    var o := Updated(w.src, t, srcStarted);
    assert Values(w.src.observers) == [()];
    assert o.teardown.None? && w.log + SourceRan(o.teardown) == w.log;
    var w' := w.(src := o.cell, log := w.log + SourceRan(o.teardown));
    assert w' == w.(src := o.cell);
    assert SourceUpdated(w, f, t, srcStarted, tarStarted) == Rebind(w', f, o.state, tarStarted);
    RebindBinds(w', f, o.state, tarStarted);
    RebindTold(w', f, o.state, tarStarted);
    RebindLog(w', f, o.state, tarStarted);
  }

  /**
   * A source update keeps the bind bound. When an observed bind's source
   * changes to `v`, the bind moves to target `f(v)` and its observers hear
   * that target's state iff it differs from the bound state
   * (__tests__/Monad.test.ts:25-28, 36-37); the old target is disposed once,
   * and only after the new one is subscribed, so a rebind to the same target
   * leaves it running and tears nothing down
   * (Monad.ts:9-11; __tests__/Monad.test.ts:29, 38). An unchanged source
   * state reaches nobody; an idle source starts and stops on its own.
   */
  lemma {:induction false} SourceUpdatedBinds<S(!new), T, D>(w: World<S, T, D>, f: S -> nat, t: S -> S,
                                                             srcStarted: Option<Obn<S, D>>, tarStarted: Option<Obn<T, D>>)
    requires Binds(w, f) && StartedFor(w.src, srcStarted)
    requires Active(w.bound) ==> StartedFor(w.targets[f(Updated(w.src, t, srcStarted).state)], tarStarted)
    ensures var r := SourceUpdated(w, f, t, srcStarted, tarStarted);
            && Binds(r.0, f)
            && r.0.src.obn.Some? && r.0.src.obn.value.state == t(Begun(w.src, srcStarted).obn.value.state)
            && if !Active(w.bound) then
                 && r.0 == w.(src := r.0.src, log := w.log + [SourceDown(r.0.src.obn.value.unobserve)])
                 && r.1 == []
               else if r.0.src.obn.value.state == w.src.obn.value.state then
                 r.0 == w.(src := r.0.src) && r.1 == []
               else
                 var k, k' := w.tar.value.0, f(r.0.src.obn.value.state);
                 var b := r.0.bound.obn.value.state;
                 && r.0.tar.value.0 == k'
                 && r.1 == (if b != w.bound.obn.value.state then Tell(Values(w.bound.observers), b) else [])
                 && r.0.log == w.log + (if k' == k then [] else [TargetDown(k, w.targets[k].obn.value.unobserve)])
                 && (k' == k ==> r.0.targets[k].obn == w.targets[k].obn)
  {
    var o := Updated(w.src, t, srcStarted);
    if Active(w.bound) && o.state != w.src.obn.value.state {
      SourceRebinds(w, f, t, srcStarted, tarStarted);
    } else if !Active(w.bound) {
      assert !Active(w.src);
    }
  }

  /**
   * `unobserve()` of a bound observation (Observable.ts:48): removes the
   * observer; when it was the last one, the bound teardown (Monad.ts:18-21)
   * disposes the current target subscription and then the source
   * subscription. Returns the world.
   */
  function BindUnobserved<S, T, D>(w: World<S, T, D>, id: nat): (r: World<S, T, D>)
    requires Lifecycle(w.src) && Lifecycle(w.bound) && AllTargets(w.targets) && TarInArena(w)
    ensures |r.targets| == |w.targets|
  {
    var u := Unobserved(w.bound, id);
    if u.1.None? then w.(bound := u.0)
    else
      var w' := UnobserveTar(w.(bound := u.0));
      var s := Unobserved(w'.src, u.1.value);
      w'.(src := s.0, log := w'.log + SourceRan(s.1))
  }

  /**
   * Unobserving keeps the bind bound. The last observer's departure tears
   * the current target down and then the source, once each, and leaves
   * everything idle (__tests__/Monad.test.ts:40-43); any other departure,
   * or a handle that is no longer attached, changes nothing but the bound
   * observers.
   */
  lemma {:induction false} BindUnobservedBinds<S(!new), T, D>(w: World<S, T, D>, f: S -> nat, id: nat)
    requires Binds(w, f)
    ensures var r := BindUnobserved(w, id);
            && Binds(r, f)
            && r.bound.observers == Detached(w.bound.observers, id).0
            && if Active(w.bound) && !Active(r.bound) then
                 var k := w.tar.value.0;
                 && w.targets[k].obn.Some? && w.src.obn.Some?
                 && r.log == w.log + [TargetDown(k, w.targets[k].obn.value.unobserve), SourceDown(w.src.obn.value.unobserve)]
               else
                 r == w.(bound := r.bound)
  {
    if Unobserved(w.bound, id).1.Some? {
      BindTornDown(w, f, id);
    }
  }

  /** The last observer's departure disposes the current target, then the source, and leaves nothing observed. */
  lemma {:induction false} BindTornDown<S(!new), T, D>(w: World<S, T, D>, f: S -> nat, id: nat)
    requires Binds(w, f) && Unobserved(w.bound, id).1.Some?
    ensures var r := BindUnobserved(w, id);
            var k := w.tar.value.0;
            && Active(w.bound) && r.bound == Unobserved(w.bound, id).0
            && w.targets[k].obn.Some? && w.src.obn.Some?
            && r.log == w.log + [TargetDown(k, w.targets[k].obn.value.unobserve), SourceDown(w.src.obn.value.unobserve)]
            && Lifecycle(r.src) && !Active(r.src) && AllTargets(r.targets) && Idle(r.targets) && TarInArena(r)
  {
    var u := Unobserved(w.bound, id);
    var k, h := w.tar.value.0, w.tar.value.1;
    DropSole(w.targets[k], h);
    DropSole(w.src, u.1.value);
    var w' := UnobserveTar(w.(bound := u.0));
    assert w'.targets == w.targets[k := Unobserved(w.targets[k], h).0];
    var r := BindUnobserved(w, id);
    forall i | 0 <= i < |w.targets|
      ensures !Active(r.targets[i])
    {
      if i != k {
        assert r.targets[i] == w.targets[i];
      }
    }
  }

  /**
   * The state `bind(f)(obSrc)` keeps (Monad.ts:3-23): the source, the
   * targets `f` hands out, the bound cell, and the closure variable
   * `unobserveTar`, which every rebind reassigns. `log` records the
   * teardowns that ran.
   */
  class Bind<S(!new,==), T(==), D> {
    const f: S -> nat
    var src: Cell<S, (), D>
    var targets: seq<Cell<T, (), D>>
    var bound: Cell<T, nat, nat>
    var unobserveTar: Option<(nat, nat)>
    var log: seq<Teardown<D>>

    ghost function Model(): World<S, T, D>
      reads this
    {
      World(src, targets, bound, unobserveTar, log)
    }

    ghost predicate Valid()
      reads this
    {
      Binds(Model(), f)
    }

    /** `bind(f)(obSrc)`: nothing is observed and nothing has started yet. */
    constructor (f: S -> nat, src: Cell<S, (), D>, targets: seq<Cell<T, (), D>>)
      requires Lifecycle(src) && !Active(src) && AllTargets(targets) && Idle(targets)
      requires forall s :: f(s) < |targets|
      ensures Valid() && this.f == f && Model() == World(src, targets, Fresh(), None, [])
    {
      this.f := f;
      this.src := src;
      this.targets := targets;
      bound := Fresh();
      unobserveTar := None;
      log := [];
    }

    /** `unobserveTar()` (Monad.ts:10, 19). */
    method UnobserveTarget()
      requires AllTargets(targets) && TarInArena(Model())
      modifies this
      ensures Model() == UnobserveTar(old(Model()))
    {
      if unobserveTar.Some? {
        var k := unobserveTar.value.0;
        var u := Unobserved(targets[k], unobserveTar.value.1);
        targets := targets[k := u.0];
        log := log + TargetRan(k, u.1);
      }
    }

    /** `setSrc(s)` (Monad.ts:8-13): subscribe to `f(s)`, dispose the old target, remember the new one. */
    method SetSrc(s: S, started: Option<Obn<T, D>>) returns (state: T)
      requires AllTargets(targets) && TarInArena(Model()) && f(s) < |targets| && StartedFor(targets[f(s)], started)
      modifies this
      ensures (Model(), state) == Rebound(old(Model()), f, s, started)
    {
      var j := f(s);
      var o := Observed(targets[j], (), started);
      targets := targets[j := o.0];
      UnobserveTarget();
      unobserveTar := Some((j, o.2));
      state := o.1;
    }

    /** The start of the bound cell (Monad.ts:6-22): `unobserveTar := noop`, observe the source, bind its state. */
    method Start(srcStarted: Option<Obn<S, D>>, tarStarted: Option<Obn<T, D>>) returns (obn: Obn<T, nat>)
      requires Lifecycle(src) && StartedFor(src, srcStarted) && AllTargets(targets)
      requires var s := Observed(src, (), srcStarted).1; f(s) < |targets| && StartedFor(targets[f(s)], tarStarted)
      modifies this
      ensures (Model(), obn) == BindStart(old(Model()), f, srcStarted, tarStarted)
    {
      unobserveTar := None;
      var o := Observed(src, (), srcStarted);
      src := o.0;
      var state := SetSrc(o.1, tarStarted);
      obn := Obn(state, o.2);
    }

    /**
     * `observe(cb)` on the bound cell: the observer sees the state of the
     * target `f` gives for the source state, and the bind stays bound.
     */
    method Observe(cb: nat, srcStarted: Option<Obn<S, D>>, tarStarted: Option<Obn<T, D>>) returns (state: T, id: nat)
      requires Valid()
      requires !Active(bound) ==> StartedFor(src, srcStarted)
      requires !Active(bound) ==> StartedFor(targets[f(Observed(src, (), srcStarted).1)], tarStarted)
      modifies this
      ensures (Model(), state, id) == BindObserved(old(Model()), f, cb, srcStarted, tarStarted)
      ensures Valid() && state == targets[f(src.obn.value.state)].obn.value.state && log == old(log)
    {
      BindObservedBinds(Model(), f, cb, srcStarted, tarStarted);
      if Active(bound) {
        var o := Observed(bound, cb, None);
        bound := o.0;
        state, id := o.1, o.2;
      } else {
        var obn := Start(srcStarted, tarStarted);
        var o := Observed(bound, cb, Some(obn));
        bound := o.0;
        state, id := o.1, o.2;
      }
    }

    /** `update(t)` on target `k`; returns what the bound observers heard. */
    method UpdateTarget(k: nat, t: T -> T, started: Option<Obn<T, D>>) returns (told: seq<Told<T>>)
      requires Valid() && k < |targets| && StartedFor(targets[k], started)
      modifies this
      ensures (Model(), told) == TargetUpdated(old(Model()), f, k, t, started) && Valid()
    {
      TargetUpdatedBinds(Model(), f, k, t, started);
      var o := Updated(targets[k], t, started);
      targets := targets[k := o.cell];
      log := log + TargetRan(k, o.teardown);
      told := [];
      if o.notified != [] {
        var b := Updated(bound, Settle(o.state), None);
        bound := b.cell;
        told := Tell(b.notified, b.state);
      }
    }

    /** `update(() => setSrc(s))` on the observed bound cell (Monad.ts:14); returns what its observers heard. */
    method RebindBound(s: S, started: Option<Obn<T, D>>) returns (told: seq<Told<T>>)
      requires AllTargets(targets) && TarInArena(Model()) && f(s) < |targets| && StartedFor(targets[f(s)], started)
      requires Lifecycle(bound) && Active(bound)
      modifies this
      ensures (Model(), told) == Rebind(old(Model()), f, s, started)
    {
      var state := SetSrc(s, started);
      var u := Updated(bound, Settle(state), None);
      bound := u.cell;
      told := Tell(u.notified, u.state);
    }

    /** `update(t)` on the source; a change rebinds inside the bound cell's update. */
    method UpdateSource(t: S -> S, srcStarted: Option<Obn<S, D>>, tarStarted: Option<Obn<T, D>>) returns (told: seq<Told<T>>)
      requires Valid() && StartedFor(src, srcStarted)
      requires Active(bound) ==> StartedFor(targets[f(Updated(src, t, srcStarted).state)], tarStarted)
      modifies this
      ensures (Model(), told) == SourceUpdated(old(Model()), f, t, srcStarted, tarStarted) && Valid()
    {
      SourceUpdatedBinds(Model(), f, t, srcStarted, tarStarted);
      var o := Updated(src, t, srcStarted);
      src := o.cell;
      log := log + SourceRan(o.teardown);
      told := [];
      if o.notified != [] {
        told := RebindBound(o.state, tarStarted);
      }
    }

    /** `unobserve()` of a bound observation; the last one runs the bound teardown (Monad.ts:18-21). */
    method Unobserve(id: nat)
      requires Valid()
      modifies this
      ensures Model() == BindUnobserved(old(Model()), id) && Valid()
    {
      BindUnobservedBinds(Model(), f, id);
      var u := Unobserved(bound, id);
      bound := u.0;
      if u.1.Some? {
        UnobserveTarget();
        var s := Unobserved(src, u.1.value);
        src := s.0;
        log := log + SourceRan(s.1);
      }
    }
  }
}
