/**
 * The lifecycle-gated cell of packages/observable/src/Observable.ts.
 *
 * A cell (`mutable`) keeps an observer list, the closure-held observation
 * `obn` (its state and the teardown its start function handed back) and,
 * for the proofs, how often start and teardown have run. `Cell` is that
 * state as a value and `Observed`, `Updated` and `Unobserved` are the three
 * operations as functions on it; `Mutable` is the same cell with a real
 * `Chain` as its observer list, proved against those functions.
 *
 * The start function is run by the caller of `withOb`: `StartCall` says
 * whether `withOb` calls it and with which argument, and the caller passes
 * what it returned. This is how `observable` (Observable.ts:62-65) lets a
 * combinator's start subscribe to other cells. Handlers are not called here
 * either: `update` hands back the handlers `forEach` calls, in order, and
 * the caller runs them.
 */
module Observable {
  import opened Wrappers
  import opened Chain

  /** `Observation` (Observable.ts:5): a state and the teardown to run when the last observer leaves. */
  datatype Obn<S, D> = Obn(state: S, unobserve: D)

  /**
   * What `mutable` keeps between calls: the observers, the observation
   * (None until the first start), and how many times start and teardown ran.
   */
  datatype Cell<S, H, D> = Cell(observers: List<H>, obn: Option<Obn<S, D>>, starts: nat, teardowns: nat)

  /** A cell with at least one observer. */
  predicate Active<S, H, D>(c: Cell<S, H, D>)
  {
    !IsEmpty(c.observers)
  }

  /**
   * The three phases: never started (no observation), active (observers),
   * inactive with a remembered state. Every start but the live one has been
   * matched by exactly one teardown.
   */
  predicate Lifecycle<S, H, D>(c: Cell<S, H, D>)
  {
    && WellFormed(c.observers)
    && (Active(c) ==> c.obn.Some?)
    && (c.obn.None? <==> c.starts == 0)
    && c.starts == c.teardowns + (if Active(c) then 1 else 0)
  }

  /** `mutable(start)` (Observable.ts:22-23): an empty list and no observation yet. */
  function Fresh<S, H, D>(): (c: Cell<S, H, D>)
    ensures Lifecycle(c) && !Active(c) && c.obn.None?
  {
    Cell(Empty(), None, 0, 0)
  }

  /** `startWith(d, u)` (Observable.ts:15-20) called with `prev` or, when None, with no argument. */
  function StartWith<S, D>(d: S, u: D, prev: Option<S>): (o: Obn<S, D>)
    ensures o.unobserve == u
    ensures prev.Some? ==> o.state == prev.value
    ensures prev.None? ==> o.state == d
  {
    Obn(if prev.Some? then prev.value else d, u)
  }

  /**
   * The start check of `withOb` (Observable.ts:28-32): None when start is not
   * called; otherwise the argument it is called with.
   */
  function StartCall<S, H, D>(c: Cell<S, H, D>): (r: Option<Option<S>>)
    requires Lifecycle(c)
    ensures r.None? <==> Active(c)
    ensures r == Some(None) <==> c.obn.None?
    ensures c.obn.Some? && r.Some? ==> r.value == Some(c.obn.value.state)
  {
    if c.obn.None? then Some(None)
    else if Active(c) then None
    else Some(Some(c.obn.value.state))
  }

  /** Whether `started` is what the caller passes for a cell in state `c`: an observation iff start was called. */
  predicate StartedFor<S, H, D>(c: Cell<S, H, D>, started: Option<Obn<S, D>>)
    requires Lifecycle(c)
  {
    started.Some? <==> StartCall(c).Some?
  }

  /** Observable.ts:28-34: the cell once start, where it was called, has returned `started`. */
  function Begun<S, H, D>(c: Cell<S, H, D>, started: Option<Obn<S, D>>): (b: Cell<S, H, D>)
    requires Lifecycle(c) && StartedFor(c, started)
    ensures b.obn.Some? && b.observers == c.observers && b.teardowns == c.teardowns
    ensures b.obn == if started.Some? then started else c.obn
    ensures b.starts == c.starts + (if started.Some? then 1 else 0)
  {
    if started.Some? then c.(obn := started, starts := c.starts + 1) else c
  }

  /**
   * `observe(observer)` (Observable.ts:45-50): the cell afterwards, the state
   * reported to the new observer, and the handle of its entry. The list is
   * not empty after the `add`, so the idle check at line 38 never tears down.
   */
  function Observed<S, H, D>(c: Cell<S, H, D>, h: H, started: Option<Obn<S, D>>): (r: (Cell<S, H, D>, S, nat))
    requires Lifecycle(c) && StartedFor(c, started)
    ensures Lifecycle(r.0) && Active(r.0)
    ensures (r.0.observers, r.2) == Appended(c.observers, h)
    ensures r.0.obn.Some? && r.1 == r.0.obn.value.state
    ensures r.0.obn == if started.Some? then started else c.obn
    ensures r.0.starts == c.starts + (if Active(c) then 0 else 1)
    ensures r.0.teardowns == c.teardowns
  {
    var b := Begun(c, started);
    var (l, id) := Appended(b.observers, h);
    (b.(observers := l), b.obn.value.state, id)
  }

  /** What `update` leaves behind: the cell, the state it returns, the handlers notified, the teardown run. */
  datatype Outcome<S, H, D> = Outcome(cell: Cell<S, H, D>, state: S, notified: seq<H>, teardown: Option<D>)

  /**
   * `update(transition)` (Observable.ts:51-58) inside `withOb`: the transition
   * applied to the (possibly just started) state; every observer notified, in
   * list order, iff the state changed; the new state written (line 36); the
   * teardown run iff nobody observes (lines 38-40).
   */
  function Updated<S(==), H, D>(c: Cell<S, H, D>, t: S -> S, started: Option<Obn<S, D>>): (r: Outcome<S, H, D>)
    requires Lifecycle(c) && StartedFor(c, started)
    ensures Lifecycle(r.cell)
    ensures r.cell.observers == c.observers
    ensures r.cell.obn.Some? && r.cell.obn.value.state == r.state
    ensures r.cell.obn.value.unobserve == Begun(c, started).obn.value.unobserve
    ensures r.state == t(Begun(c, started).obn.value.state)
    ensures r.notified == if r.state != Begun(c, started).obn.value.state then Values(c.observers) else []
    ensures r.teardown.Some? <==> !Active(c)
    ensures r.teardown.Some? ==> r.teardown.value == r.cell.obn.value.unobserve
    ensures !Active(c) ==> r.notified == [] && r.cell.starts == c.starts + 1 && r.cell.teardowns == c.teardowns + 1
    ensures Active(c) ==> r.cell.starts == c.starts && r.cell.teardowns == c.teardowns
  {
    var b := Begun(c, started);
    var s := b.obn.value.state;
    var n := t(s);
    var w := b.(obn := Some(b.obn.value.(state := n)));
    var idle := !Active(w);
    Outcome(w.(teardowns := if idle then w.teardowns + 1 else w.teardowns), n,
            if n != s then Values(b.observers) else [],
            if idle then Some(w.obn.value.unobserve) else None)
  }

  /**
   * The disposer `observe` hands out (Observable.ts:48): detach the entry and,
   * if that removed it and left nobody, run the teardown. The source calls
   * the teardown captured when the observer was added; the entry was attached
   * ever since, so no start has replaced the observation in between.
   */
  function Unobserved<S, H, D>(c: Cell<S, H, D>, id: nat): (r: (Cell<S, H, D>, Option<D>))
    requires Lifecycle(c)
    ensures Lifecycle(r.0)
    ensures r.0.observers == Detached(c.observers, id).0
    ensures r.0.obn == c.obn && r.0.starts == c.starts
    ensures r.1.Some? <==> Attached(c.observers, id) && !Active(r.0)
    ensures r.1.Some? ==> r.1.value == c.obn.value.unobserve && r.0.teardowns == c.teardowns + 1
    ensures r.1.None? ==> r.0.teardowns == c.teardowns
    ensures !Attached(c.observers, id) ==> r == (c, None)
  {
    var (l, removed) := Detached(c.observers, id);
    if removed && IsEmpty(l) then (c.(observers := l, teardowns := c.teardowns + 1), Some(c.obn.value.unobserve))
    else (c.(observers := l), None)
  }

  /** Observable.test.ts:131-133: a second call of the same disposer does nothing. */
  lemma {:induction false} UnobserveTwice<S, H, D>(c: Cell<S, H, D>, id: nat)
    requires Lifecycle(c)
    ensures Unobserved(Unobserved(c, id).0, id) == (Unobserved(c, id).0, None)
  {
    DetachIdempotent(c.observers, id);
  }

  /**
   * Observable.ts:30-31 with `startWith`: once the last observer has left, the
   * next start resumes from the last stored state, so a new observer sees it
   * (Observable.test.ts:28-33).
   */
  lemma {:induction false} ResumeAfterLastObserver<S, H, D>(c: Cell<S, H, D>, id: nat, d: S, u: D, h: H)
    requires Lifecycle(c) && Attached(c.observers, id) && c.observers.entries == [c.observers.entries[0]]
    ensures var c1 := Unobserved(c, id).0;
            && StartCall(c1) == Some(Some(c.obn.value.state))
            && Observed(c1, h, Some(StartWith(d, u, StartCall(c1).value))).1 == c.obn.value.state
  {
    var c1 := Unobserved(c, id).0;
    assert c.observers.entries[0].id == id;
    assert c1.observers.entries == [];
  }

  /** The operations of a cell built on `startWith(d, u)`, as a caller issues them. */
  datatype Op<!S, H> = Observe(h: H) | Update(t: S -> S) | Unobserve(id: nat)

  /** Starts the leaf `mutable(startWith(d, u))` when `withOb` asks for it. */
  function LeafStart<S, H, D>(c: Cell<S, H, D>, d: S, u: D): (started: Option<Obn<S, D>>)
    requires Lifecycle(c)
    ensures StartedFor(c, started)
  {
    if StartCall(c).Some? then Some(StartWith(d, u, StartCall(c).value)) else None
  }

  /** One operation on the leaf `mutable(startWith(d, u))`. */
  function Step<S(==), H, D>(c: Cell<S, H, D>, d: S, u: D, op: Op<S, H>): (r: Cell<S, H, D>)
    requires Lifecycle(c)
    ensures Lifecycle(r)
  {
    match op
    case Observe(h) => Observed(c, h, LeafStart(c, d, u)).0
    case Update(t) => Updated(c, t, LeafStart(c, d, u)).cell
    case Unobserve(id) => Unobserved(c, id).0
  }

  /**
   * The leaf after a whole run of operations. Whatever the run, start and
   * teardown stay balanced: once every observer has left, teardown has run
   * exactly as often as start (Observable.test.ts:47-90).
   */
  function Run<S(==), H, D>(c: Cell<S, H, D>, d: S, u: D, ops: seq<Op<S, H>>): (r: Cell<S, H, D>)
    requires Lifecycle(c)
    ensures Lifecycle(r)
    ensures !Active(r) ==> r.starts == r.teardowns
    ensures r.starts >= c.starts && r.teardowns >= c.teardowns
    decreases |ops|
  {
    if ops == [] then c else Run(Step(c, d, u, ops[0]), d, u, ops[1..])
  }

  /** `mutable(start)` with a real `Chain` as its observer list (Observable.ts:22-60). */
  class Mutable<S(==), H, D> {
    const observers: Chain<H>
    var obn: Option<Obn<S, D>>
    ghost var starts: nat
    ghost var teardowns: nat

    ghost function Model(): Cell<S, H, D>
      reads this, observers
      requires observers.Valid()
    {
      Cell(observers.Model(), obn, starts, teardowns)
    }

    ghost predicate Valid()
      reads this, observers
    {
      observers.Valid() && Lifecycle(Model())
    }

    /** `mutable(start)`: nothing is started yet (lazy start, Observable.test.ts:52-53). */
    constructor ()
      ensures Valid() && Model() == Fresh() && fresh(observers)
    {
      observers := new Chain();
      obn := None;
      starts, teardowns := 0, 0;
    }

    /** The start check of `withOb` (Observable.ts:28-32). */
    method NeedsStart() returns (arg: Option<Option<S>>)
      requires Valid()
      ensures arg == StartCall(Model())
    {
      if obn.None? {
        arg := Some(None);
      } else {
        var empty := observers.IsEmpty();
        arg := if empty then Some(Some(obn.value.state)) else None;
      }
    }

    /** `observe(observer)` (Observable.ts:45-50), `started` being what start returned if it was called. */
    method Observe(h: H, started: Option<Obn<S, D>>) returns (state: S, id: nat)
      requires Valid() && StartedFor(Model(), started)
      modifies this, observers
      ensures Valid() && (Model(), state, id) == Observed(old(Model()), h, started)
    {
      if started.Some? {
        obn := started;
        starts := starts + 1;
      }
      id := observers.Add(h);
      state := obn.value.state;
    }

    /**
     * `update(transition)` (Observable.ts:51-58): returns the new state, the
     * handlers `forEach` calls with it, and the teardown run, if any.
     */
    method Update(t: S -> S, started: Option<Obn<S, D>>) returns (newState: S, notified: seq<H>, teardown: Option<D>)
      requires Valid() && StartedFor(Model(), started)
      modifies this
      ensures Valid() && Outcome(Model(), newState, notified, teardown) == Updated(old(Model()), t, started)
    {
      if started.Some? {
        obn := started;
        starts := starts + 1;
      }
      var state := obn.value.state;
      newState := t(state);
      notified := [];
      if newState != state {
        notified := observers.ForEach();
      }
      obn := Some(obn.value.(state := newState));
      var empty := observers.IsEmpty();
      teardown := None;
      if empty {
        teardowns := teardowns + 1;
        teardown := Some(obn.value.unobserve);
      }
    }

    /** The disposer of entry `id` (Observable.ts:48); `id` was handed out by `Observe`. */
    method Unobserve(id: nat) returns (teardown: Option<D>)
      requires Valid() && 0 < id < observers.Model().nextId
      modifies this, observers
      ensures Valid() && (Model(), teardown) == Unobserved(old(Model()), id)
    {
      var removed := observers.Dispose(id);
      teardown := None;
      if removed {
        var empty := observers.IsEmpty();
        if empty {
          teardowns := teardowns + 1;
          teardown := Some(obn.value.unobserve);
        }
      }
    }
  }

  /**
   * `observe` on the leaf `mutable(startWith(d, u))`: `withOb` runs
   * `startWith` when the start check asks for it. `started` reports that call.
   */
  method LeafObserve<S(==), H, D>(m: Mutable<S, H, D>, d: S, u: D, h: H) returns (state: S, id: nat, started: bool)
    requires m.Valid()
    modifies m, m.observers
    ensures m.Valid() && (m.Model(), state, id) == Observed(old(m.Model()), h, LeafStart(old(m.Model()), d, u))
    ensures started <==> !Active(old(m.Model()))
  {
    var arg := m.NeedsStart();
    var obn := if arg.Some? then Some(StartWith(d, u, arg.value)) else None;
    state, id := m.Observe(h, obn);
    started := arg.Some?;
  }

  /** `update` on the leaf `mutable(startWith(d, u))`; `tornDown` reports a call of `u`. */
  method LeafUpdate<S(==), H, D>(m: Mutable<S, H, D>, d: S, u: D, t: S -> S)
    returns (newState: S, notified: seq<H>, started: bool, tornDown: bool)
    requires m.Valid()
    modifies m
    ensures m.Valid()
    ensures var r := Updated(old(m.Model()), t, LeafStart(old(m.Model()), d, u));
            && m.Model() == r.cell && newState == r.state && notified == r.notified && tornDown == r.teardown.Some?
    ensures started <==> !Active(old(m.Model()))
  {
    var arg := m.NeedsStart();
    var obn := if arg.Some? then Some(StartWith(d, u, arg.value)) else None;
    var teardown;
    newState, notified, teardown := m.Update(t, obn);
    started, tornDown := arg.Some?, teardown.Some?;
  }
}
