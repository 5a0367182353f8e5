/**
 * The scenarios of packages/observable/src/__tests__/Functor.test.ts, run on
 * derived cells over one `mutable(startWith(d, u))`: the source is a cell
 * whose start is `LeafStart(src, d, ())`, and fmap's derived cells are
 * numbered from 0. Callbacks are numbered too. Each scenario is a lemma whose
 * postconditions are the test's calls in order, each taking the state the
 * previous one left: what the call returns, what the callbacks are told, and
 * whether the source's `u` runs (the last component of a disposal).
 */
module FunctorScenarios {
  import opened Wrappers
  import opened Chain
  import opened Observable
  import opened Functor
  import opened ObservableScenarios

  /** The decimal digits of `n`, as a template literal prints a number. */
  function Decimal(n: nat): string
  {
    if n < 10 then [('0' as int + n) as char]
    else Decimal(n / 10) + [('0' as int + n % 10) as char]
  }

  /** The mapping of the fmap test (__tests__/Functor.test.ts:10). */
  function Message(c: int): string
  {
    "Current count is " + (if c < 0 then "-" + Decimal(-c) else Decimal(c))
  }

  /** A started source with the given entries, holding `state`. */
  function Source<A>(entries: seq<Entry<nat>>, nextId: nat, state: A, starts: nat, teardowns: nat): Cell<A, nat, ()>
  {
    Cell(List(entries, nextId), Some(Obn(state, ())), starts, teardowns)
  }

  /** A started derived cell whose teardown disposes source entry `e`. */
  function Derived<B>(entries: seq<Entry<nat>>, nextId: nat, state: B, e: nat, starts: nat, teardowns: nat): Cell<B, nat, nat>
  {
    Cell(List(entries, nextId), Some(Obn(state, e)), starts, teardowns)
  }

  lemma Single<X>(s: seq<X>, x: X)
    requires |s| == 1 && s[0] == x
    ensures s == [x]
  {
  }

  lemma Pair<X>(s: seq<X>, x: X, y: X)
    requires |s| == 2 && s[0] == x && s[1] == y
    ensures s == [x, y]
  {
  }

  /** Disposing the only observer empties the list and runs the teardown. */
  lemma DropOnly<S, H, D>(c: Cell<S, H, D>, id: nat)
    requires Lifecycle(c) && |c.observers.entries| == 1 && c.observers.entries[0].id == id
    ensures Unobserved(c, id) == (c.(observers := List([], c.observers.nextId), teardowns := c.teardowns + 1), Some(c.obn.value.unobserve))
  {
    assert IndexOf(c.observers.entries, id) == Some(0);
    assert c.observers.entries[..0] + c.observers.entries[1..] == [];
  }

  /** Disposing the first of two observers leaves the second, and the cell running. */
  lemma DropFirstOfTwo<S, H, D>(c: Cell<S, H, D>, id: nat)
    requires Lifecycle(c) && |c.observers.entries| == 2 && c.observers.entries[0].id == id
    ensures Unobserved(c, id) == (c.(observers := List([c.observers.entries[1]], c.observers.nextId)), None)
  {
    assert IndexOf(c.observers.entries, id) == Some(0);
    assert c.observers.entries[..0] + c.observers.entries[1..] == [c.observers.entries[1]];
  }

  /** The cascade over two derived cells, subscribed in order: what cell 0's observers hear, then cell 1's. */
  lemma HeardPair<A, B>(derived: seq<Cell<B, nat, nat>>, fs: seq<A -> B>, v: A)
    requires |derived| == |fs| == 2 && derived[0].obn.Some? && derived[1].obn.Some?
    ensures Heard(derived, fs, [0, 1], v) ==
            (if fs[0](v) != derived[0].obn.value.state then Tell(Values(derived[0].observers), fs[0](v)) else []) +
            (if fs[1](v) != derived[1].obn.value.state then Tell(Values(derived[1].observers), fs[1](v)) else [])
  {
    assert [0, 1][1..] == [1] && [1][1..] == [];
    assert Heard(derived, fs, [1], v) ==
           (if fs[1](v) != derived[1].obn.value.state then Tell(Values(derived[1].observers), fs[1](v)) else []) + [];
  }

  /** A disposal that tears derived cell `i` down, and then disposes its source entry. */
  lemma MapUnobservedVia<A, B, D>(src: Cell<A, nat, D>, derived: seq<Cell<B, nat, nat>>, fs: seq<A -> B>, i: nat, id: nat,
                                  c': Cell<B, nat, nat>, e: nat, src': Cell<A, nat, D>, std: Option<D>)
    requires Lifecycle(src) && i < |derived| && Lifecycle(derived[i])
    requires Unobserved(derived[i], id) == (c', Some(e)) && Unobserved(src, e) == (src', std)
    ensures MapUnobserved(src, derived, fs, i, id) == (src', derived[i := c'], std)
  {
  }

  // __tests__/Functor.test.ts:7-31: `message = fmap(Message)(counter)`, derived cell 0 over `startWith(0, u)`.

  /** The texts the test expects (__tests__/Functor.test.ts:15, 19, 24). */
  lemma MessageText()
    ensures Message(0) == "Current count is 0" && Message(1) == "Current count is 1"
  {
  }

  /** The counter once `message` is observed, and after `inc`; then after the last disposal. */
  function Counter1(): (c: Cell<int, nat, ()>)
    ensures Lifecycle(c)
  {
    Source([Entry(1, 0)], 2, 0, 1, 0)
  }
  function Counter2(): (c: Cell<int, nat, ()>)
    ensures Lifecycle(c)
  {
    Source([Entry(1, 0)], 2, 1, 1, 0)
  }
  function Counter3(): (c: Cell<int, nat, ()>)
    ensures Lifecycle(c)
  {
    Source([], 2, 1, 1, 1)
  }

  /** `message` with `ob1`; with `ob1` and `ob2`; after `inc`; after `ob1` leaves; after `ob2` leaves. */
  function Messages1(): (cs: seq<Cell<string, nat, nat>>)
    ensures |cs| == 1 && Lifecycle(cs[0])
  {
    [Derived([Entry(1, 1)], 2, Message(0), 1, 1, 0)]
  }
  function Messages2(): (cs: seq<Cell<string, nat, nat>>)
    ensures |cs| == 1 && Lifecycle(cs[0])
  {
    [Derived([Entry(1, 1), Entry(2, 1)], 3, Message(0), 1, 1, 0)]
  }
  function Messages3(): (cs: seq<Cell<string, nat, nat>>)
    ensures |cs| == 1 && Lifecycle(cs[0])
  {
    [Derived([Entry(1, 1), Entry(2, 1)], 3, Message(1), 1, 1, 0)]
  }
  function Messages4(): (cs: seq<Cell<string, nat, nat>>)
    ensures |cs| == 1 && Lifecycle(cs[0])
  {
    [Derived([Entry(2, 1)], 3, Message(1), 1, 1, 0)]
  }
  function Messages5(): (cs: seq<Cell<string, nat, nat>>)
    ensures |cs| == 1 && Lifecycle(cs[0])
  {
    [Derived([], 3, Message(1), 1, 1, 1)]
  }

  lemma MessageObserve1Cells()
    ensures MapObserved(Fresh(), [Fresh()], [Message], 0, 1, LeafStart(Fresh<int, nat, ()>(), 0, ())).1 == Messages1()
  {
    assert [] + [Entry(1, 1)] == [Entry(1, 1)];
    var r := MapObserved(Fresh(), [Fresh()], [Message], 0, 1, LeafStart(Fresh<int, nat, ()>(), 0, ()));
    Single(r.1, Messages1()[0]);
  }

  lemma MessageObserve1()
    ensures MapObserved(Fresh(), [Fresh()], [Message], 0, 1, LeafStart(Fresh<int, nat, ()>(), 0, ())) == (Counter1(), Messages1(), Message(0), 1)
  {
    assert [] + [Entry(1, 0)] == [Entry(1, 0)];
    MessageObserve1Cells();
  }

  lemma MessageObserve2()
    ensures MapObserved(Counter1(), Messages1(), [Message], 0, 1, LeafStart(Counter1(), 0, ())) == (Counter1(), Messages2(), Message(0), 2)
  {
    assert [Entry(1, 1)] + [Entry(2, 1)] == [Entry(1, 1), Entry(2, 1)];
    var r := MapObserved(Counter1(), Messages1(), [Message], 0, 1, LeafStart(Counter1(), 0, ()));
    Single(r.1, Messages2()[0]);
  }

  lemma MessageIncCells()
    ensures Plumbed(Counter1(), Messages2(), [Message])
    ensures Propagated(Counter1(), Messages2(), [Message], Inc(), LeafStart(Counter1(), 0, ())).1 == Messages3()
  {
    assert Values(List([Entry(1, 0)], 2)) == [0];
    var r := Propagated(Counter1(), Messages2(), [Message], Inc(), LeafStart(Counter1(), 0, ()));
    Single(r.1, Messages3()[0]);
  }

  lemma MessageIncTold()
    ensures Plumbed(Counter1(), Messages2(), [Message])
    ensures Propagated(Counter1(), Messages2(), [Message], Inc(), LeafStart(Counter1(), 0, ())).2 == [(1, Message(1)), (1, Message(1))]
  {
    MessageText();
    assert Values(List([Entry(1, 0)], 2)) == [0];
    assert Values(List([Entry(1, 1), Entry(2, 1)], 3)) == [1, 1];
  }

  lemma MessageInc()
    ensures Plumbed(Counter1(), Messages2(), [Message])
    ensures Propagated(Counter1(), Messages2(), [Message], Inc(), LeafStart(Counter1(), 0, ()))
            == (Counter2(), Messages3(), [(1, Message(1)), (1, Message(1))], None)
  {
    MessageIncCells();
    MessageIncTold();
  }

  lemma MessageLeave1()
    ensures MapUnobserved(Counter2(), Messages3(), [Message], 0, 1) == (Counter2(), Messages4(), None)
  {
    assert [Entry(1, 1), Entry(2, 1)][..|[Entry(1, 1), Entry(2, 1)]| - 1] == [Entry(1, 1)];
    assert IndexOf([Entry(1, 1), Entry(2, 1)], 1) == Some(0);
    assert [Entry(1, 1), Entry(2, 1)][..0] + [Entry(1, 1), Entry(2, 1)][1..] == [Entry(2, 1)];
    var r := MapUnobserved(Counter2(), Messages3(), [Message], 0, 1);
    Single(r.1, Messages4()[0]);
  }

  lemma MessageLeaveAgain()
    ensures MapUnobserved(Counter2(), Messages4(), [Message], 0, 1) == (Counter2(), Messages4(), None)
  {
    assert IndexOf([Entry(2, 1)], 1) == None;
    var r := MapUnobserved(Counter2(), Messages4(), [Message], 0, 1);
    Single(r.1, Messages4()[0]);
  }

  lemma MessageLeave2()
    ensures MapUnobserved(Counter2(), Messages4(), [Message], 0, 2) == (Counter3(), Messages5(), Some(()))
  {
    assert IndexOf([Entry(2, 1)], 2) == Some(0);
    assert IndexOf([Entry(1, 0)], 1) == Some(0);
    var r := MapUnobserved(Counter2(), Messages4(), [Message], 0, 2);
    Single(r.1, Messages5()[0]);
  }

  /**
   * __tests__/Functor.test.ts:7-31, call by call: both observers of the
   * derived cell see the mapped 0; `inc` on the counter tells the callback,
   * registered twice, the mapped 1 twice; disposing the first observer twice
   * and then the second tears the counter down once, at the last disposal
   * (the `Some(())`).
   */
  lemma MessageTest()
    ensures MapObserved(Fresh(), [Fresh()], [Message], 0, 1, LeafStart(Fresh<int, nat, ()>(), 0, ())) == (Counter1(), Messages1(), Message(0), 1)
    ensures MapObserved(Counter1(), Messages1(), [Message], 0, 1, LeafStart(Counter1(), 0, ())) == (Counter1(), Messages2(), Message(0), 2)
    ensures Plumbed(Counter1(), Messages2(), [Message])
    ensures Propagated(Counter1(), Messages2(), [Message], Inc(), LeafStart(Counter1(), 0, ()))
            == (Counter2(), Messages3(), [(1, Message(1)), (1, Message(1))], None)
    ensures MapUnobserved(Counter2(), Messages3(), [Message], 0, 1) == (Counter2(), Messages4(), None)
    ensures MapUnobserved(Counter2(), Messages4(), [Message], 0, 1) == (Counter2(), Messages4(), None)
    ensures MapUnobserved(Counter2(), Messages4(), [Message], 0, 2) == (Counter3(), Messages5(), Some(()))
  {
    MessageObserve1();
    MessageObserve2();
    MessageInc();
    MessageLeave1();
    MessageLeaveAgain();
    MessageLeave2();
  }

  // __tests__/Functor.test.ts:34-63: `x = property("x")(obj)` is derived cell 0 and
  // `y = propertyOf(obj)("y")`, the same cell as `property("y")(obj)`, is derived
  // cell 1, over `obj = mutable(startWith({x: 1, y: 5}, u))`; `cbX` is callback 1
  // and `cbY` callback 2.

  /** The object `{x, y}`. */
  function Point(x: int, y: int): map<string, int>
  {
    map["x" := x, "y" := y]
  }

  /** Field `k` of `o` as the test's destructuring reads it; every object here has both fields. */
  function Field(o: map<string, int>, k: string): int
  {
    if k in o then o[k] else 0
  }

  /** `({x, y}) => ({x, y: y - 1})` (__tests__/Functor.test.ts:49). */
  function LowerY(): map<string, int> -> map<string, int>
  {
    o => Point(Field(o, "x"), Field(o, "y") - 1)
  }

  /** `({x, y}) => ({x: x + 1, y})` (__tests__/Functor.test.ts:54). */
  function RaiseX(): map<string, int> -> map<string, int>
  {
    o => Point(Field(o, "x") + 1, Field(o, "y"))
  }

  function Fields(): seq<map<string, int> -> Option<int>>
  {
    [Property("x"), Property("y")]
  }

  /** `obj` once `x` is observed; once `y` is too; after each update; after each disposal. */
  function Obj1(): (c: Cell<map<string, int>, nat, ()>)
    ensures Lifecycle(c)
  {
    Source([Entry(1, 0)], 2, Point(1, 5), 1, 0)
  }
  function Obj2(): (c: Cell<map<string, int>, nat, ()>)
    ensures Lifecycle(c)
  {
    Source([Entry(1, 0), Entry(2, 1)], 3, Point(1, 5), 1, 0)
  }
  function Obj3(): (c: Cell<map<string, int>, nat, ()>)
    ensures Lifecycle(c)
  {
    Source([Entry(1, 0), Entry(2, 1)], 3, Point(1, 4), 1, 0)
  }
  function Obj4(): (c: Cell<map<string, int>, nat, ()>)
    ensures Lifecycle(c)
  {
    Source([Entry(1, 0), Entry(2, 1)], 3, Point(2, 4), 1, 0)
  }
  function Obj5(): (c: Cell<map<string, int>, nat, ()>)
    ensures Lifecycle(c)
  {
    Source([Entry(2, 1)], 3, Point(2, 4), 1, 0)
  }
  function Obj6(): (c: Cell<map<string, int>, nat, ()>)
    ensures Lifecycle(c)
  {
    Source([], 3, Point(2, 4), 1, 1)
  }

  /** `x` observed by `cbX`, holding `v`; the same after `obX` leaves. */
  function XCell(v: int): (c: Cell<Option<int>, nat, nat>)
    ensures Lifecycle(c)
  {
    Derived([Entry(1, 1)], 2, Some(v), 1, 1, 0)
  }
  function XLeft(): (c: Cell<Option<int>, nat, nat>)
    ensures Lifecycle(c)
  {
    Derived([], 2, Some(2), 1, 1, 1)
  }

  /** `y` observed by `cbY`, holding `v`; the same after `obY` leaves. */
  function YCell(v: int): (c: Cell<Option<int>, nat, nat>)
    ensures Lifecycle(c)
  {
    Derived([Entry(1, 2)], 2, Some(v), 2, 1, 0)
  }
  function YLeft(): (c: Cell<Option<int>, nat, nat>)
    ensures Lifecycle(c)
  {
    Derived([], 2, Some(4), 2, 1, 1)
  }

  /** `x.observe(cbX)` (__tests__/Functor.test.ts:42): the first observer, so `obj` starts. */
  function ObserveX(): (Cell<map<string, int>, nat, ()>, seq<Cell<Option<int>, nat, nat>>, Option<int>, nat)
  {
    MapObserved(Fresh(), [Fresh(), Fresh()], Fields(), 0, 1, LeafStart(Fresh<map<string, int>, nat, ()>(), Point(1, 5), ()))
  }

  lemma PropertyObserveXCell()
    ensures ObserveX().1[0] == XCell(1)
  {
    assert [] + [Entry(1, 1)] == [Entry(1, 1)];
    assert Fields()[0](Point(1, 5)) == Some(1);
  }

  lemma PropertyObserveXCells()
    ensures ObserveX().1 == [XCell(1), Fresh()]
  {
    PropertyObserveXCell();
    Pair(ObserveX().1, XCell(1), Fresh());
  }

  lemma PropertyObserveXSource()
    ensures ObserveX().0 == Obj1() && ObserveX().2 == Some(1) && ObserveX().3 == 1
  {
    assert [] + [Entry(1, 0)] == [Entry(1, 0)];
    assert Fields()[0](Point(1, 5)) == Some(1);
  }

  lemma PropertyObserveX()
    ensures ObserveX() == (Obj1(), [XCell(1), Fresh()], Some(1), 1)
  {
    PropertyObserveXCells();
    PropertyObserveXSource();
  }

  /** `y.observe(cbY)` (__tests__/Functor.test.ts:45): `obj` is already started. */
  function ObserveY(): (Cell<map<string, int>, nat, ()>, seq<Cell<Option<int>, nat, nat>>, Option<int>, nat)
  {
    MapObserved(Obj1(), [XCell(1), Fresh()], Fields(), 1, 2, LeafStart(Obj1(), Point(1, 5), ()))
  }

  lemma PropertyObserveYSubscribes()
    ensures Observed(Obj1(), 1, None) == (Obj2(), Point(1, 5), 2)
  {
    assert [Entry(1, 0)] + [Entry(2, 1)] == [Entry(1, 0), Entry(2, 1)];
  }

  lemma PropertyObserveYStarts()
    ensures Observed(Fresh<Option<int>, nat, nat>(), 2, Some(Obn(Some(5), 2))) == (YCell(5), Some(5), 1)
  {
    assert [] + [Entry(1, 2)] == [Entry(1, 2)];
  }

  lemma PropertyObserveYCell()
    ensures ObserveY().1[1] == YCell(5)
  {
    var ds: seq<Cell<Option<int>, nat, nat>> := [XCell(1), Fresh()];
    assert ds[1] == Fresh();
    PropertyObserveYSubscribes();
    PropertyObserveYStarts();
  }

  lemma PropertyObserveYCells()
    ensures ObserveY().1 == [XCell(1), YCell(5)]
  {
    var ds: seq<Cell<Option<int>, nat, nat>> := [XCell(1), Fresh()];
    assert ds[0] == XCell(1);
    PropertyObserveYCell();
    Pair(ObserveY().1, XCell(1), YCell(5));
  }

  lemma PropertyObserveYSource()
    ensures ObserveY().0 == Obj2() && ObserveY().2 == Some(5) && ObserveY().3 == 1
  {
    var ds: seq<Cell<Option<int>, nat, nat>> := [XCell(1), Fresh()];
    assert ds[1] == Fresh();
    PropertyObserveYSubscribes();
    PropertyObserveYStarts();
    assert Fields()[1](Point(1, 5)) == Some(5);
  }

  lemma PropertyObserveY()
    ensures ObserveY() == (Obj2(), [XCell(1), YCell(5)], Some(5), 1)
  {
    PropertyObserveYCells();
    PropertyObserveYSource();
  }

  /** The objects the two updates produce, and what `x` and `y` read from them. */
  lemma PropertyPoints()
    ensures LowerY()(Point(1, 5)) == Point(1, 4) && Point(1, 4) != Point(1, 5)
    ensures RaiseX()(Point(1, 4)) == Point(2, 4) && Point(2, 4) != Point(1, 4)
    ensures Fields()[0](Point(1, 4)) == Some(1) && Fields()[1](Point(1, 4)) == Some(4)
    ensures Fields()[0](Point(2, 4)) == Some(2) && Fields()[1](Point(2, 4)) == Some(4)
  {
    assert Point(1, 4)["y"] == 4 && Point(2, 4)["x"] == 2;
  }

  /** `obj.update(({x, y}) => ({x, y: y - 1}))` (__tests__/Functor.test.ts:49). */
  function LowerYUpdate(): (Cell<map<string, int>, nat, ()>, seq<Cell<Option<int>, nat, nat>>, seq<Told<Option<int>>>, Option<()>)
  {
    Propagated(Obj2(), [XCell(1), YCell(5)], Fields(), LowerY(), LeafStart(Obj2(), Point(1, 5), ()))
  }

  lemma PropertyLowerYSource()
    ensures LowerYUpdate().0 == Obj3() && LowerYUpdate().3 == None
  {
    PropertyPoints();
  }

  lemma PropertyLowerYCells()
    ensures LowerYUpdate().1 == [XCell(1), YCell(4)]
  {
    PropertyPoints();
    var ds: seq<Cell<Option<int>, nat, nat>> := [XCell(1), YCell(5)];
    assert ds[0] == XCell(1) && ds[1] == YCell(5);
    assert Values(List([Entry(1, 0), Entry(2, 1)], 3)) == [0, 1];
    Pair(LowerYUpdate().1, XCell(1), YCell(4));
  }

  lemma PropertyLowerYTold()
    ensures LowerYUpdate().2 == [(2, Some(4))]
  {
    PropertyPoints();
    var ds: seq<Cell<Option<int>, nat, nat>> := [XCell(1), YCell(5)];
    assert ds[0] == XCell(1) && ds[1] == YCell(5);
    assert Values(List([Entry(1, 0), Entry(2, 1)], 3)) == [0, 1];
    assert Values(List([Entry(1, 2)], 2)) == [2];
    HeardPair(ds, Fields(), Point(1, 4));
  }

  /** `obj.update(({x, y}) => ({x: x + 1, y}))` (__tests__/Functor.test.ts:54). */
  function RaiseXUpdate(): (Cell<map<string, int>, nat, ()>, seq<Cell<Option<int>, nat, nat>>, seq<Told<Option<int>>>, Option<()>)
  {
    Propagated(Obj3(), [XCell(1), YCell(4)], Fields(), RaiseX(), LeafStart(Obj3(), Point(1, 5), ()))
  }

  lemma PropertyRaiseXSource()
    ensures RaiseXUpdate().0 == Obj4() && RaiseXUpdate().3 == None
  {
    PropertyPoints();
  }

  lemma PropertyRaiseXCells()
    ensures RaiseXUpdate().1 == [XCell(2), YCell(4)]
  {
    PropertyPoints();
    var ds: seq<Cell<Option<int>, nat, nat>> := [XCell(1), YCell(4)];
    assert ds[0] == XCell(1) && ds[1] == YCell(4);
    assert Values(List([Entry(1, 0), Entry(2, 1)], 3)) == [0, 1];
    Pair(RaiseXUpdate().1, XCell(2), YCell(4));
  }

  lemma PropertyRaiseXTold()
    ensures RaiseXUpdate().2 == [(1, Some(2))]
  {
    PropertyPoints();
    var ds: seq<Cell<Option<int>, nat, nat>> := [XCell(1), YCell(4)];
    assert ds[0] == XCell(1) && ds[1] == YCell(4);
    assert Values(List([Entry(1, 0), Entry(2, 1)], 3)) == [0, 1];
    assert Values(List([Entry(1, 1)], 2)) == [1];
    HeardPair(ds, Fields(), Point(2, 4));
  }

  /** `obX.unobserve()` (__tests__/Functor.test.ts:60): `y` still observes `obj`. */
  function LeaveX(): (Cell<map<string, int>, nat, ()>, seq<Cell<Option<int>, nat, nat>>, Option<()>)
  {
    MapUnobserved(Obj4(), [XCell(2), YCell(4)], Fields(), 0, 1)
  }

  lemma PropertyLeaveXCells()
    ensures LeaveX().1 == [XLeft(), YCell(4)]
  {
    var ds: seq<Cell<Option<int>, nat, nat>> := [XCell(2), YCell(4)];
    assert ds[0] == XCell(2) && ds[1] == YCell(4);
    DropOnly(XCell(2), 1);
    Pair(LeaveX().1, XLeft(), YCell(4));
  }

  lemma PropertyLeaveXSource()
    ensures LeaveX().0 == Obj5() && LeaveX().2 == None
  {
    var ds: seq<Cell<Option<int>, nat, nat>> := [XCell(2), YCell(4)];
    assert ds[0] == XCell(2);
    DropOnly(XCell(2), 1);
    DropFirstOfTwo(Obj4(), 1);
    MapUnobservedVia(Obj4(), ds, Fields(), 0, 1, XLeft(), 1, Obj5(), None);
  }

  /** `obY.unobserve()` (__tests__/Functor.test.ts:61): the last observer, so `obj` tears down. */
  function LeaveY(): (Cell<map<string, int>, nat, ()>, seq<Cell<Option<int>, nat, nat>>, Option<()>)
  {
    MapUnobserved(Obj5(), [XLeft(), YCell(4)], Fields(), 1, 1)
  }

  lemma PropertyLeaveYCells()
    ensures LeaveY().1 == [XLeft(), YLeft()]
  {
    var ds: seq<Cell<Option<int>, nat, nat>> := [XLeft(), YCell(4)];
    assert ds[0] == XLeft() && ds[1] == YCell(4);
    DropOnly(YCell(4), 1);
    Pair(LeaveY().1, XLeft(), YLeft());
  }

  lemma PropertyLeaveYSource()
    ensures LeaveY().0 == Obj6() && LeaveY().2 == Some(())
  {
    var ds: seq<Cell<Option<int>, nat, nat>> := [XLeft(), YCell(4)];
    assert ds[1] == YCell(4);
    DropOnly(YCell(4), 1);
    DropOnly(Obj5(), 2);
    MapUnobservedVia(Obj5(), ds, Fields(), 1, 1, YLeft(), 2, Obj6(), Some(()));
  }

  /**
   * __tests__/Functor.test.ts:34-63, call by call: `obX.state` is 1 and
   * `obY.state` 5; lowering `y` tells `cbY` 4 and `cbX` nothing; raising `x`
   * tells `cbX` 2 and `cbY` nothing more; disposing `obX` leaves `obj`
   * running for `y`, and disposing `obY` then runs its `u`, once.
   */
  lemma PropertyTest()
    ensures ObserveX() == (Obj1(), [XCell(1), Fresh()], Some(1), 1)
    ensures ObserveY() == (Obj2(), [XCell(1), YCell(5)], Some(5), 1)
    ensures LowerYUpdate() == (Obj3(), [XCell(1), YCell(4)], [(2, Some(4))], None)
    ensures RaiseXUpdate() == (Obj4(), [XCell(2), YCell(4)], [(1, Some(2))], None)
    ensures LeaveX() == (Obj5(), [XLeft(), YCell(4)], None)
    ensures LeaveY() == (Obj6(), [XLeft(), YLeft()], Some(()))
  {
    PropertyObserveX();
    PropertyObserveY();
    PropertyLowerY();
    PropertyRaiseX();
    PropertyLeaveX();
    PropertyLeaveY();
  }

  lemma PropertyLowerY()
    ensures LowerYUpdate() == (Obj3(), [XCell(1), YCell(4)], [(2, Some(4))], None)
  {
    PropertyLowerYSource();
    PropertyLowerYCells();
    PropertyLowerYTold();
  }

  lemma PropertyRaiseX()
    ensures RaiseXUpdate() == (Obj4(), [XCell(2), YCell(4)], [(1, Some(2))], None)
  {
    PropertyRaiseXSource();
    PropertyRaiseXCells();
    PropertyRaiseXTold();
  }

  lemma PropertyLeaveX()
    ensures LeaveX() == (Obj5(), [XLeft(), YCell(4)], None)
  {
    PropertyLeaveXCells();
    PropertyLeaveXSource();
  }

  lemma PropertyLeaveY()
    ensures LeaveY() == (Obj6(), [XLeft(), YLeft()], Some(()))
  {
    PropertyLeaveYCells();
    PropertyLeaveYSource();
  }
}
