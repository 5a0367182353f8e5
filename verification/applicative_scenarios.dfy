/**
 * The scenarios of packages/observable/src/__tests__/Applicative.test.ts.
 * The record `{ x, y }` has the keys "x" and "y", in that order, over the
 * leaves `x = mutable(startWith(1, unobserveX))` and `y =
 * mutable(startWith(5, unobserveY))`; the two teardowns are told apart by
 * name. Each scenario is a lemma whose postconditions are the test's calls
 * in order, each taking the state the previous one left.
 */
module ApplicativeScenarios {
  import opened Wrappers
  import opened Chain
  import opened Observable
  import opened Functor
  import opened Applicative
  import opened ObservableScenarios
  import opened FunctorScenarios

  /** The two spies handed to `startWith` as teardowns. */
  datatype Spy = UnobserveX | UnobserveY

  function Keys(): seq<string> { ["x", "y"] }

  /** Each leaf starts from its own value and teardown. */
  function Starts(): seq<Option<Obn<int, Spy>>>
  {
    [LeafStart(Fresh<int, nat, Spy>(), 1, UnobserveX), LeafStart(Fresh<int, nat, Spy>(), 5, UnobserveY)]
  }

  /** Leaf `x` and leaf `y` while the join's subscription (handle 1) observes them. */
  function X(v: int): Cell<int, nat, Spy> { Cell(List([Entry(1, 0)], 2), Some(Obn(v, UnobserveX)), 1, 0) }
  function Y(v: int): Cell<int, nat, Spy> { Cell(List([Entry(1, 1)], 2), Some(Obn(v, UnobserveY)), 1, 0) }

  /** Both leaves once the join has let go of them. */
  function XIdle(): Cell<int, nat, Spy> { Cell(List([], 2), Some(Obn(2, UnobserveX)), 1, 1) }
  function YIdle(): Cell<int, nat, Spy> { Cell(List([], 2), Some(Obn(4, UnobserveY)), 1, 1) }

  /** The joined cell observed by `h` alone, holding `rec`; then idle. */
  function Joined(h: nat, rec: map<string, int>): Cell<map<string, int>, nat, seq<nat>>
  {
    Cell(List([Entry(1, h)], 2), Some(Obn(rec, [1, 1])), 1, 0)
  }

  function JoinedIdle(rec: map<string, int>): Cell<map<string, int>, nat, seq<nat>>
  {
    Cell(List([], 2), Some(Obn(rec, [1, 1])), 1, 1)
  }

  lemma SubscribeX()
    ensures Observed(Fresh<int, nat, Spy>(), 0, LeafStart(Fresh<int, nat, Spy>(), 1, UnobserveX)) == (X(1), 1, 1)
  {
    assert [] + [Entry(1, 0)] == [Entry(1, 0)];
  }

  lemma SubscribeY()
    ensures Observed(Fresh<int, nat, Spy>(), 1, LeafStart(Fresh<int, nat, Spy>(), 5, UnobserveY)) == (Y(5), 5, 1)
  {
    assert [] + [Entry(1, 1)] == [Entry(1, 1)];
  }

  /** The leaves before anything observes them. */
  function Leaves(): seq<Cell<int, nat, Spy>> { [Fresh(), Fresh()] }

  lemma FirstStartable()
    ensures Startable(Leaves(), Starts())
  {
    assert Leaves()[1] == Fresh();
    assert Starts()[1] == LeafStart(Fresh<int, nat, Spy>(), 5, UnobserveY);
  }

  /** The first start subscribes field 0 to `x` and field 1 to `y`, each with handle 1. */
  lemma FirstSubscriptions()
    ensures Startable(Leaves(), Starts())
    ensures Subscriptions(Leaves(), Starts()) == [(X(1), 1, 1), (Y(5), 5, 1)]
  {
    FirstStartable();
    var subs := Subscriptions(Leaves(), Starts());
    assert subs[0] == Observed(Leaves()[0], 0, Starts()[0]);
    assert subs[1] == Observed(Leaves()[1], 1, Starts()[1]);
    assert Leaves()[1] == Fresh();
    assert Starts()[1] == LeafStart(Fresh<int, nat, Spy>(), 5, UnobserveY);
    SubscribeX();
    SubscribeY();
    Pair(subs, (X(1), 1, 1), (Y(5), 5, 1));
  }

  /** The record two subscriptions gather. */
  lemma RecordOfTwo<C>(subs: seq<(C, int, nat)>)
    requires |subs| == 2
    ensures Record(Keys(), subs, 2) == Point(subs[0].1, subs[1].1)
  {
    assert Record(Keys(), subs, 0) == map[];
  }

  lemma AfterOfTwo<V, D>(sources: seq<Cell<V, nat, D>>, subs: seq<(Cell<V, nat, D>, V, nat)>)
    requires |sources| == |subs| == 2
    ensures After(sources, subs, 2) == [subs[0].0, subs[1].0] && Handles(subs, 2) == [subs[0].2, subs[1].2]
  {
    Pair(After(sources, subs, 2), subs[0].0, subs[1].0);
    Pair(Handles(subs, 2), subs[0].2, subs[1].2);
  }

  lemma FirstStart()
    ensures Startable(Leaves(), Starts())
    ensures JoinStarted(Leaves(), Keys(), Starts()) == ([X(1), Y(5)], Obn(Point(1, 5), [1, 1]))
  {
    FirstSubscriptions();
    var subs := Subscriptions(Leaves(), Starts());
    RecordOfTwo(subs);
    AfterOfTwo(Leaves(), subs);
  }

  // __tests__/Applicative.test.ts:7-33: `join({ x, y })` observed by callback 1.

  function ObserveJoin(): (seq<Cell<int, nat, Spy>>, Cell<map<string, int>, nat, seq<nat>>, map<string, int>, nat)
  {
    FirstStart();
    assert Tied(Leaves(), Fresh(), Keys()) by {
      assert Leaves()[1] == Fresh();
    }
    JoinObserved(Leaves(), Fresh(), Keys(), 1, Starts())
  }

  lemma JoinObserve()
    ensures ObserveJoin() == ([X(1), Y(5)], Joined(1, Point(1, 5)), Point(1, 5), 1)
  {
    FirstStart();
    assert [] + [Entry(1, 1)] == [Entry(1, 1)];
  }

  /** The join observed by `h`, over `x` holding `a` and `y` holding `b`, is tied. */
  lemma JoinedTied(h: nat, a: int, b: int)
    ensures Tied([X(a), Y(b)], Joined(h, Point(a, b)), Keys())
  {
    var ss := [X(a), Y(b)];
    assert ss[1] == Y(b);
  }

  function IncX(h: nat): (seq<Cell<int, nat, Spy>>, Cell<map<string, int>, nat, seq<nat>>, seq<nat>, Option<Spy>)
  {
    JoinedTied(h, 1, 5);
    FieldUpdated([X(1), Y(5)], Joined(h, Point(1, 5)), Keys(), 0, Inc(), LeafStart(X(1), 1, UnobserveX))
  }

  lemma IncXLeaf()
    ensures Updated(X(1), Inc(), LeafStart(X(1), 1, UnobserveX)) == Outcome(X(2), 2, [0], None)
  {
    assert Values(List([Entry(1, 0)], 2)) == [0];
  }

  /** The join observed by `h`, over `x` holding `a` and `y` holding `b`, is joined. */
  lemma JoinedJoins(h: nat, a: int, b: int)
    ensures Joins([X(a), Y(b)], Joined(h, Point(a, b)), Keys())
  {
    JoinedTied(h, a, b);
    var ss := [X(a), Y(b)];
    assert ss[1] == Y(b);
  }

  lemma JoinIncXSources(h: nat)
    ensures IncX(h).0 == [X(2), Y(5)]
  {
    IncXLeaf();
    assert [X(1), Y(5)][0 := X(2)] == [X(2), Y(5)];
  }

  lemma JoinIncXJoined(h: nat)
    ensures IncX(h).1 == Joined(h, Point(2, 5))
  {
    JoinedJoins(h, 1, 5);
    IncXLeaf();
    FieldUpdatedJoins([X(1), Y(5)], Joined(h, Point(1, 5)), Keys(), 0, Inc(), LeafStart(X(1), 1, UnobserveX));
    assert Point(1, 5)["x" := 2] == Point(2, 5);
  }

  lemma JoinIncXTold(h: nat)
    ensures IncX(h).2 == [h] && IncX(h).3 == None
  {
    JoinedJoins(h, 1, 5);
    IncXLeaf();
    FieldUpdatedJoins([X(1), Y(5)], Joined(h, Point(1, 5)), Keys(), 0, Inc(), LeafStart(X(1), 1, UnobserveX));
    assert Values(List([Entry(1, h)], 2)) == [h];
  }

  lemma JoinIncX(h: nat)
    ensures IncX(h) == ([X(2), Y(5)], Joined(h, Point(2, 5)), [h], None)
  {
    JoinIncXSources(h);
    JoinIncXJoined(h);
    JoinIncXTold(h);
  }

  function DecY(h: nat): (seq<Cell<int, nat, Spy>>, Cell<map<string, int>, nat, seq<nat>>, seq<nat>, Option<Spy>)
  {
    JoinedTied(h, 2, 5);
    FieldUpdated([X(2), Y(5)], Joined(h, Point(2, 5)), Keys(), 1, Dec(), LeafStart(Y(5), 5, UnobserveY))
  }

  lemma DecYLeaf()
    ensures Updated(Y(5), Dec(), LeafStart(Y(5), 5, UnobserveY)) == Outcome(Y(4), 4, [1], None)
  {
    assert Values(List([Entry(1, 1)], 2)) == [1];
  }

  lemma JoinDecYSources(h: nat)
    ensures DecY(h).0 == [X(2), Y(4)]
  {
    DecYLeaf();
    assert [X(2), Y(5)][1 := Y(4)] == [X(2), Y(4)];
  }

  lemma JoinDecYJoined(h: nat)
    ensures DecY(h).1 == Joined(h, Point(2, 4))
  {
    JoinedJoins(h, 2, 5);
    DecYLeaf();
    FieldUpdatedJoins([X(2), Y(5)], Joined(h, Point(2, 5)), Keys(), 1, Dec(), LeafStart(Y(5), 5, UnobserveY));
    assert Point(2, 5)["y" := 4] == Point(2, 4);
  }

  lemma JoinDecYTold(h: nat)
    ensures DecY(h).2 == [h] && DecY(h).3 == None
  {
    JoinedJoins(h, 2, 5);
    DecYLeaf();
    FieldUpdatedJoins([X(2), Y(5)], Joined(h, Point(2, 5)), Keys(), 1, Dec(), LeafStart(Y(5), 5, UnobserveY));
    assert Values(List([Entry(1, h)], 2)) == [h];
  }

  lemma JoinDecY(h: nat)
    ensures DecY(h) == ([X(2), Y(4)], Joined(h, Point(2, 4)), [h], None)
  {
    JoinDecYSources(h);
    JoinDecYJoined(h);
    JoinDecYTold(h);
  }

  function LeaveJoin(h: nat): (seq<Cell<int, nat, Spy>>, Cell<map<string, int>, nat, seq<nat>>, seq<Released<Spy>>)
  {
    JoinedTied(h, 2, 4);
    JoinUnobserved([X(2), Y(4)], Joined(h, Point(2, 4)), Keys(), 1)
  }

  /** The join's subscriptions leave `x` and `y` idle. */
  lemma XLeft()
    ensures Unobserved(X(2), 1).0 == XIdle()
  {
    assert IndexOf([Entry(1, 0)], 1) == Some(0);
    assert [Entry(1, 0)][..0] + [Entry(1, 0)][1..] == [];
  }

  lemma YLeft()
    ensures Unobserved(Y(4), 1).0 == YIdle()
  {
    assert IndexOf([Entry(1, 1)], 1) == Some(0);
    assert [Entry(1, 1)][..0] + [Entry(1, 1)][1..] == [];
  }

  lemma JoinLeaveSources(h: nat)
    ensures LeaveJoin(h).0 == [XIdle(), YIdle()]
  {
    JoinedJoins(h, 2, 4);
    JoinUnobservedJoins([X(2), Y(4)], Joined(h, Point(2, 4)), Keys(), 1);
    TornDownReleases([X(2), Y(4)], [1, 1], 2);
    XLeft();
    YLeft();
    var ss := [X(2), Y(4)];
    assert ss[1] == Y(4);
    Pair(LeaveJoin(h).0, XIdle(), YIdle());
  }

  lemma JoinLeaveJoined(h: nat)
    ensures LeaveJoin(h).1 == JoinedIdle(Point(2, 4))
  {
    assert IndexOf([Entry(1, h)], 1) == Some(0);
    assert [Entry(1, h)][..0] + [Entry(1, h)][1..] == [];
  }

  /** `y`'s teardown runs first, then `x`'s, each once (__tests__/Applicative.test.ts:30-32). */
  lemma JoinLeaveReleases(h: nat)
    ensures LeaveJoin(h).2 == [(1, UnobserveY), (0, UnobserveX)]
  {
    JoinedJoins(h, 2, 4);
    JoinUnobservedJoins([X(2), Y(4)], Joined(h, Point(2, 4)), Keys(), 1);
    JoinLeaveJoined(h);
    var ss := [X(2), Y(4)];
    assert ss[1] == Y(4);
    Pair(Releases(ss, 2), (1, UnobserveY), (0, UnobserveX));
  }

  lemma JoinLeave(h: nat)
    ensures LeaveJoin(h) == ([XIdle(), YIdle()], JoinedIdle(Point(2, 4)), [(1, UnobserveY), (0, UnobserveX)])
  {
    JoinLeaveSources(h);
    JoinLeaveJoined(h);
    JoinLeaveReleases(h);
  }

  // __tests__/Applicative.test.ts:36-41: `pure(42)` observed once.

  lemma PureTest()
    ensures PureRun(Fresh<int, nat, ()>(), 42, [Enter(0)]).1 == [42]
  {
    assert [Enter(0)][1..] == [];
  }

  // __tests__/Applicative.test.ts:44-74: `prod = lift(prodXY)({ x, y })`, derived cell 0 over the join, observed by callback 1.

  /** `prodXY` of the test (__tests__/Applicative.test.ts:51). */
  function Product(): map<string, int> -> int
  {
    o => Field(o, "x") * Field(o, "y")
  }

  /** The lifted cell observed by callback 1, holding `v`; then idle. */
  function P(v: int): Cell<int, nat, nat> { Cell(List([Entry(1, 1)], 2), Some(Obn(v, 1)), 1, 0) }
  function PIdle(v: int): Cell<int, nat, nat> { Cell(List([], 2), Some(Obn(v, 1)), 1, 1) }

  function ObserveLift(): (seq<Cell<int, nat, Spy>>, Cell<map<string, int>, nat, seq<nat>>, seq<Cell<int, nat, nat>>, int, nat)
  {
    FirstStart();
    assert Tied(Leaves(), Fresh(), Keys()) by {
      assert Leaves()[1] == Fresh();
    }
    LiftObserved(Leaves(), Fresh(), [Fresh()], [Product()], Keys(), 0, 1, Starts())
  }

  lemma LiftSubscribes()
    ensures Observed(Fresh<map<string, int>, nat, seq<nat>>(), 0, Some(Obn(Point(1, 5), [1, 1]))) == (Joined(0, Point(1, 5)), Point(1, 5), 1)
    ensures Observed(Fresh<int, nat, nat>(), 1, Some(MapStart(Product(), Point(1, 5), 1))) == (P(5), 5, 1)
  {
    assert [] + [Entry(1, 0)] == [Entry(1, 0)];
    assert [] + [Entry(1, 1)] == [Entry(1, 1)];
    assert Product()(Point(1, 5)) == 5;
  }

  lemma LiftObserve()
    ensures ObserveLift() == ([X(1), Y(5)], Joined(0, Point(1, 5)), [P(5)], 5, 1)
  {
    FirstStart();
    LiftSubscribes();
    var r := ObserveLift();
    Single(r.2, P(5));
  }

  /** The lift observed by callback 1, over `x` holding `a` and `y` holding `b`, is plumbed. */
  lemma LiftPlumbed(a: int, b: int)
    ensures Plumbed(Joined(0, Point(a, b)), [P(a * b)], [Product()])
  {
    var ps := [P(a * b)];
    assert ps[0] == P(a * b);
  }

  function LiftIncX(): (seq<Cell<int, nat, Spy>>, Cell<map<string, int>, nat, seq<nat>>, seq<Cell<int, nat, nat>>, seq<Told<int>>, Option<Spy>)
  {
    JoinedTied(0, 1, 5);
    LiftPlumbed(1, 5);
    LiftUpdated([X(1), Y(5)], Joined(0, Point(1, 5)), [P(5)], [Product()], Keys(), 0, Inc(), LeafStart(X(1), 1, UnobserveX))
  }

  /** The lifted cell recomputes `prodXY` of the new record and tells callback 1. */
  lemma Recomputed(a: int, b: int, c: int, d: int)
    requires a * b != c * d
    ensures Forwarded([P(a * b)], [Product()], [0], Point(c, d)) == ([P(c * d)], [(1, c * d)])
  {
    assert Product()(Point(c, d)) == c * d;
    assert Values(List([Entry(1, 1)], 2)) == [1];
    assert [0][1..] == [];
    var r := Forwarded([P(a * b)], [Product()], [0], Point(c, d));
    assert r.0[0] == WithState(P(a * b), c * d) == P(c * d);
    Single(r.0, P(c * d));
    assert Tell([1], c * d) + [] == [(1, c * d)];
    assert r.1 == Heard([P(a * b)], [Product()], [0], Point(c, d)) == Tell([1], c * d) + [];
  }

  lemma LiftIncXStep()
    ensures LiftIncX() == ([X(2), Y(5)], Joined(0, Point(2, 5)), [P(10)], [(1, 10)], None)
  {
    JoinIncX(0);
    Recomputed(1, 5, 2, 5);
  }

  function LiftDecY(): (seq<Cell<int, nat, Spy>>, Cell<map<string, int>, nat, seq<nat>>, seq<Cell<int, nat, nat>>, seq<Told<int>>, Option<Spy>)
  {
    JoinedTied(0, 2, 5);
    LiftPlumbed(2, 5);
    LiftUpdated([X(2), Y(5)], Joined(0, Point(2, 5)), [P(10)], [Product()], Keys(), 1, Dec(), LeafStart(Y(5), 5, UnobserveY))
  }

  lemma LiftDecYStep()
    ensures LiftDecY() == ([X(2), Y(4)], Joined(0, Point(2, 4)), [P(8)], [(1, 8)], None)
  {
    JoinDecY(0);
    Recomputed(2, 5, 2, 4);
  }

  function LiftLeave(): (seq<Cell<int, nat, Spy>>, Cell<map<string, int>, nat, seq<nat>>, seq<Cell<int, nat, nat>>, seq<Released<Spy>>)
  {
    JoinedTied(0, 2, 4);
    LiftPlumbed(2, 4);
    LiftUnobserved([X(2), Y(4)], Joined(0, Point(2, 4)), [P(8)], [Product()], Keys(), 0, 1)
  }

  lemma PLeft()
    ensures Unobserved(P(8), 1) == (PIdle(8), Some(1))
  {
    assert IndexOf([Entry(1, 1)], 1) == Some(0);
    assert [Entry(1, 1)][..0] + [Entry(1, 1)][1..] == [];
  }

  lemma LiftLeaveStep()
    ensures LiftLeave() == ([XIdle(), YIdle()], JoinedIdle(Point(2, 4)), [PIdle(8)], [(1, UnobserveY), (0, UnobserveX)])
  {
    JoinLeave(0);
    PLeft();
    var r := LiftLeave();
    Single(r.2, PIdle(8));
  }
}
