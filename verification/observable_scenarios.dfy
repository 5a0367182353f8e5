/**
 * The scenarios of packages/observable/src/__tests__/Observable.test.ts, run
 * on cells built on `startWith(0, u)`. Callbacks are numbered; how often a
 * jest mock was called is read off the model: `starts` for a mocked start,
 * `teardowns` for a mocked `u`, `notified` for a callback. Each scenario is a
 * function that performs the test's calls in order and collects what the
 * test inspects; a lemma states the values the test expects, proved step by
 * step through the named intermediate cells.
 */
module ObservableScenarios {
  import opened Wrappers
  import opened Chain
  import opened Observable

  /** `add`, `inc` and `dec` of TestHelper.ts. */
  function Add(n: int): int -> int
  {
    m => n + m
  }

  function Inc(): int -> int
  {
    Add(1)
  }

  function Dec(): int -> int
  {
    Add(-1)
  }

  type Counter = Cell<int, nat, ()>

  /** `counter.observe(cb)` on `mutable(startWith(0, u))`. */
  function ObserveCounter(c: Counter, cb: nat): (r: (Counter, int, nat))
    requires Lifecycle(c)
    ensures Lifecycle(r.0)
  {
    Observed(c, cb, LeafStart(c, 0, ()))
  }

  /** `counter.update(t)` on `mutable(startWith(0, u))`. */
  function UpdateCounter(c: Counter, t: int -> int): (r: Outcome<int, nat, ()>)
    requires Lifecycle(c)
    ensures Lifecycle(r.cell)
  {
    Updated(c, t, LeafStart(c, 0, ()))
  }

  /** A started counter with the given entries, holding `state`. */
  function Observing(entries: seq<Entry<nat>>, nextId: nat, state: int, starts: nat, teardowns: nat): Counter
  {
    Cell(List(entries, nextId), Some(Obn(state, ())), starts, teardowns)
  }

  // Observable.test.ts:16-45

  /** What the first test inspects: states seen, callbacks told, and the teardown count. */
  datatype CounterSeen = CounterSeen(seen1: int, told1: seq<nat>, tearsAfter1: nat, seen2: int, told2: seq<nat>, silent: seq<nat>, tearsAfter2: nat)

  function CounterTest(): CounterSeen
  {
    var (c1, s1, id1) := ObserveCounter(Fresh(), 1);
    var u1 := UpdateCounter(c1, Inc());
    var c2 := Unobserved(u1.cell, id1).0;
    var (c3, s2, id2) := ObserveCounter(c2, 2);
    var u2 := UpdateCounter(c3, Inc());
    var u3 := UpdateCounter(u2.cell, Add(0));
    var c4 := Unobserved(u3.cell, id2).0;
    CounterSeen(s1, u1.notified, c2.teardowns, s2, u2.notified, u3.notified, c4.teardowns)
  }

  lemma CounterObserve1()
    ensures ObserveCounter(Fresh(), 1) == (Observing([Entry(1, 1)], 2, 0, 1, 0), 0, 1)
  {
    assert [] + [Entry(1, 1)] == [Entry(1, 1)];
  }

  lemma CounterInc1()
    ensures UpdateCounter(Observing([Entry(1, 1)], 2, 0, 1, 0), Inc()) == Outcome(Observing([Entry(1, 1)], 2, 1, 1, 0), 1, [1], None)
  {
    assert Values(Observing([Entry(1, 1)], 2, 0, 1, 0).observers) == [1];
  }

  lemma CounterLeave1()
    ensures Unobserved(Observing([Entry(1, 1)], 2, 1, 1, 0), 1) == (Observing([], 2, 1, 1, 1), Some(()))
  {
    assert IndexOf(Observing([Entry(1, 1)], 2, 1, 1, 0).observers.entries, 1) == Some(0);
  }

  lemma CounterObserve2()
    ensures ObserveCounter(Observing([], 2, 1, 1, 1), 2) == (Observing([Entry(2, 2)], 3, 1, 2, 1), 1, 2)
  {
    assert [] + [Entry(2, 2)] == [Entry(2, 2)];
  }

  lemma CounterInc2()
    ensures UpdateCounter(Observing([Entry(2, 2)], 3, 1, 2, 1), Inc()) == Outcome(Observing([Entry(2, 2)], 3, 2, 2, 1), 2, [2], None)
    ensures UpdateCounter(Observing([Entry(2, 2)], 3, 2, 2, 1), Add(0)) == Outcome(Observing([Entry(2, 2)], 3, 2, 2, 1), 2, [], None)
  {
    assert Values(Observing([Entry(2, 2)], 3, 1, 2, 1).observers) == [2];
  }

  lemma CounterLeave2()
    ensures Unobserved(Observing([Entry(2, 2)], 3, 2, 2, 1), 2) == (Observing([], 3, 2, 2, 2), Some(()))
  {
    assert IndexOf(Observing([Entry(2, 2)], 3, 2, 2, 1).observers.entries, 2) == Some(0);
  }

  /**
   * Observable.test.ts:16-45: the first observer sees 0 and is told 1; its
   * leaving runs the teardown once; a second observer resumes at 1, is told
   * 2, is not told about `add(0)`, and its leaving runs the teardown again.
   */
  lemma CounterTestExpectations()
    ensures CounterTest() == CounterSeen(0, [1], 1, 1, [2], [], 2)
  {
    CounterObserve1();
    CounterInc1();
    CounterLeave1();
    CounterObserve2();
    CounterInc2();
    CounterLeave2();
  }

  // Observable.test.ts:47-90

  /** (start calls, teardown calls) after each call of the lazy-start test. */
  function LazyTest(): seq<(nat, nat)>
  {
    var u1 := UpdateCounter(Fresh(), Inc());
    var u2 := UpdateCounter(u1.cell, Inc());
    var (c3, _, id1) := ObserveCounter(u2.cell, 1);
    var (c4, _, id2) := ObserveCounter(c3, 1);
    var u5 := UpdateCounter(c4, Inc());
    var c6 := Unobserved(u5.cell, id1).0;
    var c7 := Unobserved(c6, id2).0;
    var u8 := UpdateCounter(c7, Inc());
    [(u1.cell.starts, u1.cell.teardowns), (u2.cell.starts, u2.cell.teardowns), (c3.starts, c3.teardowns),
     (c4.starts, c4.teardowns), (u5.cell.starts, u5.cell.teardowns), (c6.starts, c6.teardowns),
     (c7.starts, c7.teardowns), (u8.cell.starts, u8.cell.teardowns)]
  }

  lemma LazyIdleUpdate1()
    ensures UpdateCounter(Fresh(), Inc()) == Outcome(Observing([], 1, 1, 1, 1), 1, [], Some(()))
  {
  }

  lemma LazyIdleUpdate2()
    ensures UpdateCounter(Observing([], 1, 1, 1, 1), Inc()) == Outcome(Observing([], 1, 2, 2, 2), 2, [], Some(()))
  {
  }

  lemma LazyObserve1()
    ensures ObserveCounter(Observing([], 1, 2, 2, 2), 1) == (Observing([Entry(1, 1)], 2, 2, 3, 2), 2, 1)
  {
    assert [] + [Entry(1, 1)] == [Entry(1, 1)];
  }

  lemma LazyObserve2()
    ensures ObserveCounter(Observing([Entry(1, 1)], 2, 2, 3, 2), 1) == (Observing([Entry(1, 1), Entry(2, 1)], 3, 2, 3, 2), 2, 2)
  {
    assert [Entry(1, 1)] + [Entry(2, 1)] == [Entry(1, 1), Entry(2, 1)];
  }

  lemma LazyActiveUpdate()
    ensures UpdateCounter(Observing([Entry(1, 1), Entry(2, 1)], 3, 2, 3, 2), Inc())
            == Outcome(Observing([Entry(1, 1), Entry(2, 1)], 3, 3, 3, 2), 3, [1, 1], None)
  {
    assert Values(List([Entry(1, 1), Entry(2, 1)], 3)) == [1, 1];
  }

  lemma LazyLeave1()
    ensures Unobserved(Observing([Entry(1, 1), Entry(2, 1)], 3, 3, 3, 2), 1) == (Observing([Entry(2, 1)], 3, 3, 3, 2), None)
  {
    assert [Entry(1, 1), Entry(2, 1)][..|[Entry(1, 1), Entry(2, 1)]| - 1] == [Entry(1, 1)];
    assert IndexOf([Entry(1, 1), Entry(2, 1)], 1) == Some(0);
    assert [Entry(1, 1), Entry(2, 1)][..0] + [Entry(1, 1), Entry(2, 1)][1..] == [Entry(2, 1)];
  }

  lemma LazyLeave2()
    ensures Unobserved(Observing([Entry(2, 1)], 3, 3, 3, 2), 2) == (Observing([], 3, 3, 3, 3), Some(()))
  {
    assert IndexOf([Entry(2, 1)], 2) == Some(0);
  }

  lemma LazyIdleUpdate3()
    ensures UpdateCounter(Observing([], 3, 3, 3, 3), Inc()) == Outcome(Observing([], 3, 4, 4, 4), 4, [], Some(()))
  {
  }

  /**
   * Observable.test.ts:47-90: nothing starts before the first call; an update
   * with nobody observing starts and tears down within the call, each time;
   * the first observer starts the cell, a second observer and an update do
   * not; the teardown runs once both observers have left.
   */
  lemma LazyTestExpectations()
    ensures LazyTest() == [(1, 1), (2, 2), (3, 2), (3, 2), (3, 2), (3, 2), (3, 3), (4, 4)]
  {
    LazyIdleUpdate1();
    LazyIdleUpdate2();
    LazyObserve1();
    LazyObserve2();
    LazyActiveUpdate();
    LazyLeave1();
    LazyLeave2();
    LazyIdleUpdate3();
  }

  // Observable.test.ts:92-114

  /** Start calls after each call of the second lazy-start test (its start has the no-op teardown). */
  function LazyRestartTest(): seq<nat>
  {
    var (c1, _, id1) := ObserveCounter(Fresh(), 1);
    var (c2, _, id2) := ObserveCounter(c1, 1);
    var c3 := Unobserved(c2, id1).0;
    var c4 := Unobserved(c3, id2).0;
    var (c5, _, _) := ObserveCounter(c4, 1);
    [c1.starts, c2.starts, c3.starts, c4.starts, c5.starts]
  }

  lemma TwiceObserve2()
    ensures ObserveCounter(Observing([Entry(1, 1)], 2, 0, 1, 0), 1) == (Observing([Entry(1, 1), Entry(2, 1)], 3, 0, 1, 0), 0, 2)
  {
    assert [Entry(1, 1)] + [Entry(2, 1)] == [Entry(1, 1), Entry(2, 1)];
  }

  lemma TwiceLeave1()
    ensures Unobserved(Observing([Entry(1, 1), Entry(2, 1)], 3, 0, 1, 0), 1) == (Observing([Entry(2, 1)], 3, 0, 1, 0), None)
  {
    assert [Entry(1, 1), Entry(2, 1)][..|[Entry(1, 1), Entry(2, 1)]| - 1] == [Entry(1, 1)];
    assert IndexOf([Entry(1, 1), Entry(2, 1)], 1) == Some(0);
    assert [Entry(1, 1), Entry(2, 1)][..0] + [Entry(1, 1), Entry(2, 1)][1..] == [Entry(2, 1)];
  }

  lemma TwiceLeave2()
    ensures Unobserved(Observing([Entry(2, 1)], 3, 0, 1, 0), 2) == (Observing([], 3, 0, 1, 1), Some(()))
  {
    assert IndexOf([Entry(2, 1)], 2) == Some(0);
  }

  lemma RestartObserve()
    ensures ObserveCounter(Observing([], 3, 0, 1, 1), 1).0.starts == 2
  {
  }

  /**
   * Observable.test.ts:92-114: the first observer starts the cell, the second
   * does not, and after both have left the next observer starts it again.
   */
  lemma LazyRestartExpectations()
    ensures LazyRestartTest() == [1, 1, 1, 1, 2]
  {
    CounterObserve1();
    TwiceObserve2();
    TwiceLeave1();
    TwiceLeave2();
    RestartObserve();
  }

  // Observable.test.ts:116-138

  /** What the multiple-observation test inspects: the calls of `cb`, the state, the teardowns after each disposal. */
  function MultipleTest(): (seq<nat>, int, seq<nat>)
  {
    var (c1, _, id1) := ObserveCounter(Fresh(), 1);
    var (c2, _, id2) := ObserveCounter(c1, 1);
    var u := UpdateCounter(c2, Inc());
    var c3 := Unobserved(u.cell, id1).0;
    var c4 := Unobserved(c3, id1).0;
    var c5 := Unobserved(c4, id2).0;
    (u.notified, u.state, [c3.teardowns, c4.teardowns, c5.teardowns])
  }

  lemma MultipleUpdate()
    ensures UpdateCounter(Observing([Entry(1, 1), Entry(2, 1)], 3, 0, 1, 0), Inc())
            == Outcome(Observing([Entry(1, 1), Entry(2, 1)], 3, 1, 1, 0), 1, [1, 1], None)
  {
    assert Values(List([Entry(1, 1), Entry(2, 1)], 3)) == [1, 1];
  }

  lemma MultipleLeave1()
    ensures Unobserved(Observing([Entry(1, 1), Entry(2, 1)], 3, 1, 1, 0), 1) == (Observing([Entry(2, 1)], 3, 1, 1, 0), None)
  {
    assert [Entry(1, 1), Entry(2, 1)][..|[Entry(1, 1), Entry(2, 1)]| - 1] == [Entry(1, 1)];
    assert IndexOf([Entry(1, 1), Entry(2, 1)], 1) == Some(0);
    assert [Entry(1, 1), Entry(2, 1)][..0] + [Entry(1, 1), Entry(2, 1)][1..] == [Entry(2, 1)];
  }

  lemma MultipleLeaveAgain()
    ensures Unobserved(Observing([Entry(2, 1)], 3, 1, 1, 0), 1) == (Observing([Entry(2, 1)], 3, 1, 1, 0), None)
  {
    assert IndexOf([Entry(2, 1)], 1) == None;
  }

  lemma MultipleLeave2()
    ensures Unobserved(Observing([Entry(2, 1)], 3, 1, 1, 0), 2) == (Observing([], 3, 1, 1, 1), Some(()))
  {
    assert IndexOf([Entry(2, 1)], 2) == Some(0);
  }

  /**
   * Observable.test.ts:116-138: one callback observing twice is called twice
   * with 1; the teardown waits for the last observer, and disposing the same
   * observation twice changes nothing.
   */
  lemma MultipleExpectations()
    ensures MultipleTest() == ([1, 1], 1, [0, 0, 1])
  {
    CounterObserve1();
    TwiceObserve2();
    MultipleUpdate();
    MultipleLeave1();
    MultipleLeaveAgain();
    MultipleLeave2();
  }
}
