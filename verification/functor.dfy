/**
 * `fmap`, `property` and `propertyOf` of packages/observable/src/Functor.ts.
 *
 * `fmap(f)(src)` is a cell whose start subscribes to `src` with a handler
 * that forwards each source state `v` as `update(() => f(v))`, and whose
 * teardown is that subscription's disposer. Derived cells are numbered; a
 * source's observer list holds the numbers of the derived cells it forwards
 * to, and a derived cell's teardown is the handle of its entry in the source.
 * `Mirrors` is the invariant that ties the two together; `MapObserved`,
 * `MapUnobserved` and `Forwarded` are the derived cells' operations and the
 * forwarding cascade for any source, and keep it; `Propagated` is an update
 * of the source followed by that cascade.
 */
module Functor {
  import opened Wrappers
  import opened Chain
  import opened Observable

  /** A callback told a value: (callback number, value). */
  type Told<B> = (nat, B)

  /** Some source entry with handle `id` forwards to derived cell `i`. */
  predicate Subscribed(es: seq<Entry<nat>>, id: nat, i: nat)
  {
    exists k :: 0 <= k < |es| && es[k] == Entry(id, i)
  }

  /** Every source entry forwards to an active derived cell whose teardown disposes exactly that entry. */
  predicate Forwards<B>(es: seq<Entry<nat>>, derived: seq<Cell<B, nat, nat>>)
  {
    forall k :: 0 <= k < |es| ==>
      && es[k].value < |derived|
      && Active(derived[es[k].value])
      && derived[es[k].value].obn.Some?
      && derived[es[k].value].obn.value.unobserve == es[k].id
  }

  /** Every active derived cell is subscribed to the source and holds its function of the source state. */
  ghost predicate Follows<A, B, D>(src: Cell<A, nat, D>, derived: seq<Cell<B, nat, nat>>, fs: seq<A -> B>)
    requires |derived| == |fs|
  {
    forall i :: 0 <= i < |derived| && Active(derived[i]) ==>
      && derived[i].obn.Some? && src.obn.Some?
      && Subscribed(src.observers.entries, derived[i].obn.value.unobserve, i)
      && derived[i].obn.value.state == fs[i](src.obn.value.state)
  }

  predicate AllLifecycle<B>(derived: seq<Cell<B, nat, nat>>)
  {
    forall i :: 0 <= i < |derived| ==> Lifecycle(derived[i])
  }

  /**
   * The fmap wiring (Functor.ts:6-9): the source's observers are the
   * forwarding subscriptions of the active derived cells, one each, and an
   * active derived cell holds `f` of the source state.
   */
  ghost predicate Mirrors<A, B, D>(src: Cell<A, nat, D>, derived: seq<Cell<B, nat, nat>>, fs: seq<A -> B>)
  {
    Plumbed(src, derived, fs) && Follows(src, derived, fs)
  }

  /** The structural half of `Mirrors`: every cell is consistent and the source's entries forward to active cells. */
  predicate Plumbed<A, B, D>(src: Cell<A, nat, D>, derived: seq<Cell<B, nat, nat>>, fs: seq<A -> B>)
  {
    Lifecycle(src) && |derived| == |fs| && AllLifecycle(derived) && Forwards(src.observers.entries, derived)
  }

  /** A derived cell's observation with its state replaced by `b`. */
  function WithState<B, H, D>(c: Cell<B, H, D>, b: B): Cell<B, H, D>
    requires c.obn.Some?
  {
    c.(obn := Some(c.obn.value.(state := b)))
  }

  /**
   * What fmap's start returns (Functor.ts:8): whatever the derived cell held
   * before, it begins at `f` of the state `s` the source reported to the new
   * subscription, and its teardown is that subscription's disposer `e`.
   */
  function MapStart<A, B>(f: A -> B, s: A, e: nat): (o: Obn<B, nat>)
    ensures o.state == f(s) && o.unobserve == e
  {
    Obn(f(s), e)
  }

  /** No two source entries forward to the same derived cell. */
  lemma {:induction false} TargetsDistinct<A, B, D>(src: Cell<A, nat, D>, derived: seq<Cell<B, nat, nat>>, fs: seq<A -> B>)
    requires Plumbed(src, derived, fs)
    ensures forall a, b :: 0 <= a < b < |src.observers.entries| ==>
              src.observers.entries[a].value != src.observers.entries[b].value
  {
    forall a, b | 0 <= a < b < |src.observers.entries|
      ensures src.observers.entries[a].value != src.observers.entries[b].value
    {
      assert src.observers.entries[a].id < src.observers.entries[b].id;
    }
  }

  /** Under `Mirrors`, an active source has an active derived cell, and an inactive one has none. */
  lemma {:induction false} ActiveSource<A, B, D>(src: Cell<A, nat, D>, derived: seq<Cell<B, nat, nat>>, fs: seq<A -> B>)
    requires Mirrors(src, derived, fs)
    ensures Active(src) <==> exists i :: 0 <= i < |derived| && Active(derived[i])
  {
    if Active(src) {
      var i := src.observers.entries[0].value;
      assert Active(derived[i]);
    }
    if i :| 0 <= i < |derived| && Active(derived[i]) {
      var k :| 0 <= k < |src.observers.entries| && src.observers.entries[k] == Entry(derived[i].obn.value.unobserve, i);
      assert src.observers.entries != [];
    }
  }

  /**
   * `fmap(f)(src).observe(cb)` on derived cell `i` (Functor.ts:6-9 through
   * Observable.ts:45-50). When the derived cell needs starting, its start
   * subscribes to the source, which itself starts with `srcStarted` when it
   * needs to, and begins at `f` of the state the source reports. Returns the
   * source, the derived cells, the state `cb` sees and its handle.
   */
  function MapObserved<A, B, D>(src: Cell<A, nat, D>, derived: seq<Cell<B, nat, nat>>, fs: seq<A -> B>,
                                i: nat, cb: nat, srcStarted: Option<Obn<A, D>>)
    : (r: (Cell<A, nat, D>, seq<Cell<B, nat, nat>>, B, nat))
    requires Lifecycle(src) && i < |derived| == |fs| && Lifecycle(derived[i])
    requires !Active(derived[i]) ==> StartedFor(src, srcStarted)
    ensures |r.1| == |derived| && Lifecycle(r.1[i]) && Active(r.1[i])
    ensures (r.1[i].observers, r.3) == Appended(derived[i].observers, cb)
    ensures forall j :: 0 <= j < |derived| && j != i ==> r.1[j] == derived[j]
    ensures Active(derived[i]) ==> r.0 == src
    ensures !Active(derived[i]) ==> r.0 == Observed(src, i, srcStarted).0
  {
    var c := derived[i];
    if Active(c) then
      var (c', seen, id) := Observed(c, cb, None);
      (src, derived[i := c'], seen, id)
    else
      var (src', s, e) := Observed(src, i, srcStarted);
      var (c', seen, id) := Observed(c, cb, Some(MapStart(fs[i], s, e)));
      (src', derived[i := c'], seen, id)
  }

  /** Observing a derived cell keeps the structure. */
  lemma {:induction false} MapObservedPlumbed<A, B, D>(src: Cell<A, nat, D>, derived: seq<Cell<B, nat, nat>>, fs: seq<A -> B>,
                                                      i: nat, cb: nat, srcStarted: Option<Obn<A, D>>)
    requires Plumbed(src, derived, fs) && i < |derived|
    requires !Active(derived[i]) ==> StartedFor(src, srcStarted)
    ensures var r := MapObserved(src, derived, fs, i, cb, srcStarted); Plumbed(r.0, r.1, fs)
  {
    var r := MapObserved(src, derived, fs, i, cb, srcStarted);
    if !Active(derived[i]) {
      var (src', s, e) := Observed(src, i, srcStarted);
      assert src'.observers.entries == src.observers.entries + [Entry(e, i)];
      forall k | 0 <= k < |src'.observers.entries|
        ensures src'.observers.entries[k].value < |r.1|
        ensures Active(r.1[src'.observers.entries[k].value])
        ensures r.1[src'.observers.entries[k].value].obn.Some?
        ensures r.1[src'.observers.entries[k].value].obn.value.unobserve == src'.observers.entries[k].id
      {
        if k < |src.observers.entries| {
          assert src'.observers.entries[k] == src.observers.entries[k];
          assert src.observers.entries[k].value != i;
        }
      }
    }
  }

  /**
   * Observing a derived cell keeps the wiring, and the observer sees `f` of
   * the source state: the state of the moment when the cell was already
   * active, the state the source reports to the new subscription otherwise
   * (Functor.ts:7-8; __tests__/Functor.test.ts:14-19).
   */
  lemma {:induction false} MapObservedMirrors<A, B, D>(src: Cell<A, nat, D>, derived: seq<Cell<B, nat, nat>>, fs: seq<A -> B>,
                                                      i: nat, cb: nat, srcStarted: Option<Obn<A, D>>)
    requires Mirrors(src, derived, fs) && i < |derived|
    requires !Active(derived[i]) ==> StartedFor(src, srcStarted)
    ensures var r := MapObserved(src, derived, fs, i, cb, srcStarted);
            && Mirrors(r.0, r.1, fs)
            && r.0.obn.Some? && r.2 == fs[i](r.0.obn.value.state)
  {
    var r := MapObserved(src, derived, fs, i, cb, srcStarted);
    MapObservedPlumbed(src, derived, fs, i, cb, srcStarted);
    if Active(derived[i]) {
      forall j | 0 <= j < |r.1| && Active(r.1[j])
        ensures Subscribed(src.observers.entries, r.1[j].obn.value.unobserve, j)
      {
        assert Active(derived[j]);
      }
    } else {
      var (src', s, e) := Observed(src, i, srcStarted);
      assert src'.observers.entries == src.observers.entries + [Entry(e, i)];
      forall j | 0 <= j < |derived| && j != i && Active(derived[j])
        ensures Active(src) && src'.obn == src.obn
      {
        var k :| 0 <= k < |src.observers.entries| && src.observers.entries[k] == Entry(derived[j].obn.value.unobserve, j);
      }
      forall j | 0 <= j < |r.1| && Active(r.1[j])
        ensures Subscribed(src'.observers.entries, r.1[j].obn.value.unobserve, j)
      {
        if j == i {
          assert src'.observers.entries[|src.observers.entries|] == Entry(e, i);
        } else {
          var k :| 0 <= k < |src.observers.entries| && src.observers.entries[k] == Entry(derived[j].obn.value.unobserve, j);
          assert src'.observers.entries[k] == src.observers.entries[k];
        }
      }
    }
  }

  /**
   * Disposing observer `id` of derived cell `i`. When that was the cell's last
   * observer, its teardown runs: the disposer of its forwarding subscription
   * (Functor.ts:7-8), which may in turn tear the source down. Returns the
   * source, the derived cells and the source teardown run, if any.
   */
  function MapUnobserved<A, B, D>(src: Cell<A, nat, D>, derived: seq<Cell<B, nat, nat>>, fs: seq<A -> B>, i: nat, id: nat)
    : (r: (Cell<A, nat, D>, seq<Cell<B, nat, nat>>, Option<D>))
    requires Lifecycle(src) && i < |derived| && Lifecycle(derived[i])
    ensures |r.1| == |derived| && r.1[i] == Unobserved(derived[i], id).0
    ensures forall j :: 0 <= j < |derived| && j != i ==> r.1[j] == derived[j]
    ensures Unobserved(derived[i], id).1.None? ==> r.0 == src && r.2.None?
    ensures Unobserved(derived[i], id).1.Some? ==> (r.0, r.2) == Unobserved(src, derived[i].obn.value.unobserve)
  {
    var (c', td) := Unobserved(derived[i], id);
    if td.Some? then
      var (src', std) := Unobserved(src, td.value);
      (src', derived[i := c'], std)
    else
      (src, derived[i := c'], None)
  }

  /** Disposing a derived observer keeps the structure. */
  lemma {:induction false} MapUnobservedPlumbed<A, B, D>(src: Cell<A, nat, D>, derived: seq<Cell<B, nat, nat>>, fs: seq<A -> B>,
                                                        i: nat, id: nat)
    requires Plumbed(src, derived, fs) && i < |derived|
    ensures var r := MapUnobserved(src, derived, fs, i, id); Plumbed(r.0, r.1, fs)
  {
    var (c', td) := Unobserved(derived[i], id);
    if td.Some? {
      UnsubscribeForwards(src, derived, fs, i, c');
    }
  }

  /**
   * Derived cell `i` going idle and disposing the source entry its teardown
   * names keeps the structure: every entry forwarding to `i` carries that
   * handle, and handles are unique, so no entry forwards to `i` afterwards.
   */
  lemma {:induction false} UnsubscribeForwards<A, B, D>(src: Cell<A, nat, D>, derived: seq<Cell<B, nat, nat>>, fs: seq<A -> B>,
                                                       i: nat, c': Cell<B, nat, nat>)
    requires Plumbed(src, derived, fs) && i < |derived| && Active(derived[i])
    requires Lifecycle(c') && !Active(c')
    ensures Plumbed(Unobserved(src, derived[i].obn.value.unobserve).0, derived[i := c'], fs)
  {
    var e := derived[i].obn.value.unobserve;
    var derived' := derived[i := c'];
    var es := src.observers.entries;
    var es' := Unobserved(src, e).0.observers.entries;
    forall k | 0 <= k < |es'|
      ensures es'[k].value != i && es'[k].value < |derived| && derived'[es'[k].value] == derived[es'[k].value]
      ensures Active(derived[es'[k].value]) && derived[es'[k].value].obn.Some?
      ensures derived[es'[k].value].obn.value.unobserve == es'[k].id
    {
      if ka :| 0 <= ka < |es| && es[ka].id == e {
        CutSource(src, e, ka);
        CutAt(es, ka, k);
        var m := if k < ka then k else k + 1;
        assert es'[k] == es[m] && es[m].id != es[ka].id;
      } else {
        assert es' == es;
      }
    }
  }

  /**
   * Disposing a derived observer keeps the wiring, and the source is torn down
   * exactly when this disposal removed a live observer and left no derived
   * cell observed (__tests__/Functor.test.ts:26-30: the source's teardown runs
   * once, after the last disposal).
   */
  lemma {:induction false} MapUnobservedMirrors<A, B, D>(src: Cell<A, nat, D>, derived: seq<Cell<B, nat, nat>>, fs: seq<A -> B>,
                                                        i: nat, id: nat)
    requires Mirrors(src, derived, fs) && i < |derived|
    ensures var r := MapUnobserved(src, derived, fs, i, id);
            && Mirrors(r.0, r.1, fs)
            && (r.2.Some? <==> Attached(derived[i].observers, id) && forall j :: 0 <= j < |r.1| ==> !Active(r.1[j]))
  {
    var r := MapUnobserved(src, derived, fs, i, id);
    var (c', td) := Unobserved(derived[i], id);
    MapUnobservedPlumbed(src, derived, fs, i, id);
    if td.Some? {
      Unsubscribe(src, derived, fs, i, c');
    } else {
      forall j | 0 <= j < |r.1| && Active(r.1[j])
        ensures Subscribed(src.observers.entries, r.1[j].obn.value.unobserve, j)
      {
        assert Active(derived[j]);
      }
      if Attached(derived[i].observers, id) {
        assert Active(r.1[i]);
      }
    }
    ActiveSource(r.0, r.1, fs);
  }

  /** Derived cell `i` going idle and disposing its forwarding subscription keeps the wiring. */
  lemma {:induction false} Unsubscribe<A, B, D>(src: Cell<A, nat, D>, derived: seq<Cell<B, nat, nat>>, fs: seq<A -> B>,
                                               i: nat, c': Cell<B, nat, nat>)
    requires Mirrors(src, derived, fs) && i < |derived| && Active(derived[i])
    requires Lifecycle(c') && !Active(c')
    ensures Mirrors(Unobserved(src, derived[i].obn.value.unobserve).0, derived[i := c'], fs)
  {
    UnsubscribeForwards(src, derived, fs, i, c');
    UnsubscribeFollows(src, derived, fs, i, c');
  }

  /** The same disposal keeps every other active derived cell subscribed and in step with the source. */
  lemma {:induction false} UnsubscribeFollows<A, B, D>(src: Cell<A, nat, D>, derived: seq<Cell<B, nat, nat>>, fs: seq<A -> B>,
                                                      i: nat, c': Cell<B, nat, nat>)
    requires Mirrors(src, derived, fs) && i < |derived| && Active(derived[i])
    requires Lifecycle(c') && !Active(c')
    ensures Follows(Unobserved(src, derived[i].obn.value.unobserve).0, derived[i := c'], fs)
  {
    var e := derived[i].obn.value.unobserve;
    var derived' := derived[i := c'];
    var es := src.observers.entries;
    var ka :| 0 <= ka < |es| && es[ka] == Entry(e, i);
    var src' := Unobserved(src, e).0;
    CutSource(src, e, ka);
    assert src'.obn == src.obn && derived'[i] == c';
    forall j | 0 <= j < |derived'| && Active(derived'[j])
      ensures && derived'[j].obn.Some? && src'.obn.Some?
              && Subscribed(src'.observers.entries, derived'[j].obn.value.unobserve, j)
              && derived'[j].obn.value.state == fs[j](src'.obn.value.state)
    {
      assert j != i;
      CutSubscribed(es, ka, derived[j].obn.value.unobserve, j);
    }
  }

  /** Disposing the source entry at position `ka` cuts exactly that entry out. */
  lemma CutSource<A, D>(src: Cell<A, nat, D>, e: nat, ka: nat)
    requires Lifecycle(src) && ka < |src.observers.entries| && src.observers.entries[ka].id == e
    ensures var es := src.observers.entries; Unobserved(src, e).0.observers.entries == es[..ka] + es[ka + 1..]
  {
    assert Attached(src.observers, e);
  }

  /** An entry other than the cut one is still there after the cut. */
  lemma {:induction false} CutSubscribed(es: seq<Entry<nat>>, ka: nat, id: nat, j: nat)
    requires ka < |es| && Subscribed(es, id, j) && es[ka].value != j
    ensures Subscribed(es[..ka] + es[ka + 1..], id, j)
  {
    var k :| 0 <= k < |es| && es[k] == Entry(id, j);
    var k' := if k < ka then k else k - 1;
    CutAt(es, ka, k');
  }

  /** Each handler in `hs`, told `b`. */
  function Tell<B>(hs: seq<nat>, b: B): seq<Told<B>>
  {
    seq(|hs|, k requires 0 <= k < |hs| => (hs[k], b))
  }

  /**
   * What the observers of derived cells `js` hear when the source moves to
   * `v`, cell by cell in the order of `js`: a derived cell whose value `f(v)`
   * differs from the one it holds tells all its observers, in list order;
   * one whose value is unchanged tells nobody.
   */
  function Heard<A, B(==)>(derived: seq<Cell<B, nat, nat>>, fs: seq<A -> B>, js: seq<nat>, v: A): seq<Told<B>>
    requires |derived| == |fs|
    requires forall k :: 0 <= k < |js| ==> js[k] < |derived| && derived[js[k]].obn.Some?
  {
    if js == [] then []
    else
      var j := js[0];
      var b := fs[j](v);
      (if b != derived[j].obn.value.state then Tell(Values(derived[j].observers), b) else []) + Heard(derived, fs, js[1..], v)
  }

  /**
   * The forwarding cascade: the source notifies derived cells `js` (each
   * subscribed once) of its new state `v`, and each runs its handler
   * `src => update(() => f(src))` (Functor.ts:7), which notifies its own
   * observers at once. Returns the derived cells and what their observers
   * heard, in order.
   */
  function Forwarded<A, B(==)>(derived: seq<Cell<B, nat, nat>>, fs: seq<A -> B>, js: seq<nat>, v: A)
    : (r: (seq<Cell<B, nat, nat>>, seq<Told<B>>))
    requires |derived| == |fs| && AllLifecycle(derived)
    requires forall k :: 0 <= k < |js| ==> js[k] < |derived| && Active(derived[js[k]])
    requires forall a, b :: 0 <= a < b < |js| ==> js[a] != js[b]
    ensures |r.0| == |derived| && AllLifecycle(r.0)
    ensures forall j :: 0 <= j < |derived| ==>
              r.0[j] == if j in js then WithState(derived[j], fs[j](v)) else derived[j]
    ensures r.1 == Heard(derived, fs, js, v)
    decreases |js|
  {
    if js == [] then (derived, [])
    else
      var one := ForwardOne(derived, fs, js[0], v);
      ForwardTail(derived, one.0, js);
      var (rest, told) := Forwarded(one.0, fs, js[1..], v);
      HeardUnchanged(derived, one.0, fs, js[1..], v);
      ForwardStep(derived, one.0, fs, js, v, rest);
      (rest, one.1 + told)
  }

  /**
   * Derived cell `j` running its forwarding handler: `update(() => f(src))`
   * writes `f(v)` and tells its observers iff that changed its value.
   */
  function ForwardOne<A, B(==)>(derived: seq<Cell<B, nat, nat>>, fs: seq<A -> B>, j: nat, v: A)
    : (r: (seq<Cell<B, nat, nat>>, seq<Told<B>>))
    requires |derived| == |fs| && AllLifecycle(derived) && j < |derived| && Active(derived[j])
    ensures r.0 == derived[j := WithState(derived[j], fs[j](v))] && AllLifecycle(r.0)
    ensures r.1 == if fs[j](v) != derived[j].obn.value.state then Tell(Values(derived[j].observers), fs[j](v)) else []
  {
    var o := Updated(derived[j], _ => fs[j](v), None);
    assert o.cell == WithState(derived[j], fs[j](v));
    (derived[j := o.cell], Tell(o.notified, o.state))
  }

  /** After the first cell of `js` is updated, the rest of `js` still names distinct, active cells. */
  lemma {:induction false} ForwardTail<B>(derived: seq<Cell<B, nat, nat>>, d': seq<Cell<B, nat, nat>>, js: seq<nat>)
    requires js != [] && |d'| == |derived|
    requires forall k :: 0 <= k < |js| ==> js[k] < |derived| && Active(derived[js[k]])
    requires forall a, b :: 0 <= a < b < |js| ==> js[a] != js[b]
    requires forall i :: 0 <= i < |derived| && i != js[0] ==> d'[i] == derived[i]
    ensures forall k :: 0 <= k < |js[1..]| ==> js[1..][k] < |d'| && d'[js[1..][k]] == derived[js[1..][k]] && Active(d'[js[1..][k]])
    ensures forall a, b :: 0 <= a < b < |js[1..]| ==> js[1..][a] != js[1..][b]
  {
    forall k | 0 <= k < |js[1..]|
      ensures js[1..][k] < |d'| && d'[js[1..][k]] == derived[js[1..][k]]
    {
      assert js[1..][k] == js[k + 1];
    }
    forall a, b | 0 <= a < b < |js[1..]| ensures js[1..][a] != js[1..][b] {
      assert js[1..][a] == js[a + 1] && js[1..][b] == js[b + 1];
    }
  }

  /** One step of the cascade: updating cell `js[0]` first, then the rest, updates exactly the cells in `js`. */
  lemma {:induction false} ForwardStep<A, B>(derived: seq<Cell<B, nat, nat>>, d': seq<Cell<B, nat, nat>>, fs: seq<A -> B>,
                                             js: seq<nat>, v: A, rest: seq<Cell<B, nat, nat>>)
    requires |derived| == |fs| == |rest| && js != []
    requires forall k :: 0 <= k < |js| ==> js[k] < |derived| && derived[js[k]].obn.Some?
    requires forall a, b :: 0 <= a < b < |js| ==> js[a] != js[b]
    requires d' == derived[js[0] := WithState(derived[js[0]], fs[js[0]](v))]
    requires forall i :: 0 <= i < |d'| ==> rest[i] == if i in js[1..] then WithState(d'[i], fs[i](v)) else d'[i]
    ensures forall i :: 0 <= i < |derived| ==> rest[i] == if i in js then WithState(derived[i], fs[i](v)) else derived[i]
  {
    var j := js[0];
    forall i | 0 <= i < |derived|
      ensures rest[i] == if i in js then WithState(derived[i], fs[i](v)) else derived[i]
    {
      assert rest[i] == if i in js[1..] then WithState(d'[i], fs[i](v)) else d'[i];
      if i == j {
        forall k | 0 <= k < |js[1..]| ensures js[1..][k] != j {
          assert js[1..][k] == js[k + 1];
        }
        assert i !in js[1..];
      } else {
        assert js == [j] + js[1..];
        assert (i in js) == (i in js[1..]);
      }
    }
  }

  /** What the observers hear depends only on the derived cells in `js`. */
  lemma {:induction false} HeardUnchanged<A, B>(derived: seq<Cell<B, nat, nat>>, derived': seq<Cell<B, nat, nat>>,
                                                   fs: seq<A -> B>, js: seq<nat>, v: A)
    requires |derived| == |fs| == |derived'|
    requires forall k :: 0 <= k < |js| ==> js[k] < |derived| && derived[js[k]].obn.Some? && derived'[js[k]] == derived[js[k]]
    ensures Heard(derived', fs, js, v) == Heard(derived, fs, js, v)
    decreases |js|
  {
    if js != [] {
      HeardUnchanged(derived, derived', fs, js[1..], v);
    }
  }

  /**
   * When the source, its observers unchanged, has moved to a new state and
   * told every subscriber, the derived cells mirror the new state.
   */
  lemma {:induction false} ForwardedMirrors<A, B, D>(src: Cell<A, nat, D>, src': Cell<A, nat, D>, derived: seq<Cell<B, nat, nat>>, fs: seq<A -> B>)
    requires Mirrors(src, derived, fs)
    requires Lifecycle(src') && src'.observers == src.observers && src'.obn.Some?
    requires forall a, b :: 0 <= a < b < |src.observers.entries| ==> src.observers.entries[a].value != src.observers.entries[b].value
    ensures var fw := Forwarded(derived, fs, Values(src.observers), src'.obn.value.state); Mirrors(src', fw.0, fs)
  {
    var es := src.observers.entries;
    var js := Values(src.observers);
    var fw := Forwarded(derived, fs, js, src'.obn.value.state);
    forall k | 0 <= k < |es|
      ensures js[k] == es[k].value && fw.0[es[k].value] == WithState(derived[es[k].value], fs[es[k].value](src'.obn.value.state))
    {
      assert js[k] in js;
    }
    forall j | 0 <= j < |fw.0| && Active(fw.0[j])
      ensures j in js && fw.0[j] == WithState(derived[j], fs[j](src'.obn.value.state))
    {
    }
  }

  /**
   * `update(t)` on the source (Observable.ts:51-58) followed by the cascade
   * it triggers through the derived cells. Returns the source, the derived
   * cells, what the derived cells' observers heard and the source teardown
   * run, if any.
   */
  function Propagated<A(==), B(==), D>(src: Cell<A, nat, D>, derived: seq<Cell<B, nat, nat>>, fs: seq<A -> B>,
                                       t: A -> A, srcStarted: Option<Obn<A, D>>)
    : (r: (Cell<A, nat, D>, seq<Cell<B, nat, nat>>, seq<Told<B>>, Option<D>))
    requires Plumbed(src, derived, fs) && StartedFor(src, srcStarted)
    ensures r.0.observers == src.observers && |r.1| == |derived|
  {
    var o := Updated(src, t, srcStarted);
    TargetsDistinct(src, derived, fs);
    assert forall k :: 0 <= k < |o.notified| ==> o.notified[k] == src.observers.entries[k].value;
    var (derived', told) := Forwarded(derived, fs, o.notified, o.state);
    (o.cell, derived', told, o.teardown)
  }

  /** A source update keeps the structure: only the states of derived cells change. */
  lemma {:induction false} PropagatedPlumbed<A, B, D>(src: Cell<A, nat, D>, derived: seq<Cell<B, nat, nat>>, fs: seq<A -> B>,
                                                     t: A -> A, srcStarted: Option<Obn<A, D>>)
    requires Plumbed(src, derived, fs) && StartedFor(src, srcStarted)
    ensures var r := Propagated(src, derived, fs, t, srcStarted); Plumbed(r.0, r.1, fs)
  {
    var r := Propagated(src, derived, fs, t, srcStarted);
    forall k | 0 <= k < |src.observers.entries|
      ensures r.1[src.observers.entries[k].value].obn.Some?
      ensures r.1[src.observers.entries[k].value].obn.value.unobserve == src.observers.entries[k].id
    {
    }
  }

  /**
   * A source update keeps the wiring: afterwards every active derived cell
   * holds `f` of the new source state (__tests__/Functor.test.ts:21-24: the observers see
   * the message for the new count). The observers of the derived cells hear
   * exactly what `Heard` says for the source's subscribers, in list order,
   * and nothing when the source state did not change; the source is torn
   * down iff no derived cell is observed.
   */
  lemma {:induction false} PropagatedMirrors<A, B, D>(src: Cell<A, nat, D>, derived: seq<Cell<B, nat, nat>>, fs: seq<A -> B>,
                                                             t: A -> A, srcStarted: Option<Obn<A, D>>)
    requires Mirrors(src, derived, fs) && StartedFor(src, srcStarted)
    ensures var r := Propagated(src, derived, fs, t, srcStarted);
            && Mirrors(r.0, r.1, fs)
            && r.0.obn.Some?
            && r.2 == (if r.0.obn.value.state != Begun(src, srcStarted).obn.value.state
                       then Heard(derived, fs, Values(src.observers), r.0.obn.value.state) else [])
            && (r.3.Some? <==> forall j :: 0 <= j < |derived| ==> !Active(derived[j]))
  {
    ActiveSource(src, derived, fs);
    PropagatedPlumbed(src, derived, fs, t, srcStarted);
    PropagatedFollows(src, derived, fs, t, srcStarted);
    forall k | 0 <= k < |src.observers.entries|
      ensures Values(src.observers)[k] == src.observers.entries[k].value
    {
    }
  }

  /** After a source update every active derived cell holds its function of the new source state. */
  lemma {:induction false} PropagatedFollows<A, B, D>(src: Cell<A, nat, D>, derived: seq<Cell<B, nat, nat>>, fs: seq<A -> B>,
                                                     t: A -> A, srcStarted: Option<Obn<A, D>>)
    requires Mirrors(src, derived, fs) && StartedFor(src, srcStarted)
    ensures var r := Propagated(src, derived, fs, t, srcStarted); |r.1| == |fs| && Follows(r.0, r.1, fs)
  {
    var r := Propagated(src, derived, fs, t, srcStarted);
    PropagatedPlumbed(src, derived, fs, t, srcStarted);
    forall j | 0 <= j < |r.1| && Active(r.1[j])
      ensures r.1[j].obn.value.state == fs[j](r.0.obn.value.state)
    {
      PropagatedFollowsAt(src, derived, fs, t, srcStarted, j);
    }
  }

  /** The active derived cell `j` holds its function of the updated source state. */
  lemma {:induction false} PropagatedFollowsAt<A, B, D>(src: Cell<A, nat, D>, derived: seq<Cell<B, nat, nat>>, fs: seq<A -> B>,
                                                       t: A -> A, srcStarted: Option<Obn<A, D>>, j: nat)
    requires Mirrors(src, derived, fs) && StartedFor(src, srcStarted) && j < |derived|
    ensures var r := Propagated(src, derived, fs, t, srcStarted);
            Active(r.1[j]) ==> r.1[j].obn.Some? && r.0.obn.Some? && r.1[j].obn.value.state == fs[j](r.0.obn.value.state)
  {
    var r := Propagated(src, derived, fs, t, srcStarted);
    var o := Updated(src, t, srcStarted);
    PropagatedPlumbed(src, derived, fs, t, srcStarted);
    if Active(r.1[j]) {
      ActiveSource(src, derived, fs);
      var k :| 0 <= k < |src.observers.entries| && src.observers.entries[k] == Entry(derived[j].obn.value.unobserve, j);
      if o.state != Begun(src, srcStarted).obn.value.state {
        assert o.notified[k] == j;
      }
    }
  }

  /**
   * A derived cell whose function gives the same value before and after a
   * source update keeps its state and tells nobody, since `update` notifies
   * only on change (Observable.ts:53; __tests__/Functor.test.ts:49-57: moving
   * `y` leaves the observer of `x` uncalled, and the other way round).
   */
  lemma {:induction false} QuietUnlessChanged<A, B, D>(src: Cell<A, nat, D>, derived: seq<Cell<B, nat, nat>>, fs: seq<A -> B>,
                                                              t: A -> A, srcStarted: Option<Obn<A, D>>, j: nat)
    requires Mirrors(src, derived, fs) && StartedFor(src, srcStarted) && j < |derived| && Active(derived[j])
    requires var v := Updated(src, t, srcStarted).state; fs[j](v) == fs[j](src.obn.value.state)
    ensures var r := Propagated(src, derived, fs, t, srcStarted);
            && r.1[j] == derived[j]
            && Heard(derived, fs, [j], r.0.obn.value.state) == []
  {
    var r := Propagated(src, derived, fs, t, srcStarted);
    PropagatedMirrors(src, derived, fs, t, srcStarted);
    ActiveSource(src, derived, fs);
    assert WithState(derived[j], derived[j].obn.value.state) == derived[j];
  }

  /** The value of field `key` of a record, None for a missing field (`o[key]`, Functor.ts:11). */
  function Property<V>(key: string): map<string, V> -> Option<V>
  {
    o => if key in o then Some(o[key]) else None
  }

  /**
   * What `property(key)` reads from a record `o` (Functor.ts:11): a value exactly
   * when `o` has the field, and then the field's own value; writing a field and
   * reading it back gives the value written.
   */
  lemma PropertyReads<V>(key: string, o: map<string, V>, v: V)
    ensures Property(key)(o).Some? <==> key in o
    ensures key in o ==> Property(key)(o) == Some(o[key])
    ensures Property(key)(o[key := v]) == Some(v)
  {
  }

  /**
   * `fmap(f)(src)` (Functor.ts:3-9) adds a derived cell, numbered after the
   * existing ones. Building it calls nothing, since `observable` defers the
   * start to the first observer: the source is untouched and the wiring holds.
   */
  lemma {:induction false} FmapWired<A, B, D>(src: Cell<A, nat, D>, derived: seq<Cell<B, nat, nat>>, fs: seq<A -> B>, f: A -> B)
    requires Mirrors(src, derived, fs)
    ensures Mirrors(src, derived + [Fresh()], fs + [f])
  {
    var derived' := derived + [Fresh()];
    forall k | 0 <= k < |src.observers.entries|
      ensures derived'[src.observers.entries[k].value] == derived[src.observers.entries[k].value]
    {
    }
    forall j | 0 <= j < |derived'| && Active(derived'[j])
      ensures j < |derived| && derived'[j] == derived[j] && (fs + [f])[j] == fs[j]
    {
    }
  }
}
