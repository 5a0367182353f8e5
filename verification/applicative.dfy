/**
 * `join`, `pure` and `lift` of packages/observable/src/Applicative.ts.
 *
 * `join(obr)` is a cell whose start observes every source of the record
 * `obr`, key by key, and gathers their states into a record; each field's
 * subscription relays a source state `v` as `update(rec => ({...rec, [key]:
 * v}))`, and the teardown disposes every subscription, last key first. The
 * keys are a fixed sequence (the order `Object.keys` gives) and source `k`
 * is the observable of `keys[k]`; a source's observer list holds field
 * numbers, and the joined cell's teardown is the sequence of its
 * subscriptions' handles, in key order. `Joins` is the invariant that ties
 * the joined record to the sources.
 */
module Applicative {
  import opened Wrappers
  import opened Chain
  import opened Observable
  import opened Functor

  /** A source teardown that ran: (field number, the source's teardown). */
  type Released<D> = (nat, D)

  predicate Distinct<K(==)>(keys: seq<K>)
  {
    forall a, b :: 0 <= a < b < |keys| ==> keys[a] != keys[b]
  }

  predicate AllSources<V, D>(sources: seq<Cell<V, nat, D>>)
  {
    forall k :: 0 <= k < |sources| ==> Lifecycle(sources[k])
  }

  /**
   * The record holds exactly the keys, each bound to the state of its
   * source (every source of a started join has an observation).
   */
  ghost predicate Holds<K, V, D>(rec: map<K, V>, keys: seq<K>, sources: seq<Cell<V, nat, D>>)
    requires |sources| == |keys|
  {
    && rec.Keys == (set x | x in keys)
    && forall k :: 0 <= k < |keys| ==> sources[k].obn.Some? && rec[keys[k]] == sources[k].obn.value.state
  }

  /**
   * The structure of the join (Applicative.ts:11-24): while the joined cell
   * is observed, source `k` has exactly one observer, field `k`'s
   * subscription, whose handle is the `k`-th of the joined teardown; while it
   * is not, no source is observed.
   */
  predicate Tied<K, V, D>(sources: seq<Cell<V, nat, D>>, joined: Cell<map<K, V>, nat, seq<nat>>, keys: seq<K>)
  {
    && |sources| == |keys| && Lifecycle(joined) && AllSources(sources)
    && (Active(joined) ==>
          && joined.obn.Some? && |joined.obn.value.unobserve| == |keys|
          && forall k :: 0 <= k < |sources| ==> sources[k].observers.entries == [Entry(joined.obn.value.unobserve[k], k)])
    && (!Active(joined) ==> forall k :: 0 <= k < |sources| ==> !Active(sources[k]))
  }

  /** `Tied`, distinct keys, and an observed joined cell holds the record of the source states. */
  ghost predicate Joins<K, V, D>(sources: seq<Cell<V, nat, D>>, joined: Cell<map<K, V>, nat, seq<nat>>, keys: seq<K>)
  {
    && Tied(sources, joined, keys) && Distinct(keys)
    && (Active(joined) ==> Holds(joined.obn.value.state, keys, sources))
  }

  /** Every source must be consistent and `starts[k]` be what source `k`'s start returns, if it runs. */
  predicate Startable<V, D>(sources: seq<Cell<V, nat, D>>, starts: seq<Option<Obn<V, D>>>)
  {
    |sources| == |starts| && forall k :: 0 <= k < |sources| ==> Lifecycle(sources[k]) && StartedFor(sources[k], starts[k])
  }

  /**
   * What subscribing field `k` (Applicative.ts:12-14) does to source `k`: the
   * source afterwards, the state it reports and the subscription's handle.
   */
  function Subscriptions<V, D>(sources: seq<Cell<V, nat, D>>, starts: seq<Option<Obn<V, D>>>): (subs: seq<(Cell<V, nat, D>, V, nat)>)
    requires Startable(sources, starts)
    ensures |subs| == |sources|
  {
    seq(|sources|, k requires 0 <= k < |sources| && Startable(sources, starts) => Observed(sources[k], k, starts[k]))
  }

  /** The sources once the first `n` fields are subscribed. */
  function After<V, D>(sources: seq<Cell<V, nat, D>>, subs: seq<(Cell<V, nat, D>, V, nat)>, n: nat): seq<Cell<V, nat, D>>
    requires |subs| == |sources|
  {
    seq(|sources|, k requires 0 <= k < |sources| => if k < n then subs[k].0 else sources[k])
  }

  /** The handles of the first `n` subscriptions, in key order. */
  function Handles<V, D>(subs: seq<(Cell<V, nat, D>, V, nat)>, n: nat): seq<nat>
    requires n <= |subs|
  {
    seq(n, k requires 0 <= k < n => subs[k].2)
  }

  /** The record after the first `n` keys: each key's state written in turn (Applicative.ts:16). */
  function Record<K, V, C>(keys: seq<K>, subs: seq<(C, V, nat)>, n: nat): map<K, V>
    requires n <= |keys| == |subs|
  {
    if n == 0 then map[] else Record(keys, subs, n - 1)[keys[n - 1] := subs[n - 1].1]
  }

  /**
   * `join`'s first state (Applicative.ts:11-16; __tests__/Applicative.test.ts:17-18):
   * with distinct keys, the record holds exactly the keys seen so far, each
   * bound to the state its source reported to the field's subscription.
   */
  lemma {:induction false} RecordFields<K, V, C>(keys: seq<K>, subs: seq<(C, V, nat)>, n: nat)
    requires n <= |keys| == |subs| && Distinct(keys)
    ensures Record(keys, subs, n).Keys == (set x | x in keys[..n])
    ensures forall k :: 0 <= k < n ==> Record(keys, subs, n)[keys[k]] == subs[k].1
  {
    if n > 0 {
      RecordFields(keys, subs, n - 1);
      assert keys[..n] == keys[..n - 1] + [keys[n - 1]];
      forall k | 0 <= k < n - 1
        ensures keys[k] != keys[n - 1]
      {
      }
    }
  }

  /** One more field subscribed: the step of the reduce. */
  lemma SubscribeStep<V, D>(sources: seq<Cell<V, nat, D>>, subs: seq<(Cell<V, nat, D>, V, nat)>, n: nat)
    requires n < |sources| == |subs|
    ensures After(sources, subs, n)[n] == sources[n]
    ensures After(sources, subs, n)[n := subs[n].0] == After(sources, subs, n + 1)
    ensures Handles(subs, n) + [subs[n].2] == Handles(subs, n + 1)
  {
  }

  lemma RecordStep<K, V, C>(keys: seq<K>, subs: seq<(C, V, nat)>, n: nat)
    requires n < |keys| == |subs|
    ensures Record(keys, subs, n)[keys[n] := subs[n].1] == Record(keys, subs, n + 1)
  {
  }

  /**
   * The reduce of `join`'s start (Applicative.ts:11-25) as the loop it runs:
   * one pass over the keys in order, observing each source with its field's
   * handler, writing its state into the accumulated record and adding its
   * disposer to the chain. It computes what `JoinStarted` describes.
   */
  method JoinStart<K, V, D>(sources: seq<Cell<V, nat, D>>, keys: seq<K>, starts: seq<Option<Obn<V, D>>>)
    returns (sources': seq<Cell<V, nat, D>>, rec: map<K, V>, ids: seq<nat>)
    requires Startable(sources, starts) && |sources| == |keys|
    ensures (sources', Obn(rec, ids)) == JoinStarted(sources, keys, starts)
  {
    var subs := Subscriptions(sources, starts);
    sources', rec, ids := sources, map[], [];
    for n := 0 to |keys|
      invariant sources' == After(sources, subs, n)
      invariant rec == Record(keys, subs, n)
      invariant ids == Handles(subs, n)
    {
      SubscribeStep(sources, subs, n);
      RecordStep(keys, subs, n);
      var o := Observed(sources'[n], n, starts[n]);
      assert o == subs[n];
      sources' := sources'[n := o.0];
      rec := rec[keys[n] := o.1];
      ids := ids + [o.2];
    }
  }

  /**
   * What the joined cell's start does (Applicative.ts:10-25): the sources
   * once every field is subscribed, and the observation it returns, the
   * record of their states with the subscriptions' handles as its teardown.
   */
  function JoinStarted<K, V, D>(sources: seq<Cell<V, nat, D>>, keys: seq<K>, starts: seq<Option<Obn<V, D>>>)
    : (r: (seq<Cell<V, nat, D>>, Obn<map<K, V>, seq<nat>>))
    requires Startable(sources, starts) && |sources| == |keys|
    ensures |r.0| == |sources| && |r.1.unobserve| == |keys|
  {
    var subs := Subscriptions(sources, starts);
    (After(sources, subs, |keys|), Obn(Record(keys, subs, |keys|), Handles(subs, |keys|)))
  }

  /**
   * The join's start observes each source once, by its own field's handler,
   * and keeps that subscription's handle as the field's teardown
   * (Applicative.ts:13, 19-20).
   */
  lemma JoinStartedSubscribes<K, V, D>(sources: seq<Cell<V, nat, D>>, keys: seq<K>, starts: seq<Option<Obn<V, D>>>)
    requires Startable(sources, starts) && |sources| == |keys|
    ensures var r := JoinStarted(sources, keys, starts);
            forall k :: 0 <= k < |keys| ==>
              var o := Observed(sources[k], k, starts[k]); r.0[k] == o.0 && r.1.unobserve[k] == o.2
  {
  }

  /**
   * With distinct keys, the record the join's start begins at holds exactly
   * the keys, each bound to the state its source reported to the field's
   * subscription (Applicative.ts:11-16).
   */
  lemma JoinStartedFields<K, V, D>(sources: seq<Cell<V, nat, D>>, keys: seq<K>, starts: seq<Option<Obn<V, D>>>)
    requires Startable(sources, starts) && |sources| == |keys| && Distinct(keys)
    ensures var rec := JoinStarted(sources, keys, starts).1.state;
            && rec.Keys == (set x | x in keys)
            && forall k :: 0 <= k < |keys| ==> rec[keys[k]] == Observed(sources[k], k, starts[k]).1
  {
    var subs := Subscriptions(sources, starts);
    RecordFields(keys, subs, |keys|);
    assert keys[..|keys|] == keys;
  }

  /**
   * `join(obr).observe(cb)` (Observable.ts:45-50): an observed joined cell
   * just adds `cb`; an idle one first runs its start, which ignores the
   * previous state (`() => ...`, Applicative.ts:10) and subscribes every
   * field anew. Returns the sources, the joined cell, the record `cb` sees
   * and its handle.
   */
  function JoinObserved<K, V, D>(sources: seq<Cell<V, nat, D>>, joined: Cell<map<K, V>, nat, seq<nat>>, keys: seq<K>,
                                 cb: nat, starts: seq<Option<Obn<V, D>>>)
    : (r: (seq<Cell<V, nat, D>>, Cell<map<K, V>, nat, seq<nat>>, map<K, V>, nat))
    requires Tied(sources, joined, keys) && (!Active(joined) ==> Startable(sources, starts))
    ensures Lifecycle(r.1) && Active(r.1) && (r.1.observers, r.3) == Appended(joined.observers, cb)
    ensures r.1.obn.Some? && r.2 == r.1.obn.value.state
    ensures Active(joined) ==> r.0 == sources && r.1.obn == joined.obn
  {
    if Active(joined) then
      var o := Observed(joined, cb, None);
      (sources, o.0, o.1, o.2)
    else
      var st := JoinStarted(sources, keys, starts);
      var o := Observed(joined, cb, Some(st.1));
      (st.0, o.0, o.1, o.2)
  }

  /**
   * Observing the join keeps it joined, and the observer sees the record of
   * the current source states with exactly the keys of `obr`
   * (Applicative.ts:11-16; __tests__/Applicative.test.ts:17-18): the one the
   * cell already holds when it is observed, the one its start gathers from
   * the fresh subscriptions otherwise.
   */
  lemma {:induction false} JoinObservedJoins<K, V, D>(sources: seq<Cell<V, nat, D>>, joined: Cell<map<K, V>, nat, seq<nat>>, keys: seq<K>,
                                                      cb: nat, starts: seq<Option<Obn<V, D>>>)
    requires Joins(sources, joined, keys) && (!Active(joined) ==> Startable(sources, starts))
    ensures var r := JoinObserved(sources, joined, keys, cb, starts);
            && Joins(r.0, r.1, keys)
            && Holds(r.2, keys, r.0)
  {
    var r := JoinObserved(sources, joined, keys, cb, starts);
    if !Active(joined) {
      var subs := Subscriptions(sources, starts);
      var sources' := After(sources, subs, |keys|);
      RecordFields(keys, subs, |keys|);
      assert keys[..|keys|] == keys;
      forall k | 0 <= k < |keys|
        ensures sources'[k] == subs[k].0 && Lifecycle(sources'[k])
        ensures sources'[k].observers.entries == [Entry(Handles(subs, |keys|)[k], k)]
        ensures sources'[k].obn.Some? && sources'[k].obn.value.state == subs[k].1
      {
        assert sources[k].observers.entries == [];
      }
    }
  }

  /**
   * The field handlers `hs` of a source, told its new state `v`, each run
   * `update(rec => ({...rec, [key]: v}))` on the joined cell
   * (Applicative.ts:13-15), which notifies the joined cell's observers when
   * the record changes. Returns the joined cell and the handlers it notified,
   * in order.
   */
  function Relayed<K, V(==)>(joined: Cell<map<K, V>, nat, seq<nat>>, keys: seq<K>, hs: seq<nat>, v: V)
    : (r: (Cell<map<K, V>, nat, seq<nat>>, seq<nat>))
    requires Lifecycle(joined) && (hs != [] ==> Active(joined))
    requires forall i :: 0 <= i < |hs| ==> hs[i] < |keys|
    ensures Lifecycle(r.0) && r.0.observers == joined.observers
    ensures r.0.starts == joined.starts && r.0.teardowns == joined.teardowns
    ensures joined.obn.Some? ==> r.0.obn.Some? && r.0.obn.value.unobserve == joined.obn.value.unobserve
    ensures hs == [] ==> r == (joined, [])
    decreases |hs|
  {
    if hs == [] then (joined, [])
    else
      var o := Updated(joined, rec => rec[keys[hs[0]] := v], None);
      var rest := Relayed(o.cell, keys, hs[1..], v);
      (rest.0, o.notified + rest.1)
  }

  /**
   * `update(t)` on source `k` (Observable.ts:51-58): the source's handlers,
   * here the subscription of field `k` when the join is observed, relay the
   * new state into the joined record. Returns the sources, the joined cell,
   * the joined cell's observers notified (each is told its new record) and
   * the source's teardown, if it ran.
   */
  function FieldUpdated<K, V(==), D>(sources: seq<Cell<V, nat, D>>, joined: Cell<map<K, V>, nat, seq<nat>>, keys: seq<K>,
                                     k: nat, t: V -> V, started: Option<Obn<V, D>>)
    : (r: (seq<Cell<V, nat, D>>, Cell<map<K, V>, nat, seq<nat>>, seq<nat>, Option<D>))
    requires Tied(sources, joined, keys) && k < |sources| && StartedFor(sources[k], started)
    ensures |r.0| == |sources| && r.1.observers == joined.observers
    ensures r.1.starts == joined.starts && r.1.teardowns == joined.teardowns
    ensures joined.obn.Some? ==> r.1.obn.Some? && r.1.obn.value.unobserve == joined.obn.value.unobserve
    ensures r.2 == [] || (r.2 == Values(joined.observers) && r.1.obn.Some?)
  {
    var o := Updated(sources[k], t, started);
    assert Active(joined) ==> Values(sources[k].observers) == [k];
    var rel := Relayed(joined, keys, o.notified, o.state);
    (sources[k := o.cell], rel.0, rel.1, o.teardown)
  }

  /**
   * A source update keeps the join joined. While the join is observed, the
   * new record equals the old one except that field `k` holds the source's
   * new state, and when that state changed it reaches every observer of the
   * joined cell (Applicative.ts:13-15; __tests__/Applicative.test.ts:20-27):
   * the field held the old state, so the record changes, as the fresh object
   * of the source does under `!==`. An unchanged state reaches nobody. While
   * the join is idle the source starts and stops on its own and the joined
   * cell is untouched. No other source changes.
   */
  lemma {:induction false} FieldUpdatedJoins<K, V, D>(sources: seq<Cell<V, nat, D>>, joined: Cell<map<K, V>, nat, seq<nat>>, keys: seq<K>,
                                                      k: nat, t: V -> V, started: Option<Obn<V, D>>)
    requires Joins(sources, joined, keys) && k < |keys| && StartedFor(sources[k], started)
    ensures var r := FieldUpdated(sources, joined, keys, k, t, started);
            var v := r.0[k].obn.value.state;
            && Joins(r.0, r.1, keys)
            && r.0[k].obn.Some? && v == t(Begun(sources[k], started).obn.value.state)
            && (forall j :: 0 <= j < |sources| && j != k ==> r.0[j] == sources[j])
            && r.2 == (if Active(joined) && v != Begun(sources[k], started).obn.value.state then Values(joined.observers) else [])
            && (Active(joined) ==> r.1.obn.value.state == joined.obn.value.state[keys[k] := v])
            && (!Active(joined) ==> r.1 == joined)
            && (r.3.Some? <==> !Active(joined))
  {
    var r := FieldUpdated(sources, joined, keys, k, t, started);
    var o := Updated(sources[k], t, started);
    var before := Begun(sources[k], started).obn.value.state;
    if Active(joined) {
      assert Values(sources[k].observers) == [k];
      var rec := joined.obn.value.state;
      assert rec[keys[k]] == before;
      if o.state != before {
        assert rec[keys[k] := o.state] != rec by {
          assert rec[keys[k] := o.state][keys[k]] == o.state;
        }
      }
      forall j | 0 <= j < |keys| && j != k
        ensures keys[j] != keys[k]
      {
      }
      assert Holds(r.1.obn.value.state, keys, r.0);
    }
  }

  /**
   * The chained teardown of the first `n` fields (Applicative.ts:17-22): the
   * closure built at field `n - 1` disposes that field's subscription, then
   * calls the one built before it. Returns the sources and the source
   * teardowns that ran, in the order they ran.
   */
  function TornDown<V, D>(sources: seq<Cell<V, nat, D>>, ids: seq<nat>, n: nat): (r: (seq<Cell<V, nat, D>>, seq<Released<D>>))
    requires n <= |sources| && n <= |ids| && AllSources(sources)
    ensures |r.0| == |sources| && AllSources(r.0)
    ensures forall k :: n <= k < |sources| ==> r.0[k] == sources[k]
    decreases n
  {
    if n == 0 then (sources, [])
    else
      var o := Unobserved(sources[n - 1], ids[n - 1]);
      var rest := TornDown(sources[n - 1 := o.0], ids, n - 1);
      (rest.0, (if o.1.Some? then [(n - 1, o.1.value)] else []) + rest.1)
  }

  /** Every one of the first `n` sources torn down, last field first. */
  function Releases<V, D>(sources: seq<Cell<V, nat, D>>, n: nat): seq<Released<D>>
    requires n <= |sources| && forall k :: 0 <= k < n ==> sources[k].obn.Some?
  {
    seq(n, j requires 0 <= j < n => (n - 1 - j, sources[n - 1 - j].obn.value.unobserve))
  }

  /** A source whose only observer is the field's subscription goes idle when it leaves. */
  lemma SoleObserverLeaves<V, D>(c: Cell<V, nat, D>, id: nat, k: nat)
    requires Lifecycle(c) && c.observers.entries == [Entry(id, k)]
    ensures c.obn.Some?
    ensures var o := Unobserved(c, id);
            !Active(o.0) && o.1 == Some(c.obn.value.unobserve)
  {
    assert c.observers.entries[0].id == id;
    assert Attached(c.observers, id);
  }

  /** Releasing `n` sources is the last one, then the first `n - 1`. */
  lemma ReleasesStep<V, D>(sources: seq<Cell<V, nat, D>>, sources': seq<Cell<V, nat, D>>, n: nat)
    requires 0 < n <= |sources| == |sources'|
    requires forall k :: 0 <= k < n ==> sources[k].obn.Some?
    requires forall k :: 0 <= k < n - 1 ==> sources'[k] == sources[k]
    ensures Releases(sources, n) == [(n - 1, sources[n - 1].obn.value.unobserve)] + Releases(sources', n - 1)
  {
  }

  /** Each of the first `n` sources, in `after`, is what disposing its field's subscription left: idle. */
  ghost predicate AllReleased<V, D>(sources: seq<Cell<V, nat, D>>, ids: seq<nat>, after: seq<Cell<V, nat, D>>, n: nat)
    requires n <= |sources| && n <= |ids| && n <= |after| && AllSources(sources)
  {
    forall k :: 0 <= k < n ==> after[k] == Unobserved(sources[k], ids[k]).0 && !Active(after[k])
  }

  /** The last of `n` fields released on top of the first `n - 1`. */
  lemma AllReleasedStep<V, D>(sources: seq<Cell<V, nat, D>>, sources': seq<Cell<V, nat, D>>, ids: seq<nat>,
                              after: seq<Cell<V, nat, D>>, n: nat)
    requires 0 < n <= |sources| && n <= |ids| && |after| == |sources| && AllSources(sources)
    requires sources' == sources[n - 1 := Unobserved(sources[n - 1], ids[n - 1]).0] && AllSources(sources')
    requires AllReleased(sources', ids, after, n - 1)
    requires after[n - 1] == sources'[n - 1] && !Active(sources'[n - 1])
    ensures AllReleased(sources, ids, after, n)
  {
    forall k | 0 <= k < n
      ensures after[k] == Unobserved(sources[k], ids[k]).0 && !Active(after[k])
    {
      if k < n - 1 {
        assert sources'[k] == sources[k];
      }
    }
  }

  /**
   * When each of the first `n` sources has only its field's subscription,
   * the chained teardown disposes every one of them exactly once, in reverse
   * key order, and each runs its own teardown (Applicative.ts:17-22;
   * __tests__/Applicative.test.ts:29-32).
   */
  lemma {:induction false} TornDownReleases<V, D>(sources: seq<Cell<V, nat, D>>, ids: seq<nat>, n: nat)
    requires n <= |sources| && n <= |ids| && AllSources(sources)
    requires forall k :: 0 <= k < n ==> sources[k].observers.entries == [Entry(ids[k], k)]
    ensures forall k :: 0 <= k < n ==> sources[k].obn.Some?
    ensures var r := TornDown(sources, ids, n); AllReleased(sources, ids, r.0, n) && r.1 == Releases(sources, n)
    decreases n
  {
    forall k | 0 <= k < n
      ensures sources[k].obn.Some?
    {
      SoleObserverLeaves(sources[k], ids[k], k);
    }
    if n > 0 {
      var o := Unobserved(sources[n - 1], ids[n - 1]);
      SoleObserverLeaves(sources[n - 1], ids[n - 1], n - 1);
      var sources' := sources[n - 1 := o.0];
      TornDownReleases(sources', ids, n - 1);
      ReleasesStep(sources, sources', n);
      var rest := TornDown(sources', ids, n - 1);
      var r := TornDown(sources, ids, n);
      assert r == (rest.0, [(n - 1, o.1.value)] + rest.1);
      AllReleasedStep(sources, sources', ids, r.0, n);
    }
  }

  /**
   * `join(obr)`'s disposer (Observable.ts:48): it removes the observer,
   * and when that was the last one runs the join's teardown, which disposes
   * every field's subscription (Applicative.ts:17-22). Returns the sources,
   * the joined cell and the source teardowns that ran, in order.
   */
  function JoinUnobserved<K, V, D>(sources: seq<Cell<V, nat, D>>, joined: Cell<map<K, V>, nat, seq<nat>>, keys: seq<K>, id: nat)
    : (r: (seq<Cell<V, nat, D>>, Cell<map<K, V>, nat, seq<nat>>, seq<Released<D>>))
    requires Tied(sources, joined, keys)
    ensures |r.0| == |sources| && r.1 == Unobserved(joined, id).0
  {
    var o := Unobserved(joined, id);
    if o.1.Some? then
      assert Active(joined);
      var t := TornDown(sources, o.1.value, |keys|);
      (t.0, o.0, t.1)
    else (sources, o.0, [])
  }

  /**
   * Unobserving the join keeps it joined; when the last observer leaves,
   * every source is disposed once, last key first, and goes idle
   * (__tests__/Applicative.test.ts:29-32); otherwise no source is touched.
   */
  lemma JoinUnobservedJoins<K, V, D>(sources: seq<Cell<V, nat, D>>, joined: Cell<map<K, V>, nat, seq<nat>>, keys: seq<K>, id: nat)
    requires Joins(sources, joined, keys)
    ensures var r := JoinUnobserved(sources, joined, keys, id);
            && Joins(r.0, r.1, keys)
            && if Active(joined) && !Active(r.1) then
                 && r.2 == Releases(sources, |keys|)
                 && forall k :: 0 <= k < |keys| ==> !Active(r.0[k])
               else r.0 == sources && r.2 == []
  {
    var o := Unobserved(joined, id);
    if o.1.Some? {
      TornDownReleases(sources, joined.obn.value.unobserve, |keys|);
    }
  }

  /**
   * The start of `pure(s)` (Applicative.ts:29-30): whatever the previous
   * state, it holds `s`, with a teardown that does nothing.
   */
  function PureStart<S, H>(c: Cell<S, H, ()>, s: S): (started: Option<Obn<S, ()>>)
    requires Lifecycle(c)
    ensures StartedFor(c, started)
  {
    if StartCall(c).Some? then Some(Obn(s, ())) else None
  }

  /** What a `pure` observable exposes: observing it and disposing an observer. */
  datatype Visit<H> = Enter(h: H) | Leave(id: nat)

  /**
   * A run of visits on `pure(s)`: the cell afterwards and the states the
   * entering observers see, in order. `pure` hands out no `update`.
   */
  function PureRun<S, H>(c: Cell<S, H, ()>, s: S, visits: seq<Visit<H>>): (r: (Cell<S, H, ()>, seq<S>))
    requires Lifecycle(c)
    ensures Lifecycle(r.0)
    decreases |visits|
  {
    if visits == [] then (c, [])
    else match visits[0]
      case Enter(h) =>
        var o := Observed(c, h, PureStart(c, s));
        var rest := PureRun(o.0, s, visits[1..]);
        (rest.0, [o.1] + rest.1)
      case Leave(id) =>
        PureRun(Unobserved(c, id).0, s, visits[1..])
  }

  /** How many observers a run of visits brings. */
  function Enters<H>(visits: seq<Visit<H>>): nat
  {
    if visits == [] then 0 else (if visits[0].Enter? then 1 else 0) + Enters(visits[1..])
  }

  /** The cell has never held anything but `s`. */
  predicate Constant<S(==), H>(c: Cell<S, H, ()>, s: S)
  {
    Lifecycle(c) && (c.obn.Some? ==> c.obn.value.state == s)
  }

  /**
   * `pure(s)` is constant (__tests__/Applicative.test.ts:36-41): every
   * observer, at any point of any run, sees `s`, and the cell keeps holding
   * `s`; exactly one observer per `Enter` is reported.
   */
  lemma {:induction false} PureRunConstant<S, H>(c: Cell<S, H, ()>, s: S, visits: seq<Visit<H>>)
    requires Constant(c, s)
    ensures var r := PureRun(c, s, visits);
            && Constant(r.0, s)
            && |r.1| == Enters(visits)
            && forall i :: 0 <= i < |r.1| ==> r.1[i] == s
    decreases |visits|
  {
    if visits != [] {
      match visits[0]
      case Enter(h) =>
        var o := Observed(c, h, PureStart(c, s));
        PureRunConstant(o.0, s, visits[1..]);
      case Leave(id) =>
        PureRunConstant(Unobserved(c, id).0, s, visits[1..]);
    }
  }

  /**
   * `lift(f)(obr)` is `fmap(f)(join(obr))` (Applicative.ts:32-35): the
   * joined cell is the source of derived cells numbered by `fs`. The sources
   * are joined and the derived cells mirror the joined record.
   */
  ghost predicate Lifts<K, V, D, B>(sources: seq<Cell<V, nat, D>>, joined: Cell<map<K, V>, nat, seq<nat>>,
                                    derived: seq<Cell<B, nat, nat>>, fs: seq<map<K, V> -> B>, keys: seq<K>)
  {
    Joins(sources, joined, keys) && Mirrors(joined, derived, fs)
  }

  /**
   * `lift(f)(obr)` (Applicative.ts:32-35) makes a new joined cell and one
   * cell derived from it; over sources nobody observes, with distinct keys,
   * the lift holds from the start.
   */
  lemma LiftWired<K, V, D, B>(sources: seq<Cell<V, nat, D>>, keys: seq<K>, f: map<K, V> -> B)
    requires |sources| == |keys| && AllSources(sources) && Distinct(keys)
    requires forall k :: 0 <= k < |sources| ==> !Active(sources[k])
    ensures Lifts(sources, Fresh(), [Fresh()], [f], keys)
  {
  }

  /**
   * Observing lifted cell `i`: a derived cell that needs starting observes
   * the joined cell, which starts every source when it is idle itself.
   * Returns the sources, the joined cell, the derived cells, what `cb` sees
   * and its handle.
   */
  function LiftObserved<K, V, D, B>(sources: seq<Cell<V, nat, D>>, joined: Cell<map<K, V>, nat, seq<nat>>,
                                    derived: seq<Cell<B, nat, nat>>, fs: seq<map<K, V> -> B>, keys: seq<K>,
                                    i: nat, cb: nat, starts: seq<Option<Obn<V, D>>>)
    : (r: (seq<Cell<V, nat, D>>, Cell<map<K, V>, nat, seq<nat>>, seq<Cell<B, nat, nat>>, B, nat))
    requires Tied(sources, joined, keys) && Plumbed(joined, derived, fs) && i < |derived|
    requires !Active(derived[i]) && !Active(joined) ==> Startable(sources, starts)
    ensures |r.2| == |derived| && Active(r.2[i])
  {
    if !Active(derived[i]) && !Active(joined) then
      var st := JoinStarted(sources, keys, starts);
      var m := MapObserved(joined, derived, fs, i, cb, Some(st.1));
      (st.0, m.0, m.1, m.2, m.3)
    else
      var m := MapObserved(joined, derived, fs, i, cb, None);
      (sources, m.0, m.1, m.2, m.3)
  }

  /**
   * Observing a lifted cell keeps the lift, and the observer sees `f` of the
   * record of the current source states (__tests__/Applicative.test.ts:57-58).
   */
  lemma {:induction false} LiftObservedLifts<K, V, D, B>(sources: seq<Cell<V, nat, D>>, joined: Cell<map<K, V>, nat, seq<nat>>,
                                                         derived: seq<Cell<B, nat, nat>>, fs: seq<map<K, V> -> B>, keys: seq<K>,
                                                         i: nat, cb: nat, starts: seq<Option<Obn<V, D>>>)
    requires Lifts(sources, joined, derived, fs, keys) && i < |derived|
    requires !Active(derived[i]) && !Active(joined) ==> Startable(sources, starts)
    ensures var r := LiftObserved(sources, joined, derived, fs, keys, i, cb, starts);
            && Lifts(r.0, r.1, r.2, fs, keys)
            && r.1.obn.Some? && Holds(r.1.obn.value.state, keys, r.0)
            && r.3 == fs[i](r.1.obn.value.state)
  {
    var r := LiftObserved(sources, joined, derived, fs, keys, i, cb, starts);
    var srcStarted := if !Active(derived[i]) && !Active(joined) then Some(JoinStarted(sources, keys, starts).1) else None;
    MapObservedMirrors(joined, derived, fs, i, cb, srcStarted);
    if !Active(derived[i]) {
      JoinObservedJoins(sources, joined, keys, i, starts);
    } else {
      ActiveSource(joined, derived, fs);
    }
  }

  /**
   * `update(t)` on source `k` under a lift: the field relays the new state
   * into the joined record, and the joined cell's handlers, the lifted
   * cells, recompute `f` of the record and tell their own observers. Returns
   * the sources, the joined cell, the derived cells, what their observers
   * heard and the source's teardown, if it ran.
   */
  function LiftUpdated<K, V(==), D, B(==)>(sources: seq<Cell<V, nat, D>>, joined: Cell<map<K, V>, nat, seq<nat>>,
                                           derived: seq<Cell<B, nat, nat>>, fs: seq<map<K, V> -> B>, keys: seq<K>,
                                           k: nat, t: V -> V, started: Option<Obn<V, D>>)
    : (r: (seq<Cell<V, nat, D>>, Cell<map<K, V>, nat, seq<nat>>, seq<Cell<B, nat, nat>>, seq<Told<B>>, Option<D>))
    requires Tied(sources, joined, keys) && Plumbed(joined, derived, fs) && k < |sources| && StartedFor(sources[k], started)
    ensures |r.2| == |derived|
  {
    var u := FieldUpdated(sources, joined, keys, k, t, started);
    if u.2 == [] then (u.0, u.1, derived, [], u.3)
    else
      TargetsDistinct(joined, derived, fs);
      assert forall a :: 0 <= a < |u.2| ==> u.2[a] == joined.observers.entries[a].value;
      var fw := Forwarded(derived, fs, u.2, u.1.obn.value.state);
      (u.0, u.1, fw.0, fw.1, u.3)
  }

  /**
   * A source update keeps the lift; when the source state changed and the
   * lift is observed, the lifted cells' observers hear `f` of the new record,
   * which differs from the old one in field `k` only
   * (__tests__/Applicative.test.ts:60-67). An unchanged state reaches nobody.
   */
  lemma {:induction false} LiftUpdatedLifts<K, V, D, B>(sources: seq<Cell<V, nat, D>>, joined: Cell<map<K, V>, nat, seq<nat>>,
                                                        derived: seq<Cell<B, nat, nat>>, fs: seq<map<K, V> -> B>, keys: seq<K>,
                                                        k: nat, t: V -> V, started: Option<Obn<V, D>>)
    requires Lifts(sources, joined, derived, fs, keys) && k < |keys| && StartedFor(sources[k], started)
    ensures var r := LiftUpdated(sources, joined, derived, fs, keys, k, t, started);
            var before := Begun(sources[k], started).obn.value.state;
            && Lifts(r.0, r.1, r.2, fs, keys)
            && r.0[k].obn.Some?
            && r.3 == (if Active(joined) && r.0[k].obn.value.state != before
                       then Heard(derived, fs, Values(joined.observers), joined.obn.value.state[keys[k] := r.0[k].obn.value.state])
                       else [])
  {
    var u := FieldUpdated(sources, joined, keys, k, t, started);
    FieldUpdatedJoins(sources, joined, keys, k, t, started);
    TargetsDistinct(joined, derived, fs);
    if u.2 != [] {
      ForwardedMirrors(joined, u.1, derived, fs);
    } else if Active(joined) {
      var rec := joined.obn.value.state;
      assert rec[keys[k] := u.0[k].obn.value.state] == rec;
    }
  }

  /**
   * Disposing observer `id` of lifted cell `i`: when it was that cell's last
   * observer, the cell unsubscribes from the joined cell, and when that was
   * the joined cell's last observer, every source subscription is disposed.
   * Returns the sources, the joined cell, the derived cells and the source
   * teardowns that ran, in order.
   */
  function LiftUnobserved<K, V, D, B>(sources: seq<Cell<V, nat, D>>, joined: Cell<map<K, V>, nat, seq<nat>>,
                                      derived: seq<Cell<B, nat, nat>>, fs: seq<map<K, V> -> B>, keys: seq<K>,
                                      i: nat, id: nat)
    : (r: (seq<Cell<V, nat, D>>, Cell<map<K, V>, nat, seq<nat>>, seq<Cell<B, nat, nat>>, seq<Released<D>>))
    requires Tied(sources, joined, keys) && Plumbed(joined, derived, fs) && i < |derived|
    ensures |r.0| == |sources| && |r.2| == |derived|
  {
    var m := MapUnobserved(joined, derived, fs, i, id);
    if m.2.Some? then
      assert Active(joined);
      var t := TornDown(sources, m.2.value, |keys|);
      (t.0, m.0, m.1, t.1)
    else (sources, m.0, m.1, [])
  }

  /**
   * Disposing a lifted observer keeps the lift; when no lifted cell is
   * observed any more, every source has been disposed once, last key first,
   * and is idle (__tests__/Applicative.test.ts:69-72); otherwise no source
   * is touched.
   */
  lemma {:induction false} LiftUnobservedLifts<K, V, D, B>(sources: seq<Cell<V, nat, D>>, joined: Cell<map<K, V>, nat, seq<nat>>,
                                                           derived: seq<Cell<B, nat, nat>>, fs: seq<map<K, V> -> B>, keys: seq<K>,
                                                           i: nat, id: nat)
    requires Lifts(sources, joined, derived, fs, keys) && i < |derived|
    ensures var r := LiftUnobserved(sources, joined, derived, fs, keys, i, id);
            && Lifts(r.0, r.1, r.2, fs, keys)
            && if Active(joined) && !Active(r.1) then
                 && r.3 == Releases(sources, |keys|)
                 && forall k :: 0 <= k < |keys| ==> !Active(r.0[k])
               else r.0 == sources && r.3 == []
  {
    MapUnobservedMirrors(joined, derived, fs, i, id);
    var u := Unobserved(derived[i], id);
    if u.1.Some? {
      JoinUnobservedJoins(sources, joined, keys, derived[i].obn.value.unobserve);
    }
  }
}
