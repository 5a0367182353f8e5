/**
 * The subscriber list of packages/observable/src/Chain.ts: a circular,
 * sentinel-anchored, doubly-linked list of callbacks.
 *
 * `List` is the abstract view (the attached entries in insertion order and the
 * handle the next `add` hands out); `Chain` is the linked structure itself, an
 * arena of nodes addressed by index whose node 0 is the sentinel `head`.
 */
module Chain {
  import opened Wrappers

  /** An attached node: its handle and the value it carries. */
  datatype Entry<T> = Entry(id: nat, value: T)

  /** Attached entries in insertion order; `nextId` is the handle of the next node. */
  datatype List<T> = List(entries: seq<Entry<T>>, nextId: nat)

  /** Handles are positive (0 is the sentinel), already issued, and increase along the list. */
  predicate WellFormed<T>(l: List<T>)
  {
    && l.nextId > 0
    && (forall i :: 0 <= i < |l.entries| ==> 0 < l.entries[i].id < l.nextId)
    && (forall i, j :: 0 <= i < j < |l.entries| ==> l.entries[i].id < l.entries[j].id)
  }

  predicate Attached<T>(l: List<T>, id: nat)
  {
    exists i :: 0 <= i < |l.entries| && l.entries[i].id == id
  }

  /** The values a full walk visits, in order. */
  function Values<T>(l: List<T>): seq<T>
  {
    seq(|l.entries|, i requires 0 <= i < |l.entries| => l.entries[i].value)
  }

  predicate IsEmpty<T>(l: List<T>)
  {
    l.entries == []
  }

  /** The list a fresh `chain()` starts with (Chain.ts:8-9). */
  function Empty<T>(): (l: List<T>)
    ensures WellFormed(l) && IsEmpty(l) && l.nextId == 1
  {
    List([], 1)
  }

  /** Position of the entry with handle `id`, if it is attached. */
  function IndexOf<T>(es: seq<Entry<T>>, id: nat): (r: Option<nat>)
    ensures r.Some? ==> r.value < |es| && es[r.value].id == id
    ensures r.None? ==> forall i :: 0 <= i < |es| ==> es[i].id != id
  {
    if es == [] then None
    else if es[|es| - 1].id == id then Some(|es| - 1)
    else IndexOf(es[..|es| - 1], id)
  }

  /** `add(value)` (Chain.ts:11-13): a new entry at the tail with a handle never issued before. */
  function Appended<T>(l: List<T>, v: T): (r: (List<T>, nat))
    requires WellFormed(l)
    ensures WellFormed(r.0)
    ensures !Attached(l, r.1) && Attached(r.0, r.1)
    ensures r.0.entries == l.entries + [Entry(r.1, v)]
    ensures r.1 < r.0.nextId
  {
    var es := l.entries + [Entry(l.nextId, v)];
    assert es[|l.entries|].id == l.nextId;
    (List(es, l.nextId + 1), l.nextId)
  }

  /**
   * The disposer returned by `add` (Chain.ts:14-22): detaches its own entry and
   * reports whether this call did so.
   */
  function Detached<T>(l: List<T>, id: nat): (r: (List<T>, bool))
    requires WellFormed(l)
    ensures WellFormed(r.0) && r.0.nextId == l.nextId
    ensures r.1 <==> Attached(l, id)
    ensures !Attached(r.0, id)
    ensures !r.1 ==> r.0 == l
    ensures r.1 ==> forall k :: 0 <= k < |l.entries| && l.entries[k].id == id ==>
                               r.0.entries == l.entries[..k] + l.entries[k + 1..]
  {
    match IndexOf(l.entries, id)
    case None => (l, false)
    case Some(k) =>
      CutEntry(l, k);
      (List(l.entries[..k] + l.entries[k + 1..], l.nextId), true)
  }

  /** Cutting the entry at `k` keeps the list well formed and leaves no entry with its handle, which no other entry had. */
  lemma CutEntry<T>(l: List<T>, k: nat)
    requires WellFormed(l) && k < |l.entries|
    ensures var cut := List(l.entries[..k] + l.entries[k + 1..], l.nextId);
            WellFormed(cut) && !Attached(cut, l.entries[k].id)
    ensures forall i :: 0 <= i < |l.entries| && l.entries[i].id == l.entries[k].id ==> i == k
  {
    var es := l.entries[..k] + l.entries[k + 1..];
    assert forall i :: 0 <= i < |es| ==> es[i] == l.entries[if i < k then i else i + 1];
    forall i | 0 <= i < |es| ensures es[i].id != l.entries[k].id {
      var j := if i < k then i else i + 1;
      assert es[i] == l.entries[j] && j != k;
    }
  }

  /** A second call of the same disposer returns false and changes nothing (Chain.ts:15, :21). */
  lemma DetachIdempotent<T>(l: List<T>, id: nat)
    requires WellFormed(l)
    ensures Detached(Detached(l, id).0, id) == (Detached(l, id).0, false)
  {
  }

  /** Disposing the entry just added gives back the entries that were there before. */
  lemma {:induction false} AppendThenDetach<T>(l: List<T>, v: T)
    requires WellFormed(l)
    ensures Detached(Appended(l, v).0, Appended(l, v).1).0.entries == l.entries
    ensures Detached(Appended(l, v).0, Appended(l, v).1).1
  {
    var (l1, id) := Appended(l, v);
    assert IndexOf(l1.entries, id) == Some(|l.entries|);
    assert l1.entries[..|l.entries|] == l.entries;
  }

  /** The links of the i-th attached node point at its neighbours, `head` (0) at both ends. */
  ghost predicate Linked(prev: seq<nat>, next: seq<nat>, order: seq<nat>, i: nat)
    requires i < |order|
  {
    && order[i] < |prev| && order[i] < |next|
    && next[order[i]] == (if i + 1 < |order| then order[i + 1] else 0)
    && prev[order[i]] == (if i == 0 then 0 else order[i - 1])
  }

  /**
   * The link invariant of a chain whose attached nodes, from `head.next` on,
   * are `order`: neighbours point at each other, `head` closes the circle, and
   * every other node is a self-loop (Chain.ts:9, :13, :16-18).
   */
  ghost predicate Links(prev: seq<nat>, next: seq<nat>, order: seq<nat>)
  {
    && |prev| == |next| > 0
    && Ascending(order, |prev|)
    && next[0] == (if order == [] then 0 else order[0])
    && prev[0] == (if order == [] then 0 else order[|order| - 1])
    && (forall i :: 0 <= i < |order| ==> Linked(prev, next, order, i))
    && (forall k :: 0 < k < |prev| && k !in order ==> prev[k] == k && next[k] == k)
  }

  /** Linking a new node in front of `head`, as `add` does (Chain.ts:12-13), keeps the invariant. */
  lemma {:induction false} Link(prev: seq<nat>, next: seq<nat>, order: seq<nat>)
    requires Links(prev, next, order)
    ensures var id, tail := |prev|, prev[0];
            Links((prev + [tail])[0 := id], (next + [0])[tail := id], order + [id])
  {
    var id, tail := |prev|, prev[0];
    var prev2 := (prev + [tail])[0 := id];
    var next2 := (next + [0])[tail := id];
    var o := order + [id];
    forall i, j | 0 <= i < j < |o| ensures o[i] < o[j] {
      if j == |order| { assert o[i] == order[i]; }
    }
    forall i | 0 <= i < |o| ensures Linked(prev2, next2, o, i) {
      if i < |order| {
        assert o[i] == order[i] && order[i] != 0;
        assert Linked(prev, next, order, i);
        if i + 1 < |order| {
          assert order[i] < order[|order| - 1];
        }
      } else {
        assert prev2[id] == tail;
      }
    }
    forall k | 0 < k < |prev2| && k !in o ensures prev2[k] == k && next2[k] == k {
      assert k != id && k !in order;
    }
  }

  /** The attached nodes once the k-th has been unlinked: `order` with position k cut out. */
  lemma CutAt<T>(order: seq<T>, k: nat, i: nat)
    requires k < |order| && i < |order| - 1
    ensures (order[..k] + order[k + 1..])[i] == order[if i < k then i else i + 1]
  {
  }

  /** After the k-th node is unlinked, every remaining node is still linked to its neighbours. */
  lemma {:induction false} UnlinkKeepsLinked(prev: seq<nat>, next: seq<nat>, order: seq<nat>, k: nat, i: nat)
    requires Links(prev, next, order) && k < |order| && i < |order| - 1
    ensures prev[order[k]] < |prev| && next[order[k]] < |prev|
    ensures var id := order[k];
            var p, n := prev[id], next[id];
            Linked(prev[n := p][id := id], next[p := n][id := id], order[..k] + order[k + 1..], i)
  {
    var id := order[k];
    assert Linked(prev, next, order, k);
    var p, n := prev[id], next[id];
    var o := order[..k] + order[k + 1..];
    var oi := if i < k then i else i + 1;
    CutAt(order, k, i);
    assert o[i] == order[oi] && order[oi] != id;
    assert Linked(prev, next, order, oi);
    if i + 1 < |o| {
      CutAt(order, k, i + 1);
    }
    if i > 0 {
      CutAt(order, k, i - 1);
    }
  }

  /** Node handles in `(0, bound)`, increasing along `order`. */
  ghost predicate Ascending(order: seq<nat>, bound: nat)
  {
    && (forall i :: 0 <= i < |order| ==> 0 < order[i] < bound)
    && (forall i, j :: 0 <= i < j < |order| ==> order[i] < order[j])
  }

  /** Cutting one position out of an ascending `order` leaves it ascending; the others stay in it. */
  lemma {:induction false} CutAscending(order: seq<nat>, bound: nat, k: nat)
    requires Ascending(order, bound) && k < |order|
    ensures Ascending(order[..k] + order[k + 1..], bound)
    ensures forall m :: 0 <= m < |order| && m != k ==> order[m] in order[..k] + order[k + 1..]
  {
    var o := order[..k] + order[k + 1..];
    forall i | 0 <= i < |o| ensures o[i] == order[if i < k then i else i + 1] {
      CutAt(order, k, i);
    }
    forall m | 0 <= m < |order| && m != k ensures order[m] in o {
      assert o[if m < k then m else m - 1] == order[m];
    }
  }

  /** Unlinking the k-th attached node, as the disposer does (Chain.ts:16-18), keeps the invariant. */
  lemma {:induction false} Unlink(prev: seq<nat>, next: seq<nat>, order: seq<nat>, k: nat)
    requires Links(prev, next, order) && k < |order|
    ensures prev[order[k]] < |prev| && next[order[k]] < |prev|
    ensures var id := order[k];
            var p, n := prev[id], next[id];
            Links(prev[n := p][id := id], next[p := n][id := id], order[..k] + order[k + 1..])
  {
    var id := order[k];
    assert Linked(prev, next, order, k);
    var p, n := prev[id], next[id];
    var prev2 := prev[n := p][id := id];
    var next2 := next[p := n][id := id];
    var o := order[..k] + order[k + 1..];
    assert Ascending(order, |prev|);
    CutAscending(order, |prev|, k);
    forall i | 0 <= i < |o| ensures Linked(prev2, next2, o, i) {
      UnlinkKeepsLinked(prev, next, order, k, i);
    }
    UnlinkSelfLoops(prev, next, order, k);
    UnlinkEnds(prev, next, order, k);
  }

  /** After unlinking, `head` still points at the first and the last attached node. */
  lemma {:induction false} UnlinkEnds(prev: seq<nat>, next: seq<nat>, order: seq<nat>, k: nat)
    requires Links(prev, next, order) && k < |order|
    ensures prev[order[k]] < |prev| && next[order[k]] < |prev|
    ensures var id := order[k];
            var p, n := prev[id], next[id];
            var o := order[..k] + order[k + 1..];
            && next[p := n][id := id][0] == (if o == [] then 0 else o[0])
            && prev[n := p][id := id][0] == (if o == [] then 0 else o[|o| - 1])
  {
    assert Linked(prev, next, order, k);
    var o := order[..k] + order[k + 1..];
    if o != [] {
      CutAt(order, k, 0);
      CutAt(order, k, |o| - 1);
    }
  }

  /** After unlinking, the unlinked node and every node detached before are self-loops. */
  lemma {:induction false} UnlinkSelfLoops(prev: seq<nat>, next: seq<nat>, order: seq<nat>, k: nat)
    requires Links(prev, next, order) && k < |order|
    ensures prev[order[k]] < |prev| && next[order[k]] < |prev|
    ensures var id := order[k];
            var p, n := prev[id], next[id];
            var prev2, next2 := prev[n := p][id := id], next[p := n][id := id];
            forall j :: 0 < j < |prev| && j !in order[..k] + order[k + 1..] ==> prev2[j] == j && next2[j] == j
  {
    var id := order[k];
    assert Linked(prev, next, order, k);
    var p, n := prev[id], next[id];
    var o := order[..k] + order[k + 1..];
    CutAscending(order, |prev|, k);
    forall j | 0 < j < |prev| && j !in o && j != id ensures j != p && j != n && j !in order {
      if k > 0 {
        assert o[k - 1] == p by { CutAt(order, k, k - 1); }
      }
      if k + 1 < |order| {
        assert o[k] == n by { CutAt(order, k, k); }
      }
    }
  }

  /** The list spelled out by the attached nodes `order`, node k > 0 carrying `vals[k - 1]`. */
  function View<T>(order: seq<nat>, vals: seq<T>, nextId: nat): List<T>
    requires forall i :: 0 <= i < |order| ==> 0 < order[i] <= |vals|
  {
    List(seq(|order|, i requires 0 <= i < |order| => Entry(order[i], vals[order[i] - 1])), nextId)
  }

  /** Cutting the k-th attached node out of `order` cuts the k-th entry out of the list. */
  lemma ViewCut<T>(order: seq<nat>, vals: seq<T>, nextId: nat, k: nat)
    requires Ascending(order, |vals| + 1)
    requires k < |order|
    ensures Ascending(order[..k] + order[k + 1..], |vals| + 1)
    ensures View(order[..k] + order[k + 1..], vals, nextId).entries ==
            View(order, vals, nextId).entries[..k] + View(order, vals, nextId).entries[k + 1..]
  {
    CutAscending(order, |vals| + 1, k);
    var o := order[..k] + order[k + 1..];
    forall i | 0 <= i < |o| ensures o[i] == order[if i < k then i else i + 1] {
      CutAt(order, k, i);
    }
  }

  /**
   * The linked structure of Chain.ts. Node 0 is the sentinel `head`; node k > 0
   * carries `vals[k - 1]`. `order` lists the attached nodes from `head.next`
   * onwards; a detached node links to itself.
   */
  class Chain<T> {
    var prev: seq<nat>
    var next: seq<nat>
    var vals: seq<T>
    ghost var order: seq<nat>

    ghost predicate Valid()
      reads this
    {
      |prev| == |vals| + 1 && Links(prev, next, order)
    }

    /** The abstract list the links spell out. */
    ghost function Model(): (l: List<T>)
      reads this
      requires Valid()
      ensures WellFormed(l)
    {
      View(order, vals, |prev|)
    }

    /** `chain()` (Chain.ts:7-9): only the sentinel, linked to itself. */
    constructor ()
      ensures Valid() && Model() == Empty()
      ensures prev[0] == 0 && next[0] == 0
    {
      prev, next, vals := [0], [0], [];
      order := [];
    }

    /** `add(value)` (Chain.ts:11-13): link a new node in front of `head`, i.e. at the tail. */
    method Add(v: T) returns (id: nat)
      requires Valid()
      modifies this
      ensures Valid()
      ensures (Model(), id) == Appended(old(Model()), v)
    {
      Link(prev, next, order);
      id := |prev|;
      var tail := prev[0];
      ghost var o, vs := order, vals;
      prev, next, vals := prev + [tail], next + [0], vals + [v];
      next := next[tail := id];
      prev := prev[0 := id];
      order := order + [id];
      forall i | 0 <= i < |o| ensures Model().entries[i] == old(Model()).entries[i] {
        assert order[i] == o[i] && vals[o[i] - 1] == vs[o[i] - 1];
      }
      assert Model().entries == old(Model()).entries + [Entry(id, v)];
    }

    /**
     * The disposer of node `id` (Chain.ts:14-22): unlink it and make it a
     * self-loop, unless it already is one.
     */
    method Dispose(id: nat) returns (removed: bool)
      requires Valid() && 0 < id < |prev|
      modifies this
      ensures Valid()
      ensures (Model(), removed) == Detached(old(Model()), id)
      ensures prev[id] == id && next[id] == id
    {
      if prev[id] != id {
        assert id in order;
        ghost var k :| 0 <= k < |order| && order[k] == id;
        Unlink(prev, next, order, k);
        ViewCut(order, vals, |prev|, k);
        assert old(Model()).entries[k].id == id;
        var p, n := prev[id], next[id];
        next := next[p := n];
        prev := prev[n := p];
        prev, next := prev[id := id], next[id := id];
        order := order[..k] + order[k + 1..];
        assert old(Model()).entries[k].id == id;
        removed := true;
      } else {
        removed := false;
        forall i | 0 <= i < |order| ensures prev[order[i]] < order[i] {
          assert Linked(prev, next, order, i);
          if i > 0 {
            assert order[i - 1] < order[i];
          }
        }
      }
    }

    /**
     * `forEach` (Chain.ts:25-31) for a callback that leaves the list alone:
     * the values in the order the walk hands them to the callback. Like the
     * source, the walk reads `iter.next` after the visit, so a callback that
     * detached the node being visited would leave `iter` on a self-loop; no
     * caller in this model does that.
     */
    method ForEach() returns (visited: seq<T>)
      requires Valid()
      ensures visited == Values(Model())
    {
      var iter := next[0];
      visited := [];
      ghost var k := 0;
      while iter != 0
        invariant 0 <= k <= |order|
        invariant iter == if k < |order| then order[k] else 0
        invariant visited == Values(Model())[..k]
        decreases |order| - k
      {
        assert Linked(prev, next, order, k);
        assert Values(Model())[..k + 1] == Values(Model())[..k] + [vals[iter - 1]];
        visited := visited + [vals[iter - 1]];
        iter := next[iter];
        k := k + 1;
      }
    }

    /** `isEmpty` (Chain.ts:33-35): the sentinel's back link points to itself. */
    method IsEmpty() returns (empty: bool)
      requires Valid()
      ensures empty <==> Model().entries == []
    {
      empty := prev[0] == 0;
    }
  }
}
