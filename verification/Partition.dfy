/**
 * The greedy balanced partition of memory accesses over a cluster: how one scope's accesses are
 * dealt out, the balance this keeps, and that every access goes to one partition.
 */
module Partition {

  /** The accesses found in one scope, and what each of them weighs. */
  datatype Batch = Batch(idxs: seq<nat>, weight: nat)

  // ----- dealing out one batch -----

  /** `order` lists the partitions, lightest first. */
  predicate ArgSorted(weights: seq<nat>, order: seq<nat>) {
    && |order| == |weights|
    && (forall r :: 0 <= r < |order| ==> order[r] < |weights|)
    && (forall q, r :: 0 <= q < r < |order| ==> order[q] != order[r])
    && (forall q, r :: 0 <= q < r < |order| ==> weights[order[q]] <= weights[order[r]])
    && (forall p :: 0 <= p < |weights| ==> p in order)
  }

  /** How many of `m` accesses the partition in place `r` gets: the remainder goes to the first places. */
  function Share(m: nat, n: nat, r: nat): nat
    requires n > 0
  {
    if r < m % n then m / n + 1 else m / n
  }

  /** How many the places before `r` get. */
  function Offset(m: nat, n: nat, r: nat): (d: nat)
    requires n > 0
  {
    if r == 0 then 0 else Offset(m, n, r - 1) + Share(m, n, r - 1)
  }

  lemma {:induction false} OffsetValue(m: nat, n: nat, r: nat)
    requires n > 0 && r <= n
    ensures Offset(m, n, r) == r * (m / n) + (if r < m % n then r else m % n)
  {
    if r > 0 {
      OffsetValue(m, n, r - 1);
      assert r * (m / n) == (r - 1) * (m / n) + m / n;
    }
  }

  lemma {:induction false} OffsetBounds(m: nat, n: nat, r: nat)
    requires n > 0 && r < n
    ensures Offset(m, n, r + 1) == Offset(m, n, r) + Share(m, n, r) <= m
    ensures Offset(m, n, n) == m
  {
    OffsetValue(m, n, n);
    assert m == n * (m / n) + m % n;
    OffsetMono(m, n, r + 1, n);
  }

  lemma {:induction false} OffsetMono(m: nat, n: nat, q: nat, r: nat)
    requires n > 0 && q <= r
    ensures Offset(m, n, q) <= Offset(m, n, r)
    decreases r
  {
    if q < r { OffsetMono(m, n, q, r - 1); }
  }

  function SetOf(s: seq<nat>): set<nat> {
    set x | x in s
  }

  /** The slice the partition in place `r` gets. */
  function Slice(idxs: seq<nat>, n: nat, r: nat): (s: seq<nat>)
    requires r < n
    ensures |s| == Share(|idxs|, n, r) && forall k :: 0 <= k < |s| ==> s[k] in idxs
  {
    OffsetBounds(|idxs|, n, r);
    idxs[Offset(|idxs|, n, r)..Offset(|idxs|, n, r + 1)]
  }

  datatype Parts = Parts(sets: seq<set<nat>>, weights: seq<nat>)

  predicate Shaped(p: Parts, n: nat) { |p.sets| == n && |p.weights| == n }

  /** Place `r` has been served. */
  predicate Served(b: Batch, order: seq<nat>, was: Parts, now: Parts, r: nat)
    requires r < |order| && order[r] < |was.sets| && Shaped(was, |order|) && Shaped(now, |order|)
  {
    && now.sets[order[r]] == was.sets[order[r]] + SetOf(Slice(b.idxs, |order|, r))
    && now.weights[order[r]] == was.weights[order[r]] + Share(|b.idxs|, |order|, r) * b.weight
  }

  predicate Waiting(order: seq<nat>, was: Parts, now: Parts, r: nat)
    requires r < |order| && order[r] < |was.sets| && Shaped(was, |order|) && Shaped(now, |order|)
  {
    now.sets[order[r]] == was.sets[order[r]] && now.weights[order[r]] == was.weights[order[r]]
  }

  predicate Dealt(b: Batch, order: seq<nat>, was: Parts, now: Parts) {
    && Shaped(was, |order|) && Shaped(now, |order|)
    && forall r :: 0 <= r < |order| ==> order[r] < |was.sets| && Served(b, order, was, now, r)
  }

  /** The places before `i` have been served, the others wait. */
  predicate UpTo(b: Batch, order: seq<nat>, was: Parts, now: Parts, i: nat) {
    && Shaped(was, |order|) && Shaped(now, |order|)
    && (forall r :: 0 <= r < |order| ==> order[r] < |order|)
    && (forall r :: 0 <= r < i <= |order| ==> Served(b, order, was, now, r))
    && (forall r :: i <= r < |order| ==> Waiting(order, was, now, r))
  }

  function Give(p: Parts, k: nat, xs: seq<nat>, w: nat): Parts
    requires k < |p.sets| && k < |p.weights|
  {
    Parts(p.sets[k := p.sets[k] + SetOf(xs)], p.weights[k := p.weights[k] + w])
  }

  function Total(ws: seq<nat>): nat { if ws == [] then 0 else ws[0] + Total(ws[1..]) }

  lemma {:induction false} TotalSet(ws: seq<nat>, k: nat, d: nat)
    requires k < |ws|
    ensures Total(ws[k := ws[k] + d]) == Total(ws) + d
  {
    var vs := ws[k := ws[k] + d];
    if k > 0 {
      TotalSet(ws[1..], k - 1, d);
      assert vs[1..] == ws[1..][k - 1 := ws[1..][k - 1] + d];
    } else {
      assert vs[1..] == ws[1..];
    }
  }

  /** One turn of a dealing loop: the next `size` accesses go to the partition in place `i`. */
  method DealPlace(b: Batch, order: seq<nat>, was: Parts, now: Parts, i: nat, size: nat, dl: nat)
    returns (now': Parts, dl': nat)
    requires ArgSorted(was.weights, order) && i < |order| && UpTo(b, order, was, now, i)
    requires size == Share(|b.idxs|, |order|, i) && dl == Offset(|b.idxs|, |order|, i)
    ensures UpTo(b, order, was, now', i + 1) && dl' == Offset(|b.idxs|, |order|, i + 1)
    ensures Total(now'.weights) == Total(now.weights) + size * b.weight && dl' == dl + size
  {
    assert order[i] < |now.sets| && order[i] < |now.weights|;
    hide Slice, Offset, ArgSorted, UpTo, Share;
    TakeSlice(b.idxs, |order|, i);
    Serve(b, order, was, now, i);
    TotalSet(now.weights, order[i], size * b.weight);
    now' := Give(now, order[i], b.idxs[dl..dl + size], size * b.weight);
    dl' := dl + size;
  }

  /** The two dealing loops: one more access to each of the first places, then the rest. */
  method Deal(b: Batch, order: seq<nat>, was: Parts) returns (now: Parts)
    requires order != [] && Shaped(was, |order|) && ArgSorted(was.weights, order)
    ensures Dealt(b, order, was, now)
    ensures Total(now.weights) == Total(was.weights) + |b.idxs| * b.weight
  {
    hide *;
    var n, m := |order|, |b.idxs|;
    var lp := m / n;
    var hp := lp + 1;
    var numHp := m - lp * n;
    var dl := 0;
    now := was;
    NoneServed(b, order, was);
    Remainder(m, n, numHp);
    for i := 0 to numHp
      invariant dl == Offset(m, n, i) && UpTo(b, order, was, now, i)
      invariant Given(was, now, dl, b.weight)
    {
      GivenStep(was, now, dl, hp, b.weight);
      now, dl := DealPlace(b, order, was, now, i, hp, dl);
    }
    for i := numHp to n
      invariant dl == Offset(m, n, i) && UpTo(b, order, was, now, i)
      invariant Given(was, now, dl, b.weight)
    {
      GivenStep(was, now, dl, lp, b.weight);
      now, dl := DealPlace(b, order, was, now, i, lp, dl);
    }
    OffsetBounds(m, n, 0);
    GivenNow(was, now, m, b.weight);
    AllServed(b, order, was, now);
  }

  /** `k` accesses have been added, each of weight `w`. */
  predicate Given(was: Parts, now: Parts, k: nat, w: nat) { Total(now.weights) == Total(was.weights) + k * w }

  lemma GivenStep(was: Parts, now: Parts, a: nat, b: nat, w: nat)
    requires Given(was, now, a, w)
    ensures forall after: Parts :: Total(after.weights) == Total(now.weights) + b * w ==> Given(was, after, a + b, w)
  {
    hide Total;
    assert (a + b) * w == a * w + b * w;
  }

  lemma GivenNow(was: Parts, now: Parts, k: nat, w: nat)
    requires Given(was, now, k, w)
    ensures Total(now.weights) == Total(was.weights) + k * w
  {
    hide Total;
  }

  lemma Remainder(m: nat, n: nat, numHp: int)
    requires n > 0 && numHp == m - m / n * n
    ensures 0 <= numHp < n
    ensures forall i: nat :: Share(m, n, i) == if i < numHp then m / n + 1 else m / n
  {
    assert numHp == m % n;
  }

  lemma NoneServed(b: Batch, order: seq<nat>, was: Parts)
    requires order != [] && Shaped(was, |order|) && ArgSorted(was.weights, order)
    ensures UpTo(b, order, was, was, 0) && Offset(|b.idxs|, |order|, 0) == 0 && Given(was, was, 0, b.weight)
  {
    hide Total;
  }

  lemma AllServed(b: Batch, order: seq<nat>, was: Parts, now: Parts)
    requires UpTo(b, order, was, now, |order|)
    ensures Dealt(b, order, was, now)
  {
    hide Served, Waiting;
  }

  lemma TakeSlice(idxs: seq<nat>, n: nat, i: nat)
    requires i < n
    ensures var d := Offset(|idxs|, n, i);
      && d + Share(|idxs|, n, i) == Offset(|idxs|, n, i + 1) <= |idxs|
      && Slice(idxs, n, i) == idxs[d..d + Share(|idxs|, n, i)]
  {
    OffsetBounds(|idxs|, n, i);
    hide Offset;
  }

  lemma {:induction false} Serve(b: Batch, order: seq<nat>, was: Parts, now: Parts, i: nat)
    requires ArgSorted(was.weights, order) && i < |order| && UpTo(b, order, was, now, i)
    ensures var after := Give(now, order[i], Slice(b.idxs, |order|, i), Share(|b.idxs|, |order|, i) * b.weight);
            Shaped(after, |order|) && UpTo(b, order, was, after, i + 1)
  {
    hide Slice, SetOf, Share;
    var after := Give(now, order[i], Slice(b.idxs, |order|, i), Share(|b.idxs|, |order|, i) * b.weight);
    forall r | 0 <= r < i + 1 ensures Served(b, order, was, after, r) {
      if r == i {
        assert Waiting(order, was, now, i);
      } else {
        assert Served(b, order, was, now, r) && order[r] != order[i];
      }
    }
    forall r | i + 1 <= r < |order| ensures Waiting(order, was, after, r) {
      assert Waiting(order, was, now, r) && order[i] != order[r];
    }
  }

  // ----- balance -----

  /** No partition is heavier than another by more than `bound`. */
  predicate Balanced(weights: seq<nat>, bound: nat) {
    forall p, q :: 0 <= p < |weights| && 0 <= q < |weights| ==> weights[p] - weights[q] <= bound
  }

  /** A batch that divides evenly leaves all gaps alone; any other one keeps them within its weight. */
  function Widened(bound: nat, b: Batch, n: nat): nat
    requires n > 0
  {
    if |b.idxs| % n == 0 || b.weight <= bound then bound else b.weight
  }

  lemma {:induction false} DealKeepsBalance(b: Batch, order: seq<nat>, was: Parts, now: Parts, bound: nat)
    requires order != [] && Shaped(was, |order|) && ArgSorted(was.weights, order)
    requires Dealt(b, order, was, now) && Balanced(was.weights, bound)
    ensures Balanced(now.weights, Widened(bound, b, |order|))
  {
    assert |now.weights| == |order|;
    assert forall p :: 0 <= p < |order| ==> p in order;
    hide Dealt, ArgSorted, Served, Widened;
    forall p, q | 0 <= p < |order| && 0 <= q < |order|
      ensures now.weights[p] - now.weights[q] <= Widened(bound, b, |order|)
    {
      assert p in order && q in order;
      var r: nat :| r < |order| && order[r] == p;
      var s: nat :| s < |order| && order[s] == q;
      DealtGap(b, order, was, now, bound, r, s);
    }
  }

  lemma {:induction false} DealtGap(b: Batch, order: seq<nat>, was: Parts, now: Parts, bound: nat, r: nat, s: nat)
    requires order != [] && Shaped(was, |order|) && ArgSorted(was.weights, order)
    requires Dealt(b, order, was, now) && Balanced(was.weights, bound)
    requires r < |order| && s < |order|
    ensures |now.weights| == |order| && order[r] < |order| && order[s] < |order|
    ensures now.weights[order[r]] - now.weights[order[s]] <= Widened(bound, b, |order|)
  {
    hide Slice, SetOf, Share;
    assert Served(b, order, was, now, r) && Served(b, order, was, now, s);
    var x, y := was.weights[order[r]], was.weights[order[s]];
    assert x - y <= bound && (r < s ==> x <= y);
    hide ArgSorted, Dealt, Balanced;
    TwoPlaces(|b.idxs|, |order|, b.weight, r, s, x, y, bound);
  }

  lemma {:induction false} TwoPlaces(m: nat, n: nat, w: nat, r: nat, s: nat, x: nat, y: nat, bound: nat)
    requires n > 0 && x - y <= bound && (r < s ==> x <= y)
    ensures x + Share(m, n, r) * w - (y + Share(m, n, s) * w)
         <= if m % n == 0 || w <= bound then bound else w
  {
    var k := m / n;
    assert (k + 1) * w == k * w + w;
  }

  // ----- the order in which partitions are served -----

  /** The first `k` partitions in order of weight; where equals end up is left open. */
  predicate PartSorted(weights: seq<nat>, order: seq<nat>, k: nat) {
    && |order| == k <= |weights|
    && (forall r :: 0 <= r < k ==> order[r] < k)
    && (forall q, r :: 0 <= q < r < k ==> order[q] != order[r])
    && (forall q, r :: 0 <= q < r < k ==> weights[order[q]] <= weights[order[r]])
    && (forall p :: 0 <= p < k ==> p in order)
  }

  function Inserted(order: seq<nat>, k: nat, j: nat): (o: seq<nat>)
    requires j <= |order|
    ensures |o| == |order| + 1
    ensures forall r {:trigger o[r]} :: 0 <= r < j ==> o[r] == order[r]
    ensures o[j] == k
    ensures forall r {:trigger o[r]} :: j < r < |o| ==> o[r] == order[r - 1]
  {
    order[..j] + [k] + order[j..]
  }

  lemma {:induction false} Insert(weights: seq<nat>, order: seq<nat>, k: nat, j: nat)
    requires PartSorted(weights, order, k) && k < |weights| && j <= k
    requires forall r :: 0 <= r < j ==> weights[order[r]] <= weights[k]
    requires j < k ==> weights[order[j]] > weights[k]
    ensures PartSorted(weights, Inserted(order, k, j), k + 1)
  {
    hide Inserted;
    var o := Inserted(order, k, j);
    assert forall r :: 0 <= r < k + 1 ==> o[r] < k + 1;
    assert j < k ==> forall r :: j < r < k ==> weights[order[j]] <= weights[order[r]];
    forall q, r | 0 <= q < r < k + 1 ensures o[q] != o[r] && weights[o[q]] <= weights[o[r]] {
      var q', r' := if q < j then q else q - 1, if r < j then r else r - 1;
      assert q != j && r != j ==> order[q'] != order[r'] && weights[order[q']] <= weights[order[r']];
    }
    InsertOnto(order, k, j);
  }

  lemma {:induction false} InsertOnto(order: seq<nat>, k: nat, j: nat)
    requires j <= |order| == k && forall p :: 0 <= p < k ==> p in order
    ensures forall p :: 0 <= p < k + 1 ==> p in Inserted(order, k, j)
  {
    var o := Inserted(order, k, j);
    hide Inserted;
    forall p | 0 <= p < k + 1 ensures p in o {
      if p == k {
        assert o[j] == k;
      } else {
        assert p in order;
        var r: nat :| r < k && order[r] == p;
        assert o[if r < j then r else r + 1] == p;
      }
    }
  }

  /** Positions sorted by weight, as a library sort may return them. */
  method ArgSort(weights: seq<nat>) returns (order: seq<nat>)
    ensures ArgSorted(weights, order)
  {
    order := [];
    for k := 0 to |weights|
      invariant PartSorted(weights, order, k)
    {
      var j := 0;
      while j < k && weights[order[j]] <= weights[k]
        invariant j <= k && forall r :: 0 <= r < j ==> weights[order[r]] <= weights[k]
      {
        j := j + 1;
      }
      Insert(weights, order, k, j);
      order := Inserted(order, k, j);
    }
  }
}
