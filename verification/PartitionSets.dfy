/** What the partitions hold: every access once, and the weight of exactly what they hold. */
module PartitionSets {
  import opened Partition

  /** What an access weighs: the weight of the batch it came with. */
  function WeightOf(done: seq<Batch>, x: nat): nat {
    if done == [] then 0
    else if x in done[|done| - 1].idxs then done[|done| - 1].weight
    else WeightOf(done[..|done| - 1], x)
  }

  function Listed(done: seq<Batch>): set<nat> {
    if done == [] then {} else Listed(done[..|done| - 1]) + SetOf(done[|done| - 1].idxs)
  }

  /** The weights of the members of `s` added up. */
  ghost function Sum(done: seq<Batch>, s: set<nat>): nat {
    if s == {} then 0 else var x :| x in s; WeightOf(done, x) + Sum(done, s - {x})
  }

  predicate NoDups(s: seq<nat>) {
    forall i, j :: 0 <= i < j < |s| ==> s[i] != s[j]
  }

  lemma {:induction false} SumAdd(done: seq<Batch>, s: set<nat>, x: nat)
    requires x !in s
    ensures Sum(done, s + {x}) == Sum(done, s) + WeightOf(done, x)
    decreases |s|
  {
    var t := s + {x};
    var y :| y in t && Sum(done, t) == WeightOf(done, y) + Sum(done, t - {y});
    if y == x {
      assert t - {x} == s;
    } else {
      assert t - {y} == (s - {y}) + {x};
      SumAdd(done, s - {y}, x);
      assert s == (s - {y}) + {y};
      SumAdd(done, s - {y}, y);
    }
  }

  lemma {:induction false} SumSlice(done: seq<Batch>, s: set<nat>, xs: seq<nat>, w: nat)
    requires NoDups(xs) && s !! SetOf(xs) && forall x :: x in xs ==> WeightOf(done, x) == w
    ensures Sum(done, s + SetOf(xs)) == Sum(done, s) + |xs| * w
    decreases |xs|
  {
    if xs == [] {
      assert s + SetOf(xs) == s;
    } else {
      var n := |xs| - 1;
      LastOf(s, xs);
      hide SetOf, NoDups, Sum, WeightOf;
      SumSlice(done, s, xs[..n], w);
      SumAdd(done, s + SetOf(xs[..n]), xs[n]);
      OneMore(n, w);
    }
  }

  lemma LastOf(s: set<nat>, xs: seq<nat>)
    requires xs != [] && NoDups(xs) && s !! SetOf(xs)
    ensures var n := |xs| - 1;
      && NoDups(xs[..n]) && s !! SetOf(xs[..n]) && (forall x :: x in xs[..n] ==> x in xs)
      && s + SetOf(xs) == s + SetOf(xs[..n]) + {xs[n]} && xs[n] !in s + SetOf(xs[..n])
  {
    var n := |xs| - 1;
    assert xs == xs[..n] + [xs[n]];
  }

  lemma OneMore(n: nat, w: nat)
    ensures (n + 1) * w == n * w + w
  {
  }

  /** Later batches do not change the weight of what came before. */
  lemma {:induction false} SumLater(done: seq<Batch>, b: Batch, s: set<nat>)
    requires s !! SetOf(b.idxs)
    ensures Sum(done + [b], s) == Sum(done, s)
    decreases |s|
  {
    assert (done + [b])[..|done|] == done;
    if s != {} {
      var x :| x in s && Sum(done, s) == WeightOf(done, x) + Sum(done, s - {x});
      SumLater(done, b, s - {x});
      assert s == (s - {x}) + {x};
      SumAdd(done + [b], s - {x}, x);
    }
  }

  lemma ListedSnoc(done: seq<Batch>, b: Batch)
    ensures Listed(done + [b]) == Listed(done) + SetOf(b.idxs)
    ensures forall x :: x in b.idxs ==> WeightOf(done + [b], x) == b.weight
  {
    assert (done + [b])[..|done|] == done;
  }

  // ----- slices -----

  lemma {:induction false} SliceNoDups(idxs: seq<nat>, n: nat, r: nat)
    requires r < n && NoDups(idxs)
    ensures NoDups(Slice(idxs, n, r))
  {
    TakeSlice(idxs, n, r);
    hide Slice;
  }

  lemma {:induction false} SlicesApart(idxs: seq<nat>, n: nat, r: nat, s: nat)
    requires r < s < n && NoDups(idxs)
    ensures SetOf(Slice(idxs, n, r)) !! SetOf(Slice(idxs, n, s))
  {
    TakeSlice(idxs, n, r);
    TakeSlice(idxs, n, s);
    OffsetMono(|idxs|, n, r + 1, s);
    hide Slice, Offset, Share;
    var d, e := Offset(|idxs|, n, r), Offset(|idxs|, n, s);
    forall i, j | 0 <= i < |Slice(idxs, n, r)| && 0 <= j < |Slice(idxs, n, s)|
      ensures Slice(idxs, n, r)[i] != Slice(idxs, n, s)[j]
    {
      assert idxs[d + i] != idxs[e + j];
    }
  }

  lemma {:induction false} FindSlice(idxs: seq<nat>, n: nat, k: nat, hi: nat) returns (r: nat)
    requires n > 0 && hi <= n && k < Offset(|idxs|, n, hi) && k < |idxs|
    ensures r < hi && idxs[k] in Slice(idxs, n, r)
  {
    r := hi - 1;
    if k < Offset(|idxs|, n, r) {
      r := FindSlice(idxs, n, k, r);
    } else {
      TakeSlice(idxs, n, r);
      assert Slice(idxs, n, r)[k - Offset(|idxs|, n, r)] == idxs[k];
    }
  }

  // ----- the invariant -----

  predicate Disjoint(p: Parts) {
    forall i, j :: 0 <= i < j < |p.sets| ==> p.sets[i] !! p.sets[j]
  }

  /** Together the partitions hold exactly the accesses of the batches so far. */
  predicate Covers(done: seq<Batch>, p: Parts) {
    && (forall i :: 0 <= i < |p.sets| ==> p.sets[i] <= Listed(done))
    && (forall x :: x in Listed(done) ==> exists i :: 0 <= i < |p.sets| && x in p.sets[i])
  }

  ghost predicate Weighed(done: seq<Batch>, p: Parts) {
    |p.weights| == |p.sets| && forall i :: 0 <= i < |p.sets| ==> p.weights[i] == Sum(done, p.sets[i])
  }

  ghost predicate PartOk(done: seq<Batch>, p: Parts, n: nat) {
    Shaped(p, n) && Disjoint(p) && Covers(done, p) && Weighed(done, p)
  }

  /** The batch brings accesses that were not seen before. */
  predicate Fresh(done: seq<Batch>, b: Batch) {
    NoDups(b.idxs) && SetOf(b.idxs) !! Listed(done)
  }

  lemma {:induction false} PlaceOf(order: seq<nat>, was: Parts, p: nat) returns (r: nat)
    requires Shaped(was, |order|) && ArgSorted(was.weights, order) && p < |order|
    ensures r < |order| && order[r] == p
  {
    assert p in order;
    r :| 0 <= r < |order| && order[r] == p;
  }

  /** What a place has after the deal. */
  lemma {:induction false} Got(b: Batch, order: seq<nat>, was: Parts, now: Parts, r: nat)
    requires Dealt(b, order, was, now) && r < |order|
    ensures order[r] < |order|
    ensures now.sets[order[r]] == was.sets[order[r]] + SetOf(Slice(b.idxs, |order|, r))
    ensures now.weights[order[r]] == was.weights[order[r]] + Share(|b.idxs|, |order|, r) * b.weight
  {
    assert Served(b, order, was, now, r);
  }

  lemma {:induction false} DealDisjoint(done: seq<Batch>, b: Batch, order: seq<nat>, was: Parts, now: Parts)
    requires Shaped(was, |order|) && ArgSorted(was.weights, order) && Dealt(b, order, was, now)
    requires Disjoint(was) && Covers(done, was) && Fresh(done, b)
    ensures Disjoint(now)
  {
    assert |now.sets| == |was.sets| == |order|;
    forall i, j | 0 <= i < j < |order| ensures now.sets[i] !! now.sets[j] {
      var r := PlaceOf(order, was, i);
      var s := PlaceOf(order, was, j);
      Got(b, order, was, now, r);
      Got(b, order, was, now, s);
      if r < s { SlicesApart(b.idxs, |order|, r, s); } else { SlicesApart(b.idxs, |order|, s, r); }
      hide Dealt, ArgSorted, Slice;
      assert was.sets[i] !! was.sets[j];
      assert forall x :: x in SetOf(b.idxs) ==> x !in was.sets[i] && x !in was.sets[j];
    }
  }

  lemma {:induction false} DealCovers(done: seq<Batch>, b: Batch, order: seq<nat>, was: Parts, now: Parts)
    requires order != [] && Shaped(was, |order|) && ArgSorted(was.weights, order) && Dealt(b, order, was, now)
    requires Covers(done, was)
    ensures Covers(done + [b], now)
  {
    ListedSnoc(done, b);
    var n := |order|;
    assert |now.sets| == |was.sets| == n;
    hide Listed;
    forall i | 0 <= i < n ensures now.sets[i] <= Listed(done + [b]) {
      var r := PlaceOf(order, was, i);
      Got(b, order, was, now, r);
    }
    forall x | x in Listed(done + [b]) ensures exists i :: 0 <= i < n && x in now.sets[i] {
      if x in b.idxs {
        var k: nat :| k < |b.idxs| && b.idxs[k] == x;
        OffsetBounds(|b.idxs|, n, 0);
        var r := FindSlice(b.idxs, n, k, n);
        Got(b, order, was, now, r);
        assert x in now.sets[order[r]];
      } else {
        var i: nat :| i < n && x in was.sets[i];
        var r := PlaceOf(order, was, i);
        Got(b, order, was, now, r);
        assert x in now.sets[i];
      }
    }
  }

  lemma {:induction false} DealWeighed(done: seq<Batch>, b: Batch, order: seq<nat>, was: Parts, now: Parts)
    requires Shaped(was, |order|) && ArgSorted(was.weights, order) && Dealt(b, order, was, now)
    requires Covers(done, was) && Weighed(done, was) && Fresh(done, b)
    ensures Weighed(done + [b], now)
  {
    ListedSnoc(done, b);
    var n := |order|;
    assert |now.sets| == |was.sets| == n;
    forall i | 0 <= i < n ensures now.weights[i] == Sum(done + [b], now.sets[i]) {
      var r := PlaceOf(order, was, i);
      Got(b, order, was, now, r);
      SliceNoDups(b.idxs, n, r);
      assert was.sets[i] !! SetOf(b.idxs);
      SumLater(done, b, was.sets[i]);
      SumSlice(done + [b], was.sets[i], Slice(b.idxs, n, r), b.weight);
    }
  }

  /** Dealing out fresh accesses keeps the partitions disjoint, complete and correctly weighed. */
  lemma {:induction false} DealKeepsOk(done: seq<Batch>, b: Batch, order: seq<nat>, was: Parts, now: Parts)
    requires order != [] && ArgSorted(was.weights, order) && Dealt(b, order, was, now)
    requires PartOk(done, was, |order|) && Fresh(done, b)
    ensures PartOk(done + [b], now, |order|)
  {
    assert Shaped(now, |order|);
    DealDisjoint(done, b, order, was, now);
    DealCovers(done, b, order, was, now);
    DealWeighed(done, b, order, was, now);
  }
}
