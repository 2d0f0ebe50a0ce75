/** The partitioning loop over functions and scopes, and the balance it keeps after every scope. */
module PartitionMain {
  import opened Scopes
  import opened ScopeTree
  import opened Partition
  import opened PartitionSets
  import opened PartitionScopes
  import opened PartitionRun
  import opened PartitionAll

  /** How far apart partitions may be after the batches so far. */
  function BoundOf(done: seq<Batch>, n: nat): nat
    requires n > 0
  {
    if done == [] then 0 else Widened(BoundOf(done[..|done| - 1], n), done[|done| - 1], n)
  }

  /** The bound is the largest weight among the batches that did not divide evenly. */
  lemma {:induction false} BoundIsLargest(done: seq<Batch>, n: nat)
    requires n > 0
    ensures forall b :: b in done && |b.idxs| % n != 0 ==> b.weight <= BoundOf(done, n)
    ensures BoundOf(done, n) == 0
      || exists b :: b in done && |b.idxs| % n != 0 && b.weight == BoundOf(done, n)
  {
    if done != [] {
      var init, last := done[..|done| - 1], done[|done| - 1];
      BoundIsLargest(init, n);
      assert done == init + [last];
      assert forall b :: b in done <==> b in init || b == last;
    }
  }

  /** What has been handed out so far, every access as often as it was found. */
  function Load(done: seq<Batch>): nat {
    if done == [] then 0 else Load(done[..|done| - 1]) + |done[|done| - 1].idxs| * done[|done| - 1].weight
  }

  lemma {:induction false} LoadAppend(a: seq<Batch>, b: seq<Batch>)
    ensures Load(a + b) == Load(a) + Load(b)
    decreases |b|
  {
    if b == [] {
      assert a + b == a;
    } else {
      assert (a + b)[..|a + b| - 1] == a + b[..|b| - 1];
      LoadAppend(a, b[..|b| - 1]);
    }
  }

  /** No access came twice. */
  predicate AllFresh(done: seq<Batch>) { forall k :: 0 <= k < |done| ==> Fresh(done[..k], done[k]) }

  lemma {:induction false} FreshSnoc(done: seq<Batch>, b: Batch)
    ensures AllFresh(done + [b]) <==> AllFresh(done) && Fresh(done, b)
  {
    hide Fresh;
    var all := done + [b];
    assert all[..|done|] == done && all[|done|] == b;
    assert forall k :: 0 <= k < |done| ==> all[..k] == done[..k] && all[k] == done[k];
  }

  /**
   * After the batches so far: the partitions hold what was found, their weights add up to what was handed
   * out, and they are balanced, as they were before each scope.  If no access came twice, each is in one
   * partition, and every partition weighs what it holds.
   */
  ghost predicate State(done: seq<Batch>, parts: Parts, printed: seq<seq<nat>>, n: nat)
    requires n > 0
  {
    && Shaped(parts, n) && Covers(done, parts) && Total(parts.weights) == Load(done)
    && (AllFresh(done) ==> PartOk(done, parts, n))
    && Balanced(parts.weights, BoundOf(done, n)) && Printed(done, printed, n)
  }

  predicate Printed(done: seq<Batch>, printed: seq<seq<nat>>, n: nat)
    requires n > 0
  {
    |printed| == |done| && forall k :: 0 <= k < |done| ==> Balanced(printed[k], BoundOf(done[..k], n))
  }

  lemma {:induction false} PrintedStep(done: seq<Batch>, printed: seq<seq<nat>>, n: nat, b: Batch, ws: seq<nat>)
    requires n > 0 && Printed(done, printed, n) && Balanced(ws, BoundOf(done, n))
    ensures Printed(done + [b], printed + [ws], n) && BoundOf(done + [b], n) == Widened(BoundOf(done, n), b, n)
    ensures Load(done + [b]) == Load(done) + |b.idxs| * b.weight
  {
    hide Balanced, Widened;
    assert (done + [b])[..|done|] == done;
    var printed' := printed + [ws];
    forall k | 0 <= k < |done + [b]| ensures Balanced(printed'[k], BoundOf((done + [b])[..k], n)) {
      if k < |done| { assert (done + [b])[..k] == done[..k]; }
    }
  }

  lemma {:induction false} StateStep(
      done: seq<Batch>, parts: Parts, printed: seq<seq<nat>>, n: nat, b: Batch, order: seq<nat>, now: Parts)
    requires n > 0 && State(done, parts, printed, n)
    requires |order| == n && ArgSorted(parts.weights, order) && Dealt(b, order, parts, now)
    requires Total(now.weights) == Total(parts.weights) + |b.idxs| * b.weight
    ensures State(done + [b], now, printed + [parts.weights], n)
  {
    assert Shaped(now, n);
    hide AllFresh, ArgSorted, Dealt, Fresh, Disjoint, Covers, Weighed, Balanced, Widened, Printed, PartOk, Load, Total, BoundOf;
    if AllFresh(done + [b]) {
      FreshSnoc(done, b);
      DealKeepsOk(done, b, order, parts, now);
    }
    DealCovers(done, b, order, parts, now);
    DealKeepsBalance(b, order, parts, now, BoundOf(done, n));
    PrintedStep(done, printed, n, b, parts.weights);
  }

  lemma NoBatches(n: nat)
    requires n > 0
    ensures State([], Parts(seq(n, _ => {}), seq(n, _ => 0)), [], n)
  {
    NoTotal(n);
    hide Total;
  }

  lemma {:induction false} NoTotal(n: nat)
    ensures Total(seq(n, _ => 0)) == 0
  {
    if n > 0 {
      NoTotal(n - 1);
      assert seq<nat>(n, _ => 0)[1..] == seq<nat>(n - 1, _ => 0);
    }
  }

  // ----- what the walks find -----

  /** The accesses the walk over scope `s` finds. */
  function WalkBatch(f: FuncBody, s: nat): Batch
    requires Sound(f) && s < |FuncScopes(f)|
  {
    FuncTree(f);
    DepthsCount(f.body, FuncScopes(f), s);
    Batch(Walk(FuncScopes(f), f.acc, s, FuncScopes(f)[s].start, 0), FuncScopes(f)[s].loopDepth + 1)
  }

  function FuncFound(f: FuncBody, n: nat): (r: seq<Batch>)
    requires Sound(f) && n <= |FuncScopes(f)|
    ensures |r| == n
  {
    if n == 0 then [] else FuncFound(f, n - 1) + [WalkBatch(f, n - 1)]
  }

  function AllFound(funcs: seq<FuncBody>, n: nat): seq<Batch>
    requires AllSound(funcs) && n <= |funcs|
  {
    if n == 0 then [] else AllFound(funcs, n - 1) + FuncFound(funcs[n - 1], |FuncScopes(funcs[n - 1])|)
  }

  /** The accesses of one scope and their weight. */
  method FindBatch(f: FuncBody, scopes: seq<ScopeBlock>, s: nat) returns (b: Batch)
    requires Sound(f) && scopes == FuncScopes(f) && s < |scopes|
    ensures b == WalkBatch(f, s)
  {
    FuncTree(f);
    hide Walk, TreeOf, Laid, Nested;
    var idxs := CollectScope(f.body, scopes, f.acc, s);
    assert WalkBatch(f, s).weight == scopes[s].loopDepth + 1;
    b := Batch(idxs, scopes[s].loopDepth + 1);
  }

  lemma NextBatch(funcs: seq<FuncBody>, g: nat, s: nat)
    requires AllSound(funcs) && g < |funcs| && s < |FuncScopes(funcs[g])|
    ensures AllFound(funcs, g) + FuncFound(funcs[g], s + 1)
         == AllFound(funcs, g) + FuncFound(funcs[g], s) + [WalkBatch(funcs[g], s)]
  {
    hide Sound, FuncScopes, WalkBatch, AllFound;
  }

  /** One scope: collect its accesses, sort the partitions by weight, deal. */
  method PartitionScope(
      funcs: seq<FuncBody>, g: nat, scopes: seq<ScopeBlock>, s: nat, n: nat, parts: Parts, printed: seq<seq<nat>>)
    returns (parts': Parts, printed': seq<seq<nat>>)
    requires n > 0 && AllSound(funcs) && g < |funcs|
    requires scopes == FuncScopes(funcs[g]) && s < |scopes|
    requires State(AllFound(funcs, g) + FuncFound(funcs[g], s), parts, printed, n)
    ensures State(AllFound(funcs, g) + FuncFound(funcs[g], s + 1), parts', printed', n)
  {
    ghost var done := AllFound(funcs, g) + FuncFound(funcs[g], s);
    assert |parts.weights| == n;
    hide Sound, FuncScopes, State, WalkBatch, AllFound, FuncFound, Dealt, ArgSorted, Total;
    NextBatch(funcs, g, s);
    var b := FindBatch(funcs[g], scopes, s);
    var order := ArgSort(parts.weights);
    printed' := printed + [parts.weights];
    parts' := Deal(b, order, parts);
    StateStep(done, parts, printed, n, b, order, parts');
  }

  predicate AllClean(funcs: seq<FuncBody>)
    requires AllSound(funcs)
  {
    forall f :: 0 <= f < |funcs| ==> Clean(funcs[f])
  }

  /**
   * The partitions of all accesses of the module over `n` clusters, and the weights printed before
   * each scope.  At every print the weights are balanced up to the scopes seen so far.
   */
  method BalancedPartition(funcs: seq<FuncBody>, n: nat) returns (parts: Parts, printed: seq<seq<nat>>)
    requires n > 0 && AllSound(funcs)
    ensures State(AllFound(funcs, |funcs|), parts, printed, n)
  {
    hide State, FuncFound, Nested, ScopesOf;
    parts, printed := Parts(seq(n, _ => {}), seq(n, _ => 0)), [];
    NoBatches(n);
    for g := 0 to |funcs|
      invariant State(AllFound(funcs, g), parts, printed, n)
    {
      var scopes: seq<ScopeBlock> := [];
      if !funcs[g].isImport {
        SafeBody(funcs[g]);
        var ok;
        ok, scopes := GenScopes(funcs[g].body);
      }
      NoScopes(funcs, g);
      for s := 0 to |scopes|
        invariant scopes == FuncScopes(funcs[g])
        invariant State(AllFound(funcs, g) + FuncFound(funcs[g], s), parts, printed, n)
      {
        parts, printed := PartitionScope(funcs, g, scopes, s, n, parts, printed);
      }
    }
  }

  lemma SafeBody(f: FuncBody)
    requires Sound(f) && !f.isImport
    ensures Safe(f.body, |f.body|)
  {
  }

  lemma NoScopes(funcs: seq<FuncBody>, g: nat)
    requires AllSound(funcs) && g < |funcs|
    ensures AllFound(funcs, g) + FuncFound(funcs[g], 0) == AllFound(funcs, g)
  {
    hide Sound, AllFound;
  }

  // ----- exactly when every access is handed out once -----

  /** What a walk finds against what belongs to its scope. */
  lemma {:induction false} FoundIsOwn(f: FuncBody)
    requires Sound(f)
    ensures Clean(f) <==> forall s :: 0 <= s < |FuncScopes(f)| ==> WalkBatch(f, s) == ScopeBatch(f, s)
    ensures forall s :: 0 <= s < |FuncScopes(f)| ==> Weightier(ScopeBatch(f, s), WalkBatch(f, s))
  {
    if f.isImport {
      hide *;
      NoWalks(f);
    } else {
      WalksAreOwn(f);
      hide Sound, Clean, FuncScopes, Walk, Own, Laid, NoShorter, Weightier;
      forall s: nat | s < |FuncScopes(f)|
        ensures WalkBatch(f, s) == ScopeBatch(f, s) <==>
          Walk(FuncScopes(f), f.acc, s, FuncScopes(f)[s].start, 0) == Own(FuncScopes(f), f.acc, s, FuncScopes(f)[s].start)
        ensures Weightier(ScopeBatch(f, s), WalkBatch(f, s))
      {
        BatchParts(f, s);
        WeightierIf(ScopeBatch(f, s), WalkBatch(f, s));
      }
    }
  }

  lemma NoWalks(f: FuncBody)
    requires Sound(f) && f.isImport
    ensures FuncScopes(f) == [] && Clean(f)
  {
    hide MissedClean;
  }

  lemma BatchParts(f: FuncBody, s: nat)
    requires Sound(f) && s < |FuncScopes(f)| && Laid(FuncScopes(f), |f.acc|) && FuncScopes(f)[s].end <= |f.acc|
    ensures ScopeBatch(f, s).idxs == Own(FuncScopes(f), f.acc, s, FuncScopes(f)[s].start)
    ensures WalkBatch(f, s).idxs == Walk(FuncScopes(f), f.acc, s, FuncScopes(f)[s].start, 0)
    ensures ScopeBatch(f, s).weight == WalkBatch(f, s).weight > 0
  {
    FuncTree(f);
    DepthsCount(f.body, FuncScopes(f), s);
    hide Sound, FuncScopes, Walk, Own, Laid;
  }

  /** The second batch weighs more, unless it is the first. */
  predicate Weightier(a: Batch, b: Batch) { |a.idxs| * a.weight < |b.idxs| * b.weight || a == b }

  lemma WeightierIf(a: Batch, b: Batch)
    requires a.weight == b.weight > 0 && NoShorter(a.idxs, b.idxs)
    ensures Weightier(a, b)
  {
  }

  lemma {:induction false} FuncLoad(f: FuncBody, n: nat)
    requires Sound(f) && n <= |FuncScopes(f)|
    ensures Load(FuncBatches(f, n)) <= Load(FuncFound(f, n))
    ensures Load(FuncBatches(f, n)) == Load(FuncFound(f, n)) <==>
      forall s :: 0 <= s < n ==> WalkBatch(f, s) == ScopeBatch(f, s)
    ensures (forall s :: 0 <= s < n ==> WalkBatch(f, s) == ScopeBatch(f, s)) ==> FuncFound(f, n) == FuncBatches(f, n)
  {
    hide Sound, FuncScopes, WalkBatch, ScopeBatch, Clean, Load;
    if n > 0 {
      FuncLoad(f, n - 1);
      FoundIsOwn(f);
      LoadSnoc(FuncBatches(f, n - 1), ScopeBatch(f, n - 1));
      LoadSnoc(FuncFound(f, n - 1), WalkBatch(f, n - 1));
    } else {
      LoadNone();
    }
  }

  lemma LoadNone()
    ensures Load([]) == 0
  {
  }

  lemma LoadSnoc(done: seq<Batch>, b: Batch)
    ensures Load(done + [b]) == Load(done) + |b.idxs| * b.weight
  {
    assert (done + [b])[..|done|] == done;
  }

  predicate CleanTo(funcs: seq<FuncBody>, n: nat)
    requires AllSound(funcs) && n <= |funcs|
  {
    forall f :: 0 <= f < n ==> Clean(funcs[f])
  }

  lemma {:induction false} AllLoad(funcs: seq<FuncBody>, n: nat)
    requires AllSound(funcs) && n <= |funcs|
    ensures Load(AllBatches(funcs, n)) <= Load(AllFound(funcs, n))
    ensures Load(AllBatches(funcs, n)) == Load(AllFound(funcs, n)) <==> CleanTo(funcs, n)
    ensures CleanTo(funcs, n) ==> AllFound(funcs, n) == AllBatches(funcs, n)
  {
    hide Sound, FuncScopes, WalkBatch, ScopeBatch, Clean, Load, FuncFound, FuncBatches;
    if n > 0 {
      var f := funcs[n - 1];
      AllLoad(funcs, n - 1);
      FoundIsOwn(f);
      FuncLoad(f, |FuncScopes(f)|);
      LoadAppend(AllBatches(funcs, n - 1), FuncBatches(f, |FuncScopes(f)|));
      LoadAppend(AllFound(funcs, n - 1), FuncFound(f, |FuncScopes(f)|));
    } else {
      LoadNone();
    }
  }

  /**
   * The weights of the partitions add up to those of the accesses, each counted once, if and only if every
   * function is clean; otherwise they add up to more.
   */
  lemma {:induction false} WeightsRightIffClean(funcs: seq<FuncBody>, n: nat, parts: Parts, printed: seq<seq<nat>>)
    requires n > 0 && AllSound(funcs) && State(AllFound(funcs, |funcs|), parts, printed, n)
    ensures Total(parts.weights) >= Load(AllBatches(funcs, |funcs|))
    ensures Total(parts.weights) == Load(AllBatches(funcs, |funcs|)) <==> AllClean(funcs)
  {
    AllLoad(funcs, |funcs|);
    hide Sound, AllBatches, AllFound, Load, Covers, Balanced, Printed, Clean, PartOk, AllFresh, Total;
  }

  lemma {:induction false} FuncFresh(funcs: seq<FuncBody>, g: nat, s: nat)
    requires AllSound(funcs) && Distinct(funcs) && g < |funcs| && s <= |FuncScopes(funcs[g])|
    requires AllFresh(AllBatches(funcs, g))
    ensures AllFresh(AllBatches(funcs, g) + FuncBatches(funcs[g], s))
  {
    hide Sound, FuncScopes, Distinct, ScopeBatch, AllBatches, AllFresh, Fresh;
    if s == 0 {
      assert AllBatches(funcs, g) + [] == AllBatches(funcs, g);
    } else {
      FuncFresh(funcs, g, s - 1);
      BatchFresh(funcs, g, s - 1);
      var done, b := AllBatches(funcs, g) + FuncBatches(funcs[g], s - 1), ScopeBatch(funcs[g], s - 1);
      FreshSnoc(done, b);
      assert AllBatches(funcs, g) + FuncBatches(funcs[g], s) == done + [b];
    }
  }

  lemma {:induction false} BatchesFresh(funcs: seq<FuncBody>, n: nat)
    requires AllSound(funcs) && Distinct(funcs) && n <= |funcs|
    ensures AllFresh(AllBatches(funcs, n))
  {
    hide Sound, FuncScopes, Distinct, FuncBatches, Fresh;
    if n > 0 {
      BatchesFresh(funcs, n - 1);
      FuncFresh(funcs, n - 1, |FuncScopes(funcs[n - 1])|);
    }
  }

  /** In clean functions every access asked for is in exactly one partition, and nothing else is in any. */
  lemma {:induction false} EachAccessOnce(funcs: seq<FuncBody>, n: nat, parts: Parts, printed: seq<seq<nat>>, x: nat)
    requires n > 0 && AllSound(funcs) && Distinct(funcs) && AllClean(funcs)
    requires State(AllFound(funcs, |funcs|), parts, printed, n)
    ensures PartOk(AllBatches(funcs, |funcs|), parts, n)
    ensures Accessed(funcs, |funcs|, x) <==> exists p: nat :: p < n && x in parts.sets[p]
    ensures forall p, q :: 0 <= p < n && 0 <= q < n && x in parts.sets[p] && x in parts.sets[q] ==> p == q
  {
    hide Sound, AllBatches, AllFound, Listed, Balanced, Printed, Clean, AllFresh, Load, Total, Distinct, Weighed;
    AllLoad(funcs, |funcs|);
    BatchesFresh(funcs, |funcs|);
    BatchesListAll(funcs, |funcs|, x);
  }
}
