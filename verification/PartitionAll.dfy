/** The partitions of all accesses of a module: complete, disjoint, correctly weighed and balanced. */
module PartitionAll {
  import opened Scopes
  import opened ScopeTree
  import opened Partition
  import opened PartitionSets
  import opened PartitionScopes
  import opened PartitionRun

  predicate AllSound(funcs: seq<FuncBody>) {
    forall f :: 0 <= f < |funcs| ==> Sound(funcs[f])
  }

  /** No two instructions of the module carry the same access number. */
  predicate Distinct(funcs: seq<FuncBody>) {
    forall f, i, g, j {:trigger funcs[f].acc[i], funcs[g].acc[j]} ::
      0 <= f < |funcs| && 0 <= g < |funcs| && 0 <= i < |funcs[f].acc| && 0 <= j < |funcs[g].acc| ==>
      funcs[f].acc[i] == funcs[g].acc[j] != 0 ==>
      f == g && i == j
  }

  predicate AlikeAt(funcs: seq<FuncBody>, f: nat, i: nat, g: nat, j: nat) {
    f < |funcs| && g < |funcs| && i < |funcs[f].acc| && j < |funcs[g].acc| && funcs[f].acc[i] == funcs[g].acc[j] != 0
  }

  /** In other words: only the same place has the same number. */
  lemma DistinctIff(funcs: seq<FuncBody>)
    ensures Distinct(funcs) <==> !exists f: nat, i: nat, g: nat, j: nat :: AlikeAt(funcs, f, i, g, j) && (f, i) != (g, j)
  {
    if Distinct(funcs) {
      forall f: nat, i: nat, g: nat, j: nat | AlikeAt(funcs, f, i, g, j) ensures (f, i) == (g, j) {
        assert funcs[f].acc[i] == funcs[g].acc[j];
      }
    } else {
      var f, i, g, j :| 0 <= f < |funcs| && 0 <= g < |funcs| && 0 <= i < |funcs[f].acc| && 0 <= j < |funcs[g].acc|
        && funcs[f].acc[i] == funcs[g].acc[j] != 0 && !(f == g && i == j);
      assert AlikeAt(funcs, f, i, g, j);
    }
  }

  /** The accesses of one scope; each weighs one more than the number of loops around it. */
  function ScopeBatch(f: FuncBody, s: nat): Batch
    requires Sound(f) && s < |FuncScopes(f)|
  {
    FuncTree(f);
    DepthsCount(f.body, FuncScopes(f), s);
    ScopeIn(FuncScopes(f), |f.body|, s);
    Batch(Own(FuncScopes(f), f.acc, s, FuncScopes(f)[s].start), FuncScopes(f)[s].loopDepth + 1)
  }

  function FuncBatches(f: FuncBody, n: nat): (r: seq<Batch>)
    requires Sound(f) && n <= |FuncScopes(f)|
    ensures |r| == n
  {
    if n == 0 then [] else FuncBatches(f, n - 1) + [ScopeBatch(f, n - 1)]
  }

  function AllBatches(funcs: seq<FuncBody>, n: nat): seq<Batch>
    requires AllSound(funcs) && n <= |funcs|
  {
    if n == 0 then [] else AllBatches(funcs, n - 1) + FuncBatches(funcs[n - 1], |FuncScopes(funcs[n - 1])|)
  }

  // ----- what the batches list -----

  lemma {:induction false} ListedAppend(a: seq<Batch>, b: seq<Batch>)
    ensures Listed(a + b) == Listed(a) + Listed(b)
    decreases |b|
  {
    if b == [] {
      assert a + b == a;
    } else {
      assert (a + b)[..|a + b| - 1] == a + b[..|b| - 1];
      ListedAppend(a, b[..|b| - 1]);
    }
  }

  /** Scope `s` asks for the access at `i`, numbered `x`. */
  predicate Asks(f: FuncBody, s: nat, i: nat, x: nat)
    requires Sound(f)
  {
    s < |FuncScopes(f)| && i < |f.acc| && Owns(FuncScopes(f), s, i) && f.acc[i] == x != 0
  }

  ghost predicate AskedBy(f: FuncBody, s: nat, x: nat)
    requires Sound(f)
  {
    exists i: nat :: Asks(f, s, i, x)
  }

  lemma {:induction false} BatchMembers(f: FuncBody, s: nat, x: nat)
    requires Sound(f) && s < |FuncScopes(f)|
    ensures x in ScopeBatch(f, s).idxs <==> AskedBy(f, s, x)
  {
    var scopes := FuncScopes(f);
    FuncTree(f);
    ScopeIn(scopes, |f.body|, s);
    OwnMembers(scopes, f.acc, s, scopes[s].start, x);
    hide FuncScopes, HeldBelow, Own, Nested;
    if x in ScopeBatch(f, s).idxs {
      var i: nat :| scopes[s].start <= i < scopes[s].end && f.acc[i] == x != 0 && !HeldBelow(scopes, s, i);
      assert Asks(f, s, i, x);
    }
    if AskedBy(f, s, x) {
      var i: nat :| Asks(f, s, i, x);
      assert scopes[s].start <= i < scopes[s].end && f.acc[i] == x != 0 && !HeldBelow(scopes, s, i);
    }
  }

  /** One of the first `n` scopes asks for `x`. */
  ghost predicate AskedByOne(f: FuncBody, n: nat, x: nat)
    requires Sound(f)
  {
    exists s: nat, i: nat :: s < n && Asks(f, s, i, x)
  }

  lemma {:induction false} FuncListed(f: FuncBody, n: nat, x: nat)
    requires Sound(f) && n <= |FuncScopes(f)|
    ensures x in Listed(FuncBatches(f, n)) <==> AskedByOne(f, n, x)
  {
    hide *;
    if n == 0 {
      NothingListed(f, x);
    } else {
      FuncListed(f, n - 1, x);
      BatchesOf(f, n);
      ListedMembers(FuncBatches(f, n - 1), ScopeBatch(f, n - 1), x);
      BatchMembers(f, n - 1, x);
      AskedStep(f, n, x);
    }
  }

  lemma NothingListed(f: FuncBody, x: nat)
    requires Sound(f)
    ensures x !in Listed(FuncBatches(f, 0)) && !AskedByOne(f, 0, x)
  {
    hide Sound, FuncScopes, Asks;
  }

  lemma ListedMembers(done: seq<Batch>, b: Batch, x: nat)
    ensures x in Listed(done + [b]) <==> x in Listed(done) || x in b.idxs
  {
    ListedSnoc(done, b);
    hide Listed;
  }

  lemma AskedStep(f: FuncBody, n: nat, x: nat)
    requires Sound(f) && n > 0
    ensures AskedByOne(f, n, x) <==> AskedByOne(f, n - 1, x) || AskedBy(f, n - 1, x)
  {
    hide Asks, Sound;
  }

  /** Every access of a function is asked for by exactly one of its scopes. */
  lemma {:induction false} AskedOnce(f: FuncBody, i: nat) returns (s: nat)
    requires Sound(f) && i < |f.acc| && f.acc[i] != 0
    ensures s < |FuncScopes(f)| && forall u: nat {:trigger Asks(f, u, i, f.acc[i])} :: Asks(f, u, i, f.acc[i]) <==> u == s
  {
    hide *;
    AskedInMain(f, i);
    var scopes := FuncScopes(f);
    s := OneOwner(f.body, scopes, i);
    forall u: nat ensures Asks(f, u, i, f.acc[i]) <==> u == s {
      AsksOwner(f, u, i);
    }
  }

  lemma AskedInMain(f: FuncBody, i: nat)
    requires Sound(f) && i < |f.acc| && f.acc[i] != 0
    ensures var scopes := FuncScopes(f); TreeOf(f.body, scopes) && scopes != [] && i < scopes[0].end
  {
    FuncTree(f);
    MainEnd(f.body, FuncScopes(f));
    hide TreeOf, Laid, FuncScopes, Nested;
  }

  lemma AsksOwner(f: FuncBody, u: nat, i: nat)
    requires Sound(f) && i < |f.acc| && f.acc[i] != 0
    ensures Asks(f, u, i, f.acc[i]) <==> u < |FuncScopes(f)| && Owns(FuncScopes(f), u, i)
    ensures Owns(FuncScopes(f), u, i) ==> u < |FuncScopes(f)|
  {
    hide Sound, FuncScopes, HeldBelow;
  }

  /** Access `x` belongs to one of the first `n` functions. */
  ghost predicate Accessed(funcs: seq<FuncBody>, n: nat, x: nat)
    requires n <= |funcs|
  {
    exists g: nat :: g < n && HasSome(funcs, g, x)
  }

  predicate HasAt(funcs: seq<FuncBody>, g: nat, i: nat, x: nat) {
    g < |funcs| && i < |funcs[g].acc| && funcs[g].acc[i] == x
  }

  ghost predicate HasSome(funcs: seq<FuncBody>, g: nat, x: nat) {
    x != 0 && exists i: nat :: HasAt(funcs, g, i, x)
  }

  lemma {:induction false} FuncAsks(funcs: seq<FuncBody>, g: nat, x: nat)
    requires AllSound(funcs) && g < |funcs|
    ensures AskedByOne(funcs[g], |FuncScopes(funcs[g])|, x) <==> HasSome(funcs, g, x)
  {
    hide Sound, FuncScopes;
    var f := funcs[g];
    if x != 0 {
      if i: nat :| HasAt(funcs, g, i, x) {
        var s := AskedOnce(f, i);
        assert Asks(f, s, i, x);
      }
    }
    if AskedByOne(f, |FuncScopes(f)|, x) {
      var s: nat, i: nat :| s < |FuncScopes(f)| && Asks(f, s, i, x);
      assert HasAt(funcs, g, i, x);
    }
  }

  /** The batches list exactly the accesses asked for. */
  lemma {:induction false} BatchesListAll(funcs: seq<FuncBody>, n: nat, x: nat)
    requires AllSound(funcs) && n <= |funcs|
    ensures x in Listed(AllBatches(funcs, n)) <==> Accessed(funcs, n, x)
  {
    hide Sound, FuncScopes, FuncBatches, HasSome, AskedByOne;
    if n > 0 {
      BatchesListAll(funcs, n - 1, x);
      ListedAppend(AllBatches(funcs, n - 1), FuncBatches(funcs[n - 1], |FuncScopes(funcs[n - 1])|));
      FuncListed(funcs[n - 1], |FuncScopes(funcs[n - 1])|, x);
      FuncAsks(funcs, n - 1, x);
    }
  }

  // ----- each batch is fresh -----

  lemma {:induction false} BatchFresh(funcs: seq<FuncBody>, g: nat, s: nat)
    requires AllSound(funcs) && Distinct(funcs) && g < |funcs| && s < |FuncScopes(funcs[g])|
    ensures Fresh(AllBatches(funcs, g) + FuncBatches(funcs[g], s), ScopeBatch(funcs[g], s))
  {
    var f := funcs[g];
    var b := ScopeBatch(f, s);
    assert NoDups(b.idxs) by { BatchNoDups(funcs, g, s); }
    hide Sound, FuncScopes, ScopeBatch, AllBatches, FuncBatches, Listed;
    ListedAppend(AllBatches(funcs, g), FuncBatches(f, s));
    forall x | x in b.idxs ensures x !in Listed(AllBatches(funcs, g)) && x !in Listed(FuncBatches(f, s)) {
      BatchMembers(f, s, x);
      var i: nat :| Asks(f, s, i, x);
      NotBefore(funcs, g, s, i, x);
    }
  }

  lemma {:induction false} BatchNoDups(funcs: seq<FuncBody>, g: nat, s: nat)
    requires AllSound(funcs) && Distinct(funcs) && g < |funcs| && s < |FuncScopes(funcs[g])|
    ensures NoDups(ScopeBatch(funcs[g], s).idxs)
  {
    var f := funcs[g];
    FuncTree(f);
    ScopeIn(FuncScopes(f), |f.body|, s);
    assert Injective(f.acc) by { hide Sound, FuncScopes; }
    hide FuncScopes;
    OwnNoDups(FuncScopes(f), f.acc, s, FuncScopes(f)[s].start);
  }

  lemma {:induction false} NotBefore(funcs: seq<FuncBody>, g: nat, s: nat, i: nat, x: nat)
    requires AllSound(funcs) && Distinct(funcs) && g < |funcs| && s <= |FuncScopes(funcs[g])|
    requires Asks(funcs[g], s, i, x)
    ensures x !in Listed(AllBatches(funcs, g)) && x !in Listed(FuncBatches(funcs[g], s))
  {
    var f := funcs[g];
    BatchesListAll(funcs, g, x);
    FuncListed(f, s, x);
    var t := AskedOnce(f, i);
    hide Sound, FuncScopes, AllBatches, FuncBatches, Listed;
  }

  // ----- what an access weighs -----

  lemma {:induction false} WeightAppend(a: seq<Batch>, b: seq<Batch>, x: nat)
    ensures WeightOf(a + b, x) == if x in Listed(b) then WeightOf(b, x) else WeightOf(a, x)
    decreases |b|
  {
    if b == [] {
      assert a + b == a;
    } else {
      assert (a + b)[..|a + b| - 1] == a + b[..|b| - 1];
      WeightAppend(a, b[..|b| - 1], x);
    }
  }

  lemma {:induction false} WeightInFunc(f: FuncBody, n: nat, s: nat, i: nat, x: nat)
    requires Sound(f) && s < n <= |FuncScopes(f)| && Asks(f, s, i, x) && Injective(f.acc)
    ensures WeightOf(FuncBatches(f, n), x) == FuncScopes(f)[s].loopDepth + 1
  {
    hide *;
    BatchesOf(f, n);
    WeightSnoc(FuncBatches(f, n - 1), ScopeBatch(f, n - 1), x);
    if n - 1 > s {
      OtherScope(f, n - 1, s, i, x);
      WeightInFunc(f, n - 1, s, i, x);
    } else {
      BatchMembers(f, s, x);
      AskedNow(f, s, i, x);
      BatchWeight(f, s);
    }
  }

  lemma BatchesOf(f: FuncBody, n: nat)
    requires Sound(f) && 0 < n <= |FuncScopes(f)|
    ensures FuncBatches(f, n) == FuncBatches(f, n - 1) + [ScopeBatch(f, n - 1)]
  {
    hide Sound, FuncScopes, ScopeBatch;
  }

  lemma WeightSnoc(done: seq<Batch>, b: Batch, x: nat)
    ensures WeightOf(done + [b], x) == if x in b.idxs then b.weight else WeightOf(done, x)
  {
    assert (done + [b])[..|done|] == done;
  }

  lemma AskedNow(f: FuncBody, s: nat, i: nat, x: nat)
    requires Sound(f) && Asks(f, s, i, x)
    ensures AskedBy(f, s, x)
  {
    hide Sound, Asks;
  }

  lemma BatchWeight(f: FuncBody, s: nat)
    requires Sound(f) && s < |FuncScopes(f)|
    ensures ScopeBatch(f, s).weight == FuncScopes(f)[s].loopDepth + 1
  {
    hide Sound, FuncScopes, Own;
  }

  lemma {:induction false} OtherScope(f: FuncBody, u: nat, s: nat, i: nat, x: nat)
    requires Sound(f) && u < |FuncScopes(f)| && u != s && Asks(f, s, i, x) && Injective(f.acc)
    ensures x !in ScopeBatch(f, u).idxs
  {
    BatchMembers(f, u, x);
    var t := AskedOnce(f, i);
    hide Sound, FuncScopes, ScopeBatch;
    assert forall j: nat :: Asks(f, u, j, x) ==> j == i;
  }

  /** In the batches of the first `n` functions, `x` weighs one more than the loop depth of scope `s` of `f`. */
  predicate Weighs(funcs: seq<FuncBody>, n: nat, f: FuncBody, s: nat, x: nat)
    requires AllSound(funcs) && n <= |funcs| && Sound(f)
  {
    s < |FuncScopes(f)| && WeightOf(AllBatches(funcs, n), x) == FuncScopes(f)[s].loopDepth + 1
  }

  lemma {:induction false} WeighsHere(funcs: seq<FuncBody>, n: nat, s: nat, i: nat, x: nat)
    requires AllSound(funcs) && 0 < n <= |funcs| && Asks(funcs[n - 1], s, i, x) && Injective(funcs[n - 1].acc)
    ensures Weighs(funcs, n, funcs[n - 1], s, x)
  {
    hide *;
    var f := funcs[n - 1];
    SoundAt(funcs, n - 1);
    AsksScope(f, s, i, x);
    InFunc(f, s, i, x);
    WeightInFunc(f, |FuncScopes(f)|, s, i, x);
    BatchesSnoc(funcs, n);
    WeightAppend(AllBatches(funcs, n - 1), FuncBatches(f, |FuncScopes(f)|), x);
    WeighsIf(funcs, n, f, s, x);
  }

  lemma {:induction false} WeighsLater(funcs: seq<FuncBody>, n: nat, g: nat, s: nat, i: nat)
    requires AllSound(funcs) && Distinct(funcs) && g < n < |funcs| && i < |funcs[g].acc| && funcs[g].acc[i] != 0
    requires Weighs(funcs, n, funcs[g], s, funcs[g].acc[i])
    ensures Weighs(funcs, n + 1, funcs[g], s, funcs[g].acc[i])
  {
    hide *;
    var f, x := funcs[n], funcs[g].acc[i];
    SoundAt(funcs, n);
    SoundAt(funcs, g);
    LaterFunc(funcs, n, g, i);
    BatchesSnoc(funcs, n + 1);
    WeightAppend(AllBatches(funcs, n), FuncBatches(f, |FuncScopes(f)|), x);
    WeighsNow(funcs, n, funcs[g], s, x);
    WeighsIf(funcs, n + 1, funcs[g], s, x);
  }

  lemma WeighsIf(funcs: seq<FuncBody>, n: nat, f: FuncBody, s: nat, x: nat)
    requires AllSound(funcs) && n <= |funcs| && Sound(f)
    requires s < |FuncScopes(f)| && WeightOf(AllBatches(funcs, n), x) == FuncScopes(f)[s].loopDepth + 1
    ensures Weighs(funcs, n, f, s, x)
  {
    hide Sound, FuncScopes, WeightOf, AllBatches;
  }

  lemma WeighsNow(funcs: seq<FuncBody>, n: nat, f: FuncBody, s: nat, x: nat)
    requires AllSound(funcs) && n <= |funcs| && Sound(f) && Weighs(funcs, n, f, s, x)
    ensures s < |FuncScopes(f)| && WeightOf(AllBatches(funcs, n), x) == FuncScopes(f)[s].loopDepth + 1
  {
    hide Sound, FuncScopes, WeightOf, AllBatches;
  }

  lemma {:induction false} WeighsTo(funcs: seq<FuncBody>, n: nat, g: nat, s: nat, i: nat)
    requires AllSound(funcs) && Distinct(funcs) && g < n <= |funcs| && i < |funcs[g].acc| && funcs[g].acc[i] != 0
    requires Asks(funcs[g], s, i, funcs[g].acc[i]) && Injective(funcs[g].acc)
    ensures Weighs(funcs, n, funcs[g], s, funcs[g].acc[i])
    decreases n
  {
    hide *;
    SoundAt(funcs, g);
    if n - 1 == g {
      WeighsHere(funcs, n, s, i, funcs[g].acc[i]);
    } else {
      WeighsTo(funcs, n - 1, g, s, i);
      WeighsLater(funcs, n - 1, g, s, i);
    }
  }

  /** An access weighs one more than the loop depth of its innermost scope. */
  lemma {:induction false} WeightIsDepth(funcs: seq<FuncBody>, n: nat, g: nat, s: nat, i: nat)
    requires AllSound(funcs) && Distinct(funcs) && g < n <= |funcs| && i < |funcs[g].acc|
    requires Asks(funcs[g], s, i, funcs[g].acc[i]) && Injective(funcs[g].acc)
    ensures Weighs(funcs, n, funcs[g], s, funcs[g].acc[i])
  {
    hide *;
    SoundAt(funcs, g);
    AsksScope(funcs[g], s, i, funcs[g].acc[i]);
    WeighsTo(funcs, n, g, s, i);
  }

  lemma SoundAt(funcs: seq<FuncBody>, g: nat)
    requires AllSound(funcs) && g < |funcs|
    ensures Sound(funcs[g])
  {
    hide Sound;
  }

  lemma BatchesSnoc(funcs: seq<FuncBody>, n: nat)
    requires AllSound(funcs) && 0 < n <= |funcs|
    ensures AllBatches(funcs, n) == AllBatches(funcs, n - 1) + FuncBatches(funcs[n - 1], |FuncScopes(funcs[n - 1])|)
  {
    hide Sound, FuncScopes, FuncBatches;
  }

  lemma AsksScope(f: FuncBody, s: nat, i: nat, x: nat)
    requires Sound(f) && Asks(f, s, i, x)
    ensures s < |FuncScopes(f)| && x != 0
  {
    hide Sound, FuncScopes;
  }

  lemma InFunc(f: FuncBody, s: nat, i: nat, x: nat)
    requires Sound(f) && Asks(f, s, i, x)
    ensures s < |FuncScopes(f)| && x in Listed(FuncBatches(f, |FuncScopes(f)|))
  {
    hide Sound, FuncScopes, FuncBatches, Listed;
    FuncListed(f, |FuncScopes(f)|, x);
  }

  lemma LaterFunc(funcs: seq<FuncBody>, h: nat, g: nat, i: nat)
    requires AllSound(funcs) && Distinct(funcs) && g < h < |funcs| && i < |funcs[g].acc| && funcs[g].acc[i] != 0
    ensures funcs[g].acc[i] !in Listed(FuncBatches(funcs[h], |FuncScopes(funcs[h])|))
  {
    hide Sound, FuncScopes, FuncBatches, Listed;
    var x := funcs[g].acc[i];
    FuncListed(funcs[h], |FuncScopes(funcs[h])|, x);
    FuncAsks(funcs, h, x);
  }
}
