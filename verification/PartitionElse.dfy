/** What an `else` does to the partitioner: exactly when a walk strays, and a function on which it does. */
module PartitionElse {
  import opened Scopes
  import opened ScopeTree
  import opened Partition
  import opened PartitionScopes
  import opened PartitionRun
  import opened PartitionSets
  import opened PartitionAll
  import opened PartitionMain

  lemma {:induction false} AllHas(acc: seq<nat>, i: nat, end: int, j: nat)
    requires i <= j < end <= |acc| && acc[j] != 0
    ensures acc[j] in All(acc, i, end)
    decreases j - i
  {
    if i < j { AllHas(acc, i + 1, end, j); }
  }

  /** The walk at `i` will still come by the access at `j`. */
  predicate Reaches(scopes: seq<ScopeBlock>, acc: seq<nat>, s: nat, i: nat, next: nat, j: nat)
    requires s < |scopes| && scopes[s].end <= |acc|
  {
    && i <= j < scopes[s].end && acc[j] != 0
    && (!HeldBelow(scopes, s, j)
        || exists k :: next < k < |scopes[s].outer| && Missed(scopes, s, k) && scopes[scopes[s].outer[k]].start <= j)
  }

  /** The walk finds its scope's own accesses, and everything behind a missed subscope. */
  lemma {:induction false} WalkFinds(
      body: seq<Op>, scopes: seq<ScopeBlock>, acc: seq<nat>, s: nat, i: nat, next: nat, j: nat)
    requires Accesses(body, acc) && Laid(scopes, |body|) && s < |scopes| && InStep(scopes, s, i, next)
    requires forall t :: 0 <= t < |scopes| ==> Closer(body[scopes[t].end])
    requires Reaches(scopes, acc, s, i, next, j)
    ensures acc[j] in Walk(scopes, acc, s, i, next)
    decreases scopes[s].end - i
  {
    hide Walk;
    var outer := scopes[s].outer;
    if next < |outer| && i == scopes[outer[next]].start {
      assert outer[next] in outer;
      Jumped(scopes, |body|, s, i, next);
      WalkOver(scopes, acc, s, i, next);
      var i' := scopes[outer[next]].end + 1;
      BehindJump(body, scopes, acc, s, i, next, j);
      if next + 1 < |outer| && Missed(scopes, s, next + 1) {
        WalkAll(scopes, acc, s, i', next + 1);
        AllHas(acc, i', scopes[s].end, j);
      } else {
        StillReaches(scopes, acc, s, i, next, j);
        hide Reaches, InStep, Laid;
        WalkFinds(body, scopes, acc, s, i', next + 1, j);
      }
    } else {
      WalkStep(scopes, acc, s, i, next);
      StepOwn(scopes, |body|, s, i, next);
      hide InStep, Laid;
      if j > i { WalkFinds(body, scopes, acc, s, i + 1, next, j); }
    }
  }

  lemma {:induction false} BehindJump(
      body: seq<Op>, scopes: seq<ScopeBlock>, acc: seq<nat>, s: nat, i: nat, next: nat, j: nat)
    requires Accesses(body, acc) && Laid(scopes, |body|) && s < |scopes|
    requires forall t :: 0 <= t < |scopes| ==> Closer(body[scopes[t].end])
    requires Reaches(scopes, acc, s, i, next, j) && next < |scopes[s].outer|
    requires scopes[s].outer[next] < |scopes| && i == scopes[scopes[s].outer[next]].start
    ensures j > scopes[scopes[s].outer[next]].end
  {
    var t := scopes[s].outer[next];
    assert t in scopes[s].outer;
    assert j < scopes[t].end ==> Holds(scopes, t, j) && HeldBelow(scopes, s, j);
    assert forall k :: next < k < |scopes[s].outer| ==> Apart(scopes, t, scopes[s].outer[k]);
    assert acc[scopes[t].end] == 0;
    hide Laid, HeldBelow;
  }

  lemma {:induction false} StillReaches(scopes: seq<ScopeBlock>, acc: seq<nat>, s: nat, i: nat, next: nat, j: nat)
    requires s < |scopes| && scopes[s].end <= |acc| && Reaches(scopes, acc, s, i, next, j) && next < |scopes[s].outer|
    requires scopes[s].outer[next] < |scopes| && 0 <= scopes[scopes[s].outer[next]].end < j
    requires next + 1 < |scopes[s].outer| ==> !Missed(scopes, s, next + 1)
    ensures Reaches(scopes, acc, s, scopes[scopes[s].outer[next]].end + 1, next + 1, j)
  {
    hide HeldBelow, Missed;
  }

  /** An access behind a missed subscope of `s` is found by the walk over `s` and by that over its own scope. */
  lemma {:induction false} FoundTwice(
      body: seq<Op>, scopes: seq<ScopeBlock>, acc: seq<nat>, s: nat, k: nat, j: nat) returns (u: nat)
    requires TreeOf(body, scopes) && Accesses(body, acc) && Laid(scopes, |body|) && s < |scopes|
    requires 0 < k < |scopes[s].outer| && Missed(scopes, s, k)
    requires scopes[scopes[s].outer[k]].start <= j < scopes[s].end && HeldBelow(scopes, s, j) && acc[j] != 0
    requires j < scopes[0].end
    ensures u != s && u < |scopes| && acc[j] in Walk(scopes, acc, u, scopes[u].start, 0)
    ensures acc[j] in Walk(scopes, acc, s, scopes[s].start, 0)
  {
    assert |acc| == |body|;
    hide TreeOf, Walk, Accesses, Laid;
    AllCloser(body, scopes);
    u := OneOwner(body, scopes, j);
    ScopeIn(scopes, |body|, s);
    assert Owns(scopes, u, j) && !Owns(scopes, s, j);
    hide HeldBelow, Missed, Owns, Holds, Reaches;
    ReachesMissed(body, scopes, acc, s, k, j);
    FoundBy(body, scopes, acc, s, j);
    FoundBy(body, scopes, acc, u, j);
  }

  lemma ReachesMissed(body: seq<Op>, scopes: seq<ScopeBlock>, acc: seq<nat>, s: nat, k: nat, j: nat)
    requires Laid(scopes, |body|) && s < |scopes| && scopes[s].end <= |acc|
    requires 0 < k < |scopes[s].outer| && Missed(scopes, s, k)
    requires scopes[scopes[s].outer[k]].start <= j < scopes[s].end && acc[j] != 0
    ensures Reaches(scopes, acc, s, scopes[s].start, 0, j)
  {
    OuterIn(scopes, |body|, s, k);
    hide Laid, HeldBelow, Missed;
  }

  lemma FoundBy(body: seq<Op>, scopes: seq<ScopeBlock>, acc: seq<nat>, s: nat, j: nat)
    requires Accesses(body, acc) && Laid(scopes, |body|) && s < |scopes|
    requires forall t :: 0 <= t < |scopes| ==> Closer(body[scopes[t].end])
    requires j < |acc| && acc[j] != 0 && (Owns(scopes, s, j) || Reaches(scopes, acc, s, scopes[s].start, 0, j))
    ensures acc[j] in Walk(scopes, acc, s, scopes[s].start, 0)
  {
    AtStart(scopes, |body|, s);
    ScopeIn(scopes, |body|, s);
    hide Laid, InStep, Walk, HeldBelow;
    WalkFinds(body, scopes, acc, s, scopes[s].start, 0, j);
  }

  /** In a function that is not clean some access is found by the walks over two different scopes. */
  lemma {:induction false} UncleanRepeats(f: FuncBody) returns (s: nat, u: nat, x: nat)
    requires Sound(f) && !Clean(f) && !f.isImport
    ensures Laid(FuncScopes(f), |f.acc|) && s != u && s < |FuncScopes(f)| && u < |FuncScopes(f)|
    ensures x in Walk(FuncScopes(f), f.acc, s, FuncScopes(f)[s].start, 0)
    ensures x in Walk(FuncScopes(f), f.acc, u, FuncScopes(f)[u].start, 0)
  {
    var scopes, k, j;
    scopes, s, k, j := Stray(f);
    u := FoundTwice(f.body, scopes, f.acc, s, k, j);
    x := f.acc[j];
  }

  lemma InMain(f: FuncBody)
    requires Sound(f) && !f.isImport
    ensures FuncScopes(f) != []
    ensures forall j :: 0 <= j < |f.acc| && f.acc[j] != 0 ==> j < FuncScopes(f)[0].end
  {
    hide FuncScopes, TreeOf, Laid, Nested, Accesses;
    FuncTree(f);
    InBody(f.body, f.acc, FuncScopes(f));
  }

  lemma InBody(body: seq<Op>, acc: seq<nat>, scopes: seq<ScopeBlock>)
    requires TreeOf(body, scopes) && Nested(body) && body != [] && body[|body| - 1].End? && Accesses(body, acc)
    ensures scopes != [] && forall j :: 0 <= j < |acc| && acc[j] != 0 ==> j < scopes[0].end
  {
    hide TreeOf, Nested;
    MainEndsLast(body, scopes);
  }

  lemma {:induction false} StrayAt(scopes: seq<ScopeBlock>, acc: seq<nat>, s: nat) returns (k: nat, j: nat)
    requires s < |scopes| && scopes[s].end <= |acc| && !MissedClean(scopes, acc, s, 0)
    ensures 0 < k < |scopes[s].outer| && Missed(scopes, s, k)
    ensures scopes[scopes[s].outer[k]].start <= j < scopes[s].end && HeldBelow(scopes, s, j) && acc[j] != 0
  {
    hide HeldBelow;
    k :| 0 < k < |scopes[s].outer| && Missed(scopes, s, k)
      && !CleanAfter(scopes, acc, s, scopes[scopes[s].outer[k]].start);
    j :| scopes[scopes[s].outer[k]].start <= j < scopes[s].end && HeldBelow(scopes, s, j) && acc[j] != 0;
  }

  lemma UncleanScope(f: FuncBody) returns (s: nat)
    requires Sound(f) && !Clean(f)
    ensures s < |FuncScopes(f)| && FuncScopes(f)[s].end <= |f.acc| && !MissedClean(FuncScopes(f), f.acc, s, 0)
  {
    hide Sound, FuncScopes, MissedClean;
    s :| 0 <= s < |FuncScopes(f)| && FuncScopes(f)[s].end <= |f.acc| && !MissedClean(FuncScopes(f), f.acc, s, 0);
  }

  lemma {:induction false} Stray(f: FuncBody) returns (scopes: seq<ScopeBlock>, s: nat, k: nat, j: nat)
    requires Sound(f) && !Clean(f) && !f.isImport
    ensures scopes == FuncScopes(f) && TreeOf(f.body, scopes) && Laid(scopes, |f.body|) && s < |scopes|
    ensures 0 < k < |scopes[s].outer| && Missed(scopes, s, k)
    ensures scopes[scopes[s].outer[k]].start <= j < scopes[s].end <= |f.acc|
    ensures HeldBelow(scopes, s, j) && f.acc[j] != 0 && j < scopes[0].end
  {
    hide TreeOf, FuncScopes, Laid, HeldBelow, Missed, MissedClean, Clean, Sound;
    FuncTree(f);
    scopes := FuncScopes(f);
    InMain(f);
    s := UncleanScope(f);
    k, j := StrayAt(scopes, f.acc, s);
  }

  // ----- a function with an `else` -----

  const ELSE_BODY: seq<Op> := [If, Else, Other, End, End]
  const ELSE_FUNC: FuncBody := FuncBody(false, ELSE_BODY, [0, 0, 7, 0, 0])

  lemma ElseNested()
    ensures Nested(ELSE_BODY)
  {
    var body := ELSE_BODY;
    assert Level(body, 1) == 1 && Level(body, 2) == 1 && Level(body, 3) == 1 && Level(body, 4) == 0;
    assert Level(body, 5) == -1;
  }

  /** The innermost scope is the function's own. */
  lemma OpenInMain(a: seq<ScopeBlock>, i: nat)
    requires a != []
    ensures Opened(a, [0], i, 0)
         == [a[0].(subscopes := a[0].subscopes + [|a|], outer := a[0].outer + [|a|])] + a[1..]
            + [ScopeBlock(i, UNSET, 1, 0, [], [])]
  {
    var r := Opened(a, [0], i, 0);
    hide Opened;
    assert forall t :: 1 <= t < |a| ==> r[t] == a[t];
  }

  const MAIN_AT_IF := ScopeBlock(0, UNSET, 0, 0, [] + [1], [] + [1])
  const MAIN_AT_ELSE := ScopeBlock(0, UNSET, 0, 0, [] + [1] + [2], [] + [1] + [2])
  const THEN_SCOPE := ScopeBlock(0, 1, 1, 0, [], [])

  lemma AfterIf()
    ensures Build(ELSE_BODY, 1) == Built([MAIN_AT_IF, ScopeBlock(0, UNSET, 1, 0, [], [])], [0, 1], 0)
  {
    BuildNext(ELSE_BODY, 0);
    var main := ScopeBlock(0, UNSET, 0, 0, [], []);
    OpenInMain([main], 0);
    hide Opened, Build;
    assert [MAIN_AT_IF] + [main][1..] + [ScopeBlock(0, UNSET, 1, 0, [], [])]
      == [MAIN_AT_IF, ScopeBlock(0, UNSET, 1, 0, [], [])];
    assert [0] + [1] == [0, 1];
  }

  lemma AfterElse()
    ensures Build(ELSE_BODY, 2)
         == Built([MAIN_AT_ELSE, THEN_SCOPE, ScopeBlock(1, UNSET, 1, 0, [], [])], [0, 2], 0)
  {
    AfterIf();
    BuildNext(ELSE_BODY, 1);
    var a := [MAIN_AT_IF, ScopeBlock(0, UNSET, 1, 0, [], [])];
    var b := [MAIN_AT_IF, THEN_SCOPE];
    hide Opened, Build;
    assert Shut(a, 1, 1) == b && [0, 1][..1] == [0];
    OpenInMain(b, 1);
    assert [MAIN_AT_ELSE] + b[1..] + [ScopeBlock(1, UNSET, 1, 0, [], [])]
      == [MAIN_AT_ELSE, THEN_SCOPE, ScopeBlock(1, UNSET, 1, 0, [], [])];
    assert [0] + [2] == [0, 2];
    hide Shut;
  }

  lemma AfterEnds()
    ensures Build(ELSE_BODY, 5)
         == Built([MAIN_AT_ELSE.(end := 4), THEN_SCOPE, ScopeBlock(1, 3, 1, 0, [], [])], [], 0)
  {
    AfterElse();
    BuildNext(ELSE_BODY, 2);
    BuildNext(ELSE_BODY, 3);
    BuildNext(ELSE_BODY, 4);
    var a := [MAIN_AT_ELSE, THEN_SCOPE, ScopeBlock(1, UNSET, 1, 0, [], [])];
    var b := [MAIN_AT_ELSE, THEN_SCOPE, ScopeBlock(1, 3, 1, 0, [], [])];
    hide Opened, Build;
    assert Shut(a, 2, 3) == b && [0, 2][..1] == [0];
    assert Shut(b, 0, 4) == [MAIN_AT_ELSE.(end := 4), THEN_SCOPE, ScopeBlock(1, 3, 1, 0, [], [])];
    hide Shut;
  }

  /** The access in the `else` branch is found with the branch and with the function around it. */
  lemma ElseRepeats()
    ensures Sound(ELSE_FUNC) && !Clean(ELSE_FUNC)
  {
    ElseNested();
    AfterEnds();
    hide Build, Nested;
    var r := FuncScopes(ELSE_FUNC);
    assert r[0].outer[1] == 2 && r[0].outer[0] == 1;
    assert Holds(r, 2, 2) && HeldBelow(r, 0, 2);
    assert Missed(r, 0, 1) && !CleanAfter(r, ELSE_FUNC.acc, 0, 1);
    assert !MissedClean(r, ELSE_FUNC.acc, 0, 0);
  }

  lemma ElseScopes()
    ensures Sound(ELSE_FUNC)
    ensures FuncScopes(ELSE_FUNC) == [MAIN_AT_ELSE.(end := 4), THEN_SCOPE, ScopeBlock(1, 3, 1, 0, [], [])]
  {
    ElseNested();
    AfterEnds();
    hide Build, Nested;
  }

  const MAIN_BATCH := Batch([7], 1)

  /** The function's scopes, and where its access is. */
  predicate ElseLaid(r: seq<ScopeBlock>, acc: seq<nat>) {
    && acc == [0, 0, 7, 0, 0] && |r| == 3 && Laid(r, 5)
    && r[0].start == 0 && r[0].end == 4 && r[0].outer == [1, 2] && r[1].start == 0 && r[1].end == 1 && r[1].outer == []
    && r[2].start == 1 && r[2].end == 3 && r[2].outer == []
  }

  lemma {:induction false} WalkMain(r: seq<ScopeBlock>, acc: seq<nat>)
    requires ElseLaid(r, acc)
    ensures Walk(r, acc, 0, 0, 0) == [7]
  {
    hide Walk, Laid;
    WalkOver(r, acc, 0, 0, 0);
    WalkStep(r, acc, 0, 2, 1);
    WalkStep(r, acc, 0, 3, 1);
    WalkAtEnd(r, acc, 0, 4, 1);
  }

  lemma {:induction false} WalkArms(r: seq<ScopeBlock>, acc: seq<nat>)
    requires ElseLaid(r, acc)
    ensures Walk(r, acc, 1, 0, 0) == [] && Walk(r, acc, 2, 1, 0) == [7]
  {
    hide Walk, Laid;
    WalkStep(r, acc, 1, 0, 0);
    WalkAtEnd(r, acc, 1, 1, 0);
    WalkStep(r, acc, 2, 1, 0);
    WalkStep(r, acc, 2, 2, 0);
    WalkAtEnd(r, acc, 2, 3, 0);
  }

  lemma WalkBatchIs(f: FuncBody, s: nat)
    requires Sound(f) && s < |FuncScopes(f)|
    ensures Laid(FuncScopes(f), |f.acc|) && WalkBatch(f, s).weight == FuncScopes(f)[s].loopDepth + 1
    ensures WalkBatch(f, s).idxs == Walk(FuncScopes(f), f.acc, s, FuncScopes(f)[s].start, 0)
  {
    FuncTree(f);
    hide FuncScopes, Walk, Laid, TreeOf, Nested;
  }

  lemma ElseIsLaid()
    ensures Sound(ELSE_FUNC) && |FuncScopes(ELSE_FUNC)| == 3 && ElseLaid(FuncScopes(ELSE_FUNC), ELSE_FUNC.acc)
    ensures var r := FuncScopes(ELSE_FUNC); r[0].loopDepth == r[1].loopDepth == r[2].loopDepth == 0
    ensures var r := FuncScopes(ELSE_FUNC); r[0].start == r[1].start == 0 && r[2].start == 1
  {
    ElseScopes();
    FuncTree(ELSE_FUNC);
    hide FuncScopes, Laid, TreeOf, Sound;
    assert [] + [1] + [2] == [1, 2];
  }

  /** The walk over the function comes into the `else` branch. */
  lemma {:induction false} ElseFound()
    ensures Sound(ELSE_FUNC) && |FuncScopes(ELSE_FUNC)| == 3
    ensures WalkBatch(ELSE_FUNC, 0) == MAIN_BATCH && WalkBatch(ELSE_FUNC, 1) == Batch([], 1) && WalkBatch(ELSE_FUNC, 2) == MAIN_BATCH
  {
    var f := ELSE_FUNC;
    hide *;
    ElseIsLaid();
    WalkMain(FuncScopes(f), f.acc);
    WalkArms(FuncScopes(f), f.acc);
    WalkBatchIs(f, 0);
    WalkBatchIs(f, 1);
    WalkBatchIs(f, 2);
    MainBatchIs();
  }

  lemma MainBatchIs()
    ensures MAIN_BATCH == Batch([7], 1)
  {
  }

  lemma ElseBatches()
    ensures AllSound([ELSE_FUNC]) && AllFound([ELSE_FUNC], 1) == [MAIN_BATCH, Batch([], 1), MAIN_BATCH]
  {
    ElseFound();
    var f := ELSE_FUNC;
    hide Sound, FuncScopes, WalkBatch;
    assert FuncFound(f, 1) == [] + [WalkBatch(f, 0)];
    assert FuncFound(f, 2) == FuncFound(f, 1) + [WalkBatch(f, 1)];
    assert FuncFound(f, 3) == FuncFound(f, 2) + [WalkBatch(f, 2)];
    assert AllFound([f], 1) == [] + FuncFound(f, 3);
  }

  lemma OneDealt(order: seq<nat>, was: Parts, now: Parts)
    requires |order| == 2 && ArgSorted(was.weights, order) && Dealt(MAIN_BATCH, order, was, now)
    ensures var p, q := order[0], order[1];
      && ((p == 0 && q == 1) || (p == 1 && q == 0)) && was.weights[p] <= was.weights[q]
      && |was.sets| == |was.weights| == |now.sets| == |now.weights| == 2
      && now.sets[p] == was.sets[p] + {7} && now.sets[q] == was.sets[q]
      && now.weights[p] == was.weights[p] + 1 && now.weights[q] == was.weights[q]
  {
    var b, p, q := MAIN_BATCH, order[0], order[1];
    assert Served(b, order, was, now, 0) && Served(b, order, was, now, 1);
    assert Share(1, 2, 0) == 1 && Share(1, 2, 1) == 0;
    assert SetOf(Slice(b.idxs, 2, 0)) == {7} by { assert Slice(b.idxs, 2, 0)[0] in b.idxs && Slice(b.idxs, 2, 0)[0] in Slice(b.idxs, 2, 0); }
    assert SetOf(Slice(b.idxs, 2, 1)) == {};
    hide Slice;
  }

  lemma NoneDealt(order: seq<nat>, was: Parts, now: Parts)
    requires |order| == 2 && ArgSorted(was.weights, order) && Dealt(Batch([], 1), order, was, now)
    ensures |was.sets| == |was.weights| == |now.sets| == |now.weights| == 2
    ensures now.sets[0] == was.sets[0] && now.sets[1] == was.sets[1] && now.weights == was.weights
  {
    var b, p, q := Batch([], 1), order[0], order[1];
    assert Served(b, order, was, now, 0) && Served(b, order, was, now, 1);
    assert Share(0, 2, 0) == 0 && Share(0, 2, 1) == 0;
    assert SetOf(Slice(b.idxs, 2, 0)) == {} && SetOf(Slice(b.idxs, 2, 1)) == {};
    hide Slice;
  }

  /** Dealt over two partitions, the one access is in both of them. */
  lemma {:induction false} ElseOverlaps(o1: seq<nat>, o2: seq<nat>, o3: seq<nat>, p1: Parts, p2: Parts, p3: Parts)
    requires |o1| == |o2| == |o3| == 2
    requires ArgSorted([0, 0], o1) && Dealt(MAIN_BATCH, o1, Parts([{}, {}], [0, 0]), p1)
    requires ArgSorted(p1.weights, o2) && Dealt(Batch([], 1), o2, p1, p2)
    requires ArgSorted(p2.weights, o3) && Dealt(MAIN_BATCH, o3, p2, p3)
    ensures p3 == Parts([{7}, {7}], [1, 1])
  {
    assert |p3.sets| == |p3.weights| == 2;
    hide *;
    OneDealt(o1, Parts([{}, {}], [0, 0]), p1);
    NoneDealt(o2, p1, p2);
    OneDealt(o3, p2, p3);
    assert p1.weights[o1[0]] == 1 && p1.weights[o1[1]] == 0;
    assert o3[0] == o1[1];
    assert p3.sets[0] == {7};
    assert p3.sets[1] == {7};
    assert p3.weights == [1, 1];
    assert p3.sets == [{7}, {7}];
  }

  /** Whatever the sort makes of equal weights, the one access of weight 1 is weighed twice. */
  lemma {:induction false} ElseWeighsTwice(parts: Parts, printed: seq<seq<nat>>)
    requires AllSound([ELSE_FUNC]) && State(AllFound([ELSE_FUNC], 1), parts, printed, 2)
    ensures Total(parts.weights) == 2
  {
    ElseBatches();
    hide State, AllFound, Sound, Total;
    TotalNow([MAIN_BATCH, Batch([], 1), MAIN_BATCH], parts, printed);
    ThreeLoads();
  }

  lemma TotalNow(done: seq<Batch>, parts: Parts, printed: seq<seq<nat>>)
    requires State(done, parts, printed, 2)
    ensures Total(parts.weights) == Load(done)
  {
    hide Total, Load, Covers, PartOk, Balanced, Printed, AllFresh;
  }

  lemma ThreeLoads()
    ensures Load([MAIN_BATCH, Batch([], 1), MAIN_BATCH]) == 2
  {
    var all := [MAIN_BATCH, Batch([], 1), MAIN_BATCH];
    assert all[..2] == [MAIN_BATCH, Batch([], 1)] && all[..2][..1] == [MAIN_BATCH] && [MAIN_BATCH][..0] == [];
    assert Load([MAIN_BATCH]) == 1;
    assert Load(all[..2]) == 1;
  }
}
