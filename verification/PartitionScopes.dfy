/**
 * Finding the accesses of one scope by walking over its instructions and jumping over the scopes
 * inside it: what the walk finds, and when an `else` makes it find too much.
 */
module PartitionScopes {
  import opened Scopes
  import opened ScopeTree

  /** `acc[i]` is the number of the access at instruction `i` when it is asked for, 0 otherwise. */
  predicate Accesses(body: seq<Op>, acc: seq<nat>) {
    |acc| == |body| && forall i :: 0 <= i < |body| && acc[i] != 0 ==> body[i].Other?
  }

  function At(acc: seq<nat>, i: nat): (r: seq<nat>)
    requires i < |acc|
  {
    if acc[i] != 0 then [acc[i]] else []
  }

  /** All accesses from `i` on, up to `end`. */
  function All(acc: seq<nat>, i: nat, end: int): (r: seq<nat>)
    requires end <= |acc|
    decreases end - i
  {
    if i >= end then [] else At(acc, i) + All(acc, i + 1, end)
  }

  /** Instruction `i` belongs to a scope directly inside `s`. */
  predicate HeldBelow(scopes: seq<ScopeBlock>, s: nat, i: nat)
    requires s < |scopes|
  {
    exists t :: t in scopes[s].outer && Holds(scopes, t, i)
  }

  /** The accesses from `i` on whose innermost scope is `s`. */
  function Own(scopes: seq<ScopeBlock>, acc: seq<nat>, s: nat, i: nat): (r: seq<nat>)
    requires s < |scopes| && scopes[s].end <= |acc|
    decreases scopes[s].end - i
  {
    if i >= scopes[s].end then []
    else (if HeldBelow(scopes, s, i) then [] else At(acc, i)) + Own(scopes, acc, s, i + 1)
  }

  predicate OuterLaid(scopes: seq<ScopeBlock>, s: nat, t: nat)
    requires s < |scopes|
  {
    s < t < |scopes| && scopes[s].start <= scopes[t].start < scopes[t].end < scopes[s].end
  }

  predicate Apart(scopes: seq<ScopeBlock>, t: nat, u: nat) {
    t < u < |scopes| && scopes[t].end <= scopes[u].start
  }

  /** Scopes end inside the body, the scopes inside a scope end before it, and they follow each other. */
  predicate Laid(scopes: seq<ScopeBlock>, n: nat) {
    && (forall t :: 0 <= t < |scopes| ==> 0 <= scopes[t].start <= scopes[t].end < n)
    && (forall s, t {:trigger t in scopes[s].outer} :: 0 <= s < |scopes| && t in scopes[s].outer ==>
          OuterLaid(scopes, s, t))
    && (forall s, j, k {:trigger scopes[s].outer[j], scopes[s].outer[k]} ::
          0 <= s < |scopes| && 0 <= j < k < |scopes[s].outer| ==>
          Apart(scopes, scopes[s].outer[j], scopes[s].outer[k]))
  }

  /** What the walk finds, standing at `i` with the subscopes before the `next`-th behind it. */
  function Walk(scopes: seq<ScopeBlock>, acc: seq<nat>, s: nat, i: nat, next: nat): (r: seq<nat>)
    requires Laid(scopes, |acc|) && s < |scopes|
    decreases scopes[s].end - i
  {
    var outer := scopes[s].outer;
    if i >= scopes[s].end then []
    else if next < |outer| && outer[next] in outer && i == scopes[outer[next]].start then
      Walk(scopes, acc, s, (scopes[outer[next]].end + 1) as nat, next + 1)
    else At(acc, i) + Walk(scopes, acc, s, i + 1, next)
  }

  // ----- the scope tree is laid out -----

  lemma {:induction false} BelowAscends(scopes: seq<ScopeBlock>, lo: nat, hi: nat, d: nat, j: nat, k: nat)
    requires lo <= hi <= |scopes| && j < k < |Below(scopes, lo, hi, d)|
    ensures Below(scopes, lo, hi, d)[j] < Below(scopes, lo, hi, d)[k]
    decreases hi
  {
    var r := Below(scopes, lo, hi - 1, d);
    if k < |r| {
      BelowAscends(scopes, lo, hi - 1, d, j, k);
    } else {
      assert r[j] in r;
    }
  }

  lemma {:induction false} OuterAscends(scopes: seq<ScopeBlock>, s: nat, j: nat, k: nat)
    requires SubsOk(scopes, []) && s < |scopes| && j < k < |scopes[s].outer|
    ensures scopes[s].outer[j] < scopes[s].outer[k]
  {
    assert SubOk(scopes, [], s);
    BelowAscends(scopes, s + 1, s + 1 + |scopes[s].subscopes|, scopes[s].depth, j, k);
  }

  lemma {:induction false} OuterPlace(body: seq<Op>, scopes: seq<ScopeBlock>, s: nat, t: nat)
    requires TreeOf(body, scopes) && s < |scopes| && t in scopes[s].outer
    ensures OuterLaid(scopes, s, t)
    ensures scopes[t].depth == scopes[s].depth + 1
  {
    OuterIff(scopes, s, t);
    AroundIff(body, scopes, s, t);
    Laminar(body, scopes, s, t);
  }

  lemma {:induction false} Siblings(body: seq<Op>, scopes: seq<ScopeBlock>, s: nat, j: nat, k: nat)
    requires TreeOf(body, scopes) && s < |scopes| && j < k < |scopes[s].outer|
    ensures Apart(scopes, scopes[s].outer[j], scopes[s].outer[k])
  {
    var t, u := scopes[s].outer[j], scopes[s].outer[k];
    OuterAscends(scopes, s, j, k);
    assert t in scopes[s].outer && u in scopes[s].outer;
    OuterPlace(body, scopes, s, t);
    OuterPlace(body, scopes, s, u);
    Laminar(body, scopes, t, u);
  }

  lemma {:induction false} LaidOut(body: seq<Op>, scopes: seq<ScopeBlock>)
    requires TreeOf(body, scopes) && Nested(body)
    ensures Laid(scopes, |body|)
  {
    hide TreeOf, Nested;
    forall t | 0 <= t < |scopes| ensures 0 <= scopes[t].start <= scopes[t].end < |body| {
      ScopeBounds(body, scopes, t);
    }
    forall s, t {:trigger t in scopes[s].outer} | 0 <= s < |scopes| && t in scopes[s].outer
      ensures OuterLaid(scopes, s, t)
    {
      OuterPlace(body, scopes, s, t);
    }
    forall s, j, k {:trigger scopes[s].outer[j], scopes[s].outer[k]} |
      0 <= s < |scopes| && 0 <= j < k < |scopes[s].outer|
      ensures Apart(scopes, scopes[s].outer[j], scopes[s].outer[k])
    {
      Siblings(body, scopes, s, j, k);
    }
  }

  lemma {:induction false} ScopeBounds(body: seq<Op>, scopes: seq<ScopeBlock>, t: nat)
    requires TreeOf(body, scopes) && t < |scopes|
    ensures 0 <= scopes[t].start <= scopes[t].end < |body|
    ensures Closer(body[scopes[t].end]) && (t > 0 ==> Opener(body[scopes[t].start]))
  {
    Closed(body, scopes, t);
    hide AllListed, AllEnded, AllParented, SubsOk, LoopLinks, ClosedOk, Level, Open;
  }

  // ----- what the walk finds -----

  /** The subscope starts where the one before it ends: it is an `else`, and the walk runs past its start. */
  predicate Missed(scopes: seq<ScopeBlock>, s: nat, k: nat)
    requires s < |scopes| && k < |scopes[s].outer|
  {
    k > 0 && scopes[s].outer[k - 1] < |scopes| && scopes[s].outer[k] < |scopes|
    && scopes[scopes[s].outer[k - 1]].end == scopes[scopes[s].outer[k]].start
  }

  /** The walk is in step: every subscope it has not jumped yet is still ahead. */
  predicate InStep(scopes: seq<ScopeBlock>, s: nat, i: nat, next: nat)
    requires s < |scopes|
  {
    && (forall k :: 0 <= k < next && k < |scopes[s].outer| ==>
          scopes[s].outer[k] < |scopes| && scopes[scopes[s].outer[k]].end < i)
    && (forall k :: next <= k < |scopes[s].outer| ==>
          scopes[s].outer[k] < |scopes| && i <= scopes[scopes[s].outer[k]].start)
  }

  /** Over a whole subscope nothing is the scope's own. */
  lemma {:induction false} OwnJump(body: seq<Op>, scopes: seq<ScopeBlock>, acc: seq<nat>, s: nat, t: nat, i: nat)
    requires Accesses(body, acc) && Laid(scopes, |body|) && s < |scopes| && t in scopes[s].outer && t < |scopes|
    requires scopes[t].start <= i <= scopes[t].end && Closer(body[scopes[t].end])
    ensures Own(scopes, acc, s, i) == Own(scopes, acc, s, scopes[t].end + 1)
    decreases scopes[t].end - i
  {
    hide *;
    SubscopeEnds(scopes, |body|, s, t);
    SameLength(body, acc);
    OwnIs(scopes, acc, s, i);
    if i < scopes[t].end {
      HeldHere(scopes, s, t, i);
      OwnJump(body, scopes, acc, s, t, i + 1);
    } else {
      CloserAsksNothing(body, acc, i);
    }
  }

  lemma SubscopeEnds(scopes: seq<ScopeBlock>, n: nat, s: nat, t: nat)
    requires Laid(scopes, n) && s < |scopes| && t in scopes[s].outer && t < |scopes|
    ensures scopes[t].end < scopes[s].end < n
  {
    assert OuterLaid(scopes, s, t);
  }

  lemma SameLength(body: seq<Op>, acc: seq<nat>)
    requires Accesses(body, acc)
    ensures |acc| == |body|
  {
  }

  lemma OwnIs(scopes: seq<ScopeBlock>, acc: seq<nat>, s: nat, i: nat)
    requires s < |scopes| && i < scopes[s].end <= |acc|
    ensures Own(scopes, acc, s, i) == (if HeldBelow(scopes, s, i) then [] else At(acc, i)) + Own(scopes, acc, s, i + 1)
  {
    hide HeldBelow, At;
  }

  lemma HeldHere(scopes: seq<ScopeBlock>, s: nat, t: nat, i: nat)
    requires s < |scopes| && t in scopes[s].outer && t < |scopes| && scopes[t].start <= i < scopes[t].end
    ensures HeldBelow(scopes, s, i)
  {
    assert Holds(scopes, t, i);
  }

  lemma CloserAsksNothing(body: seq<Op>, acc: seq<nat>, i: nat)
    requires Accesses(body, acc) && i < |body| && Closer(body[i])
    ensures i < |acc| && At(acc, i) == []
  {
  }

  /** In step, and not at a subscope's start, the walk and the scope agree on the instruction. */
  lemma {:induction false} StepOwn(scopes: seq<ScopeBlock>, n: nat, s: nat, i: nat, next: nat)
    requires Laid(scopes, n) && s < |scopes| && InStep(scopes, s, i, next)
    requires next < |scopes[s].outer| ==> i != scopes[scopes[s].outer[next]].start
    ensures !HeldBelow(scopes, s, i) && InStep(scopes, s, i + 1, next)
  {
    var outer := scopes[s].outer;
    forall k | next < k < |outer| ensures outer[k] < |scopes| && i < scopes[outer[k]].start {
      assert Apart(scopes, outer[next], outer[k]);
      assert outer[next] in outer;
      assert OuterLaid(scopes, s, outer[next]);
    }
    hide Laid;
  }

  /** Past the start of a subscope it did not jump, the walk takes every access there is. */
  lemma {:induction false} WalkAll(scopes: seq<ScopeBlock>, acc: seq<nat>, s: nat, i: nat, next: nat)
    requires Laid(scopes, |acc|) && s < |scopes| && next < |scopes[s].outer| && scopes[s].outer[next] < |scopes|
    requires scopes[scopes[s].outer[next]].start < i
    ensures Walk(scopes, acc, s, i, next) == All(acc, i, scopes[s].end)
    decreases scopes[s].end - i
  {
    hide Laid;
    if i < scopes[s].end { WalkAll(scopes, acc, s, i + 1, next); }
  }

  /** From `i` on, nothing asked for lies in a subscope. */
  predicate CleanAfter(scopes: seq<ScopeBlock>, acc: seq<nat>, s: nat, i: nat)
    requires s < |scopes| && scopes[s].end <= |acc|
  {
    forall j :: i <= j < scopes[s].end && HeldBelow(scopes, s, j) ==> acc[j] == 0
  }

  lemma {:induction false} AllIsOwn(scopes: seq<ScopeBlock>, acc: seq<nat>, s: nat, i: nat)
    requires s < |scopes| && scopes[s].end <= |acc|
    ensures |Own(scopes, acc, s, i)| <= |All(acc, i, scopes[s].end)|
    ensures |Own(scopes, acc, s, i)| == |All(acc, i, scopes[s].end)| ==> All(acc, i, scopes[s].end) == Own(scopes, acc, s, i)
    ensures All(acc, i, scopes[s].end) == Own(scopes, acc, s, i) <==> CleanAfter(scopes, acc, s, i)
    decreases scopes[s].end - i
  {
    hide HeldBelow;
    if i < scopes[s].end {
      AllIsOwn(scopes, acc, s, i + 1);
      SameTail(At(acc, i), All(acc, i + 1, scopes[s].end), Own(scopes, acc, s, i + 1));
    }
  }

  lemma SameTail(a: seq<nat>, b: seq<nat>, c: seq<nat>)
    ensures a + b == a + c <==> b == c
  {
    assert (a + b)[|a|..] == b && (a + c)[|a|..] == c;
  }

  /** The missed subscopes after the `next`-th, if any, are followed by nothing asked for in a subscope. */
  predicate MissedClean(scopes: seq<ScopeBlock>, acc: seq<nat>, s: nat, next: nat)
    requires s < |scopes| && scopes[s].end <= |acc|
  {
    forall k :: next < k < |scopes[s].outer| && Missed(scopes, s, k) ==>
      CleanAfter(scopes, acc, s, scopes[scopes[s].outer[k]].start)
  }

  lemma {:induction false} NothingAhead(scopes: seq<ScopeBlock>, n: nat, s: nat, i: nat, next: nat)
    requires Laid(scopes, n) && s < |scopes| && InStep(scopes, s, i, next) && i >= scopes[s].end
    ensures next >= |scopes[s].outer|
  {
    var outer := scopes[s].outer;
    assert next < |outer| ==> outer[next] in outer && OuterLaid(scopes, s, outer[next]);
  }

  /** After a jump the walk is in step again, unless the next subscope starts where this one ends. */
  lemma {:induction false} Jumped(scopes: seq<ScopeBlock>, n: nat, s: nat, i: nat, next: nat)
    requires Laid(scopes, n) && s < |scopes| && InStep(scopes, s, i, next) && next < |scopes[s].outer|
    requires i == scopes[scopes[s].outer[next]].start
    ensures var t := scopes[s].outer[next];
      && OuterLaid(scopes, s, t)
      && ((next + 1 < |scopes[s].outer| && Missed(scopes, s, next + 1))
          || InStep(scopes, s, scopes[t].end + 1, next + 1))
  {
    var outer := scopes[s].outer;
    var t := outer[next];
    assert t in outer;
    assert OuterLaid(scopes, s, t);
    if next + 1 < |outer| && !Missed(scopes, s, next + 1) {
      forall k | next < k < |outer| ensures outer[k] < |scopes| && scopes[t].end < scopes[outer[k]].start {
        assert Apart(scopes, t, outer[next + 1]);
        if k > next + 1 {
          assert Apart(scopes, outer[next + 1], outer[k]);
          assert outer[next + 1] in outer;
          assert OuterLaid(scopes, s, outer[next + 1]);
        }
      }
    }
    hide Laid;
  }

  /** Once a subscope is missed, only what follows its start matters. */
  lemma {:induction false} MissedNext(
      body: seq<Op>, scopes: seq<ScopeBlock>, acc: seq<nat>, s: nat, next: nat)
    requires Accesses(body, acc) && Laid(scopes, |body|) && s < |scopes|
    requires next + 1 < |scopes[s].outer| && Missed(scopes, s, next + 1)
    requires Closer(body[scopes[scopes[s].outer[next]].end])
    ensures MissedClean(scopes, acc, s, next)
      <==> CleanAfter(scopes, acc, s, scopes[scopes[s].outer[next]].end + 1)
  {
    var outer := scopes[s].outer;
    var e := scopes[outer[next]].end;
    assert acc[e] == 0;
    assert CleanAfter(scopes, acc, s, e) <==> CleanAfter(scopes, acc, s, e + 1);
    if CleanAfter(scopes, acc, s, e) {
      forall k | next < k < |outer| && Missed(scopes, s, k)
        ensures CleanAfter(scopes, acc, s, scopes[outer[k]].start)
      {
        assert k > next + 1 ==> Apart(scopes, outer[next + 1], outer[k]);
      }
    }
  }

  lemma WalkAtEnd(scopes: seq<ScopeBlock>, acc: seq<nat>, s: nat, i: nat, next: nat)
    requires Laid(scopes, |acc|) && s < |scopes| && i >= scopes[s].end
    ensures Walk(scopes, acc, s, i, next) == [] == Own(scopes, acc, s, i)
  {
    hide Laid;
  }

  lemma WalkStep(scopes: seq<ScopeBlock>, acc: seq<nat>, s: nat, i: nat, next: nat)
    requires Laid(scopes, |acc|) && s < |scopes| && i < scopes[s].end
    requires next < |scopes[s].outer| ==>
      scopes[s].outer[next] < |scopes| && i != scopes[scopes[s].outer[next]].start
    ensures Walk(scopes, acc, s, i, next) == At(acc, i) + Walk(scopes, acc, s, i + 1, next)
  {
    hide Laid;
  }

  lemma WalkOver(scopes: seq<ScopeBlock>, acc: seq<nat>, s: nat, i: nat, next: nat)
    requires Laid(scopes, |acc|) && s < |scopes| && i < scopes[s].end && next < |scopes[s].outer|
    requires scopes[s].outer[next] < |scopes| && i == scopes[scopes[s].outer[next]].start
    requires scopes[scopes[s].outer[next]].end >= 0
    ensures Walk(scopes, acc, s, i, next) == Walk(scopes, acc, s, scopes[scopes[s].outer[next]].end + 1, next + 1)
  {
    hide Laid;
  }

  /** The second list is no shorter, and as long only if it is the same. */
  predicate NoShorter(a: seq<nat>, b: seq<nat>) { |a| < |b| || a == b }

  lemma SameNoShorter(a: seq<nat>)
    ensures NoShorter(a, a)
  {
  }

  lemma {:induction false} WalkIsOwn(body: seq<Op>, scopes: seq<ScopeBlock>, acc: seq<nat>, s: nat, i: nat, next: nat)
    requires Accesses(body, acc) && Laid(scopes, |body|) && s < |scopes| && InStep(scopes, s, i, next)
    requires forall t :: 0 <= t < |scopes| ==> Closer(body[scopes[t].end])
    ensures Walk(scopes, acc, s, i, next) == Own(scopes, acc, s, i) <==> MissedClean(scopes, acc, s, next)
    ensures NoShorter(Own(scopes, acc, s, i), Walk(scopes, acc, s, i, next))
    decreases scopes[s].end - i, 1
  {
    hide Walk, HeldBelow, CleanAfter, NoShorter;
    if i >= scopes[s].end {
      SameNoShorter(Own(scopes, acc, s, i));
      NothingAhead(scopes, |body|, s, i, next);
      WalkAtEnd(scopes, acc, s, i, next);
      hide Laid, InStep, Accesses, Own;
    } else if next < |scopes[s].outer| && i == scopes[scopes[s].outer[next]].start {
      WalkJump(body, scopes, acc, s, i, next);
    } else {
      WalkStep(scopes, acc, s, i, next);
      StepOwn(scopes, |body|, s, i, next);
      hide InStep, MissedClean;
      WalkIsOwn(body, scopes, acc, s, i + 1, next);
      hide Laid, Accesses;
      StepLengths(At(acc, i), Own(scopes, acc, s, i + 1), Walk(scopes, acc, s, i + 1, next));
    }
  }

  lemma StepLengths(a: seq<nat>, own: seq<nat>, walk: seq<nat>)
    requires NoShorter(own, walk)
    ensures NoShorter(a + own, a + walk) && (a + own == a + walk <==> own == walk)
  {
    SameTail(a, own, walk);
  }

  lemma {:induction false} WalkJump(body: seq<Op>, scopes: seq<ScopeBlock>, acc: seq<nat>, s: nat, i: nat, next: nat)
    requires Accesses(body, acc) && Laid(scopes, |body|) && s < |scopes| && InStep(scopes, s, i, next)
    requires forall t :: 0 <= t < |scopes| ==> Closer(body[scopes[t].end])
    requires i < scopes[s].end && next < |scopes[s].outer| && i == scopes[scopes[s].outer[next]].start
    ensures Walk(scopes, acc, s, i, next) == Own(scopes, acc, s, i) <==> MissedClean(scopes, acc, s, next)
    ensures NoShorter(Own(scopes, acc, s, i), Walk(scopes, acc, s, i, next))
    decreases scopes[s].end - i, 0
  {
    hide *;
    var outer := scopes[s].outer;
    var t := outer[next];
    assert t in outer;
    SubscopePlace(scopes, |body|, s, t);
    SameLength(body, acc);
    Jumped(scopes, |body|, s, i, next);
    var i' := scopes[t].end + 1;
    WalkOver(scopes, acc, s, i, next);
    OwnJump(body, scopes, acc, s, t, i);
    if next + 1 < |outer| && Missed(scopes, s, next + 1) {
      MissedAt(scopes, s, next + 1);
      MissedNext(body, scopes, acc, s, next);
      WalkAll(scopes, acc, s, i', next + 1);
      AllIsOwn(scopes, acc, s, i');
      NoShorterIf(Own(scopes, acc, s, i'), All(acc, i', scopes[s].end));
    } else {
      WalkIsOwn(body, scopes, acc, s, i', next + 1);
      NotMissed(scopes, acc, s, next);
    }
  }

  lemma SubscopePlace(scopes: seq<ScopeBlock>, n: nat, s: nat, t: nat)
    requires Laid(scopes, n) && s < |scopes| && t in scopes[s].outer
    ensures t < |scopes| && 0 <= scopes[t].start <= scopes[t].end < scopes[s].end < n
  {
    assert OuterLaid(scopes, s, t);
  }

  lemma MissedAt(scopes: seq<ScopeBlock>, s: nat, k: nat)
    requires s < |scopes| && k < |scopes[s].outer| && Missed(scopes, s, k)
    ensures k > 0 && scopes[s].outer[k - 1] < |scopes| && scopes[s].outer[k] < |scopes|
    ensures scopes[scopes[s].outer[k - 1]].end == scopes[scopes[s].outer[k]].start
  {
  }

  lemma NoShorterIf(a: seq<nat>, b: seq<nat>)
    requires |a| <= |b| && (|a| == |b| ==> b == a)
    ensures NoShorter(a, b)
  {
  }

  lemma NotMissed(scopes: seq<ScopeBlock>, acc: seq<nat>, s: nat, next: nat)
    requires s < |scopes| && scopes[s].end <= |acc|
    requires next + 1 < |scopes[s].outer| ==> !Missed(scopes, s, next + 1)
    ensures MissedClean(scopes, acc, s, next + 1) <==> MissedClean(scopes, acc, s, next)
  {
    hide CleanAfter;
  }
}
