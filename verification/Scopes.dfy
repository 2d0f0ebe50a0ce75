/**
 * The scope view of a function body: the stack machine that turns a flat instruction list into
 * a tree of scopes, and what that tree says about any well-nested body.
 */
module Scopes {

  /** Instructions as the scope builder tells them apart. */
  datatype Op = Loop | Block | If | Else | End | Other

  const UNSET: int := -1

  /** Scopes refer to each other by their position in the list of all scopes. */
  datatype ScopeBlock = ScopeBlock(
    start: nat,
    end: int,
    depth: nat,
    loopDepth: int,
    subscopes: seq<nat>,
    outer: seq<nat>)

  predicate Opener(o: Op) { o.Loop? || o.Block? || o.If? || o.Else? }
  predicate Closer(o: Op) { o.End? || o.Else? }

  function Delta(o: Op): int {
    if o.End? then -1 else if o.Loop? || o.Block? || o.If? then 1 else 0
  }

  /** How many more scopes were opened than closed before instruction `i`, the function's own aside. */
  function Level(body: seq<Op>, i: nat): int
    requires i <= |body|
  {
    if i == 0 then 0 else Level(body, i - 1) + Delta(body[i - 1])
  }

  /** Nothing is closed that is not open, and an `else` has a scope around it. */
  predicate Safe(body: seq<Op>, n: nat)
    requires n <= |body|
  {
    forall i :: 0 <= i < n ==> SafeAt(body, i)
  }

  predicate SafeAt(body: seq<Op>, i: nat)
    requires i < |body|
  {
    (body[i] != Other ==> Level(body, i) >= 0) && (body[i].Else? ==> Level(body, i) >= 1)
  }

  /** The last instruction closes the function's own scope. */
  predicate Nested(body: seq<Op>) {
    Safe(body, |body|) && Level(body, |body|) == -1
  }

  /** Between `a` and `j` nothing closes the scope whose contents sit at level `d`. */
  predicate Open(body: seq<Op>, a: int, d: nat, j: nat)
    requires a >= -1 && j <= |body|
  {
    forall k {:trigger Level(body, k)} :: a < k < j ==> Level(body, k) >= d && (Closer(body[k]) ==> Level(body, k) > d)
  }

  /** Instruction `j` is the one that closes the scope opened at `a`. */
  predicate Closes(body: seq<Op>, a: int, d: nat, j: int)
    requires a >= -1
  {
    a < j < |body| && Closer(body[j]) && Level(body, j) == d && Open(body, a, d, j)
  }

  /** The instruction in front of the contents; the function's own scope has none. */
  function From(scopes: seq<ScopeBlock>, s: nat): int
    requires s < |scopes|
  {
    if s == 0 then -1 else scopes[s].start
  }

  function Range(lo: nat, hi: nat): (r: seq<nat>)
    requires lo <= hi
    ensures |r| == hi - lo && forall k :: 0 <= k < |r| ==> r[k] == lo + k
  {
    seq(hi - lo, k requires 0 <= k => lo + k)
  }

  /** The scopes from `lo` to `hi` one level below `d`. */
  function Below(scopes: seq<ScopeBlock>, lo: nat, hi: nat, d: nat): (r: seq<nat>)
    requires lo <= hi <= |scopes|
    ensures forall t :: t in r <==> lo <= t < hi && scopes[t].depth == d + 1
    decreases hi
  {
    if lo == hi then []
    else Below(scopes, lo, hi - 1, d) + (if scopes[hi - 1].depth == d + 1 then [hi - 1] else [])
  }

  // ----- the invariant of the builder, clause by clause -----

  predicate StackOk(body: seq<Op>, i: nat, scopes: seq<ScopeBlock>, stack: seq<nat>)
    requires i <= |body|
  {
    && (stack != [] ==> stack[0] == 0)
    && (forall d, e :: 0 <= d < e < |stack| ==> stack[d] < stack[e])
    && (forall d :: 0 <= d < |stack| ==>
          && stack[d] < |scopes| && scopes[stack[d]].depth == d && scopes[stack[d]].end == UNSET
          && Open(body, From(scopes, stack[d]), d, i))
  }

  predicate ClosedOk(body: seq<Op>, i: nat, scopes: seq<ScopeBlock>, stack: seq<nat>)
    requires i <= |body|
  {
    forall s :: 0 <= s < |scopes| && s !in stack ==>
      scopes[s].end < i && Closes(body, From(scopes, s), scopes[s].depth, scopes[s].end)
  }

  predicate StartsOk(body: seq<Op>, i: nat, scopes: seq<ScopeBlock>)
    requires i <= |body|
  {
    && |scopes| > 0 && scopes[0].start == 0 && scopes[0].depth == 0 && scopes[0].loopDepth == 0
    && (forall s, t :: 1 <= s < t < |scopes| ==> scopes[s].start < scopes[t].start)
    && (forall s :: 1 <= s < |scopes| ==>
          && scopes[s].start < i && Opener(body[scopes[s].start])
          && Level(body, scopes[s].start + 1) == scopes[s].depth)
  }

  predicate StartsAt(scopes: seq<ScopeBlock>, s: nat, k: nat) {
    1 <= s < |scopes| && scopes[s].start == k
  }

  /** No opener is missing from the list. */
  predicate AllListed(body: seq<Op>, i: nat, scopes: seq<ScopeBlock>)
    requires i <= |body|
  {
    forall k :: 0 <= k < i && Opener(body[k]) ==> exists s :: 0 <= s < |scopes| && StartsAt(scopes, s, k)
  }

  predicate EndsAt(scopes: seq<ScopeBlock>, s: nat, k: nat) {
    s < |scopes| && scopes[s].end == k
  }

  /** Every closer closes some scope. */
  predicate AllEnded(body: seq<Op>, i: nat, scopes: seq<ScopeBlock>)
    requires i <= |body|
  {
    forall k :: 0 <= k < i && Closer(body[k]) ==> exists s :: 0 <= s < |scopes| && EndsAt(scopes, s, k)
  }

  predicate OuterOf(scopes: seq<ScopeBlock>, s: nat, t: nat) {
    s < |scopes| && t in scopes[s].outer
  }

  /** Every scope but the function's own is directly inside some scope. */
  predicate AllParented(scopes: seq<ScopeBlock>) {
    forall t :: 1 <= t < |scopes| ==> HasParent(scopes, t)
  }

  predicate HasParent(scopes: seq<ScopeBlock>, t: nat) {
    exists s :: 0 <= s < |scopes| && OuterOf(scopes, s, t)
  }

  /** A scope's subscopes are the consecutive scopes that start before it ends. */
  predicate SubOk(scopes: seq<ScopeBlock>, stack: seq<nat>, s: nat)
    requires s < |scopes|
  {
    var m := s + 1 + |scopes[s].subscopes|;
    && m <= |scopes|
    && scopes[s].subscopes == Range(s + 1, m)
    && scopes[s].outer == Below(scopes, s + 1, m, scopes[s].depth)
    && (s in stack ==> m == |scopes|)
    && (s !in stack ==> forall t :: s < t < |scopes| ==> (t < m <==> scopes[t].start < scopes[s].end))
  }

  predicate SubsOk(scopes: seq<ScopeBlock>, stack: seq<nat>) {
    forall s :: 0 <= s < |scopes| ==> SubOk(scopes, stack, s)
  }

  /** 1 for a scope that starts with a `loop`; the function's own scope is no loop whatever it starts with. */
  function LoopBit(body: seq<Op>, t: nat, start: nat): nat {
    if t > 0 && start < |body| && body[start].Loop? then 1 else 0
  }

  /** The running loop depth is that of the innermost open scope. */
  predicate LoopNow(scopes: seq<ScopeBlock>, stack: seq<nat>, loopDepth: int) {
    stack != [] ==> stack[|stack| - 1] < |scopes| && loopDepth == scopes[stack[|stack| - 1]].loopDepth
  }

  /** Scope `t` is directly inside scope `p`, and deeper by one loop if it is one. */
  predicate Link(body: seq<Op>, scopes: seq<ScopeBlock>, p: nat, t: nat) {
    && p < |scopes| && t < |scopes|
    && scopes[t].loopDepth == scopes[p].loopDepth + LoopBit(body, t, scopes[t].start)
  }

  /** Along the stack the loop depth counts the loops. */
  predicate LoopChain(body: seq<Op>, scopes: seq<ScopeBlock>, stack: seq<nat>) {
    forall e {:trigger stack[e]} :: 1 <= e < |stack| ==> Link(body, scopes, stack[e - 1], stack[e])
  }

  /** So it does from any scope to those directly inside it. */
  predicate LoopLinks(body: seq<Op>, scopes: seq<ScopeBlock>) {
    forall s, t {:trigger t in scopes[s].outer} :: 0 <= s < |scopes| && t in scopes[s].outer ==>
      Link(body, scopes, s, t)
  }

  predicate LoopsOk(body: seq<Op>, scopes: seq<ScopeBlock>, stack: seq<nat>, loopDepth: int) {
    LoopNow(scopes, stack, loopDepth) && LoopChain(body, scopes, stack) && LoopLinks(body, scopes)
  }

  predicate Inv(body: seq<Op>, i: nat, scopes: seq<ScopeBlock>, stack: seq<nat>, loopDepth: int)
    requires i <= |body|
  {
    && |stack| == Level(body, i) + 1
    && StackOk(body, i, scopes, stack)
    && ClosedOk(body, i, scopes, stack)
    && StartsOk(body, i, scopes)
    && AllListed(body, i, scopes)
    && AllEnded(body, i, scopes)
    && AllParented(scopes)
    && SubsOk(scopes, stack)
    && LoopsOk(body, scopes, stack, loopDepth)
  }

  /** In the middle of instruction `i`: what it closes is closed, what it opens is not open yet. */
  predicate Mid(body: seq<Op>, i: nat, scopes: seq<ScopeBlock>, stack: seq<nat>, loopDepth: int)
    requires i < |body|
  {
    && StackOk(body, i + 1, scopes, stack)
    && ClosedOk(body, i + 1, scopes, stack)
    && StartsOk(body, i, scopes)
    && AllListed(body, i, scopes)
    && AllEnded(body, i + 1, scopes)
    && AllParented(scopes)
    && SubsOk(scopes, stack)
    && LoopsOk(body, scopes, stack, loopDepth)
  }

  // ----- one step of the builder -----

  /** Opening a scope at `i`: it becomes a subscope of every open scope, and an outer one of the innermost. */
  function Opened(scopes: seq<ScopeBlock>, stack: seq<nat>, i: nat, ld: int): (r: seq<ScopeBlock>)
    requires stack != []
    ensures |r| == |scopes| + 1 && r[|scopes|] == ScopeBlock(i, UNSET, |stack|, ld, [], [])
    ensures forall t :: 0 <= t < |scopes| ==> r[t] == Grown(scopes[t], |scopes|, t in stack, t == stack[|stack| - 1])
  {
    var n := |scopes|;
    seq(n, t requires 0 <= t < n => Grown(scopes[t], n, t in stack, t == stack[|stack| - 1]))
    + [ScopeBlock(i, UNSET, |stack|, ld, [], [])]
  }

  function Grown(b: ScopeBlock, n: nat, isOpen: bool, isTop: bool): (r: ScopeBlock)
    ensures r.start == b.start && r.end == b.end && r.depth == b.depth && r.loopDepth == b.loopDepth
  {
    b.(subscopes := if isOpen then b.subscopes + [n] else b.subscopes,
       outer := if isTop then b.outer + [n] else b.outer)
  }

  /** The same scope, its end aside. */
  predicate Alike(a: ScopeBlock, b: ScopeBlock) {
    && a.start == b.start && a.depth == b.depth && a.loopDepth == b.loopDepth
    && a.subscopes == b.subscopes && a.outer == b.outer
  }

  function Shut(scopes: seq<ScopeBlock>, s: nat, i: nat): (r: seq<ScopeBlock>)
    requires s < |scopes|
    ensures |r| == |scopes| && r[s].end == i
    ensures forall t :: 0 <= t < |r| ==> Alike(r[t], scopes[t]) && (t != s ==> r[t].end == scopes[t].end)
  {
    scopes[s := scopes[s].(end := i)]
  }

  lemma {:induction false} SkipStack(body: seq<Op>, i: nat, scopes: seq<ScopeBlock>, stack: seq<nat>)
    requires i < |body| && StackOk(body, i, scopes, stack) && |stack| == Level(body, i) + 1 && !Closer(body[i])
    ensures StackOk(body, i + 1, scopes, stack)
  {
    hide Level;
  }

  lemma {:induction false} SkipMid(body: seq<Op>, i: nat, scopes: seq<ScopeBlock>, stack: seq<nat>, ld: int)
    requires i < |body| && Inv(body, i, scopes, stack, ld) && !Closer(body[i])
    ensures Mid(body, i, scopes, stack, ld)
  {
    hide StackOk, ClosedOk, StartsOk, AllListed, AllEnded, AllParented, SubsOk, LoopsOk, Level;
    SkipStack(body, i, scopes, stack);
    SkipClosed(body, i, scopes, stack);
  }

  lemma SkipClosed(body: seq<Op>, i: nat, scopes: seq<ScopeBlock>, stack: seq<nat>)
    requires i < |body| && ClosedOk(body, i, scopes, stack) && AllEnded(body, i, scopes) && !Closer(body[i])
    ensures ClosedOk(body, i + 1, scopes, stack) && AllEnded(body, i + 1, scopes)
  {
    hide Closes, EndsAt;
  }

  lemma TopFacts(body: seq<Op>, i: nat, scopes: seq<ScopeBlock>, stack: seq<nat>)
    requires i < |body| && StackOk(body, i, scopes, stack) && StartsOk(body, i, scopes) && stack != []
    ensures var s := stack[|stack| - 1];
            && s < |scopes| && scopes[s].start < |body| && scopes[s].end == UNSET && (|stack| > 1 ==> s > 0)
  {
    hide Open, Level;
  }

  lemma {:induction false} PopStack(body: seq<Op>, i: nat, scopes: seq<ScopeBlock>, stack: seq<nat>, ld: int)
    requires i < |body| && Inv(body, i, scopes, stack, ld) && Closer(body[i]) && stack != []
    ensures stack[|stack| - 1] < |scopes|
    ensures StackOk(body, i + 1, Shut(scopes, stack[|stack| - 1], i), stack[..|stack| - 1])
  {
    hide SubsOk, LoopsOk, Level, ClosedOk, Shut, StartsOk, AllListed, AllEnded, AllParented;
  }

  lemma {:induction false} Popped(stack: seq<nat>, s: nat)
    requires stack != [] && s !in stack[..|stack| - 1] && s in stack
    ensures s == stack[|stack| - 1]
  {
  }

  lemma {:induction false} PopClosed(body: seq<Op>, i: nat, scopes: seq<ScopeBlock>, stack: seq<nat>, ld: int)
    requires i < |body| && Inv(body, i, scopes, stack, ld) && Closer(body[i]) && stack != []
    ensures stack[|stack| - 1] < |scopes|
    ensures ClosedOk(body, i + 1, Shut(scopes, stack[|stack| - 1], i), stack[..|stack| - 1])
  {
    hide SubsOk, LoopsOk, Level;
    var top := stack[|stack| - 1];
    var r := Shut(scopes, top, i);
    forall s | 0 <= s < |r| && s !in stack[..|stack| - 1]
      ensures r[s].end < i + 1 && Closes(body, From(r, s), r[s].depth, r[s].end)
    {
      if s in stack { Popped(stack, s); }
    }
  }

  lemma {:induction false} ShutStarts(body: seq<Op>, i: nat, scopes: seq<ScopeBlock>, s: nat)
    requires i < |body| && s < |scopes| && StartsOk(body, i, scopes)
    ensures StartsOk(body, i, Shut(scopes, s, i))
  {
    hide Level, Shut;
  }

  lemma {:induction false} ShutListed(body: seq<Op>, i: nat, scopes: seq<ScopeBlock>, s: nat)
    requires i < |body| && s < |scopes| && AllListed(body, i, scopes)
    ensures AllListed(body, i, Shut(scopes, s, i))
  {
    hide Shut;
    var r := Shut(scopes, s, i);
    forall k | 0 <= k < i && Opener(body[k]) ensures exists t :: 0 <= t < |r| && StartsAt(r, t, k) {
      var t :| 0 <= t < |scopes| && StartsAt(scopes, t, k);
      assert StartsAt(r, t, k);
    }
  }

  lemma {:induction false} ShutEnded(body: seq<Op>, i: nat, scopes: seq<ScopeBlock>, s: nat)
    requires i < |body| && s < |scopes| && AllEnded(body, i, scopes) && scopes[s].end == UNSET
    ensures AllEnded(body, i + 1, Shut(scopes, s, i))
  {
    hide Shut;
    var r := Shut(scopes, s, i);
    forall k | 0 <= k < i + 1 && Closer(body[k]) ensures exists t :: 0 <= t < |r| && EndsAt(r, t, k) {
      if k == i {
        assert EndsAt(r, s, k);
      } else {
        var t :| 0 <= t < |scopes| && EndsAt(scopes, t, k);
        assert EndsAt(r, t, k);
      }
    }
  }

  lemma {:induction false} ShutParented(scopes: seq<ScopeBlock>, s: nat, i: nat)
    requires s < |scopes| && AllParented(scopes)
    ensures AllParented(Shut(scopes, s, i))
  {
    hide Shut;
    var r := Shut(scopes, s, i);
    forall t | 1 <= t < |r| ensures HasParent(r, t) {
      assert HasParent(scopes, t);
      var p :| 0 <= p < |scopes| && OuterOf(scopes, p, t);
      assert OuterOf(r, p, t);
    }
  }

  /** Only depths matter to `Below`. */
  lemma {:induction false} BelowSame(a: seq<ScopeBlock>, b: seq<ScopeBlock>, lo: nat, hi: nat, d: nat)
    requires lo <= hi <= |a| && hi <= |b| && forall t :: lo <= t < hi ==> a[t].depth == b[t].depth
    ensures Below(a, lo, hi, d) == Below(b, lo, hi, d)
    decreases hi
  {
    if lo < hi { BelowSame(a, b, lo, hi - 1, d); }
  }

  lemma {:induction false} PopSubs(body: seq<Op>, i: nat, scopes: seq<ScopeBlock>, stack: seq<nat>, ld: int)
    requires i < |body| && Inv(body, i, scopes, stack, ld) && Closer(body[i]) && stack != []
    ensures stack[|stack| - 1] < |scopes|
    ensures SubsOk(Shut(scopes, stack[|stack| - 1], i), stack[..|stack| - 1])
  {
    hide LoopsOk, Level, ClosedOk, Open, SubOk, StackOk;
    TopFacts(body, i, scopes, stack);
    var r, stack' := Shut(scopes, stack[|stack| - 1], i), stack[..|stack| - 1];
    forall s | 0 <= s < |r| ensures SubOk(r, stack', s) {
      assert SubOk(scopes, stack, s);
      PopSub(i, scopes, stack, s);
    }
  }

  lemma {:induction false} PopSub(i: nat, scopes: seq<ScopeBlock>, stack: seq<nat>, s: nat)
    requires s < |scopes| && stack != [] && stack[|stack| - 1] < |scopes| && SubOk(scopes, stack, s)
    requires forall t :: 1 <= t < |scopes| ==> scopes[t].start < i
    ensures SubOk(Shut(scopes, stack[|stack| - 1], i), stack[..|stack| - 1], s)
  {
    hide Range, Below;
    var r := Shut(scopes, stack[|stack| - 1], i);
    BelowSame(scopes, r, s + 1, s + 1 + |scopes[s].subscopes|, scopes[s].depth);
    if s in stack && s !in stack[..|stack| - 1] { Popped(stack, s); }
  }

  lemma ShutLink(body: seq<Op>, scopes: seq<ScopeBlock>, s: nat, i: nat, p: nat, t: nat)
    requires s < |scopes| && Link(body, scopes, p, t)
    ensures Link(body, Shut(scopes, s, i), p, t)
  {
  }

  /** Closing a scope changes no loop depth and no link. */
  lemma {:induction false} ShutLoops(body: seq<Op>, scopes: seq<ScopeBlock>, s: nat, i: nat, stack: seq<nat>)
    requires s < |scopes| && LoopChain(body, scopes, stack) && LoopLinks(body, scopes)
    ensures LoopChain(body, Shut(scopes, s, i), stack) && LoopLinks(body, Shut(scopes, s, i))
  {
    hide Shut, LoopBit, Link;
    var r := Shut(scopes, s, i);
    forall e {:trigger stack[e]} | 1 <= e < |stack| ensures Link(body, r, stack[e - 1], stack[e]) {
      ShutLink(body, scopes, s, i, stack[e - 1], stack[e]);
    }
    forall p: nat, t: nat {:trigger t in r[p].outer} | p < |r| && t in r[p].outer ensures Link(body, r, p, t) {
      assert t in scopes[p].outer;
      ShutLink(body, scopes, s, i, p, t);
    }
  }

  lemma {:induction false} PopNow(body: seq<Op>, scopes: seq<ScopeBlock>, stack: seq<nat>, ld: int)
    requires |stack| > 1 && LoopNow(scopes, stack, ld) && stack[|stack| - 1] > 0
    requires Link(body, scopes, stack[|stack| - 2], stack[|stack| - 1])
    requires scopes[stack[|stack| - 1]].start < |body|
    ensures var s := stack[|stack| - 1];
            LoopNow(scopes, stack[..|stack| - 1], if body[scopes[s].start].Loop? then ld - 1 else ld)
  {
    assert stack[..|stack| - 1][|stack| - 2] == stack[|stack| - 2];
  }

  lemma {:induction false} PopLoops(body: seq<Op>, i: nat, scopes: seq<ScopeBlock>, stack: seq<nat>, ld: int)
    requires i < |body| && Inv(body, i, scopes, stack, ld) && Closer(body[i]) && stack != []
    ensures var s := stack[|stack| - 1];
            && s < |scopes| && scopes[s].start < |body|
            && LoopsOk(body, Shut(scopes, s, i), stack[..|stack| - 1],
                       if body[scopes[s].start].Loop? then ld - 1 else ld)
  {
    TopFacts(body, i, scopes, stack);
    hide SubsOk, Level, ClosedOk, Open, LoopLinks, StackOk, StartsOk, Shut, Link, LoopBit;
    var s := stack[|stack| - 1];
    var stack' := stack[..|stack| - 1];
    assert LoopChain(body, scopes, stack');
    ShutLoops(body, scopes, s, i, stack');
    hide LoopChain;
    if |stack| > 1 { PopNow(body, scopes, stack, ld); }
  }

  lemma {:induction false} PopMid(body: seq<Op>, i: nat, scopes: seq<ScopeBlock>, stack: seq<nat>, ld: int)
    requires i < |body| && Inv(body, i, scopes, stack, ld) && Closer(body[i]) && stack != []
    ensures var s := stack[|stack| - 1];
            && s < |scopes| && scopes[s].start < |body|
            && Mid(body, i, Shut(scopes, s, i), stack[..|stack| - 1],
                   if body[scopes[s].start].Loop? then ld - 1 else ld)
  {
    var s := stack[|stack| - 1];
    var scopes', stack' := Shut(scopes, s, i), stack[..|stack| - 1];
    var ld' := if body[scopes[s].start].Loop? then ld - 1 else ld;
    assert StackOk(body, i + 1, scopes', stack') by { PopStack(body, i, scopes, stack, ld); }
    assert ClosedOk(body, i + 1, scopes', stack') by { PopClosed(body, i, scopes, stack, ld); }
    assert StartsOk(body, i, scopes') && AllListed(body, i, scopes') by {
      TopFacts(body, i, scopes, stack);
      ShutStarts(body, i, scopes, s);
      ShutListed(body, i, scopes, s);
    }
    assert AllEnded(body, i + 1, scopes') && AllParented(scopes') by {
      TopFacts(body, i, scopes, stack);
      ShutEnded(body, i, scopes, s);
      ShutParented(scopes, s, i);
    }
    assert SubsOk(scopes', stack') by { PopSubs(body, i, scopes, stack, ld); }
    assert LoopsOk(body, scopes', stack', ld') by { PopLoops(body, i, scopes, stack, ld); }
  }

  // ----- opening a scope keeps the invariant -----

  /** Ready to open: the stack is as high as the level behind the opener. */
  predicate Ready(body: seq<Op>, i: nat, scopes: seq<ScopeBlock>, stack: seq<nat>, ld: int)
    requires i < |body|
  {
    Mid(body, i, scopes, stack, ld) && Opener(body[i]) && stack != [] && |stack| == Level(body, i + 1)
  }

  function Deeper(body: seq<Op>, i: nat, ld: int): int
    requires i < |body|
  {
    if body[i].Loop? then ld + 1 else ld
  }

  lemma {:induction false} PushStack(body: seq<Op>, i: nat, scopes: seq<ScopeBlock>, stack: seq<nat>, ld: int)
    requires i < |body| && Ready(body, i, scopes, stack, ld)
    ensures StackOk(body, i + 1, Opened(scopes, stack, i, Deeper(body, i, ld)), stack + [|scopes|])
  {
    hide SubsOk, LoopsOk, Level, ClosedOk, Opened, Grown;
  }

  lemma {:induction false} PushClosed(body: seq<Op>, i: nat, scopes: seq<ScopeBlock>, stack: seq<nat>, ld: int)
    requires i < |body| && Ready(body, i, scopes, stack, ld)
    ensures ClosedOk(body, i + 1, Opened(scopes, stack, i, Deeper(body, i, ld)), stack + [|scopes|])
  {
    hide SubsOk, LoopsOk, Level, StackOk, StartsOk, Opened, Grown, Closes;
    var r, n := Opened(scopes, stack, i, Deeper(body, i, ld)), |scopes|;
    forall s | 0 <= s < |r| && s !in stack + [n]
      ensures r[s].end < i + 1 && Closes(body, From(r, s), r[s].depth, r[s].end)
    {
      assert (stack + [n])[|stack|] == n;
      assert s in stack ==> s in stack + [n];
    }
  }

  lemma {:induction false} PushStarts(body: seq<Op>, i: nat, scopes: seq<ScopeBlock>, stack: seq<nat>, ld: int)
    requires i < |body| && Opener(body[i]) && stack != [] && |stack| == Level(body, i + 1) && StartsOk(body, i, scopes)
    ensures StartsOk(body, i + 1, Opened(scopes, stack, i, ld))
  {
    hide Level, Opened, Grown;
  }

  lemma {:induction false} PushListed(body: seq<Op>, i: nat, scopes: seq<ScopeBlock>, stack: seq<nat>, ld: int)
    requires i < |body| && stack != [] && scopes != [] && AllListed(body, i, scopes)
    ensures AllListed(body, i + 1, Opened(scopes, stack, i, ld))
  {
    hide Opened, Grown;
    var r, n := Opened(scopes, stack, i, ld), |scopes|;
    forall k | 0 <= k < i + 1 && Opener(body[k]) ensures exists s :: 0 <= s < |r| && StartsAt(r, s, k) {
      if k == i {
        assert StartsAt(r, n, k);
      } else {
        var s :| 0 <= s < n && StartsAt(scopes, s, k);
        assert StartsAt(r, s, k);
      }
    }
  }

  lemma {:induction false} PushEnded(body: seq<Op>, j: nat, i: nat, scopes: seq<ScopeBlock>, stack: seq<nat>, ld: int)
    requires j <= |body| && stack != [] && AllEnded(body, j, scopes)
    ensures AllEnded(body, j, Opened(scopes, stack, i, ld))
  {
    hide Opened, Grown;
    var r := Opened(scopes, stack, i, ld);
    forall k | 0 <= k < j && Closer(body[k]) ensures exists s :: 0 <= s < |r| && EndsAt(r, s, k) {
      var s :| 0 <= s < |scopes| && EndsAt(scopes, s, k);
      assert EndsAt(r, s, k);
    }
  }

  lemma {:induction false} PushParented(scopes: seq<ScopeBlock>, stack: seq<nat>, i: nat, ld: int)
    requires stack != [] && stack[|stack| - 1] < |scopes| && AllParented(scopes)
    ensures AllParented(Opened(scopes, stack, i, ld))
  {
    hide Opened;
    var r, n := Opened(scopes, stack, i, ld), |scopes|;
    forall t | 1 <= t < |r| ensures HasParent(r, t) {
      if t == n {
        assert OuterOf(r, stack[|stack| - 1], t);
      } else {
        assert HasParent(scopes, t);
        var s :| 0 <= s < n && OuterOf(scopes, s, t);
        assert OuterOf(r, s, t);
      }
    }
  }

  lemma {:induction false} PushSub(body: seq<Op>, i: nat, scopes: seq<ScopeBlock>, stack: seq<nat>, ld: int, s: nat)
    requires i < |body| && stack != [] && s < |scopes| && SubOk(scopes, stack, s)
    requires s in stack ==> (scopes[s].depth + 1 == |stack| <==> s == stack[|stack| - 1])
    requires s !in stack ==> scopes[s].end <= i && s != stack[|stack| - 1]
    requires stack[|stack| - 1] < |scopes|
    ensures SubOk(Opened(scopes, stack, i, ld), stack + [|scopes|], s)
  {
    hide Range, Below, Opened;
    var r, n := Opened(scopes, stack, i, ld), |scopes|;
    var m := s + 1 + |scopes[s].subscopes|;
    BelowSame(scopes, r, s + 1, m, scopes[s].depth);
    assert s in stack + [n] <==> s in stack;
    if s in stack {
      RangeSnoc(s + 1, n);
      BelowSnoc(r, s + 1, n, scopes[s].depth);
    }
  }

  lemma RangeSnoc(lo: nat, hi: nat)
    requires lo <= hi
    ensures Range(lo, hi + 1) == Range(lo, hi) + [hi]
  {
  }

  lemma BelowSnoc(scopes: seq<ScopeBlock>, lo: nat, hi: nat, d: nat)
    requires lo <= hi < |scopes|
    ensures Below(scopes, lo, hi + 1, d) == Below(scopes, lo, hi, d) + (if scopes[hi].depth == d + 1 then [hi] else [])
  {
  }

  lemma {:induction false} OnStack(body: seq<Op>, i: nat, scopes: seq<ScopeBlock>, stack: seq<nat>, s: nat)
    requires i <= |body| && StackOk(body, i, scopes, stack) && stack != [] && s in stack
    ensures s < |scopes| && (scopes[s].depth + 1 == |stack| <==> s == stack[|stack| - 1])
  {
    hide Open, Level;
    var d :| 0 <= d < |stack| && stack[d] == s;
  }

  lemma {:induction false} PushSubOf(
      body: seq<Op>, i: nat, scopes: seq<ScopeBlock>, stack: seq<nat>, ld: int, s: nat)
    requires i < |body| && stack != [] && s < |scopes| && SubOk(scopes, stack, s)
    requires StackOk(body, i + 1, scopes, stack) && ClosedOk(body, i + 1, scopes, stack)
    ensures SubOk(Opened(scopes, stack, i, ld), stack + [|scopes|], s)
  {
    OnStack(body, i + 1, scopes, stack, stack[|stack| - 1]);
    if s in stack { OnStack(body, i + 1, scopes, stack, s); }
    hide StackOk, Opened, Grown, Closes, SubOk;
    PushSub(body, i, scopes, stack, ld, s);
  }

  lemma {:induction false} PushSubs(body: seq<Op>, i: nat, scopes: seq<ScopeBlock>, stack: seq<nat>, ld: int)
    requires i < |body| && stack != [] && SubsOk(scopes, stack)
    requires StackOk(body, i + 1, scopes, stack) && ClosedOk(body, i + 1, scopes, stack)
    ensures SubsOk(Opened(scopes, stack, i, ld), stack + [|scopes|])
  {
    var r, n := Opened(scopes, stack, i, ld), |scopes|;
    hide StackOk, ClosedOk, Opened, Grown, SubOk;
    forall s | 0 <= s < |r| ensures SubOk(r, stack + [n], s) {
      if s == n {
        NewSub(r, stack + [n]);
      } else {
        PushSubOf(body, i, scopes, stack, ld, s);
      }
    }
  }

  lemma NewSub(r: seq<ScopeBlock>, stack: seq<nat>)
    requires r != [] && stack != [] && stack[|stack| - 1] == |r| - 1
    requires r[|r| - 1].subscopes == [] && r[|r| - 1].outer == []
    ensures SubOk(r, stack, |r| - 1)
  {
    assert stack[|stack| - 1] in stack;
  }

  lemma {:induction false} OldLink(
      body: seq<Op>, i: nat, scopes: seq<ScopeBlock>, stack: seq<nat>, ld: int, p: nat, t: nat)
    requires stack != [] && Link(body, scopes, p, t)
    ensures Link(body, Opened(scopes, stack, i, ld), p, t)
  {
    hide Opened, Grown, LoopBit;
  }

  lemma {:induction false} NewLink(body: seq<Op>, i: nat, scopes: seq<ScopeBlock>, stack: seq<nat>, ld: int)
    requires i < |body| && stack != [] && scopes != [] && LoopNow(scopes, stack, ld)
    ensures Link(body, Opened(scopes, stack, i, Deeper(body, i, ld)), stack[|stack| - 1], |scopes|)
  {
    hide Opened, Grown;
  }

  lemma {:induction false} PushChain(
      body: seq<Op>, i: nat, scopes: seq<ScopeBlock>, stack: seq<nat>, ld: int, r: seq<ScopeBlock>)
    requires stack != [] && r == Opened(scopes, stack, i, ld) && LoopChain(body, scopes, stack)
    requires Link(body, r, stack[|stack| - 1], |scopes|)
    ensures LoopChain(body, r, stack + [|scopes|])
  {
    hide Opened, Link;
    var stack' := stack + [|scopes|];
    forall e {:trigger stack'[e]} | 1 <= e < |stack'| ensures Link(body, r, stack'[e - 1], stack'[e]) {
      if e < |stack| { OldLink(body, i, scopes, stack, ld, stack[e - 1], stack[e]); }
    }
  }

  lemma {:induction false} PushLinks(
      body: seq<Op>, i: nat, scopes: seq<ScopeBlock>, stack: seq<nat>, ld: int, r: seq<ScopeBlock>)
    requires stack != [] && r == Opened(scopes, stack, i, ld) && LoopLinks(body, scopes)
    requires Link(body, r, stack[|stack| - 1], |scopes|)
    ensures LoopLinks(body, r)
  {
    hide Opened, Link;
    forall p: nat, t: nat {:trigger t in r[p].outer} | p < |r| && t in r[p].outer ensures Link(body, r, p, t) {
      if p < |scopes| {
        if t in scopes[p].outer { OldLink(body, i, scopes, stack, ld, p, t); }
      }
    }
  }

  lemma {:induction false} PushLoops(body: seq<Op>, i: nat, scopes: seq<ScopeBlock>, stack: seq<nat>, ld: int)
    requires i < |body| && stack != [] && scopes != [] && LoopsOk(body, scopes, stack, ld)
    ensures var ld' := Deeper(body, i, ld);
            LoopsOk(body, Opened(scopes, stack, i, ld'), stack + [|scopes|], ld')
  {
    var ld' := Deeper(body, i, ld);
    var r := Opened(scopes, stack, i, ld');
    hide Opened, Link, LoopChain, LoopLinks, Deeper;
    NewLink(body, i, scopes, stack, ld);
    PushChain(body, i, scopes, stack, ld', r);
    PushLinks(body, i, scopes, stack, ld', r);
  }

  lemma {:induction false} PushInv(body: seq<Op>, i: nat, scopes: seq<ScopeBlock>, stack: seq<nat>, ld: int)
    requires i < |body| && Ready(body, i, scopes, stack, ld)
    ensures var ld' := Deeper(body, i, ld);
            Inv(body, i + 1, Opened(scopes, stack, i, ld'), stack + [|scopes|], ld')
  {
    assert stack[|stack| - 1] < |scopes| by { hide Open, ClosedOk, SubsOk, LoopsOk, Level; }
    hide StackOk, ClosedOk, StartsOk, AllListed, AllEnded, AllParented, SubsOk, LoopsOk, Level, Opened;
    PushStack(body, i, scopes, stack, ld);
    PushClosed(body, i, scopes, stack, ld);
    PushStarts(body, i, scopes, stack, Deeper(body, i, ld));
    PushListed(body, i, scopes, stack, Deeper(body, i, ld));
    PushEnded(body, i + 1, i, scopes, stack, Deeper(body, i, ld));
    PushParented(scopes, stack, i, Deeper(body, i, ld));
    PushSubs(body, i, scopes, stack, Deeper(body, i, ld));
    PushLoops(body, i, scopes, stack, ld);
  }

  /** Nothing to open: on to the next instruction. */
  lemma {:induction false} NoPush(body: seq<Op>, i: nat, scopes: seq<ScopeBlock>, stack: seq<nat>, ld: int)
    requires i < |body| && Mid(body, i, scopes, stack, ld) && !Opener(body[i]) && |stack| == Level(body, i + 1) + 1
    ensures Inv(body, i + 1, scopes, stack, ld)
  {
    hide StackOk, ClosedOk, SubsOk, LoopsOk, Level;
  }
}
