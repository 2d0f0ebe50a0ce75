/** The scope builder itself, and the tree it yields: nesting, depths, subscopes and innermost scopes. */
module ScopeTree {
  import opened Scopes

  /** What the builder's list of scopes says about a body whose every scope is closed. */
  predicate TreeOf(body: seq<Op>, scopes: seq<ScopeBlock>) {
    && StartsOk(body, |body|, scopes)
    && AllListed(body, |body|, scopes)
    && AllEnded(body, |body|, scopes)
    && AllParented(scopes)
    && ClosedOk(body, |body|, scopes, [])
    && SubsOk(scopes, [])
    && LoopLinks(body, scopes)
  }

  /** Opening a scope: the new scope goes onto the list, into its ancestors' lists and onto the stack. */
  method AddScope(body: seq<Op>, i: nat, scopes: seq<ScopeBlock>, stack: seq<nat>, loopDepth: int)
    returns (scopes': seq<ScopeBlock>, stack': seq<nat>, loopDepth': int)
    requires i < |body| && stack != []
    requires forall d, e :: 0 <= d < e < |stack| ==> stack[d] < stack[e]
    requires forall d :: 0 <= d < |stack| ==> stack[d] < |scopes|
    ensures loopDepth' == Deeper(body, i, loopDepth)
    ensures scopes' == Opened(scopes, stack, i, loopDepth') && stack' == stack + [|scopes|]
  {
    var n := |scopes|;
    loopDepth' := if body[i].Loop? then loopDepth + 1 else loopDepth;
    var scopeblock := ScopeBlock(i, UNSET, |stack|, loopDepth', [], []);
    var marked := scopes;
    MarkNone(scopes);
    for j := 0 to |stack|
      invariant marked == Marked(scopes, stack[..j])
    {
      var par := stack[j];
      MarkStep(scopes, stack, j);
      marked := marked[par := marked[par].(subscopes := marked[par].subscopes + [n])];
    }
    var top := stack[|stack| - 1];
    MarkTop(scopes, stack, i, loopDepth');
    scopes' := marked[top := marked[top].(outer := marked[top].outer + [n])] + [scopeblock];
    stack' := stack + [n];
  }

  /** The new scope entered in the lists of the scopes in `some`. */
  function Marked(scopes: seq<ScopeBlock>, some: seq<nat>): (r: seq<ScopeBlock>)
    ensures |r| == |scopes|
  {
    seq(|scopes|, t requires 0 <= t < |scopes| => Grown(scopes[t], |scopes|, t in some, false))
  }

  lemma MarkNone(scopes: seq<ScopeBlock>)
    ensures forall some: seq<nat> :: some == [] ==> Marked(scopes, some) == scopes
  {
  }

  lemma MarkStep(scopes: seq<ScopeBlock>, stack: seq<nat>, j: nat)
    requires j < |stack| && stack[j] < |scopes| && stack[j] !in stack[..j]
    ensures var m, par := Marked(scopes, stack[..j]), stack[j];
            Marked(scopes, stack[..j + 1]) == m[par := m[par].(subscopes := m[par].subscopes + [|scopes|])]
  {
    assert stack[..j + 1] == stack[..j] + [stack[j]];
  }

  lemma MarkTop(scopes: seq<ScopeBlock>, stack: seq<nat>, i: nat, ld: int)
    requires stack != [] && stack[|stack| - 1] < |scopes|
    ensures var m, top := Marked(scopes, stack[..|stack|]), stack[|stack| - 1];
            Opened(scopes, stack, i, ld)
            == m[top := m[top].(outer := m[top].outer + [|scopes|])] + [ScopeBlock(i, UNSET, |stack|, ld, [], [])]
  {
    hide *;
    assert stack[..|stack|] == stack;
    var m, top := Marked(scopes, stack), stack[|stack| - 1];
    var r := Opened(scopes, stack, i, ld);
    var s := m[top := m[top].(outer := m[top].outer + [|scopes|])] + [ScopeBlock(i, UNSET, |stack|, ld, [], [])];
    forall t | 0 <= t < |r| ensures r[t] == s[t] {
      if t < |scopes| { MarkTopAt(scopes, stack, i, ld, t); }
    }
  }

  lemma MarkTopAt(scopes: seq<ScopeBlock>, stack: seq<nat>, i: nat, ld: int, t: nat)
    requires stack != [] && t < |scopes|
    ensures var b := Marked(scopes, stack)[t];
      Opened(scopes, stack, i, ld)[t] == if t == stack[|stack| - 1] then b.(outer := b.outer + [|scopes|]) else b
  {
  }

  /** The builder's variables, or the point where it would look into an empty stack. */
  datatype Built = Stuck | Built(scopes: seq<ScopeBlock>, stack: seq<nat>, loopDepth: int)

  predicate InList(scopes: seq<ScopeBlock>, stack: seq<nat>) {
    forall d :: 0 <= d < |stack| ==> stack[d] < |scopes|
  }

  function StartsWithLoop(body: seq<Op>, b: ScopeBlock): bool {
    b.start < |body| && body[b.start].Loop?
  }

  /** What a closer does: the innermost scope ends here. */
  function Close(body: seq<Op>, i: nat, b: Built): (r: Built)
    requires b.Built? && b.stack != [] && InList(b.scopes, b.stack)
    ensures r.Built? && InList(r.scopes, r.stack)
  {
    var s := b.stack[|b.stack| - 1];
    Built(Shut(b.scopes, s, i), b.stack[..|b.stack| - 1],
          if StartsWithLoop(body, b.scopes[s]) then b.loopDepth - 1 else b.loopDepth)
  }

  function Enter(body: seq<Op>, i: nat, b: Built): (r: Built)
    requires b.Built? && InList(b.scopes, b.stack) && i < |body|
    ensures r.Built? ==> InList(r.scopes, r.stack)
  {
    if b.stack == [] then Stuck
    else
      var ld := Deeper(body, i, b.loopDepth);
      Built(Opened(b.scopes, b.stack, i, ld), b.stack + [|b.scopes|], ld)
  }

  /** One instruction. */
  function Next(body: seq<Op>, i: nat, b: Built): (r: Built)
    requires i < |body| && b.Built? && InList(b.scopes, b.stack)
    ensures r.Built? ==> InList(r.scopes, r.stack)
  {
    if body[i].Other? then b
    else if b.stack == [] then Stuck
    else
      var c := if Closer(body[i]) then Close(body, i, b) else b;
      if Opener(body[i]) then Enter(body, i, c) else c
  }

  function Build(body: seq<Op>, n: nat): (r: Built)
    requires n <= |body|
    ensures r.Built? ==> InList(r.scopes, r.stack)
  {
    if n == 0 then Built([ScopeBlock(0, UNSET, 0, 0, [], [])], [0], 0)
    else
      var b := Build(body, n - 1);
      if b.Stuck? then Stuck else Next(body, n - 1, b)
  }

  /** The builder gets through exactly the safe bodies, and keeps its invariant. */
  lemma {:induction false} BuildInv(body: seq<Op>, n: nat)
    requires n <= |body|
    ensures var b := Build(body, n);
      && (b.Built? <==> Safe(body, n))
      && (b.Built? ==> Inv(body, n, b.scopes, b.stack, b.loopDepth))
  {
    hide Inv, Next, SafeAt;
    if n == 0 {
      Start(body);
    } else {
      var i := n - 1;
      BuildInv(body, i);
      LevelStep(body, i);
      if Build(body, i).Built? { BuildStep(body, i, Build(body, i)); }
    }
  }

  lemma {:induction false} BuildStep(body: seq<Op>, i: nat, b: Built)
    requires i < |body| && b.Built? && Inv(body, i, b.scopes, b.stack, b.loopDepth) && InList(b.scopes, b.stack)
    requires Level(body, i + 1) == Level(body, i) + Delta(body[i])
    ensures var r := Next(body, i, b);
      && (r.Built? <==> SafeAt(body, i))
      && (r.Built? ==> Inv(body, i + 1, r.scopes, r.stack, r.loopDepth))
  {
    hide StackOk, ClosedOk, StartsOk, AllListed, AllEnded, AllParented, SubsOk, LoopsOk, Opened, Shut, Level;
    if body[i].Other? {
      SkipMid(body, i, b.scopes, b.stack, b.loopDepth);
      NoPush(body, i, b.scopes, b.stack, b.loopDepth);
    } else if b.stack != [] {
      var c := if Closer(body[i]) then Close(body, i, b) else b;
      if Closer(body[i]) {
        PopMid(body, i, b.scopes, b.stack, b.loopDepth);
      } else {
        SkipMid(body, i, b.scopes, b.stack, b.loopDepth);
      }
      BuildMid(body, i, b, c);
    }
  }

  lemma {:induction false} BuildMid(body: seq<Op>, i: nat, b: Built, c: Built)
    requires i < |body| && b.Built? && InList(b.scopes, b.stack) && b.stack != [] && !body[i].Other?
    requires c == if Closer(body[i]) then Close(body, i, b) else b
    requires Mid(body, i, c.scopes, c.stack, c.loopDepth) && Level(body, i + 1) == Level(body, i) + Delta(body[i])
    requires |b.stack| == Level(body, i) + 1
    ensures var r := Next(body, i, b);
      && (r.Built? <==> SafeAt(body, i))
      && (r.Built? ==> Inv(body, i + 1, r.scopes, r.stack, r.loopDepth))
  {
    hide StackOk, ClosedOk, StartsOk, AllListed, AllEnded, AllParented, SubsOk, LoopsOk, Opened, Shut, Level;
    if !Opener(body[i]) {
      NoPush(body, i, c.scopes, c.stack, c.loopDepth);
    } else if c.stack != [] {
      PushInv(body, i, c.scopes, c.stack, c.loopDepth);
    }
  }

  /** The scopes of a safe body. */
  function ScopesOf(body: seq<Op>): seq<ScopeBlock>
    requires Safe(body, |body|)
  {
    BuildInv(body, |body|);
    Build(body, |body|).scopes
  }

  /**
   * The builder: false when it would pop an empty stack or look for the parent of a scope when no
   * scope is open, which is exactly when the body is unsafe.
   */
  method GenScopes(body: seq<Op>) returns (ok: bool, scopes: seq<ScopeBlock>)
    ensures ok <==> Safe(body, |body|)
    ensures ok ==> scopes == ScopesOf(body)
  {
    hide Inv, Opened, Shut, Level, Safe, Build;
    var stack, loopDepth := [0], 0;
    scopes := [ScopeBlock(0, UNSET, 0, 0, [], [])];
    BuildNext(body, 0);
    for i := 0 to |body|
      invariant Build(body, i) == Built(scopes, stack, loopDepth)
    {
      BuildNext(body, i);
      BuildShape(body, i);
      if !body[i].Other? {
        if stack == [] {
          StaysStuck(body, i + 1, |body|);
          return false, scopes;
        }
        if Closer(body[i]) {
          var s := stack[|stack| - 1];
          loopDepth := if StartsWithLoop(body, scopes[s]) then loopDepth - 1 else loopDepth;
          scopes := Shut(scopes, s, i);
          stack := stack[..|stack| - 1];
        }
        if Opener(body[i]) {
          if stack == [] {
            StaysStuck(body, i + 1, |body|);
            return false, scopes;
          }
          scopes, stack, loopDepth := AddScope(body, i, scopes, stack, loopDepth);
        }
      }
    }
    BuildInv(body, |body|);
    ok := true;
  }

  lemma BuildNext(body: seq<Op>, i: nat)
    requires i <= |body|
    ensures Build(body, 0) == Built([ScopeBlock(0, UNSET, 0, 0, [], [])], [0], 0)
    ensures i < |body| && Build(body, i).Built? ==> Build(body, i + 1) == Next(body, i, Build(body, i))
  {
    hide Next;
  }

  lemma BuildShape(body: seq<Op>, i: nat)
    requires i <= |body| && Build(body, i).Built?
    ensures var stack := Build(body, i).stack; forall d, e :: 0 <= d < e < |stack| ==> stack[d] < stack[e]
    ensures InList(Build(body, i).scopes, Build(body, i).stack)
  {
    BuildInv(body, i);
    hide Open, SubsOk, LoopsOk, StartsOk, AllListed, AllEnded, AllParented, ClosedOk, Build;
  }

  lemma {:induction false} StaysStuck(body: seq<Op>, i: nat, n: nat)
    requires i <= n <= |body| && Build(body, i).Stuck?
    ensures Build(body, n).Stuck? && !Safe(body, n)
    decreases n
  {
    hide *;
    if i < n {
      StaysStuck(body, i, n - 1);
      StuckNext(body, n);
    }
    BuildInv(body, n);
  }

  lemma StuckNext(body: seq<Op>, n: nat)
    requires 0 < n <= |body| && Build(body, n - 1).Stuck?
    ensures Build(body, n).Stuck?
  {
    hide Next;
  }

  lemma Start(body: seq<Op>)
    ensures Inv(body, 0, [ScopeBlock(0, UNSET, 0, 0, [], [])], [0], 0)
  {
  }

  lemma LevelStep(body: seq<Op>, i: nat)
    requires i < |body|
    ensures Level(body, i + 1) == Level(body, i) + Delta(body[i])
  {
  }

  /** On a well-nested body every scope is closed, and the list is its tree of scopes. */
  lemma ScopesAreTree(body: seq<Op>)
    requires Nested(body)
    ensures TreeOf(body, ScopesOf(body))
  {
    BuildInv(body, |body|);
    hide StackOk, ClosedOk, StartsOk, AllListed, AllEnded, AllParented, SubsOk, LoopLinks, Level;
    assert Build(body, |body|).stack == [];
  }

  // ----- what the list of scopes says -----

  /** Scopes nest or are apart, and are listed outermost first. */
  lemma {:induction false} Laminar(body: seq<Op>, scopes: seq<ScopeBlock>, s: nat, t: nat)
    requires TreeOf(body, scopes) && s < t < |scopes|
    ensures scopes[s].start <= scopes[t].start < scopes[t].end && From(scopes, s) < scopes[t].start
    ensures scopes[t].start < scopes[s].end ==>
      scopes[t].end < scopes[s].end && scopes[s].depth < scopes[t].depth
    ensures t in scopes[s].subscopes <==> scopes[t].start < scopes[s].end
  {
    hide LoopLinks, AllListed, AllEnded, AllParented, SubsOk, ClosedOk, Level, Open;
    SubFact(scopes, s, t);
    Closed(body, scopes, s);
    Closed(body, scopes, t);
    if scopes[t].start < scopes[s].end { Inner(body, scopes, s, t); }
  }

  lemma SubFact(scopes: seq<ScopeBlock>, s: nat, t: nat)
    requires SubsOk(scopes, []) && s < t < |scopes|
    ensures t in scopes[s].subscopes <==> scopes[t].start < scopes[s].end
  {
    assert SubOk(scopes, [], s);
    var m := s + 1 + |scopes[s].subscopes|;
    hide Below;
    assert t < m ==> scopes[s].subscopes[t - s - 1] == t;
  }

  lemma Closed(body: seq<Op>, scopes: seq<ScopeBlock>, s: nat)
    requires ClosedOk(body, |body|, scopes, []) && s < |scopes|
    ensures Closes(body, From(scopes, s), scopes[s].depth, scopes[s].end)
  {
  }

  lemma {:induction false} Inner(body: seq<Op>, scopes: seq<ScopeBlock>, s: nat, t: nat)
    requires StartsOk(body, |body|, scopes) && s < t < |scopes| && From(scopes, s) < scopes[t].start < scopes[s].end
    requires Closes(body, From(scopes, s), scopes[s].depth, scopes[s].end)
    requires Closes(body, From(scopes, t), scopes[t].depth, scopes[t].end)
    ensures scopes[t].end < scopes[s].end && scopes[s].depth < scopes[t].depth
  {
    var a := scopes[t].start;
    LevelStep(body, a);
    assert Level(body, a) >= scopes[s].depth && (Closer(body[a]) ==> Level(body, a) > scopes[s].depth);
    assert scopes[s].depth < scopes[t].depth;
    var e: nat := scopes[s].end;
    assert Level(body, e) == scopes[s].depth;
  }

  /** Every closing instruction ends exactly one scope. */
  lemma {:induction false} OneEnd(body: seq<Op>, scopes: seq<ScopeBlock>, k: nat) returns (s: nat)
    requires TreeOf(body, scopes) && k < |body| && Closer(body[k])
    ensures s < |scopes| && forall t :: 0 <= t < |scopes| ==> (scopes[t].end == k <==> t == s)
  {
    hide StartsOk, AllListed, ClosedOk, AllParented, SubsOk, LoopLinks;
    s :| 0 <= s < |scopes| && EndsAt(scopes, s, k);
    forall t | 0 <= t < |scopes| && t != s ensures scopes[t].end != k {
      if s < t { Laminar(body, scopes, s, t); } else { Laminar(body, scopes, t, s); }
    }
  }

  /** The scopes around scope `t`. */
  function Around(scopes: seq<ScopeBlock>, t: nat): set<nat> {
    set s: nat | s < |scopes| && t in scopes[s].subscopes
  }

  lemma {:induction false} AroundIff(body: seq<Op>, scopes: seq<ScopeBlock>, s: nat, t: nat)
    requires TreeOf(body, scopes) && s < |scopes| && t < |scopes|
    ensures s in Around(scopes, t) <==> s < t && scopes[t].start < scopes[s].end
    ensures s in Around(scopes, t) ==> scopes[s].depth < scopes[t].depth
  {
    assert SubOk(scopes, [], s);
    hide StartsOk, AllListed, AllEnded, ClosedOk, AllParented, SubsOk, LoopLinks, Below;
    if s < t { Laminar(body, scopes, s, t); }
  }

  lemma {:induction false} OuterIff(scopes: seq<ScopeBlock>, s: nat, t: nat)
    requires SubsOk(scopes, []) && s < |scopes|
    ensures t in scopes[s].outer <==>
      t in scopes[s].subscopes && t < |scopes| && scopes[t].depth == scopes[s].depth + 1
  {
    assert SubOk(scopes, [], s);
    assert t in scopes[s].subscopes ==> s + 1 <= t < s + 1 + |scopes[s].subscopes|;
    assert s + 1 <= t < s + 1 + |scopes[s].subscopes| ==> scopes[s].subscopes[t - s - 1] == t;
  }

  /** Apart from the function's own, every scope is directly inside exactly one other. */
  lemma {:induction false} OneParent(body: seq<Op>, scopes: seq<ScopeBlock>, t: nat) returns (p: nat)
    requires TreeOf(body, scopes) && 0 < t < |scopes|
    ensures p < t && forall s: nat :: s < |scopes| ==> (t in scopes[s].outer <==> s == p)
    ensures p in Around(scopes, t) && scopes[t].depth == scopes[p].depth + 1
  {
    hide StartsOk, AllListed, AllEnded, ClosedOk, SubsOk, LoopLinks;
    assert HasParent(scopes, t);
    p :| 0 <= p < |scopes| && OuterOf(scopes, p, t);
    OuterIff(scopes, p, t);
    AroundIff(body, scopes, p, t);
    forall s: nat | s < |scopes| && s != p ensures t !in scopes[s].outer {
      if t in scopes[s].outer { OneOuter(body, scopes, if s < p then s else p, if s < p then p else s, t); }
    }
  }

  lemma {:induction false} OneOuter(body: seq<Op>, scopes: seq<ScopeBlock>, a: nat, b: nat, t: nat)
    requires TreeOf(body, scopes) && a < b < |scopes| && t in scopes[a].outer
    ensures t !in scopes[b].outer
  {
    hide StartsOk, AllListed, AllEnded, ClosedOk, LoopLinks, AllParented;
    OuterIff(scopes, a, t);
    OuterIff(scopes, b, t);
    hide SubsOk;
    AroundIff(body, scopes, a, t);
    AroundIff(body, scopes, b, t);
    AroundIff(body, scopes, a, b);
    if b < t { StartOrder(body, scopes, b, t); }
  }

  lemma StartOrder(body: seq<Op>, scopes: seq<ScopeBlock>, s: nat, t: nat)
    requires TreeOf(body, scopes) && s < |scopes| && t < |scopes|
    ensures s <= t ==> scopes[s].start <= scopes[t].start
  {
    hide AllListed, AllEnded, ClosedOk, SubsOk, LoopLinks, AllParented, Level;
  }

  /** The scopes around `t` are its parent and those around the parent. */
  lemma {:induction false} AroundParent(body: seq<Op>, scopes: seq<ScopeBlock>, t: nat, p: nat)
    requires TreeOf(body, scopes) && p < t < |scopes| && t in scopes[p].outer
    ensures Around(scopes, t) == Around(scopes, p) + {p} && p !in Around(scopes, p)
    ensures scopes[t].depth == scopes[p].depth + 1
  {
    hide StartsOk, AllListed, AllEnded, ClosedOk, SubsOk, LoopLinks, AllParented;
    OuterIff(scopes, p, t);
    AroundIff(body, scopes, p, p);
    AroundIff(body, scopes, p, t);
    forall s: nat | s < |scopes| && s != p ensures s in Around(scopes, t) <==> s in Around(scopes, p) {
      AroundStep(body, scopes, t, p, s);
    }
    hide TreeOf;
    assert forall s :: s in Around(scopes, t) ==> s in Around(scopes, p) + {p};
  }

  lemma {:induction false} AroundStep(body: seq<Op>, scopes: seq<ScopeBlock>, t: nat, p: nat, s: nat)
    requires TreeOf(body, scopes) && p < t < |scopes| && s < |scopes| && s != p
    requires p in Around(scopes, t) && scopes[t].depth == scopes[p].depth + 1
    ensures s in Around(scopes, t) <==> s in Around(scopes, p)
  {
    AroundIff(body, scopes, p, t);
    AroundIff(body, scopes, s, t);
    AroundIff(body, scopes, s, p);
    AroundIff(body, scopes, p, s);
    if s < p { Laminar(body, scopes, s, p); } else { Laminar(body, scopes, p, s); }
    StartOrder(body, scopes, p, t);
    StartOrder(body, scopes, s, t);
    hide TreeOf, Around;
  }

  /** The loops around `t`, itself included. */
  function LoopsAround(body: seq<Op>, scopes: seq<ScopeBlock>, t: nat): set<nat> {
    set s: nat | s < |scopes| && (s == t || s in Around(scopes, t)) && LoopBit(body, s, scopes[s].start) == 1
  }

  /** Depth and loop depth are the numbers of scopes around a scope and of loops around it, itself included. */
  lemma {:induction false} DepthsCount(body: seq<Op>, scopes: seq<ScopeBlock>, t: nat)
    requires TreeOf(body, scopes) && t < |scopes|
    ensures scopes[t].depth == |Around(scopes, t)|
    ensures scopes[t].loopDepth == |LoopsAround(body, scopes, t)|
    decreases t
  {
    if t == 0 {
      RootCount(body, scopes);
    } else {
      var p := OneParent(body, scopes, t);
      AroundParent(body, scopes, t, p);
      LinkOf(body, scopes, p, t);
      AroundIff(body, scopes, t, p);
      LoopsParent(body, scopes, t, p);
      hide AllListed, AllEnded, ClosedOk, LoopLinks, AllParented, SubsOk, StartsOk, Around, LoopsAround;
      DepthsCount(body, scopes, p);
    }
  }

  lemma RootCount(body: seq<Op>, scopes: seq<ScopeBlock>)
    requires TreeOf(body, scopes)
    ensures scopes[0].depth == |Around(scopes, 0)| && scopes[0].loopDepth == |LoopsAround(body, scopes, 0)|
  {
    forall s: nat | s < |scopes| ensures s !in Around(scopes, 0) {
      AroundIff(body, scopes, s, 0);
    }
    assert Around(scopes, 0) == {};
    assert LoopsAround(body, scopes, 0) == {};
  }

  lemma LinkOf(body: seq<Op>, scopes: seq<ScopeBlock>, p: nat, t: nat)
    requires LoopLinks(body, scopes) && p < |scopes| && t in scopes[p].outer
    ensures Link(body, scopes, p, t)
  {
  }

  lemma {:induction false} LoopsParent(body: seq<Op>, scopes: seq<ScopeBlock>, t: nat, p: nat)
    requires t < |scopes| && p < |scopes| && p != t && t !in Around(scopes, p)
    requires Around(scopes, t) == Around(scopes, p) + {p}
    ensures |LoopsAround(body, scopes, t)|
         == |LoopsAround(body, scopes, p)| + LoopBit(body, t, scopes[t].start)
  {
    hide Around;
    var a, b := LoopsAround(body, scopes, t), LoopsAround(body, scopes, p);
    if LoopBit(body, t, scopes[t].start) == 1 {
      assert a == b + {t};
    } else {
      assert a == b;
    }
  }

  /** The subscopes of a scope are those directly inside it and, in turn, theirs. */
  lemma {:induction false} SubscopesAreClosure(body: seq<Op>, scopes: seq<ScopeBlock>, s: nat, t: nat)
    requires TreeOf(body, scopes) && s < |scopes|
    ensures t in scopes[s].subscopes <==>
      t in scopes[s].outer || exists u: nat :: Via(scopes, s, u, t)
  {
    assert SubOk(scopes, [], s);
    assert t in scopes[s].subscopes ==> t < |scopes|;
    hide TreeOf, SubOk;
    if t in scopes[s].subscopes { ViaOuter(body, scopes, s, t); }
    if t in scopes[s].outer { OuterSub(body, scopes, s, t); }
    if u: nat :| Via(scopes, s, u, t) {
      OuterSub(body, scopes, s, u);
      AroundTwice(body, scopes, s, u, t);
    }
  }

  lemma OuterSub(body: seq<Op>, scopes: seq<ScopeBlock>, s: nat, t: nat)
    requires TreeOf(body, scopes) && s < |scopes| && t in scopes[s].outer
    ensures t in scopes[s].subscopes
  {
    OuterIff(scopes, s, t);
  }

  lemma {:induction false} ViaOuter(body: seq<Op>, scopes: seq<ScopeBlock>, s: nat, t: nat)
    requires TreeOf(body, scopes) && s < |scopes| && t < |scopes| && t in scopes[s].subscopes
    ensures t in scopes[s].outer || exists u: nat :: Via(scopes, s, u, t)
    decreases t
  {
    AroundIff(body, scopes, s, t);
    var p := OneParent(body, scopes, t);
    AroundParent(body, scopes, t, p);
    hide TreeOf;
    if p != s {
      assert s in Around(scopes, p);
      ViaOuter(body, scopes, s, p);
      if p in scopes[s].outer {
        assert Via(scopes, s, p, t);
      } else {
        var u: nat :| Via(scopes, s, u, p);
        AroundTwice(body, scopes, u, p, t);
        assert Via(scopes, s, u, t);
      }
    }
  }

  predicate Via(scopes: seq<ScopeBlock>, s: nat, u: nat, t: nat) {
    s < |scopes| && u < |scopes| && u in scopes[s].outer && t in scopes[u].subscopes
  }

  lemma {:induction false} AroundTwice(body: seq<Op>, scopes: seq<ScopeBlock>, a: nat, b: nat, c: nat)
    requires TreeOf(body, scopes) && a < |scopes| && b < |scopes|
    requires b in scopes[a].subscopes && c in scopes[b].subscopes
    ensures c in scopes[a].subscopes
  {
    assert SubOk(scopes, [], b);
    hide AllListed, AllEnded, ClosedOk, LoopLinks, AllParented, SubsOk, StartsOk, Below;
    assert c < |scopes|;
    AroundIff(body, scopes, a, b);
    AroundIff(body, scopes, b, c);
    AroundIff(body, scopes, a, c);
    Laminar(body, scopes, a, b);
  }

  /** Instruction `i` lies between the start of scope `s` and its end. */
  predicate Holds(scopes: seq<ScopeBlock>, s: nat, i: nat) {
    s < |scopes| && scopes[s].start <= i < scopes[s].end
  }

  /** The scopes that hold an instruction are its innermost scope and the scopes around that one. */
  lemma {:induction false} InnermostScope(body: seq<Op>, scopes: seq<ScopeBlock>, i: nat) returns (s: nat)
    requires TreeOf(body, scopes) && i < scopes[0].end
    ensures forall u: nat :: Holds(scopes, u, i) <==> u == s || u in Around(scopes, s)
  {
    s := LastHolding(scopes, i, |scopes|);
    hide AllListed, AllEnded, ClosedOk, LoopLinks, AllParented, SubsOk, StartsOk;
    forall u: nat ensures Holds(scopes, u, i) <==> u == s || u in Around(scopes, s) {
      if u < |scopes| && u != s {
        AroundIff(body, scopes, u, s);
        if u < s { Laminar(body, scopes, u, s); }
      }
    }
  }

  lemma {:induction false} LastHolding(scopes: seq<ScopeBlock>, i: nat, n: nat) returns (s: nat)
    requires 0 < n <= |scopes| && Holds(scopes, 0, i)
    ensures s < n && Holds(scopes, s, i) && forall u: nat :: s < u < n ==> !Holds(scopes, u, i)
  {
    s := n - 1;
    if !Holds(scopes, s, i) { s := LastHolding(scopes, i, n - 1); }
  }

  /** The function's own scope ends at the last closing instruction. */
  lemma {:induction false} MainEnd(body: seq<Op>, scopes: seq<ScopeBlock>)
    requires TreeOf(body, scopes) && Nested(body)
    ensures var e := scopes[0].end; 0 <= e < |body| && body[e].End? && forall k :: e < k < |body| ==> body[k].Other?
  {
    Closed(body, scopes, 0);
    var e: nat := scopes[0].end;
    LevelStep(body, e);
    assert SafeAt(body, e) && scopes[0].depth == 0;
    hide AllListed, AllEnded, ClosedOk, LoopLinks, AllParented, SubsOk, Open, StartsOk, Level, Safe;
    AfterMain(body, e, |body|);
  }

  lemma {:induction false} AfterMain(body: seq<Op>, e: nat, n: nat)
    requires e < n <= |body| && Safe(body, |body|) && Level(body, e + 1) == -1
    ensures Level(body, n) == -1 && forall k :: e < k < n ==> body[k].Other?
    decreases n
  {
    if n > e + 1 {
      AfterMain(body, e, n - 1);
      LevelStep(body, n - 1);
      assert SafeAt(body, n - 1);
      hide Level;
    }
  }

  /** In a body that ends with an `end`, that one closes the function's own scope. */
  lemma {:induction false} MainEndsLast(body: seq<Op>, scopes: seq<ScopeBlock>)
    requires TreeOf(body, scopes) && Nested(body) && body != [] && body[|body| - 1].End?
    ensures scopes != [] && scopes[0].end == |body| - 1
  {
    MainEnd(body, scopes);
    hide AllListed, AllEnded, ClosedOk, LoopLinks, AllParented, SubsOk, Nested;
    assert scopes != [];
    hide TreeOf, StartsOk;
  }
}
