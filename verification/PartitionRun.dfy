/** The whole balanced partition: every function, every scope, every access asked for. */
module PartitionRun {
  import opened Scopes
  import opened ScopeTree
  import opened Partition
  import opened PartitionSets
  import opened PartitionScopes

  /** The walk over one scope. */
  method CollectScope(body: seq<Op>, scopes: seq<ScopeBlock>, acc: seq<nat>, s: nat) returns (idxs: seq<nat>)
    requires |acc| == |body| && Laid(scopes, |body|) && s < |scopes|
    ensures idxs == Walk(scopes, acc, s, scopes[s].start, 0)
  {
    hide Laid, Walk;
    ScopeIn(scopes, |body|, s);
    var outer, i, next := scopes[s].outer, scopes[s].start, 0;
    idxs := [];
    while i != scopes[s].end
      invariant i <= scopes[s].end < |body|
      invariant idxs + Walk(scopes, acc, s, i, next) == Walk(scopes, acc, s, scopes[s].start, 0)
      decreases scopes[s].end - i
    {
      OuterIn(scopes, |body|, s, next);
      if next < |outer| && i == scopes[outer[next]].start {
        WalkOver(scopes, acc, s, i, next);
        i := scopes[outer[next]].end + 1;
        next := next + 1;
      } else {
        WalkStep(scopes, acc, s, i, next);
        idxs := if acc[i] != 0 then idxs + [acc[i]] else idxs;
        i := i + 1;
      }
    }
    WalkAtEnd(scopes, acc, s, i, next);
  }

  lemma ScopeIn(scopes: seq<ScopeBlock>, n: nat, s: nat)
    requires Laid(scopes, n) && s < |scopes|
    ensures scopes[s].start <= scopes[s].end < n
  {
  }

  lemma OuterIn(scopes: seq<ScopeBlock>, n: nat, s: nat, k: nat)
    requires Laid(scopes, n) && s < |scopes|
    ensures k < |scopes[s].outer| ==> OuterLaid(scopes, s, scopes[s].outer[k])
  {
    assert k < |scopes[s].outer| ==> scopes[s].outer[k] in scopes[s].outer;
  }

  // ----- who owns an access -----

  /** Scope `s` is the innermost one around instruction `i`. */
  predicate Owns(scopes: seq<ScopeBlock>, s: nat, i: nat) {
    Holds(scopes, s, i) && !HeldBelow(scopes, s, i)
  }

  /** Every instruction of the function's scope has exactly one innermost scope. */
  lemma {:induction false} OneOwner(body: seq<Op>, scopes: seq<ScopeBlock>, i: nat) returns (s: nat)
    requires TreeOf(body, scopes) && i < scopes[0].end
    ensures s < |scopes| && forall u: nat :: Owns(scopes, u, i) <==> u == s
  {
    s := InnermostScope(body, scopes, i);
    assert Holds(scopes, s, i);
    hide TreeOf;
    forall u: nat ensures Owns(scopes, u, i) <==> u == s {
      if Holds(scopes, u, i) { InnermostOwns(body, scopes, i, s, u); }
    }
  }

  lemma {:induction false} InnermostOwns(body: seq<Op>, scopes: seq<ScopeBlock>, i: nat, s: nat, u: nat)
    requires TreeOf(body, scopes) && Holds(scopes, s, i) && Holds(scopes, u, i)
    requires forall v: nat :: Holds(scopes, v, i) <==> v == s || v in Around(scopes, s)
    ensures HeldBelow(scopes, u, i) <==> u != s
  {
    hide TreeOf;
    if u != s {
      SubscopesAreClosure(body, scopes, u, s);
      if s in scopes[u].outer {
        assert HeldBelow(scopes, u, i);
      } else {
        var v: nat :| Via(scopes, u, v, s);
        assert Holds(scopes, v, i);
      }
    } else if HeldBelow(scopes, s, i) {
      var t :| t in scopes[s].outer && Holds(scopes, t, i);
      OuterPlace(body, scopes, s, t);
      AroundIff(body, scopes, t, s);
    }
  }

  predicate Injective(acc: seq<nat>) {
    forall i, j :: 0 <= i < |acc| && 0 <= j < |acc| && acc[i] == acc[j] != 0 ==> i == j
  }

  lemma {:induction false} OwnMembers(scopes: seq<ScopeBlock>, acc: seq<nat>, s: nat, lo: nat, x: nat)
    requires s < |scopes| && scopes[s].end <= |acc|
    ensures x in Own(scopes, acc, s, lo)
      <==> exists i: nat :: lo <= i < scopes[s].end && acc[i] == x != 0 && !HeldBelow(scopes, s, i)
    decreases scopes[s].end - lo
  {
    hide HeldBelow;
    if lo < scopes[s].end { OwnMembers(scopes, acc, s, lo + 1, x); }
  }

  lemma {:induction false} OwnNoDups(scopes: seq<ScopeBlock>, acc: seq<nat>, s: nat, lo: nat)
    requires s < |scopes| && scopes[s].end <= |acc| && Injective(acc)
    ensures NoDups(Own(scopes, acc, s, lo))
    decreases scopes[s].end - lo
  {
    hide HeldBelow;
    if lo < scopes[s].end {
      OwnNoDups(scopes, acc, s, lo + 1);
      OwnMembers(scopes, acc, s, lo + 1, acc[lo]);
    }
  }

  // ----- functions and their batches -----

  /** A function as the partitioner sees it: its instructions and the numbers of the accesses asked for. */
  datatype FuncBody = FuncBody(isImport: bool, body: seq<Op>, acc: seq<nat>)

  predicate Sound(f: FuncBody) {
    && Accesses(f.body, f.acc)
    && (f.isImport ==> f.body == [])
    && (!f.isImport ==> Nested(f.body) && f.body != [] && f.body[|f.body| - 1].End?)
  }

  function FuncScopes(f: FuncBody): seq<ScopeBlock>
    requires Sound(f)
  {
    if f.isImport then [] else ScopesOf(f.body)
  }

  /** No walk over one of its scopes finds an access of a scope further in. */
  predicate Clean(f: FuncBody)
    requires Sound(f)
  {
    forall s :: 0 <= s < |FuncScopes(f)| && FuncScopes(f)[s].end <= |f.acc| ==> MissedClean(FuncScopes(f), f.acc, s, 0)
  }

  lemma FuncTree(f: FuncBody)
    requires Sound(f) && !f.isImport
    ensures TreeOf(f.body, FuncScopes(f)) && Laid(FuncScopes(f), |f.body|)
  {
    ScopesAreTree(f.body);
    LaidOut(f.body, FuncScopes(f));
  }

  lemma {:induction false} MissedIsElse(body: seq<Op>, scopes: seq<ScopeBlock>, s: nat, k: nat)
    requires TreeOf(body, scopes) && s < |scopes| && k < |scopes[s].outer| && Missed(scopes, s, k)
    ensures exists i: nat :: i < |body| && body[i].Else?
  {
    ScopeBounds(body, scopes, scopes[s].outer[k - 1]);
    ScopeBounds(body, scopes, scopes[s].outer[k]);
    Siblings(body, scopes, s, k - 1, k);
    assert body[scopes[scopes[s].outer[k]].start].Else?;
  }

  /** A function without `else` is clean. */
  lemma {:induction false} NoElseIsClean(f: FuncBody)
    requires Sound(f) && forall i :: 0 <= i < |f.body| ==> !f.body[i].Else?
    ensures Clean(f)
  {
    if !f.isImport {
      FuncTree(f);
      var scopes := FuncScopes(f);
      hide FuncScopes, TreeOf, Laid, CleanAfter;
      forall s: nat | s < |scopes| && scopes[s].end <= |f.acc| ensures MissedClean(scopes, f.acc, s, 0) {
        forall k: nat | 0 < k < |scopes[s].outer| ensures !Missed(scopes, s, k) {
          if Missed(scopes, s, k) { MissedIsElse(f.body, scopes, s, k); }
        }
      }
    }
  }

  lemma AllCloser(body: seq<Op>, scopes: seq<ScopeBlock>)
    requires TreeOf(body, scopes) && Laid(scopes, |body|)
    ensures forall t :: 0 <= t < |scopes| ==> Closer(body[scopes[t].end])
  {
    forall t | 0 <= t < |scopes| ensures Closer(body[scopes[t].end]) { ScopeBounds(body, scopes, t); }
  }

  lemma {:induction false} AtStart(scopes: seq<ScopeBlock>, n: nat, s: nat)
    requires Laid(scopes, n) && s < |scopes|
    ensures InStep(scopes, s, scopes[s].start, 0)
  {
    forall k | 0 <= k < |scopes[s].outer|
      ensures scopes[s].outer[k] < |scopes| && scopes[s].start <= scopes[scopes[s].outer[k]].start
    {
      OuterIn(scopes, n, s, k);
    }
  }

  /** The walks find exactly the accesses of their own scopes if and only if the function is clean. */
  lemma {:induction false} WalksAreOwn(f: FuncBody)
    requires Sound(f) && !f.isImport
    ensures Laid(FuncScopes(f), |f.acc|)
    ensures Clean(f) <==> forall s :: 0 <= s < |FuncScopes(f)| ==>
      Walk(FuncScopes(f), f.acc, s, FuncScopes(f)[s].start, 0) == Own(FuncScopes(f), f.acc, s, FuncScopes(f)[s].start)
    ensures forall s :: 0 <= s < |FuncScopes(f)| ==>
      NoShorter(Own(FuncScopes(f), f.acc, s, FuncScopes(f)[s].start), Walk(FuncScopes(f), f.acc, s, FuncScopes(f)[s].start, 0))
  {
    var scopes := FuncScopes(f);
    FuncTree(f);
    AllCloser(f.body, scopes);
    hide FuncScopes, TreeOf, Walk, Own, MissedClean, Laid, NoShorter;
    forall s: nat | s < |scopes|
      ensures scopes[s].end <= |f.acc|
      ensures MissedClean(scopes, f.acc, s, 0)
        <==> Walk(scopes, f.acc, s, scopes[s].start, 0) == Own(scopes, f.acc, s, scopes[s].start)
      ensures NoShorter(Own(scopes, f.acc, s, scopes[s].start), Walk(scopes, f.acc, s, scopes[s].start, 0))
    {
      ScopeIn(scopes, |f.body|, s);
      AtStart(scopes, |f.body|, s);
      WalkIsOwn(f.body, scopes, f.acc, s, scopes[s].start, 0);
    }
  }
}
