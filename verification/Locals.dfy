/**
 * Function locals as the module stores them, run-length coded, and the allocator that hands
 * scratch locals to instrumentation code.
 */
module Locals {
  import opened Wasm

  datatype LocalRun = LocalRun(count: nat, ty: ValType)

  function Repeat(t: ValType, n: nat): (ts: seq<ValType>)
    ensures |ts| == n && forall i :: 0 <= i < n ==> ts[i] == t
  {
    seq(n, _ => t)
  }

  /** The locals a run-length list declares, one by one. */
  function Expand(runs: seq<LocalRun>): seq<ValType> {
    if runs == [] then []
    else Expand(runs[..|runs| - 1]) + Repeat(runs[|runs| - 1].ty, runs[|runs| - 1].count)
  }

  lemma ExpandSnoc(runs: seq<LocalRun>, r: LocalRun)
    ensures Expand(runs + [r]) == Expand(runs) + Repeat(r.ty, r.count)
  {
    assert (runs + [r])[..|runs|] == runs;
  }

  lemma {:induction false} ExpandBump(runs: seq<LocalRun>)
    requires runs != []
    ensures var last := |runs| - 1;
      Expand(runs[last := LocalRun(runs[last].count + 1, runs[last].ty)]) == Expand(runs) + [runs[last].ty]
  {
    var last := |runs| - 1;
    var r := runs[last];
    assert runs == runs[..last] + [r];
    assert runs[last := LocalRun(r.count + 1, r.ty)] == runs[..last] + [LocalRun(r.count + 1, r.ty)];
    ExpandSnoc(runs[..last], r);
    ExpandSnoc(runs[..last], LocalRun(r.count + 1, r.ty));
    assert Repeat(r.ty, r.count + 1) == Repeat(r.ty, r.count) + [r.ty];
  }

  /** The list with one more local of type `t` at the end. */
  function AppendLocal(runs: seq<LocalRun>, t: ValType): seq<LocalRun> {
    var n := |runs|;
    if n > 0 && runs[n - 1].ty == t then runs[n - 1 := LocalRun(runs[n - 1].count + 1, t)]
    else runs + [LocalRun(1, t)]
  }

  lemma {:induction false} AppendedLocal(runs: seq<LocalRun>, t: ValType)
    ensures Expand(AppendLocal(runs, t)) == Expand(runs) + [t]
  {
    var n := |runs|;
    if n > 0 && runs[n - 1].ty == t {
      ExpandBump(runs);
    } else {
      ExpandSnoc(runs, LocalRun(1, t));
      assert Repeat(t, 1) == [t];
    }
  }

  class FuncDecl {
    const params: seq<ValType>
    var pureLocals: seq<LocalRun>
    var numPureLocals: nat

    ghost predicate Valid()
      reads this
    {
      numPureLocals == |Expand(pureLocals)|
    }

    /** The types of all locals, parameters first: what index `i` denotes in the function's code. */
    ghost function Types(): seq<ValType>
      reads this
    {
      params + Expand(pureLocals)
    }

    constructor (params: seq<ValType>, pureLocals: seq<LocalRun>, numPureLocals: nat)
      requires numPureLocals == |Expand(pureLocals)|
      ensures Valid() && Types() == params + Expand(pureLocals)
      ensures this.params == params
    {
      this.params := params;
      this.pureLocals := pureLocals;
      this.numPureLocals := numPureLocals;
    }

    /** Appends a local; a run of the same type at the end of the list is lengthened. */
    method AddLocal(t: ValType) returns (idx: nat)
      requires Valid()
      modifies this
      ensures Valid()
      ensures Types() == old(Types()) + [t] && idx == |old(Types())|
    {
      hide Expand;
      AppendedLocal(pureLocals, t);
      var n := |pureLocals|;
      if n > 0 && pureLocals[n - 1].ty == t {
        pureLocals := pureLocals[n - 1 := LocalRun(pureLocals[n - 1].count + 1, t)];
      } else {
        pureLocals := pureLocals + [LocalRun(1, t)];
      }
      idx := |params| + numPureLocals;
      numPureLocals := numPureLocals + 1;
    }
  }

  datatype LocalVal = NoLocal | LocalVal(ty: ValType, idx: nat)

  /** Keys of the type-indexed maps in the order of their codes: f64, f32, i64, i32. */
  const KEY_ORDER: seq<ValType> := [TF64, TF32, TI64, TI32]

  /** How many locals of each type are asked for. */
  type Counts = map<ValType, nat>

  function CountOf(counts: Counts, t: ValType): nat {
    if t in counts then counts[t] else 0
  }

  ghost predicate Distinct(s: seq<nat>) {
    forall i, j :: 0 <= i < j < |s| ==> s[i] != s[j]
  }

  class LocalAllocator {
    var idxMap: map<ValType, seq<nat>>
    var allocator: map<ValType, nat>
    /** Indices handed out since the last reset. */
    ghost var handed: seq<nat>

    ghost predicate Valid()
      reads this
    {
      ValidPool(idxMap, allocator, handed)
    }

    function Used(t: ValType): nat
      reads this
    {
      CountOf(allocator, t)
    }

    /** The pool: for each type the asked-for number of indices, consecutive, behind the `n` locals that were there. */
    ghost predicate PoolIs(counts: Counts, n: nat)
      reads this
    {
      && idxMap.Keys == counts.Keys
      && forall t <- counts :: idxMap[t] == From(n + Before(counts, t), counts[t])
    }

    /** Adds the asked-for locals to the function, type by type. */
    constructor (f: FuncDecl, counts: Counts)
      requires f.Valid()
      modifies f
      ensures Valid() && f.Valid() && handed == [] && forall t :: Used(t) == 0
      ensures PoolIs(counts, |old(f.Types())|)
      ensures f.Types() == old(f.Types()) + PoolTypes(counts, 4)
    {
      idxMap := map[];
      allocator := map[];
      handed := [];
      new;
      hide Before, From, PoolTo, PoolTypes, Expand, Repeat, CountOf, ValidPool, FuncDecl.Valid, FuncDecl.Types;
      ghost var was := f.Types();
      NoTypes(counts);
      NoPool(counts, |was|);
      for k := 0 to 4
        invariant f.Valid() && allocator == map[] && handed == []
        invariant PoolTo(idxMap, counts, k, |was|)
        invariant f.Types() == was + PoolTypes(counts, k)
      {
        var t := KEY_ORDER[k];
        PoolNext(idxMap, counts, k, |was|);
        PoolLength(counts, k);
        NextTypes(counts, k, was);
        if t in counts {
          var idxs := AddLocals(f, t, counts[t]);
          idxMap := idxMap[t := idxs];
        }
      }
      PoolWhole(idxMap, counts, |was|);
      FreshIsValid(idxMap, counts, |was|);
    }

    /** Starts handing out from the beginning again. */
    method ResetAllocator()
      requires Valid()
      modifies this
      ensures Valid() && idxMap == old(idxMap) && handed == [] && forall t :: Used(t) == 0
    {
      ZeroAll(idxMap, allocator, handed);
      allocator := map t | t in allocator :: 0;
      handed := [];
    }

    /** The next local of the type; none when the pool has run out. */
    method Allocate(t: ValType) returns (l: LocalVal)
      requires Valid() && t in idxMap
      modifies this
      ensures Valid() && idxMap == old(idxMap)
      ensures old(Used(t)) < |idxMap[t]| ==>
        && l == LocalVal(t, idxMap[t][old(Used(t))]) && l.idx !in old(handed)
        && handed == old(handed) + [l.idx] && Used(t) == old(Used(t)) + 1
      ensures old(Used(t)) >= |idxMap[t]| ==> l == NoLocal && handed == old(handed) && Used(t) == old(Used(t))
      ensures forall u :: u != t ==> Used(u) == old(Used(u))
    {
      hide ValidPool;
      if t !in allocator {
        ZeroKey(idxMap, allocator, handed, t);
        allocator := allocator[t := 0];
      }
      if allocator[t] >= |idxMap[t]| {
        return NoLocal;
      }
      var k := allocator[t];
      l := LocalVal(t, idxMap[t][k]);
      HandNext(idxMap, allocator, handed, t);
      allocator := allocator[t := k + 1];
      handed := handed + [l.idx];
    }
  }

  /** `x` is one of the indices below the counters. */
  ghost predicate HandedOut(pool: map<ValType, seq<nat>>, used: Counts, x: nat) {
    exists t, i :: t in pool && 0 <= i < |pool[t]| && i < CountOf(used, t) && pool[t][i] == x
  }

  /** No index occurs twice in the pool. */
  ghost predicate NoSharing(pool: map<ValType, seq<nat>>) {
    && (forall t <- pool :: Distinct(pool[t]))
    && (forall t, u, i, j :: t in pool && u in pool && t != u && 0 <= i < |pool[t]| && 0 <= j < |pool[u]| ==>
          pool[t][i] != pool[u][j])
  }

  ghost predicate ValidPool(pool: map<ValType, seq<nat>>, used: Counts, handed: seq<nat>) {
    && NoSharing(pool)
    && (forall t <- pool :: CountOf(used, t) <= |pool[t]|)
    && Distinct(handed)
    && (forall x <- handed :: HandedOut(pool, used, x))
  }

  /** What the next index of a type is, nobody has yet. */
  lemma {:induction false} HandNext(pool: map<ValType, seq<nat>>, used: Counts, handed: seq<nat>, t: ValType)
    requires ValidPool(pool, used, handed) && t in pool && CountOf(used, t) < |pool[t]|
    ensures pool[t][CountOf(used, t)] !in handed
    ensures ValidPool(pool, used[t := CountOf(used, t) + 1], handed + [pool[t][CountOf(used, t)]])
  {
    var k := CountOf(used, t);
    var idx, more := pool[t][k], used[t := k + 1];
    NotHanded(pool, used, handed, t);
    forall x | x in handed + [idx]
      ensures HandedOut(pool, more, x)
    {
      StillHanded(pool, used, handed, t, x);
    }
    hide HandedOut, NoSharing;
  }

  lemma {:induction false} NotHanded(pool: map<ValType, seq<nat>>, used: Counts, handed: seq<nat>, t: ValType)
    requires ValidPool(pool, used, handed) && t in pool && CountOf(used, t) < |pool[t]|
    ensures pool[t][CountOf(used, t)] !in handed
  {
    assert !HandedOut(pool, used, pool[t][CountOf(used, t)]);
  }

  lemma {:induction false} StillHanded(pool: map<ValType, seq<nat>>, used: Counts, handed: seq<nat>, t: ValType, x: nat)
    requires ValidPool(pool, used, handed) && t in pool && CountOf(used, t) < |pool[t]|
    requires x in handed + [pool[t][CountOf(used, t)]]
    ensures HandedOut(pool, used[t := CountOf(used, t) + 1], x)
  {
    hide NoSharing;
    var k := CountOf(used, t);
    var more := used[t := k + 1];
    if x in handed {
      var u, i :| u in pool && 0 <= i < |pool[u]| && i < CountOf(used, u) && pool[u][i] == x;
      assert i < CountOf(more, u);
    } else {
      assert k < CountOf(more, t);
    }
  }

  lemma {:induction false} ZeroKey(pool: map<ValType, seq<nat>>, used: Counts, handed: seq<nat>, t: ValType)
    requires ValidPool(pool, used, handed) && t !in used
    ensures ValidPool(pool, used[t := 0], handed)
  {
    var more := used[t := 0];
    forall x | x in handed
      ensures HandedOut(pool, more, x)
    {
      var u, i :| u in pool && 0 <= i < |pool[u]| && i < CountOf(used, u) && pool[u][i] == x;
      assert i < CountOf(more, u);
    }
  }

  lemma {:induction false} ZeroAll(pool: map<ValType, seq<nat>>, used: Counts, handed: seq<nat>)
    requires ValidPool(pool, used, handed)
    ensures ValidPool(pool, map t | t in used :: 0, [])
  {
  }

  method AddLocals(f: FuncDecl, t: ValType, n: nat) returns (idxs: seq<nat>)
    requires f.Valid()
    modifies f
    ensures f.Valid() && idxs == From(|old(f.Types())|, n) && f.Types() == old(f.Types()) + Repeat(t, n)
  {
    idxs := [];
    ghost var start := f.Types();
    for i := 0 to n
      invariant f.Valid() && idxs == From(|start|, i) && f.Types() == start + Repeat(t, i)
    {
      var idx := f.AddLocal(t);
      idxs := idxs + [idx];
    }
  }

  function From(start: nat, n: nat): (s: seq<nat>)
    ensures |s| == n && forall i :: 0 <= i < n ==> s[i] == start + i
  {
    seq(n, i => start + i)
  }

  /** The types of the first `k` kinds of pool locals. */
  function PoolTypes(counts: Counts, k: nat): seq<ValType>
    requires k <= 4
  {
    if k == 0 then [] else PoolTypes(counts, k - 1) + Repeat(KEY_ORDER[k - 1], CountOf(counts, KEY_ORDER[k - 1]))
  }

  lemma NoTypes(counts: Counts)
    ensures PoolTypes(counts, 0) == []
  {
  }

  lemma NextTypes(counts: Counts, k: nat, was: seq<ValType>)
    requires k < 4
    ensures was + PoolTypes(counts, k + 1)
         == if KEY_ORDER[k] in counts then was + PoolTypes(counts, k) + Repeat(KEY_ORDER[k], counts[KEY_ORDER[k]])
            else was + PoolTypes(counts, k)
  {
  }

  /** The pool's part for the first `k` kinds. */
  ghost predicate PoolTo(m: map<ValType, seq<nat>>, counts: Counts, k: nat, n: nat)
    requires k <= 4
  {
    && (forall t :: t in m <==> t in counts && t in KEY_ORDER[..k])
    && forall t <- m :: m[t] == From(n + Before(counts, t), counts[t])
  }

  lemma NoPool(counts: Counts, n: nat)
    ensures PoolTo(map[], counts, 0, n)
  {
  }

  lemma PoolNext(m: map<ValType, seq<nat>>, counts: Counts, k: nat, n: nat)
    requires k < 4 && PoolTo(m, counts, k, n)
    ensures var t := KEY_ORDER[k];
      if t in counts then PoolTo(m[t := From(n + Before(counts, t), counts[t])], counts, k + 1, n) else PoolTo(m, counts, k + 1, n)
  {
    hide From, Before;
    assert KEY_ORDER[..k + 1] == KEY_ORDER[..k] + [KEY_ORDER[k]];
  }

  lemma PoolWhole(m: map<ValType, seq<nat>>, counts: Counts, n: nat)
    requires PoolTo(m, counts, 4, n)
    ensures m.Keys == counts.Keys && forall t <- m :: m[t] == From(n + Before(counts, t), counts[t])
  {
    hide From, Before;
    KeyOrderComplete();
  }

  lemma KeyOrderComplete()
    ensures forall t: ValType :: t in KEY_ORDER[..4]
  {
    forall t: ValType
      ensures t in KEY_ORDER[..4]
    {
      var k := match t case TF64 => 0 case TF32 => 1 case TI64 => 2 case TI32 => 3;
      assert KEY_ORDER[k] == t;
    }
  }

  lemma PoolLength(counts: Counts, k: nat)
    requires k < 4
    ensures |PoolTypes(counts, k)| == Before(counts, KEY_ORDER[k])
  {
    if k > 0 { PoolLength(counts, k - 1); }
  }

  lemma FreshIsValid(m: map<ValType, seq<nat>>, counts: Counts, n: nat)
    requires m.Keys == counts.Keys && forall t <- m :: m[t] == From(n + Before(counts, t), counts[t])
    ensures ValidPool(m, map[], []) && forall t :: CountOf(map[], t) == 0
  {
    PoolDistinct(m, counts, n);
  }

  lemma PoolDistinct(m: map<ValType, seq<nat>>, counts: Counts, n: nat)
    requires m.Keys == counts.Keys && forall t <- m :: m[t] == From(n + Before(counts, t), counts[t])
    ensures forall t, u, i, j :: t in m && u in m && t != u && 0 <= i < |m[t]| && 0 <= j < |m[u]| ==> m[t][i] != m[u][j]
  {
    forall t, u, i, j | t in m && u in m && t != u && 0 <= i < |m[t]| && 0 <= j < |m[u]|
      ensures m[t][i] != m[u][j]
    {
      assert m[t][i] == n + Before(counts, t) + i && m[u][j] == n + Before(counts, u) + j;
    }
  }

  /** Locals that come before those of type `t`. */
  function Before(counts: Counts, t: ValType): nat {
    match t
    case TF64 => 0
    case TF32 => CountOf(counts, TF64)
    case TI64 => CountOf(counts, TF64) + CountOf(counts, TF32)
    case TI32 => CountOf(counts, TF64) + CountOf(counts, TF32) + CountOf(counts, TI64)
  }
}
