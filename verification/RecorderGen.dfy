/** The recorder's builders and its pass over a function's instructions. */
module RecorderGen {
  import opened Bytes
  import opened Wasm
  import opened Flat
  import opened Locals
  import opened Recorder

  // ----- saving operands -----

  /** How many of `values[i..]` have type `t`. */
  function Later(values: seq<ValType>, i: nat, t: ValType): nat
    requires i <= |values|
    decreases |values| - i
  {
    if i == |values| then 0 else (if values[i] == t then 1 else 0) + Later(values, i + 1, t)
  }

  function Sets(ls: seq<nat>, i: nat): seq<Plain>
    requires i <= |ls|
    decreases |ls| - i
  {
    if i == |ls| then [] else Sets(ls, i + 1) + [if i > 0 then LocalSet(ls[i]) else LocalTee(ls[i])]
  }

  function Gets(ls: seq<nat>): (ps: seq<Plain>)
    ensures |ps| == |ls| && forall i :: 0 <= i < |ls| ==> ps[i] == LocalGet(ls[i])
  {
    seq(|ls|, i requires 0 <= i < |ls| => LocalGet(ls[i]))
  }

  /** Operands are popped into locals from the last, the first is only copied, and the others come back. */
  function SaveOps(ls: seq<nat>): seq<Plain> {
    Sets(ls, 0) + (if ls == [] then [] else Gets(ls[1..]))
  }

  /** Operand `i` went to the pool's next local of its type, `used` of which were taken before. */
  predicate SavedIn(pool: map<ValType, seq<nat>>, values: seq<ValType>, i: nat, used: nat, l: nat)
    requires i < |values|
  {
    var t := values[i];
    var k := used + Later(values, i + 1, t);
    t in pool && k < |pool[t]| && l == pool[t][k]
  }

  method SaveStackArgs(alloc: LocalAllocator, values: seq<ValType>) returns (builder: seq<Plain>, ls: seq<nat>)
    requires alloc.Valid()
    requires forall t <- values :: t in alloc.idxMap
    requires forall t <- alloc.idxMap :: alloc.Used(t) + Later(values, 0, t) <= |alloc.idxMap[t]|
    modifies alloc
    ensures alloc.Valid() && alloc.idxMap == old(alloc.idxMap)
    ensures |ls| == |values| && builder == SaveOps(ls)
    ensures forall t <- alloc.idxMap :: alloc.Used(t) == old(alloc.Used(t)) + Later(values, 0, t)
    ensures forall i :: 0 <= i < |values| ==>
      SavedIn(alloc.idxMap, values, i, old(alloc.Used(values[i])), ls[i])
  {
    hide ValidPool, SavedIn, Sets, Later;
    builder := [];
    ls := seq(|values|, _ => 0);
    NoSets(ls);
    NoneLater(values);
    LaterShrinks(values);
    var i := |values|;
    while i > 0
      invariant 0 <= i <= |values| == |ls| && alloc.Valid() && alloc.idxMap == old(alloc.idxMap)
      invariant builder == Sets(ls, i)
      invariant forall t <- alloc.idxMap :: alloc.Used(t) == old(alloc.Used(t)) + Later(values, i, t)
      invariant forall j :: i <= j < |values| ==>
        SavedIn(alloc.idxMap, values, j, old(alloc.Used(values[j])), ls[j])
    {
      i := i - 1;
      var t := values[i];
      LaterStep(values, i);
      assert Later(values, i, t) <= Later(values, 0, t);
      var newlc := alloc.Allocate(t);
      if i > 0 {
        builder := builder + [LocalSet(newlc.idx)];
      } else {
        builder := builder + [LocalTee(newlc.idx)];
      }
      SetsUpdate(ls, i, newlc.idx);
      ls := ls[i := newlc.idx];
      SavedNow(alloc.idxMap, values, i, old(alloc.Used(t)), newlc.idx);
    }
    var back := GetsBack(ls);
    builder := builder + back;
  }

  method GetsBack(ls: seq<nat>) returns (builder: seq<Plain>)
    ensures builder == if ls == [] then [] else Gets(ls[1..])
  {
    builder := [];
    if ls != [] {
      for k := 1 to |ls|
        invariant builder == Gets(ls[1..k])
      {
        assert ls[1..k + 1] == ls[1..k] + [ls[k]];
        builder := builder + [LocalGet(ls[k])];
      }
      assert ls[1..|ls|] == ls[1..];
    }
  }

  lemma LaterStep(values: seq<ValType>, i: nat)
    requires i < |values|
    ensures forall t :: Later(values, i, t) == (if values[i] == t then 1 else 0) + Later(values, i + 1, t)
  {
  }

  lemma NoneLater(values: seq<ValType>)
    ensures forall t :: Later(values, |values|, t) == 0
  {
  }

  lemma NoSets(ls: seq<nat>)
    ensures Sets(ls, |ls|) == []
  {
  }

  lemma SavedNow(pool: map<ValType, seq<nat>>, values: seq<ValType>, i: nat, used: nat, l: nat)
    requires i < |values| && values[i] in pool
    requires used + Later(values, i + 1, values[i]) < |pool[values[i]]|
    requires l == pool[values[i]][used + Later(values, i + 1, values[i])]
    ensures SavedIn(pool, values, i, used, l)
  {
  }

  lemma {:induction false} SetsUpdate(ls: seq<nat>, i: nat, x: nat)
    requires i < |ls|
    ensures Sets(ls[i := x], i) == Sets(ls, i + 1) + [if i > 0 then LocalSet(x) else LocalTee(x)]
  {
    SetsAbove(ls, i, x, i + 1);
  }

  lemma {:induction false} SetsAbove(ls: seq<nat>, i: nat, x: nat, k: nat)
    requires i < k <= |ls|
    ensures Sets(ls[i := x], k) == Sets(ls, k)
    decreases |ls| - k
  {
    if k < |ls| { SetsAbove(ls, i, x, k + 1); }
  }

  lemma {:induction false} LaterShrinks(values: seq<ValType>)
    ensures forall i, t :: 0 <= i <= |values| ==> Later(values, i, t) <= Later(values, 0, t)
  {
    forall i, t | 0 <= i <= |values|
      ensures Later(values, i, t) <= Later(values, 0, t)
    {
      LaterMono(values, i, t);
    }
  }

  lemma {:induction false} LaterMono(values: seq<ValType>, i: nat, t: ValType)
    requires i <= |values|
    ensures Later(values, i, t) <= Later(values, 0, t)
  {
    if i > 0 { LaterMono(values, i - 1, t); }
  }

  // ----- the builders for one access -----

  const RECORD_LOCALS: Counts := map[TI32 := 7, TI64 := 6, TF32 := 3, TF64 := 3]

  /** The pool the pass sets up for a function with `n` locals, nothing handed out yet. */
  ghost predicate FreshPool(alloc: LocalAllocator, n: nat)
    reads alloc
  {
    alloc.Valid() && alloc.PoolIs(RECORD_LOCALS, n) && forall t :: alloc.Used(t) == 0
  }

  function Params(x: Access): seq<ValType> {
    if x.kind.LoadK? then [TI32] else [TI32, x.ty]
  }

  datatype Info = Info(ret: nat, base: nat)

  lemma PoolSlots(alloc: LocalAllocator, n: nat)
    requires alloc.PoolIs(RECORD_LOCALS, n)
    ensures forall k :: 0 <= k < 7 ==> alloc.idxMap[TI32][k] == I32Slot(n, k)
    ensures forall k :: 0 <= k < 6 ==> alloc.idxMap[TI64][k] == I64Slot(n, k)
    ensures |alloc.idxMap[TI32]| == 7 && |alloc.idxMap[TI64]| == 6
  {
  }

  lemma LaterParams(x: Access, t: ValType)
    ensures var ps := Params(x);
      && Later(ps, |ps|, t) == 0
      && Later(ps, |ps| - 1, t) == (if t == ps[|ps| - 1] then 1 else 0)
      && Later(ps, 0, t) == (if t == TI32 then 1 else 0) + (if x.kind.StoreK? && t == x.ty then 1 else 0)
  {
    var ps := Params(x);
    assert Later(ps, |ps|, t) == 0;
    assert Later(ps, |ps| - 1, t) == (if t == ps[|ps| - 1] then 1 else 0);
  }

  /** The saved operands of an access, as slots. */
  lemma {:induction false} ParamSlots(alloc: LocalAllocator, n: nat, x: Access, ls: seq<nat>)
    requires alloc.PoolIs(RECORD_LOCALS, n) && ValidAccess(x) && |ls| == |Params(x)|
    requires forall i :: 0 <= i < |ls| ==>
      SavedIn(alloc.idxMap, Params(x), i, if x.kind.LoadK? && x.ty == Params(x)[i] then 1 else 0, ls[i])
    ensures ls[0] == SlotsOf(n, x).base && (x.kind.StoreK? ==> ls[1] == SlotsOf(n, x).value)
  {
    PoolSlots(alloc, n);
    LaterParams(x, TI32);
    LaterParams(x, TI64);
    assert SavedIn(alloc.idxMap, Params(x), 0, if x.kind.LoadK? && x.ty == TI32 then 1 else 0, ls[0]);
    if x.kind.StoreK? { assert SavedIn(alloc.idxMap, Params(x), 1, 0, ls[1]); }
  }

  lemma {:induction false} SaveOpsTwo(ls: seq<nat>)
    ensures |ls| == 1 ==> SaveOps(ls) == [LocalTee(ls[0])]
    ensures |ls| == 2 ==> SaveOps(ls) == [LocalSet(ls[1]), LocalTee(ls[0]), LocalGet(ls[1])]
  {
    if |ls| == 1 {
      assert Sets(ls, 1) == [];
    } else if |ls| == 2 {
      assert Sets(ls, 2) == [];
      assert Sets(ls, 1) == [LocalSet(ls[1])];
    }
  }

  /** The access duplicated on the shadow memory, in a block that hands the operands through. */
  method SetupMemopDuplicate(alloc: LocalAllocator, n: nat, x: Access) returns (b: Instr, info: Info)
    requires FreshPool(alloc, n) && ValidAccess(x)
    modifies alloc
    ensures alloc.Valid() && alloc.PoolIs(RECORD_LOCALS, n)
    ensures b == ShadowBlock(SlotsOf(n, x), x) && info == Info(SlotsOf(n, x).ret, SlotsOf(n, x).base)
    ensures alloc.Used(TI32) == Taken(x, TI32) && alloc.Used(TI64) == Taken(x, TI64)
  {
    hide ValidPool, From, SavedIn, SaveOps;
    PoolSlots(alloc, n);
    LaterParams(x, TI32);
    LaterParams(x, TI64);
    var retLc := LocalVal(TI32, 0);
    if x.kind.LoadK? {
      retLc := alloc.Allocate(x.ty);
    }
    OnlyInts(x);
    var builder, ls := SaveStackArgs(alloc, Params(x));
    ParamSlots(alloc, n, x, ls);
    SaveOpsTwo(ls);
    builder := builder + Gets(ls) + [OnShadow(x)];
    if x.kind.LoadK? {
      builder := builder + [LocalSet(retLc.idx)];
    }
    BuilderIs(x, ls, retLc.idx, builder);
    b := Block(BT(|ls|, |ls|), Lift(builder), NO_PC, NO_PC);
    info := Info(retLc.idx, ls[0]);
  }

  /** Pool locals of type `t` in use once the operands and the shadow's result have theirs. */
  function Taken(x: Access, t: ValType): nat {
    (if t == TI32 then 1 else 0) + (if t == x.ty then 1 else 0)
  }

  lemma OnlyInts(x: Access)
    requires ValidAccess(x)
    ensures forall t <- Params(x) :: t == TI32 || t == TI64
    ensures forall t :: t != TI32 && t != TI64 ==> Later(Params(x), 0, t) == 0
  {
    forall t { LaterParams(x, t); }
  }

  lemma BuilderIs(x: Access, ls: seq<nat>, ret: nat, builder: seq<Plain>)
    requires |ls| == |Params(x)|
    requires x.kind.LoadK? ==> builder == [LocalTee(ls[0])] + Gets(ls) + [OnShadow(x)] + [LocalSet(ret)]
    requires x.kind.StoreK? ==> builder == [LocalSet(ls[1]), LocalTee(ls[0]), LocalGet(ls[1])] + Gets(ls) + [OnShadow(x)]
    ensures x.kind.LoadK? ==> builder == [LocalTee(ls[0]), LocalGet(ls[0]), OnShadow(x), LocalSet(ret)]
    ensures x.kind.StoreK? ==>
      builder == [LocalSet(ls[1]), LocalTee(ls[0]), LocalGet(ls[1]), LocalGet(ls[0]), LocalGet(ls[1]), OnShadow(x)]
  {
  }

  /** Comparison, report and write-back: what follows the access. */
  function AfterOps(s: Slots, x: Access): seq<Instr> {
    Lift(CompareOps(s, x) + ReportOps(s, x)) + (if x.kind.LoadK? then [WriteBack(s, x)] else [])
    + Lift(LastOps(s, x)[..4])
  }

  lemma Compares(s: Slots, x: Access)
    ensures x.kind.LoadK? ==>
      [LocalTee(s.main), LocalGet(s.main), LocalGet(s.ret), Ne(x.ty)] + [LocalTee(s.differ)] == CompareOps(s, x)
    ensures x.kind.StoreK? ==> [Const(I32(0))] + [LocalTee(s.differ)] == CompareOps(s, x)
  {
  }

  method MemopTraceInstgen(alloc: LocalAllocator, n: nat, x: Access, info: Info) returns (builder: seq<Instr>)
    requires alloc.Valid() && alloc.PoolIs(RECORD_LOCALS, n) && ValidAccess(x)
    requires alloc.Used(TI32) == Taken(x, TI32) && alloc.Used(TI64) == Taken(x, TI64)
    requires info == Info(SlotsOf(n, x).ret, SlotsOf(n, x).base)
    modifies alloc
    ensures alloc.Valid() && alloc.PoolIs(RECORD_LOCALS, n) && builder == AfterOps(SlotsOf(n, x), x)
  {
    hide ValidPool, From, Lift, ReportOps, Ne, CompareOps, WriteBack;
    PoolSlots(alloc, n);
    var differLc := alloc.Allocate(TI32);
    var fullAddrLc := alloc.Allocate(TI32);
    var s := Slots(info.ret, info.base, SlotsOf(n, x).value, differLc.idx, fullAddrLc.idx, 0, 0, 0);
    if x.kind.LoadK? {
      var mainRetvalLc := alloc.Allocate(x.ty);
      var i64MainLc := alloc.Allocate(TI64);
      var i64ShadowLc := alloc.Allocate(TI64);
      s := s.(main := mainRetvalLc.idx, main64 := i64MainLc.idx, shadow64 := i64ShadowLc.idx);
      var ops := [LocalTee(s.main), LocalGet(s.main), LocalGet(s.ret), Ne(x.ty)] + [LocalTee(s.differ)];
      Compares(s, x);
      builder := Lift(ops + ReportOps(s, x)) + [WriteBack(s, x)]
        + Lift([LocalGet(s.main64), LocalGet(s.shadow64), Const(I32(0)), CallHost(Trace)]);
      assert LastOps(s, x)[..4] == [LocalGet(s.main64), LocalGet(s.shadow64), Const(I32(0)), CallHost(Trace)];
    } else {
      var ops := [Const(I32(0))] + [LocalTee(s.differ)];
      Compares(s, x);
      builder := Lift(ops + ReportOps(s, x)) + []
        + Lift([Const(I64(0)), Const(I64(0)), Const(I32(0)), CallHost(Trace)]);
      assert LastOps(s, x)[..4] == [Const(I64(0)), Const(I64(0)), Const(I32(0)), CallHost(Trace)];
    }
    assert s == SlotsOf(n, x);
  }

  // ----- the pass -----

  /** Integer loads and stores of the program, the instructions the pass rewrites here. */
  predicate IsAccess(t: Tok) {
    match t
    case InsT(Do(Load(ty, w, _, Main, _), _)) => (ty == TI32 || ty == TI64) && 1 <= w <= Bits(ty) / 8
    case InsT(Do(Store(ty, w, Main, _), _)) => (ty == TI32 || ty == TI64) && 1 <= w <= Bits(ty) / 8
    case _ => false
  }

  function Opcode(ty: ValType, width: nat, signed: bool, store: bool): nat {
    if store then
      (match (ty, width)
       case (TI32, 4) => 0x36 case (TI64, 8) => 0x37 case (TI32, 1) => 0x3A case (TI32, _) => 0x3B
       case (_, 1) => 0x3C case (_, 2) => 0x3D case (_, _) => 0x3E)
    else
      (match (ty, width)
       case (TI32, 4) => 0x28 case (TI64, 8) => 0x29
       case (TI32, 1) => (if signed then 0x2C else 0x2D) case (TI32, _) => (if signed then 0x2E else 0x2F)
       case (_, 1) => (if signed then 0x30 else 0x31) case (_, 2) => (if signed then 0x32 else 0x33)
       case (_, _) => (if signed then 0x34 else 0x35))
  }

  function AccessOf(t: Tok, idx: nat): (x: Access)
    requires IsAccess(t)
    ensures ValidAccess(x) && t == InsT(Do(Original(x), t.i.pc))
  {
    match t.i.p
    case Load(ty, w, sgn, _, off) => Access(LoadK(sgn), ty, w, off, Opcode(ty, w, sgn, false), idx)
    case Store(ty, w, _, off) => Access(StoreK, ty, w, off, Opcode(ty, w, false, true), idx)
  }

  /** A load or store of the program's memory, as the access `x`. */
  predicate IsOf(t: Tok, x: Access) { t.InsT? && t.i.Do? && t.i.p == Original(x) }

  ghost predicate Accessing(t: Tok) { exists x :: ValidAccess(x) && IsOf(t, x) }

  /** Every integer load and store of the program's memory is rewritten, of either type and every width. */
  lemma {:induction false} AccessIff(t: Tok)
    ensures IsAccess(t) <==> Accessing(t)
  {
    if IsAccess(t) {
      assert IsOf(t, AccessOf(t, 0));
    }
    if x :| ValidAccess(x) && IsOf(t, x) {
      assert t == InsT(Do(t.i.p, t.i.pc));
    }
  }

  datatype Memop = NoMemop | Memop(kind: Kind, ty: ValType, width: nat)

  /** What the opcodes of integer loads and stores do. */
  function MemopOf(op: nat): Memop {
    if op == 0x28 then Memop(LoadK(true), TI32, 4)
    else if op == 0x29 then Memop(LoadK(true), TI64, 8)
    else if op == 0x2C then Memop(LoadK(true), TI32, 1)
    else if op == 0x2D then Memop(LoadK(false), TI32, 1)
    else if op == 0x2E then Memop(LoadK(true), TI32, 2)
    else if op == 0x2F then Memop(LoadK(false), TI32, 2)
    else if op == 0x30 then Memop(LoadK(true), TI64, 1)
    else if op == 0x31 then Memop(LoadK(false), TI64, 1)
    else if op == 0x32 then Memop(LoadK(true), TI64, 2)
    else if op == 0x33 then Memop(LoadK(false), TI64, 2)
    else if op == 0x34 then Memop(LoadK(true), TI64, 4)
    else if op == 0x35 then Memop(LoadK(false), TI64, 4)
    else if op == 0x36 then Memop(StoreK, TI32, 4)
    else if op == 0x37 then Memop(StoreK, TI64, 8)
    else if op == 0x3A then Memop(StoreK, TI32, 1)
    else if op == 0x3B then Memop(StoreK, TI32, 2)
    else if op == 0x3C then Memop(StoreK, TI64, 1)
    else if op == 0x3D then Memop(StoreK, TI64, 2)
    else if op == 0x3E then Memop(StoreK, TI64, 4)
    else NoMemop
  }

  /** There are instructions for these widths. */
  predicate Encodable(x: Access) { ValidAccess(x) && x.width in {1, 2, 4, 8} }

  /** The opcode is the one of the access; a load of the full width has no sign to extend. */
  predicate Performs(op: nat, x: Access) {
    match MemopOf(op)
    case NoMemop => false
    case Memop(k, ty, w) => ty == x.ty && w == x.width && (k == x.kind || (k.LoadK? && x.kind.LoadK? && w == Bits(ty) / 8))
  }

  /** `y` is the access `x` with its number and opcode. */
  predicate Numbered(x: Access, y: Access, idx: nat) { y == x.(opcode := y.opcode, idx := idx) && Performs(y.opcode, x) }

  /** The opcode reported with an access is the one of its instruction. */
  lemma {:induction false} OpcodeExact(t: Tok, x: Access, idx: nat)
    requires Encodable(x) && IsOf(t, x) && IsAccess(t)
    ensures Numbered(x, AccessOf(t, idx), idx)
  {
  }

  function PreToks(n: nat, x: Access): seq<Tok> {
    Flatten(Lift([CallHost(Lock)]) + [ShadowBlock(SlotsOf(n, x), x)])
  }

  function PostToks(n: nat, x: Access): seq<Tok> {
    Flatten(AfterOps(SlotsOf(n, x), x) + Lift([CallHost(Unlock)]))
  }

  /** What is inserted around the access is what `Recorded` has around it. */
  lemma {:induction false} RecordedToks(n: nat, x: Access)
    ensures Flatten(Recorded(n, x)) == PreToks(n, x) + [InsT(Do(Original(x), NO_PC))] + PostToks(n, x)
  {
    hide ShadowBlock, WriteBack, CompareOps, ReportOps, Original, Flatten;
    var s := SlotsOf(n, x);
    var pre, post := Lift([CallHost(Lock)]) + [ShadowBlock(s, x)], AfterOps(s, x) + Lift([CallHost(Unlock)]);
    assert Lift(LastOps(s, x)) == Lift(LastOps(s, x)[..4]) + Lift([CallHost(Unlock)]);
    assert Recorded(n, x) == pre + Lift([Original(x)]) + post;
    FlattenAppend(pre + Lift([Original(x)]), post);
    FlattenAppend(pre, Lift([Original(x)]));
    FlattenLift([Original(x)]);
    assert Toks([Original(x)]) == [InsT(Do(Original(x), NO_PC))];
  }

  /** A function's tokens with every access surrounded; accesses are numbered from `idx`. */
  function Rewritten(n: nat, toks: seq<Tok>, idx: nat): seq<Tok>
    decreases |toks|
  {
    if toks == [] then []
    else
      var t := toks[|toks| - 1];
      var init := toks[..|toks| - 1];
      Rewritten(n, init, idx)
      + (if IsAccess(t) then
           var x := AccessOf(t, idx + Accesses(init));
           PreToks(n, x) + [t] + PostToks(n, x)
         else [t])
  }

  function Accesses(toks: seq<Tok>): nat {
    if toks == [] then 0
    else Accesses(toks[..|toks| - 1]) + (if IsAccess(toks[|toks| - 1]) then 1 else 0)
  }

  /** The pass over one function: code is spliced in on both sides of each access, and skipped. */
  method RecordFunction(f: FuncDecl, toks: seq<Tok>, firstIdx: nat) returns (insts: seq<Tok>, accessTracker: nat)
    requires f.Valid()
    modifies f
    ensures f.Valid() && f.Types() == old(f.Types()) + PoolTypes(RECORD_LOCALS, 4)
    ensures insts == Rewritten(|old(f.Types())|, toks, firstIdx) && accessTracker == firstIdx + Accesses(toks)
  {
    hide Accesses, Rewritten, Opcode, AccessOf, PreToks, PostToks, IsAccess, PoolTypes, ValidPool, From, Expand;
    ghost var n := |f.Types()|;
    var lcAllocator := new LocalAllocator(f, RECORD_LOCALS);
    var nLocals := |f.params| + f.numPureLocals - POOL;
    assert nLocals == n by { PoolCount(); }
    insts := toks;
    accessTracker := firstIdx;
    var pos := 0;
    ghost var k := 0;
    RewrittenNone(n, firstIdx);
    while pos < |insts|
      invariant lcAllocator.Valid() && lcAllocator.PoolIs(RECORD_LOCALS, n)
      invariant f.Valid() && f.Types() == old(f.Types()) + PoolTypes(RECORD_LOCALS, 4)
      invariant 0 <= k <= |toks| && 0 <= pos <= |insts| && insts[pos..] == toks[k..]
      invariant insts[..pos] == Rewritten(n, toks[..k], firstIdx)
      invariant accessTracker == firstIdx + Accesses(toks[..k])
      decreases |insts| - pos
    {
      lcAllocator.ResetAllocator();
      var t := insts[pos];
      assert t == toks[k];
      RewrittenStep(n, toks, k, firstIdx);
      var pre, post := [], [];
      if IsAccess(t) {
        var x := AccessOf(t, accessTracker);
        pre, post := Surround(lcAllocator, nLocals, x);
        accessTracker := accessTracker + 1;
      }
      Splice(insts, pos, pre, post, toks, k);
      insts := insts[..pos] + pre + [t] + post + insts[pos + 1..];
      pos := pos + |pre| + 1 + |post|;
      k := k + 1;
    }
    assert toks[..k] == toks && insts[..pos] == insts;
  }

  lemma PoolCount()
    ensures |PoolTypes(RECORD_LOCALS, 4)| == POOL
  {
    assert |PoolTypes(RECORD_LOCALS, 0)| == 0;
    assert |PoolTypes(RECORD_LOCALS, 1)| == 3;
    assert |PoolTypes(RECORD_LOCALS, 2)| == 6;
    assert |PoolTypes(RECORD_LOCALS, 3)| == 12;
  }

  lemma RewrittenNone(n: nat, idx: nat)
    ensures Rewritten(n, [], idx) == [] && Accesses([]) == 0
  {
  }

  lemma RewrittenStep(n: nat, toks: seq<Tok>, k: nat, idx: nat)
    requires k < |toks|
    ensures var t, init := toks[k], toks[..k];
      && Accesses(toks[..k + 1]) == Accesses(init) + (if IsAccess(t) then 1 else 0)
      && Rewritten(n, toks[..k + 1], idx)
         == Rewritten(n, init, idx)
            + (if IsAccess(t) then
                 PreToks(n, AccessOf(t, idx + Accesses(init))) + [t] + PostToks(n, AccessOf(t, idx + Accesses(init)))
               else [t])
  {
    assert toks[..k + 1][..k] == toks[..k];
  }

  lemma Splice(insts: seq<Tok>, pos: nat, pre: seq<Tok>, post: seq<Tok>, toks: seq<Tok>, k: nat)
    requires pos < |insts| && k < |toks| && insts[pos..] == toks[k..]
    ensures var out := insts[..pos] + pre + [insts[pos]] + post + insts[pos + 1..];
      var next := pos + |pre| + 1 + |post|;
      && next <= |out| && out[next..] == toks[k + 1..] && out[..next] == insts[..pos] + (pre + [insts[pos]] + post)
      && |out| - next < |insts| - pos
  {
    assert insts[pos + 1..] == insts[pos..][1..] == toks[k..][1..] == toks[k + 1..];
  }

  method Surround(alloc: LocalAllocator, n: nat, x: Access) returns (pre: seq<Tok>, post: seq<Tok>)
    requires FreshPool(alloc, n) && ValidAccess(x)
    modifies alloc
    ensures alloc.Valid() && alloc.PoolIs(RECORD_LOCALS, n)
    ensures pre == PreToks(n, x) && post == PostToks(n, x)
  {
    hide ShadowBlock, AfterOps, Flatten, ValidPool;
    var dup, info := SetupMemopDuplicate(alloc, n, x);
    var preBuilder := Lift([CallHost(Lock)]) + [dup];
    var trace := MemopTraceInstgen(alloc, n, x, info);
    var postBuilder := trace + Lift([CallHost(Unlock)]);
    pre, post := Flatten(preBuilder), Flatten(postBuilder);
  }
}
