/**
 * The branch tracer: before every branch, code that appends one word - function, position of the
 * branch, position where execution continues - to a buffer behind the program's memory.
 */
module Tracer {
  import opened Bytes
  import opened Wasm
  import opened Flat
  import opened Ladder

  /**
   * One function under the tracer: it has `n` locals and index `fn` among the functions before
   * the tracer's own import; the memory had `base` bytes and has `size` now.
   */
  datatype Ctx = Ctx(n: nat, fn: nat, base: nat, size: nat)

  /** Scratch locals behind the function's own: one i64 and two i32. */
  function Target(c: Ctx): nat { c.n }
  function Cond(c: Ctx): nat { c.n + 1 }
  function Bytes32(c: Ctx): nat { c.n + 2 }
  const SCRATCH: nat := 3

  const ENTRY: nat := 8
  const B24: nat := 0x100_0000
  const B48: nat := 0x1_0000_0000_0000

  predicate ValidCtx(c: Ctx) {
    c.fn < 65536 && c.base + 8 <= c.size <= TWO32
  }

  /** Source position and function index in their places in a 64-bit word. */
  function SrcShift(fn: nat, src: nat): nat {
    Or(src * B24, fn * B48)
  }

  /** The source of an event, as the recorder pushes it: a constant, or what a wrapper was handed. */
  function Here(c: Ctx, src: nat): Plain {
    Const(I64(SrcShift(c.fn, src)))
  }

  function RecordOps(c: Ctx, source: Plain): seq<Plain> {
    [LocalSet(Target(c)), Const(I32(c.base + 8)),
     Const(I32(0)), Load(TI32, 4, false, Main, c.base), LocalTee(Bytes32(c)),
     Const(I32(0)), LocalGet(Bytes32(c)), Const(I32(8)), I32Add, Store(TI32, 4, Main, c.base),
     I32Add, source, LocalGet(Target(c)), I64Or, Store(TI64, 8, Main, 0)]
  }

  function BrOps(c: Ctx, labels: seq<nat>, l: nat, pc: nat): seq<Plain>
    requires l < |labels|
  {
    [Const(I64(labels[l]))] + RecordOps(c, Here(c, pc))
  }

  function BrIfOps(c: Ctx, labels: seq<nat>, l: nat, pc: nat, next: nat): seq<Plain>
    requires l < |labels|
  {
    [LocalTee(Cond(c)), Const(I64(labels[l])), Const(I64(next)), LocalGet(Cond(c)), Select] + RecordOps(c, Here(c, pc))
  }

  function Max(a: nat, b: nat): nat { if a > b then a else b }

  function MaxLabel(ls: seq<nat>, d: nat): (m: nat)
    ensures d <= m && forall i :: 0 <= i < |ls| ==> ls[i] <= m
    ensures m == d || m in ls
  {
    if ls == [] then d else Max(ls[|ls| - 1], MaxLabel(ls[..|ls| - 1], d))
  }

  function TableArm(labels: seq<nat>, m: nat, i: nat): seq<Instr>
    requires i <= m < |labels|
  {
    Lift([Const(I64(labels[i])), Br(m - i)])
  }

  /** A ladder with a copy of the table in it; arm `i` yields the position that label `i` leads to. */
  function TableSegs(c: Ctx, labels: seq<nat>, ls: seq<nat>, d: nat): (segs: seq<seq<Instr>>)
    requires MaxLabel(ls, d) < |labels|
    ensures |segs| == MaxLabel(ls, d) + 2
  {
    var m := MaxLabel(ls, d);
    [Lift([Const(I64(0)), LocalGet(Cond(c)), BrTable(ls, d)])]
    + seq(m + 1, i requires 0 <= i <= m => TableArm(labels, m, i))
  }

  function BrTableCode(c: Ctx, labels: seq<nat>, ls: seq<nat>, d: nat, pc: nat): seq<Instr>
    requires MaxLabel(ls, d) < |labels|
  {
    Lift([LocalTee(Cond(c))]) + [Nest(1, TableSegs(c, labels, ls, d))] + Lift(RecordOps(c, Here(c, pc)))
  }

  // ----- indirect calls -----

  /** A function type with the marshalled source behind its parameters. */
  function Longer(ty: FnType): FnType { FnType(ty.params + [TI64], ty.results) }

  /** In front of an indirect call: its source goes under the place in the table. */
  function SiteOps(c: Ctx, pc: nat): seq<Plain> {
    [LocalSet(Cond(c)), Here(c, pc), LocalGet(Cond(c))]
  }

  function GetOps(n: nat): seq<Plain> { if n == 0 then [] else GetOps(n - 1) + [LocalGet(n - 1)] }

  const SCRATCH_LOCALS: seq<Val> := [I64(0), I32(0), I32(0)]

  /** A wrapper has the operands, the source, and scratch locals of its own. */
  function WrapperCtx(base: nat, size: nat, ty: FnType): Ctx { Ctx(|ty.params| + 1, 0, base, size) }

  /** A wrapper of function `f` records its source and `f`, and calls `f` with its operands. */
  function WrapperFn(base: nat, size: nat, ty: FnType, f: nat): WasmFn {
    var c := WrapperCtx(base, size, ty);
    WasmFn(Longer(ty), SCRATCH_LOCALS, Lift(WrapperOps(c, |ty.params|, f)) + [CallFn(f, NO_PC)], NO_PC)
  }

  function WrapperOps(c: Ctx, n: nat, f: nat): seq<Plain> {
    [Const(I64(f))] + RecordOps(c, LocalGet(n)) + GetOps(n)
  }

  // ----- code the tracer accepts -----

  /** Positions fit the 24 bits a word has for them. */
  predicate Pc(x: int) {
    0 <= x < B24
  }

  predicate TracedPlain(c: Ctx, p: Plain, depth: nat) {
    match p
    case Br(l) => l < depth
    case BrIf(l) => l < depth
    case BrTable(ls, d) => MaxLabel(ls, d) < depth
    case Load(_, _, _, m, _) => m.Main?
    case Store(_, _, m, _) => m.Main?
    case Unreachable => true
    case CallHost(_) => true
    case _ => Own(p, c.n)
  }

  /** Decoded code without if/else; every instruction has its position. */
  predicate Traceable(c: Ctx, code: seq<Instr>, depth: nat)
    decreases code, 1
  {
    code == [] || (TraceableI(c, code[0], depth) && Traceable(c, code[1..], depth))
  }

  predicate TraceableI(c: Ctx, i: Instr, depth: nat)
    decreases i, 0
  {
    Pc(i.pc) &&
    match i
    case Do(p, pc) => TracedPlain(c, p, depth)
    case Block(_, body, _, end) => Pc(end) && Traceable(c, body, depth + 1)
    case Loop(_, body, _, end) => Pc(end) && Traceable(c, body, depth + 1)
    case Call(_, _, _) => false
    case CallFn(_, _) => true
    case CallTable(_, _) => true
    case ReturnOp(_) => true
  }

  /** The plain instructions the pass does not take: atomic ones, growth, the other memory, and what is not there. */
  predicate NotTraceable(c: Ctx, p: Plain, depth: nat) {
    match p
    case LocalGet(l) => l >= c.n
    case LocalSet(l) => l >= c.n
    case LocalTee(l) => l >= c.n
    case Load(_, _, _, m, _) => m == Shadow
    case Store(_, _, m, _) => m == Shadow
    case AtomicLoad64(_) => true
    case AtomicAdd64(_) => true
    case MemoryGrow(_) => true
    case Br(l) => l >= depth
    case BrIf(l) => l >= depth
    case BrTable(ls, d) => d >= depth || exists l <- ls :: l >= depth
    case _ => false
  }

  lemma MaxLabelBelow(ls: seq<nat>, d: nat, depth: nat)
    ensures MaxLabel(ls, d) < depth <==> d < depth && forall l <- ls :: l < depth
  {
    var m := MaxLabel(ls, d);
    assert forall i :: 0 <= i < |ls| ==> ls[i] <= m;
    hide MaxLabel;
  }

  /** Everything else at its own position may stand in a traced function. */
  lemma {:induction false} TraceableIff(c: Ctx, i: Instr, depth: nat)
    ensures TraceableI(c, i, depth) <==>
      && Pc(i.pc) && !i.Call? && (i.Do? ==> !NotTraceable(c, i.p, depth))
      && (i.Block? || i.Loop? ==> Pc(i.end) && Traceable(c, i.body, depth + 1))
  {
    hide Traceable, Pc;
    if i.Do? && i.p.BrTable? { MaxLabelBelow(i.p.labels, i.p.default, depth); }
    hide MaxLabel;
  }

  lemma {:induction false} PcAtOk(c: Ctx, code: seq<Instr>, depth: nat, end: int)
    requires Traceable(c, code, depth) && Pc(end)
    ensures Pc(PcAt(code, end))
  {
  }

  /** `labels[d]`: where a branch to depth `d` leads - the start of a loop, the end of anything else. */
  function Traced(c: Ctx, labels: seq<nat>, code: seq<Instr>, end: int): seq<Instr>
    requires Traceable(c, code, |labels|) && Pc(end)
    decreases code, 1
  {
    if code == [] then []
    else
      PcAtOk(c, code[1..], |labels|, end);
      TracedI(c, labels, code[0], PcAt(code[1..], end)) + Traced(c, labels, code[1..], end)
  }

  function Inserted(c: Ctx, labels: seq<nat>, p: Plain, pc: nat, next: nat): seq<Instr>
    requires TracedPlain(c, p, |labels|)
  {
    match p
    case Br(l) => Lift(BrOps(c, labels, l, pc))
    case BrIf(l) => Lift(BrIfOps(c, labels, l, pc, next))
    case BrTable(ls, d) => BrTableCode(c, labels, ls, d, pc)
    case _ => []
  }

  function TracedI(c: Ctx, labels: seq<nat>, i: Instr, next: int): seq<Instr>
    requires TraceableI(c, i, |labels|) && Pc(next)
    decreases i, 0
  {
    match i
    case Do(p, pc) => Inserted(c, labels, p, pc, next) + [i]
    case Block(bt, body, pc, end) => [Block(bt, Traced(c, [end] + labels, body, end), pc, end)]
    case Loop(bt, body, pc, end) => [Loop(bt, Traced(c, [pc] + labels, body, end), pc, end)]
    case CallTable(ty, pc) => Lift(SiteOps(c, pc)) + [CallTable(Longer(ty), pc)]
    case _ => [i]
  }

  // ----- whole functions and programs -----

  /** The main scope is typed by the function's first instruction, so a leading loop lends it its start. */
  function MainTarget(body: seq<Instr>, end: int): int {
    if body != [] && body[0].Loop? then body[0].pc else end
  }

  function CtxOf(base: nat, size: nat, f: WasmFn, k: nat): Ctx { Ctx(|f.ty.params| + |f.locals|, k, base, size) }

  predicate TraceableFn(base: nat, size: nat, f: WasmFn, k: nat) {
    k < 65536 && Pc(f.end) && Traceable(CtxOf(base, size, f, k), f.body, 1)
  }

  lemma MainTargetOk(base: nat, size: nat, f: WasmFn, k: nat)
    requires TraceableFn(base, size, f, k)
    ensures Pc(MainTarget(f.body, f.end))
  {
    if f.body != [] { assert TraceableI(CtxOf(base, size, f, k), f.body[0], 1); }
  }

  function TracedFn(base: nat, size: nat, f: WasmFn, k: nat): WasmFn
    requires TraceableFn(base, size, f, k)
  {
    MainTargetOk(base, size, f, k);
    WasmFn(f.ty, f.locals + SCRATCH_LOCALS,
           Traced(CtxOf(base, size, f, k), [MainTarget(f.body, f.end)], f.body, f.end), f.end)
  }

  /** A program before and after the pass; the memory had `base` bytes and has `size` now. */
  datatype Progs = Progs(base: nat, size: nat, funcs: seq<WasmFn>, table: seq<Slot>, tfuncs: seq<WasmFn>, ttable: seq<Slot>)

  /** Every function is traced, and every function in the table has a wrapper there instead. */
  predicate TracedProgram(g: Progs) {
    && g.base + 8 <= g.size <= TWO32 && |g.funcs| <= |g.tfuncs| && |g.table| == |g.ttable|
    && (forall k :: 0 <= k < |g.funcs| ==> FnTraced(g, k))
    && (forall k :: 0 <= k < |g.table| ==> SlotTraced(g, g.table[k], g.ttable[k]))
  }

  predicate FnTraced(g: Progs, k: nat)
    requires k < |g.funcs| <= |g.tfuncs|
  {
    TraceableFn(g.base, g.size, g.funcs[k], k) && g.tfuncs[k] == TracedFn(g.base, g.size, g.funcs[k], k)
  }

  predicate SlotTraced(g: Progs, a: Slot, b: Slot) {
    match (a, b)
    case (NoFunc, NoFunc) => true
    case (SomeFunc(f), SomeFunc(w)) =>
      f < |g.funcs| && w < |g.tfuncs| && g.tfuncs[w] == WrapperFn(g.base, g.size, g.funcs[f].ty, f)
    case _ => false
  }

  // ----- every program has a traced one -----

  function TracedFns(base: nat, size: nat, funcs: seq<WasmFn>): (r: seq<WasmFn>)
    requires forall k :: 0 <= k < |funcs| ==> TraceableFn(base, size, funcs[k], k)
    ensures |r| == |funcs| && forall k :: 0 <= k < |r| ==> r[k] == TracedFn(base, size, funcs[k], k)
  {
    seq(|funcs|, k requires 0 <= k < |funcs| => TracedFn(base, size, funcs[k], k))
  }

  /** A wrapper for every entry of the table; an empty entry keeps its place with a function nobody calls. */
  function Wrappers(base: nat, size: nat, funcs: seq<WasmFn>, table: seq<Slot>): (r: seq<WasmFn>)
    requires forall s <- table :: s.SomeFunc? ==> s.f < |funcs|
    ensures |r| == |table|
    ensures forall k :: 0 <= k < |r| && table[k].SomeFunc? ==> r[k] == WrapperFn(base, size, funcs[table[k].f].ty, table[k].f)
  {
    seq(|table|, k requires 0 <= k < |table| =>
      if table[k].SomeFunc? then WrapperFn(base, size, funcs[table[k].f].ty, table[k].f)
      else WrapperFn(base, size, FnType([], []), 0))
  }

  function Slots(n: nat, table: seq<Slot>): (r: seq<Slot>)
    ensures |r| == |table| && forall k :: 0 <= k < |r| ==> r[k] == if table[k].NoFunc? then NoFunc else SomeFunc(n + k)
  {
    seq(|table|, k requires 0 <= k < |table| => if table[k].NoFunc? then NoFunc else SomeFunc(n + k))
  }

  /** Whatever the table holds, empty places included: a program of traceable functions can be traced. */
  lemma {:induction false} CanBeTraced(base: nat, size: nat, funcs: seq<WasmFn>, table: seq<Slot>)
    requires base + 8 <= size <= TWO32 && forall k :: 0 <= k < |funcs| ==> TraceableFn(base, size, funcs[k], k)
    requires forall s <- table :: s.SomeFunc? ==> s.f < |funcs|
    ensures TracedProgram(Progs(base, size, funcs, table, TracedFns(base, size, funcs) + Wrappers(base, size, funcs, table), Slots(|funcs|, table)))
  {
    hide TraceableFn, TracedFn, WrapperFn;
  }

  // ----- the buffer -----

  /** What a word says: a function, a position in it, and a position or function control went to. */
  datatype Rec = Rec(fn: nat, src: int, dst: int)

  function Word(e: Rec): nat
    requires Pc(e.src) && Pc(e.dst)
  {
    e.fn * B48 + e.src * B24 + e.dst
  }

  predicate InRange(e: Rec) {
    e.fn < 65536 && Pc(e.src) && Pc(e.dst)
  }

  lemma Unpack(e: Rec)
    requires InRange(e)
    ensures Word(e) < TWO64
    ensures Word(e) / B48 == e.fn && (Word(e) / B24) % B24 == e.src && Word(e) % B24 == e.dst
  {
    assert Word(e) == (e.fn * B24 + e.src) * B24 + e.dst;
  }

  lemma Pow2Table()
    ensures Pow2(24) == B24 && Pow2(48) == B48
  {
    assert Pow2(8) == 256;
    assert Pow2(16) == 65536;
    assert Pow2(24) == B24;
    assert Pow2(32) == TWO32;
    assert Pow2(40) == 256 * TWO32;
  }

  /** `or`-ing the three parts together puts each in its own bits. */
  lemma {:induction false} Packed(e: Rec)
    requires InRange(e)
    ensures Or(SrcShift(e.fn, e.src), e.dst) == Word(e)
  {
    Pow2Table();
    OrComm(e.src * B24, e.fn * B48);
    OrDisjoint(e.fn, 48, e.src * B24);
    assert e.fn * B48 + e.src * B24 == (e.fn * B24 + e.src) * B24;
    OrDisjoint(e.fn * B24 + e.src, 24, e.dst);
  }

  lemma {:induction false} OrComm(a: nat, b: nat)
    ensures Or(a, b) == Or(b, a)
    decreases a + b
  {
    if a > 0 && b > 0 { OrComm(a / 2, b / 2); }
  }

  /** The memory behind the program's: the byte count and one word per event, in order. */
  ghost predicate Logged(base: nat, size: nat, m: seq<byte>, events: seq<Rec>) {
    && |m| == size && base + 8 + ENTRY * |events| <= size
    && FromLE(Peek(m, base, 4)) == ENTRY * |events|
    && forall k :: 0 <= k < |events| ==>
         InRange(events[k]) && Peek(m, base + 8 + ENTRY * k, 8) == ToLE(Word(events[k]), 8)
  }

  // ----- what the buffer is told -----

  /** A branch out of a function is recorded with the target of the function's main scope. */
  function Told(funcs: seq<WasmFn>, e: Event): Rec {
    Rec(e.fn, e.src, if e.way.Exits? && e.fn < |funcs| then MainTarget(funcs[e.fn].body, funcs[e.fn].end) else e.dst)
  }

  function ToldAll(funcs: seq<WasmFn>, log: seq<Event>): (r: seq<Rec>)
    ensures |r| == |log| && forall k :: 0 <= k < |r| ==> r[k] == Told(funcs, log[k])
  {
    seq(|log|, k requires 0 <= k < |log| => Told(funcs, log[k]))
  }

  lemma ToldOne(funcs: seq<WasmFn>, log: seq<Event>, e: Event)
    ensures ToldAll(funcs, log + [e]) == ToldAll(funcs, log) + [Told(funcs, e)]
  {
  }
}
