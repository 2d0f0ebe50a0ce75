/**
 * The guarded block in front of an instrumented memory access: it looks at one mask byte, logs the
 * access if that byte is set, and must leave everything the program can see as it was.
 */
module MemGuard {
  import opened Bytes
  import opened Wasm

  /** Memory instructions by the operands they take; `Skipped` ones (wait, notify, vector accesses) are not logged. */
  datatype Shape = Loads | StoreI32 | StoreI64 | StoreF32 | StoreF64 | CasI32 | CasI64 | Skipped

  /** The seven locals added to every function. */
  datatype Spare = Spare(f64: nat, f32: nat, i64a: nat, i64b: nat, i32a: nat, i32b: nat, addr: nat)

  /** One access as the instrumentation sees it. */
  datatype Site = Site(shape: Shape, mem: MemId, offset: nat, opcode: nat)

  /** The locals the values above the address are parked in, topmost value first. */
  function Parked(shape: Shape, l: Spare): (r: seq<nat>)
    ensures |r| <= 2
  {
    match shape
    case Loads => []
    case StoreI32 => [l.i32a]
    case StoreI64 => [l.i64a]
    case StoreF32 => [l.f32]
    case StoreF64 => [l.f64]
    case CasI32 => [l.i32a, l.i32b]
    case CasI64 => [l.i64a, l.i64b]
    case Skipped => []
  }

  /** The types of the values above the address, topmost first. */
  function Above(shape: Shape): seq<ValType> {
    match shape
    case Loads => []
    case StoreI32 => [TI32]
    case StoreI64 => [TI64]
    case StoreF32 => [TF32]
    case StoreF64 => [TF64]
    case CasI32 => [TI32, TI32]
    case CasI64 => [TI64, TI64]
    case Skipped => []
  }

  /** The function has a local of the right type for each of them. */
  predicate SpareTyped(l: Spare, types: seq<ValType>) {
    && l.f64 < |types| && types[l.f64] == TF64 && l.f32 < |types| && types[l.f32] == TF32
    && l.i64a < |types| && types[l.i64a] == TI64 && l.i64b < |types| && types[l.i64b] == TI64
    && l.i32a < |types| && types[l.i32a] == TI32 && l.i32b < |types| && types[l.i32b] == TI32
    && l.addr < |types| && types[l.addr] == TI32
  }

  /** Whatever lies above the address is parked in different locals of its own types. */
  lemma ParkedTyped(shape: Shape, l: Spare, n: nat, types: seq<ValType>)
    requires SpareTyped(l, types) && SpareOk(l, n, |types|)
    ensures var ls := Parked(shape, l);
      && |ls| == |Above(shape)| && (forall i :: 0 <= i < |ls| ==> n <= ls[i] < |types| && types[ls[i]] == Above(shape)[i])
      && (forall i, j :: 0 <= i < j < |ls| ==> ls[i] != ls[j]) && l.addr !in ls
  {
  }

  function Test(s: Site, base: nat, idx: nat): seq<Plain> {
    [Const(I32(base)), Load(TI32, 1, false, s.mem, idx), I32Eqz, BrIf(0)]
  }

  function Report(s: Site, l: Spare, idx: nat): seq<Plain> {
    [LocalTee(l.addr), LocalGet(l.addr), Const(I32(s.offset)), I32Add, Const(I32(s.opcode)), Const(I32(idx)),
     CallHost(LogAccess)]
  }

  function Park(ls: seq<nat>): (ps: seq<Plain>)
    ensures |ps| == |ls|
  {
    seq(|ls|, i requires 0 <= i < |ls| => LocalSet(ls[i]))
  }

  function Unpark(ls: seq<nat>): (ps: seq<Plain>)
    ensures |ps| == |ls|
  {
    seq(|ls|, i requires 0 <= i < |ls| => LocalGet(ls[|ls| - 1 - i]))
  }

  function Guarded(s: Site, l: Spare, base: nat, idx: nat): seq<Plain> {
    var ls := Parked(s.shape, l);
    Test(s, base, idx) + Park(ls) + Report(s, l, idx) + Unpark(ls)
  }

  /** What is inserted: nothing for a skipped instruction. */
  function LogAppend(s: Site, l: Spare, base: nat, idx: nat): seq<Instr> {
    if s.shape.Skipped? then []
    else
      var n := 1 + |Parked(s.shape, l)|;
      [Block(BT(n, n), Lift(Guarded(s, l, base, idx)), NO_PC, NO_PC)]
  }

  // ----- running it -----

  /** The mask byte of access `idx` lies in the memory. */
  predicate InMask(st: State, s: Site, base: nat, idx: nat) { base + idx < |Mem(st, s.mem)| }

  lemma {:induction false} RunTest(s: Site, base: nat, idx: nat, st: State)
    ensures RunAll(Test(s, base, idx), st)
         == if !InMask(st, s, base, idx) then Trap
            else if Mem(st, s.mem)[base + idx] == 0 then Jump(0, st, NO_PC) else Next(st)
  {
    hide *;
    var load: Plain := Load(TI32, 1, false, s.mem, idx);
    var last := [BrIf(0)];
    TestIs(s, base, idx);
    var s1 := st.(stack := Push(I32(base), st.stack));
    StepConst(I32(base), st);
    Pushed(st, I32(base));
    RunCons(Const(I32(base)), [load] + ([I32Eqz] + last), st);
    LoadMask(s, base, idx, s1);
    StepLoad(TI32, 1, false, s.mem, idx, s1);
    MaskSame(st, s1, s, base, idx);
    RunCons(load, [I32Eqz] + last, s1);
    if InMask(st, s, base, idx) {
      MaskIn(st, s, base, idx);
      var b := Mem(st, s.mem)[base + idx];
      var s2 := st.(stack := Push(I32(b), st.stack));
      StepEqz(b, st.stack, s2);
      RunCons(I32Eqz, last, s2);
      var z := if b == 0 then 1 else 0;
      StepBrIf(0, z, st.stack, st.(stack := Push(I32(z), st.stack)));
      RunOne(BrIf(0), st.(stack := Push(I32(z), st.stack)));
    }
  }

  lemma TestIs(s: Site, base: nat, idx: nat)
    ensures Test(s, base, idx) == [Const(I32(base))] + ([Load(TI32, 1, false, s.mem, idx)] + ([I32Eqz] + [BrIf(0)]))
  {
  }

  lemma MaskSame(st: State, s1: State, s: Site, base: nat, idx: nat)
    requires s1 == st.(stack := s1.stack)
    ensures Mem(s1, s.mem) == Mem(st, s.mem) && InMask(s1, s, base, idx) == InMask(st, s, base, idx)
  {
  }

  lemma MaskIn(st: State, s: Site, base: nat, idx: nat)
    requires InMask(st, s, base, idx)
    ensures base + idx < |Mem(st, s.mem)|
  {
    hide Mem;
  }

  lemma {:induction false} LoadMask(s: Site, base: nat, idx: nat, st: State)
    requires st.stack.Push? && st.stack.top == I32(base)
    ensures DoLoad(TI32, 1, false, s.mem, idx, st)
         == if !InMask(st, s, base, idx) then Trap
            else Next(st.(stack := Push(I32(Mem(st, s.mem)[base + idx]), st.stack.below)))
  {
    if InMask(st, s, base, idx) {
      var bs := Peek(Mem(st, s.mem), base + idx, 1);
      assert bs == [Mem(st, s.mem)[base + idx]];
      assert FromLE(bs) == bs[0] by { assert bs[1..] == []; }
    }
  }

  /** The report: address plus offset, opcode, access number; the address stays on the stack. */
  lemma {:induction false} RunReport(s: Site, l: Spare, idx: nat, a: nat, st: State)
    requires l.addr < |st.locals| && st.stack == Push(I32(a), Nil)
    ensures RunAll(Report(s, l, idx), st)
         == Next(st.(locals := st.locals[l.addr := I32(a)], host := st.host + [Logged(s, idx, a)]))
  {
    var address := [LocalTee(l.addr), LocalGet(l.addr), Const(I32(s.offset)), I32Add];
    var call := [Const(I32(s.opcode)), Const(I32(idx)), CallHost(LogAccess)];
    assert Report(s, l, idx) == address + call;
    var s1 := st.(locals := st.locals[l.addr := I32(a)], stack := Push(I32(Wrap32(a + s.offset)), st.stack));
    hide RunAll, Logged, Wrap32;
    RunAppend(address, call, st);
    RunAddress(s, l, a, st);
    RunCall(s, idx, a, s1);
  }

  lemma RunAddress(s: Site, l: Spare, a: nat, st: State)
    requires l.addr < |st.locals| && st.stack == Push(I32(a), Nil)
    ensures RunAll([LocalTee(l.addr), LocalGet(l.addr), Const(I32(s.offset)), I32Add], st)
         == Next(st.(locals := st.locals[l.addr := I32(a)], stack := Push(I32(Wrap32(a + s.offset)), st.stack)))
  {
    hide Wrap32;
    var ops := [LocalTee(l.addr), LocalGet(l.addr), Const(I32(s.offset)), I32Add];
    assert RunAll(ops, st) == Run(ops, 4, st);
    var s1 := st.(locals := st.locals[l.addr := I32(a)]);
    assert Run(ops, 2, st) == Next(s1.(stack := Push(I32(a), st.stack)));
  }

  lemma RunCall(s: Site, idx: nat, a: nat, st: State)
    requires st.stack == Push(I32(Wrap32(a + s.offset)), Push(I32(a), Nil))
    ensures RunAll([Const(I32(s.opcode)), Const(I32(idx)), CallHost(LogAccess)], st)
         == Next(st.(stack := Push(I32(a), Nil), host := st.host + [Logged(s, idx, a)]))
  {
    hide Wrap32, DoHost, Logged;
    var ops := [Const(I32(s.opcode)), Const(I32(idx)), CallHost(LogAccess)];
    assert RunAll(ops, st) == Run(ops, 3, st);
    var full := Push(I32(idx), Push(I32(s.opcode), st.stack));
    assert Run(ops, 2, st) == Next(st.(stack := full));
    LogIt(s, idx, a, full, st.(stack := full));
  }

  function Logged(s: Site, idx: nat, a: nat): HostCall {
    HostCall(LogAccess, Push(I32(idx), Push(I32(s.opcode), Push(I32(Wrap32(a + s.offset)), Nil))))
  }

  lemma LogIt(s: Site, idx: nat, a: nat, full: Stack, st: State)
    requires st.stack == full
      == Push(I32(idx), Push(I32(s.opcode), Push(I32(Wrap32(a + s.offset)), Push(I32(a), Nil))))
    ensures DoHost(LogAccess, st)
         == Next(st.(stack := Push(I32(a), Nil), host := st.host + [Logged(s, idx, a)]))
  {
    var c := full.below.below;
    assert Size(full) == 4 by { assert Size(c.below) == 1 && Size(c) == 2 && Size(full.below) == 3; }
    assert Under(c.below, 0) == c.below;
    assert Under(c, 1) == Under(c.below, 0);
    assert Under(full.below, 2) == Under(c, 1);
    assert Under(full, 3) == Under(full.below, 2);
    assert Take(c, 1) == Push(c.top, Nil) by { assert Take(c.below, 0) == Nil; }
    assert Take(full, 3) == Push(full.top, Take(full.below, 2)) && Take(full.below, 2) == Push(full.below.top, Take(c, 1));
    hide Take, Under, Size;
  }

  /** The operands: parked values on top of the address. */
  function Operands(vs: seq<Val>, a: nat): Stack
    requires |vs| <= 2
  {
    if vs == [] then Push(I32(a), Nil)
    else if |vs| == 1 then Push(vs[0], Push(I32(a), Nil))
    else Push(vs[0], Push(vs[1], Push(I32(a), Nil)))
  }

  function SetAll(locals: seq<Val>, ls: seq<nat>, vs: seq<Val>): (r: seq<Val>)
    requires |ls| == |vs| <= 2 && forall i :: 0 <= i < |ls| ==> ls[i] < |locals|
    ensures |r| == |locals|
  {
    if ls == [] then locals
    else if |ls| == 1 then locals[ls[0] := vs[0]]
    else locals[ls[0] := vs[0]][ls[1] := vs[1]]
  }

  lemma {:induction false} RunPark(ls: seq<nat>, vs: seq<Val>, a: nat, st: State)
    requires |ls| == |vs| <= 2 && (forall i :: 0 <= i < |ls| ==> ls[i] < |st.locals|)
    requires st.stack == Operands(vs, a)
    ensures RunAll(Park(ls), st) == Next(st.(locals := SetAll(st.locals, ls, vs), stack := Push(I32(a), Nil)))
  {
    var ops := Park(ls);
    if |ls| == 0 {
      assert RunAll(ops, st) == Run(ops, 0, st);
    } else if |ls| == 1 {
      assert RunAll(ops, st) == Run(ops, 1, st);
    } else {
      assert RunAll(ops, st) == Run(ops, 2, st);
      assert Run(ops, 1, st) == Next(st.(locals := st.locals[ls[0] := vs[0]], stack := st.stack.below));
    }
  }

  lemma {:induction false} RunUnpark(ls: seq<nat>, vs: seq<Val>, a: nat, st: State)
    requires |ls| == |vs| <= 2 && forall i :: 0 <= i < |ls| ==> ls[i] < |st.locals| && st.locals[ls[i]] == vs[i]
    requires st.stack == Push(I32(a), Nil)
    ensures RunAll(Unpark(ls), st) == Next(st.(stack := Operands(vs, a)))
  {
    var ops := Unpark(ls);
    if |ls| == 0 {
      assert RunAll(ops, st) == Run(ops, 0, st);
    } else if |ls| == 1 {
      assert RunAll(ops, st) == Run(ops, 1, st);
    } else {
      assert RunAll(ops, st) == Run(ops, 2, st);
      assert Run(ops, 1, st) == Next(st.(stack := Push(vs[1], st.stack)));
    }
  }

  /** The spare locals lie behind the function's `n` own ones and are all different. */
  predicate SpareOk(l: Spare, n: nat, all: nat) {
    && n <= l.f64 < all && n <= l.f32 < all && n <= l.i64a < all && n <= l.i64b < all
    && n <= l.i32a < all && n <= l.i32b < all && n <= l.addr < all
    && l.i64a != l.i64b && l.i32a != l.i32b
    && l.addr != l.f64 && l.addr != l.f32 && l.addr != l.i64a && l.addr != l.i64b
    && l.addr != l.i32a && l.addr != l.i32b
  }

  /** The locals after a report. */
  function Marked(l: Spare, ls: seq<nat>, vs: seq<Val>, a: nat, locals: seq<Val>): seq<Val>
    requires |ls| == |vs| <= 2 && l.addr < |locals| && forall i :: 0 <= i < |ls| ==> ls[i] < |locals|
  {
    SetAll(locals, ls, vs)[l.addr := I32(a)]
  }

  lemma {:induction false} ParkedOk(shape: Shape, l: Spare, n: nat, vs: seq<Val>, a: nat, locals: seq<Val>)
    requires SpareOk(l, n, |locals|) && |vs| == |Parked(shape, l)|
    ensures var ls := Parked(shape, l);
      && (forall i :: 0 <= i < |ls| ==> ls[i] < |locals| && Marked(l, ls, vs, a, locals)[ls[i]] == vs[i])
      && Marked(l, ls, vs, a, locals)[..n] == locals[..n]
  {
  }

  /** The inside of the block, on the operands alone. */
  lemma {:induction false} RunGuarded(s: Site, l: Spare, base: nat, idx: nat, n: nat, vs: seq<Val>, a: nat, st: State)
    requires SpareOk(l, n, |st.locals|) && |vs| == |Parked(s.shape, l)| && st.stack == Operands(vs, a)
    requires forall i :: 0 <= i < |vs| ==> Parked(s.shape, l)[i] < |st.locals|
    ensures RunAll(Guarded(s, l, base, idx), st)
         == if !InMask(st, s, base, idx) then Trap
            else if Mem(st, s.mem)[base + idx] == 0 then Jump(0, st, NO_PC)
            else Next(st.(locals := Marked(l, Parked(s.shape, l), vs, a, st.locals),
                          host := st.host + [Logged(s, idx, a)]))
  {
    var ls := Parked(s.shape, l);
    ParkedOk(s.shape, l, n, vs, a, st.locals);
    hide RunAll, Test, Park, Report, Unpark, Operands, Logged, Parked, InMask;
    var test, park, report, unpark := Test(s, base, idx), Park(ls), Report(s, l, idx), Unpark(ls);
    RunAppend(test + park + report, unpark, st);
    RunAppend(test + park, report, st);
    RunAppend(test, park, st);
    RunTest(s, base, idx, st);
    RunPark(ls, vs, a, st);
    var s1 := st.(locals := SetAll(st.locals, ls, vs), stack := Push(I32(a), Nil));
    RunReport(s, l, idx, a, s1);
    var s2 := s1.(locals := s1.locals[l.addr := I32(a)], host := s1.host + [Logged(s, idx, a)]);
    RunUnpark(ls, vs, a, s2);
    assert Guarded(s, l, base, idx) == test + park + report + unpark;
    assert RunAll(test, st).Next? ==> RunAll(test + park, st) == Next(s1);
    assert RunAll(test, st).Next? ==> RunAll(test + park + report, st) == Next(s2);
    assert RunAll(test, st).Next? ==> RunAll(test + park + report + unpark, st) == Next(s2.(stack := Operands(vs, a)));
  }

  lemma OperandsSize(vs: seq<Val>, a: nat)
    requires |vs| <= 2
    ensures Size(Operands(vs, a)) == 1 + |vs|
  {
    var base := Push(I32(a), Nil);
    assert Size(base) == 1;
    assert |vs| == 2 ==> Size(Push(vs[1], base)) == 2;
  }

  /**
   * With its mask byte in the memory the block is the identity on operands, the function's own locals,
   * globals and both memories, whatever the byte is; it logs the access exactly when the byte is not 0.
   */
  lemma {:induction false} GuardExec(
      fuel: nat, s: Site, l: Spare, base: nat, idx: nat, n: nat, vs: seq<Val>, a: nat, rest: Stack, next: int, st: State)
    requires !s.shape.Skipped? && SpareOk(l, n, |st.locals|) && |vs| == |Parked(s.shape, l)|
    requires st.stack == Append(Operands(vs, a), rest)
    requires forall i :: 0 <= i < |vs| ==> Parked(s.shape, l)[i] < |st.locals|
    ensures ExecI(fuel, LogAppend(s, l, base, idx)[0], next, st)
         == if !InMask(st, s, base, idx) then Trap
            else if Mem(st, s.mem)[base + idx] == 0 then Next(st)
            else Next(st.(locals := Marked(l, Parked(s.shape, l), vs, a, st.locals),
                          host := st.host + [Logged(s, idx, a)]))
  {
    var k := 1 + |vs|;
    var ops := Operands(vs, a);
    var inner := st.(stack := ops);
    OperandsSize(vs, a);
    TakeAppend(ops, rest);
    AppendSize(ops, rest);
    TakeAll(ops);
    ExecRun(fuel, Guarded(s, l, base, idx), NO_PC, inner);
    RunGuarded(s, l, base, idx, n, vs, a, inner);
    hide Guarded, Marked, Logged, Operands, Parked, Append, Take, Under, Size, RunAll;
  }

  /** What the program can see. */
  predicate Invisible(st: State, now: State, n: nat) {
    && now.stack == st.stack && now.globals == st.globals && now.main == st.main && now.shadow == st.shadow
    && |now.locals| == |st.locals| && n <= |st.locals| && now.locals[..n] == st.locals[..n]
    && now.log == st.log && now.locked == st.locked
  }

  lemma {:induction false} GuardInvisible(
      fuel: nat, s: Site, l: Spare, base: nat, idx: nat, n: nat, vs: seq<Val>, a: nat, rest: Stack, next: int, st: State)
    requires !s.shape.Skipped? && SpareOk(l, n, |st.locals|) && |vs| == |Parked(s.shape, l)|
    requires st.stack == Append(Operands(vs, a), rest)
    ensures var o := ExecI(fuel, LogAppend(s, l, base, idx)[0], next, st);
      && (o.Next? <==> InMask(st, s, base, idx)) && (o.Trap? <==> !InMask(st, s, base, idx))
      && (o.Next? ==> Invisible(st, o.st, n))
      && (o.Next? ==> o.st.host == st.host + (if Mem(st, s.mem)[base + idx] == 0 then [] else [Logged(s, idx, a)]))
  {
    ParkedOk(s.shape, l, n, vs, a, st.locals);
    GuardExec(fuel, s, l, base, idx, n, vs, a, rest, next, st);
    hide LogAppend, Parked, Logged, Operands, InMask, SpareOk;
  }

  // ----- where the mask lies -----

  /** The pages added for `max` mask bytes. */
  function MaskPages(max: nat): nat { (max + (PAGE - 1)) / PAGE }

  predicate MaskInside(pages: nat, max: nat, idx: nat) {
    pages * PAGE + idx < (pages + MaskPages(max)) * PAGE
  }

  /**
   * The mask bytes of accesses 1 to `max` all lie in the pages added for them, unless `max` is a
   * whole number of pages: then the last one lies just behind the memory.
   */
  lemma MaskFits(pages: nat, max: nat)
    requires max > 0
    ensures (forall idx :: 1 <= idx <= max ==> MaskInside(pages, max, idx)) <==> max % PAGE != 0
  {
    var q := MaskPages(max);
    assert (pages + q) * PAGE == pages * PAGE + q * PAGE;
    assert max < q * PAGE <==> max % PAGE != 0;
    assert MaskInside(pages, max, max) <==> max < q * PAGE;
    assert forall idx: nat :: idx <= max && max < q * PAGE ==> MaskInside(pages, max, idx);
  }

  /** With 65536 accesses one page is added, and the block of the last access traps in it. */
  lemma {:induction false} LastGuardTraps(
      fuel: nat, s: Site, l: Spare, pages: nat, n: nat, vs: seq<Val>, a: nat, rest: Stack, next: int, st: State)
    requires !s.shape.Skipped? && SpareOk(l, n, |st.locals|) && |vs| == |Parked(s.shape, l)|
    requires st.stack == Append(Operands(vs, a), rest)
    requires |Mem(st, s.mem)| == (pages + MaskPages(65536)) * PAGE
    ensures ExecI(fuel, LogAppend(s, l, pages * PAGE, 65536)[0], next, st) == Trap
  {
    assert MaskPages(65536) == 1;
    assert (pages + 1) * PAGE == pages * PAGE + 65536;
    assert !InMask(st, s, pages * PAGE, 65536);
    ParkedOk(s.shape, l, n, vs, a, st.locals);
    hide Operands, SpareOk, InMask;
    GuardInvisible(fuel, s, l, pages * PAGE, 65536, n, vs, a, rest, next, st);
  }
}
