/**
 * A small-scale WebAssembly: the instructions the rewriter emits, their structured
 * evaluation (labels as in section 4.4.8 of the WebAssembly Core Specification 2.0)
 * over two linear memories, and the flat token lists in which the rewriter builds code.
 */
module Wasm {
  import opened Bytes

  /** Scalars as raw bit patterns. */
  datatype Val = I32(n: nat) | I64(n: nat) | F32(n: nat) | F64(n: nat)
  datatype ValType = TI32 | TI64 | TF32 | TF64
  datatype Stack = Nil | Push(top: Val, below: Stack)

  /** The program's own memory and the second memory the recorder adds. */
  datatype MemId = Main | Shadow

  datatype HostFn =
    | GetTid | LogCall | Writev | ProcExit | ThreadExit | ThreadSpawn | FutexLog
    | Trace | Lock | Unlock | LogAccess

  datatype Plain =
    | Nop
    | Unreachable
    | Drop
    | Select
    | Const(v: Val)
    | LocalGet(l: nat)
    | LocalSet(l: nat)
    | LocalTee(l: nat)
    | GlobalGet(g: nat)
    | GlobalSet(g: nat)
    | I32Add
    | I32Eqz
    | I32Ne
    | I64Ne
    | I64Or
    | I64ExtendI32U
    | Load(ty: ValType, width: nat, signed: bool, mem: MemId, offset: nat)
    | Store(ty: ValType, width: nat, mem: MemId, offset: nat)
    | AtomicLoad64(offset: nat)
    | AtomicAdd64(offset: nat)
    | MemoryGrow(mem: MemId)
    | Br(depth: nat)
    | BrIf(depth: nat)
    | BrTable(labels: seq<nat>, default: nat)
    | CallHost(f: HostFn)

  /** Block types as arities: the number of values taken and left. */
  datatype BlockType = BT(params: nat, results: nat)

  datatype FnType = FnType(params: seq<ValType>, results: seq<ValType>)

  /**
   * Structured code.  `pc` and `end` are the byte positions the decoder recorded for an
   * instruction and for the `end` that closes it; instructions made by a builder have NO_PC.
   * A call to a generated helper carries the helper's body; other calls name a function of the
   * program, or a function type and, on the stack, a place in the table.
   */
  datatype Instr =
    | Do(p: Plain, pc: int)
    | Block(bt: BlockType, body: seq<Instr>, pc: int, end: int)
    | Loop(bt: BlockType, body: seq<Instr>, pc: int, end: int)
    | Call(bt: BlockType, body: seq<Instr>, pc: int)
    | CallFn(f: nat, pc: int)
    | CallTable(ty: FnType, pc: int)
    | ReturnOp(pc: int)

  const NO_PC: int := -1

  /** A function of the program: its declared locals start with these values, its body ends at `end`. */
  datatype WasmFn = WasmFn(ty: FnType, locals: seq<Val>, body: seq<Instr>, end: int)

  datatype Slot = NoFunc | SomeFunc(f: nat)

  /**
   * One dynamic transfer of control in function `fn`: from the branch at `src` to the position where
   * execution continues, within the function or at its end, or from an indirect call to a function.
   */
  datatype Way = Within | Exits | Calls
  datatype Event = Event(fn: nat, src: int, dst: int, way: Way)
  datatype HostCall = HostCall(f: HostFn, args: Stack)

  datatype State = State(
    stack: Stack,
    locals: seq<Val>,
    globals: seq<Val>,
    main: seq<byte>,
    shadow: seq<byte>,
    maxPages: nat,
    tid: nat,
    answer: nat,
    locked: bool,
    host: seq<HostCall>,
    log: seq<Event>,
    fn: nat,
    funcs: seq<WasmFn>,
    table: seq<Slot>)

  /**
   * Next: ran to the end.  Jump: a branch to label `l` is unwinding, its operands on the stack of `st`.
   * Leaving: so is a return from the function.
   * Exit: the host ended the program.  Spin: the loop bound ran out.  Invalid: not valid code.
   */
  datatype Outcome =
    | Next(st: State)
    | Jump(l: nat, st: State, src: int)
    | Leaving(st: State)
    | Exit(st: State)
    | Trap
    | Spin
    | Invalid

  function Size(s: Stack): nat {
    match s case Nil => 0 case Push(_, b) => 1 + Size(b)
  }

  function Append(a: Stack, b: Stack): Stack {
    match a case Nil => b case Push(v, r) => Push(v, Append(r, b))
  }

  /** The `n` topmost values. */
  function Take(s: Stack, n: nat): (r: Stack)
    requires n <= Size(s)
    ensures Size(r) == n
  {
    if n == 0 then Nil else Push(s.top, Take(s.below, n - 1))
  }

  function Under(s: Stack, n: nat): Stack
    requires n <= Size(s)
  {
    if n == 0 then s else Under(s.below, n - 1)
  }

  function Mem(st: State, m: MemId): seq<byte> {
    if m.Main? then st.main else st.shadow
  }

  function WithMem(st: State, m: MemId, data: seq<byte>): State {
    if m.Main? then st.(main := data) else st.(shadow := data)
  }

  function Peek(m: seq<byte>, a: nat, w: nat): (bs: seq<byte>)
    requires a + w <= |m|
    ensures |bs| == w
  {
    m[a..a + w]
  }

  function Poke(m: seq<byte>, a: nat, bs: seq<byte>): (r: seq<byte>)
    requires a + |bs| <= |m|
    ensures |r| == |m|
  {
    m[..a] + bs + m[a + |bs|..]
  }

  function Bits(ty: ValType): nat {
    if ty == TI32 || ty == TF32 then 32 else 64
  }

  function MakeVal(ty: ValType, n: nat): Val {
    match ty case TI32 => I32(n) case TI64 => I64(n) case TF32 => F32(n) case TF64 => F64(n)
  }

  function TypeOf(v: Val): ValType {
    match v case I32(_) => TI32 case I64(_) => TI64 case F32(_) => TF32 case F64(_) => TF64
  }

  /** The value a load of `bs` leaves: zero-extended, or sign-extended as a two's complement number. */
  function Extend(ty: ValType, signed: bool, bs: seq<byte>): nat {
    var raw := FromLE(bs);
    if signed && bs != [] && bs[|bs| - 1] >= 128
    then (raw - Pow256(|bs|)) % Pow256(Bits(ty) / 8)
    else raw
  }

  function Zeros(n: nat): (bs: seq<byte>)
    ensures |bs| == n
  {
    seq(n, _ => 0)
  }

  /** Instructions made by a builder leave no event. */
  function Arrive(st: State, src: int, dst: int, way: Way): seq<Event> {
    if src >= 0 then st.log + [Event(st.fn, src, dst, way)] else st.log
  }

  function PushVal(st: State, v: Val): State {
    st.(stack := Push(v, st.stack))
  }

  function DoLoad(ty: ValType, width: nat, signed: bool, m: MemId, offset: nat, st: State): Outcome {
    match st.stack
    case Push(I32(a), rest) =>
      var ea := a + offset;
      if ea + width > |Mem(st, m)| then Trap
      else Next(st.(stack := Push(MakeVal(ty, Extend(ty, signed, Peek(Mem(st, m), ea, width))), rest)))
    case _ => Invalid
  }

  function DoStore(ty: ValType, width: nat, m: MemId, offset: nat, st: State): Outcome {
    match st.stack
    case Push(v, Push(I32(a), rest)) =>
      if TypeOf(v) != ty then Invalid
      else
        var ea := a + offset;
        if ea + width > |Mem(st, m)| then Trap
        else Next(WithMem(st, m, Poke(Mem(st, m), ea, ToLE(v.n, width))).(stack := rest))
    case _ => Invalid
  }

  /** Atomic accesses of 8 bytes to the main memory also trap when misaligned. */
  function DoAtomic64(p: Plain, st: State): Outcome
    requires p.AtomicLoad64? || p.AtomicAdd64?
  {
    match (p, st.stack)
    case (AtomicLoad64(off), Push(I32(a), rest)) =>
      if a + off + 8 > |st.main| || (a + off) % 8 != 0 then Trap
      else Next(st.(stack := Push(I64(FromLE(Peek(st.main, a + off, 8))), rest)))
    case (AtomicAdd64(off), Push(I64(d), Push(I32(a), rest))) =>
      if a + off + 8 > |st.main| || (a + off) % 8 != 0 then Trap
      else
        var was := FromLE(Peek(st.main, a + off, 8));
        Next(st.(stack := Push(I64(was), rest), main := Poke(st.main, a + off, ToLE(Wrap64(was + d), 8))))
    case _ => Invalid
  }

  /** Growing past the limit leaves the memory alone and pushes -1. */
  function DoGrow(m: MemId, st: State): Outcome {
    match st.stack
    case Push(I32(n), rest) =>
      var pages := |Mem(st, m)| / PAGE;
      if pages + n <= st.maxPages
      then Next(WithMem(st, m, Mem(st, m) + Zeros(n * PAGE)).(stack := Push(I32(pages), rest)))
      else Next(st.(stack := Push(I32(TWO32 - 1), rest)))
    case _ => Invalid
  }

  function HostParams(f: HostFn): nat {
    match f
    case GetTid => 0 case LogCall => 10 case Writev => 3 case ProcExit => 1 case ThreadExit => 1
    case ThreadSpawn => 2 case FutexLog => 3 case Trace => 8 case Lock => 0 case Unlock => 0
    case LogAccess => 3
  }

  /**
   * Host functions are recorded with their operands.  The two exits do not return; the lock
   * blocks while taken; the others answer as the engine pleases (`answer`).
   */
  function DoHost(f: HostFn, st: State): Outcome {
    if Size(st.stack) < HostParams(f) then Invalid
    else
      var rest := Under(st.stack, HostParams(f));
      var called := st.(stack := rest, host := st.host + [HostCall(f, Take(st.stack, HostParams(f)))]);
      match f
      case GetTid => Next(PushVal(st, I32(st.tid)))
      case Writev => Next(PushVal(called, I64(st.answer)))
      case ThreadSpawn => Next(PushVal(called, I32(Wrap32(st.answer))))
      case ProcExit => Exit(called.(stack := Nil))
      case ThreadExit => Exit(called.(stack := Nil))
      case Lock => if st.locked then Spin else Next(st.(locked := true))
      case Unlock => Next(st.(locked := false))
      case _ => Next(called)
  }

  function Bool32(b: bool): Val {
    I32(if b then 1 else 0)
  }

  /** One non-nesting instruction at `pc`; `next` is the position of the instruction that follows. */
  function Step(p: Plain, pc: int, next: int, st: State): Outcome {
    match p
    case Nop => Next(st)
    case Unreachable => Trap
    case Drop => if st.stack.Push? then Next(st.(stack := st.stack.below)) else Invalid
    case Select => (match st.stack
      case Push(I32(c), Push(b, Push(a, rest))) => Next(st.(stack := Push(if c != 0 then a else b, rest)))
      case _ => Invalid)
    case Const(v) => Next(PushVal(st, v))
    case LocalGet(l) => if l < |st.locals| then Next(PushVal(st, st.locals[l])) else Invalid
    case LocalSet(l) =>
      if l < |st.locals| && st.stack.Push? then
        Next(st.(locals := st.locals[l := st.stack.top], stack := st.stack.below))
      else Invalid
    case LocalTee(l) =>
      if l < |st.locals| && st.stack.Push? then Next(st.(locals := st.locals[l := st.stack.top])) else Invalid
    case GlobalGet(g) => if g < |st.globals| then Next(PushVal(st, st.globals[g])) else Invalid
    case GlobalSet(g) =>
      if g < |st.globals| && st.stack.Push? then
        Next(st.(globals := st.globals[g := st.stack.top], stack := st.stack.below))
      else Invalid
    case I32Add => (match st.stack
      case Push(I32(b), Push(I32(a), rest)) => Next(st.(stack := Push(I32(Wrap32(a + b)), rest)))
      case _ => Invalid)
    case I32Eqz => (match st.stack
      case Push(I32(a), rest) => Next(st.(stack := Push(Bool32(a == 0), rest)))
      case _ => Invalid)
    case I32Ne => (match st.stack
      case Push(I32(b), Push(I32(a), rest)) => Next(st.(stack := Push(Bool32(a != b), rest)))
      case _ => Invalid)
    case I64Ne => (match st.stack
      case Push(I64(b), Push(I64(a), rest)) => Next(st.(stack := Push(Bool32(a != b), rest)))
      case _ => Invalid)
    case I64Or => (match st.stack
      case Push(I64(b), Push(I64(a), rest)) => Next(st.(stack := Push(I64(Or(a, b)), rest)))
      case _ => Invalid)
    case I64ExtendI32U => (match st.stack
      case Push(I32(a), rest) => Next(st.(stack := Push(I64(a), rest)))
      case _ => Invalid)
    case Load(ty, w, s, m, off) => DoLoad(ty, w, s, m, off, st)
    case Store(ty, w, m, off) => DoStore(ty, w, m, off, st)
    case AtomicLoad64(_) => DoAtomic64(p, st)
    case AtomicAdd64(_) => DoAtomic64(p, st)
    case MemoryGrow(m) => DoGrow(m, st)
    case Br(l) => Jump(l, st, pc)
    case BrIf(l) => (match st.stack
      case Push(I32(c), rest) =>
        if c != 0 then Jump(l, st.(stack := rest), pc)
        else Next(st.(stack := rest, log := Arrive(st, pc, next, Within)))
      case _ => Invalid)
    case BrTable(ls, d) => (match st.stack
      case Push(I32(i), rest) => Jump(if i < |ls| then ls[i] else d, st.(stack := rest), pc)
      case _ => Invalid)
    case CallHost(f) => DoHost(f, st)
  }

  /** The position of the first instruction of `code`, or of the `end` behind it. */
  function PcAt(code: seq<Instr>, end: int): int {
    if code == [] then end else code[0].pc
  }

  /** Leaving a block or function with `r` results: falling off the end, or catching a branch to it. */
  function Leave(r: nat, below: Stack, dst: int, o: Outcome): Outcome {
    match o
    case Next(s) => if Size(s.stack) == r then Next(s.(stack := Append(s.stack, below))) else Invalid
    case Jump(l, s, src) =>
      if l > 0 then Jump(l - 1, s, src)
      else if Size(s.stack) < r then Invalid
      else Next(s.(stack := Append(Take(s.stack, r), below), log := Arrive(s, src, dst, Within)))
    case _ => o
  }

  /** `fuel` bounds how often loops start over. */
  function Exec(fuel: nat, code: seq<Instr>, end: int, st: State): Outcome
    decreases fuel, code, 1
  {
    if code == [] then Next(st)
    else
      match ExecI(fuel, code[0], PcAt(code[1..], end), st)
      case Next(s) => Exec(fuel, code[1..], end, s)
      case o => o
  }

  function ExecI(fuel: nat, i: Instr, next: int, st: State): Outcome
    decreases fuel, i, 0
  {
    match i
    case Do(p, pc) => Step(p, pc, next, st)
    case Block(bt, body, _, end) =>
      if Size(st.stack) < bt.params then Invalid
      else Leave(bt.results, Under(st.stack, bt.params), end,
                 Exec(fuel, body, end, st.(stack := Take(st.stack, bt.params))))
    case Loop(bt, body, pc, end) =>
      if Size(st.stack) < bt.params then Invalid
      else
        var below := Under(st.stack, bt.params);
        (match Exec(fuel, body, end, st.(stack := Take(st.stack, bt.params)))
         case Jump(l, s, src) =>
           if l > 0 then Jump(l - 1, s, src)
           else if Size(s.stack) < bt.params then Invalid
           else if fuel == 0 then Spin
           else ExecI(fuel - 1, i, next,
                      s.(stack := Append(Take(s.stack, bt.params), below), log := Arrive(s, src, pc, Within)))
         case o => Leave(bt.results, below, end, o))
    case Call(bt, body, _) =>
      if Size(st.stack) < bt.params then Invalid
      else
        Return(st, Leave(bt.results, Under(st.stack, bt.params), NO_PC,
                         Exec(fuel, body, NO_PC, st.(stack := Nil, locals := Args(Take(st.stack, bt.params))))))
    case ReturnOp(_) => Leaving(st)
    case _ =>
      match Dispatched(i, st)
      case Stops(o) => o
      case Goes(f, s) =>
        if fuel == 0 then Spin
        else LeaveFn(s, f, Exec(fuel - 1, s.funcs[f].body, s.funcs[f].end, Frame(s, f)))
  }

  /** What a call comes to: an outcome of its own, or a function with its operands on the stack. */
  datatype Dispatch = Stops(o: Outcome) | Goes(f: nat, s: State)

  function Dispatched(i: Instr, st: State): (d: Dispatch)
    requires i.CallFn? || i.CallTable?
    ensures d.Goes? ==> d.f < |d.s.funcs| && |d.s.funcs[d.f].ty.params| <= Size(d.s.stack)
  {
    match i
    case CallFn(f, _) => Callable(f, st)
    case CallTable(ty, pc) => (match st.stack
      case Push(I32(k), rest) =>
        if k >= |st.table| || st.table[k].NoFunc? then Stops(Trap)
        else
          var f := st.table[k].f;
          if f >= |st.funcs| then Stops(Invalid)
          else if st.funcs[f].ty != ty then Stops(Trap)
          else Callable(f, st.(stack := rest, log := Arrive(st, pc, f, Calls)))
      case _ => Stops(Invalid))
  }

  function Callable(f: nat, st: State): Dispatch {
    if f >= |st.funcs| || Size(st.stack) < |st.funcs[f].ty.params| then Stops(Invalid) else Goes(f, st)
  }

  /** The callee's first state. */
  function Frame(st: State, f: nat): State
    requires f < |st.funcs| && |st.funcs[f].ty.params| <= Size(st.stack)
  {
    st.(stack := Nil, locals := Args(Take(st.stack, |st.funcs[f].ty.params|)) + st.funcs[f].locals, fn := f)
  }

  /** The caller gets its own locals back, and the results on its stack. */
  function LeaveFn(caller: State, f: nat, o: Outcome): Outcome
    requires f < |caller.funcs| && |caller.funcs[f].ty.params| <= Size(caller.stack)
  {
    var r, end := |caller.funcs[f].ty.results|, caller.funcs[f].end;
    match o
    case Next(s) => if Size(s.stack) == r then Next(Back(caller, f, s, s.stack, s.log)) else Invalid
    case Jump(l, s, src) =>
      if l > 0 || Size(s.stack) < r then Invalid
      else Next(Back(caller, f, s, Take(s.stack, r), Arrive(s, src, end, Exits)))
    case Leaving(s) => if Size(s.stack) < r then Invalid else Next(Back(caller, f, s, Take(s.stack, r), s.log))
    case _ => o
  }

  function Back(caller: State, f: nat, s: State, results: Stack, log: seq<Event>): State
    requires f < |caller.funcs| && |caller.funcs[f].ty.params| <= Size(caller.stack)
  {
    s.(stack := Append(results, Under(caller.stack, |caller.funcs[f].ty.params|)), locals := caller.locals,
       fn := caller.fn, log := log)
  }

  /** Call operands become locals, the deepest first. */
  function Args(s: Stack): seq<Val> {
    match s case Nil => [] case Push(v, b) => Args(b) + [v]
  }

  /** The caller gets its own locals back. */
  function Return(caller: State, o: Outcome): Outcome {
    match o
    case Next(s) => Next(s.(locals := caller.locals))
    case Jump(_, _, _) => Invalid
    case Leaving(_) => Invalid
    case _ => o
  }

  lemma PokePeek(m: seq<byte>, a: nat, bs: seq<byte>)
    requires a + |bs| <= |m|
    ensures Peek(Poke(m, a, bs), a, |bs|) == bs
    ensures Poke(m, a, Peek(m, a, |bs|)) == m
  {
  }

  // ----- unfolding -----

  lemma ExecNone(k: nat, end: int, st: State)
    ensures Exec(k, [], end, st) == Next(st)
  {
  }

  lemma ExecHead(k: nat, code: seq<Instr>, end: int, st: State)
    requires code != []
    ensures var a := ExecI(k, code[0], PcAt(code[1..], end), st);
      Exec(k, code, end, st) == if a.Next? then Exec(k, code[1..], end, a.st) else a
  {
    hide ExecI;
  }

  lemma DoIs(k: nat, x: Instr, next: int, st: State)
    ensures x.Do? ==> ExecI(k, x, next, st) == Step(x.p, x.pc, next, st)
    ensures x.ReturnOp? ==> ExecI(k, x, next, st) == Leaving(st)
  {
    hide Step;
  }

  lemma BlockIs(k: nat, x: Instr, next: int, st: State)
    requires x.Block?
    ensures Size(st.stack) < x.bt.params ==> ExecI(k, x, next, st) == Invalid
    ensures Size(st.stack) >= x.bt.params ==>
      ExecI(k, x, next, st)
      == Leave(x.bt.results, Under(st.stack, x.bt.params), x.end, Exec(k, x.body, x.end, st.(stack := Take(st.stack, x.bt.params))))
  {
    hide Exec, Leave;
  }

  lemma CallIs(k: nat, x: Instr, next: int, st: State)
    requires x.CallFn? || x.CallTable?
    ensures var d := Dispatched(x, st);
      ExecI(k, x, next, st) == if d.Stops? then d.o else if k == 0 then Spin
        else LeaveFn(d.s, d.f, Exec(k - 1, d.s.funcs[d.f].body, d.s.funcs[d.f].end, Frame(d.s, d.f)))
  {
    hide Exec, LeaveFn, Dispatched, Frame;
  }

  /** One instruction after another. */
  lemma {:induction false} RunCons(p: Plain, ps: seq<Plain>, st: State)
    ensures var o := Step(p, NO_PC, NO_PC, st);
      RunAll([p] + ps, st) == if o.Next? then RunAll(ps, o.st) else o
  {
    hide *;
    RunAppend([p], ps, st);
    RunOne(p, st);
  }

  lemma {:induction false} RunOne(p: Plain, st: State)
    ensures RunAll([p], st) == Step(p, NO_PC, NO_PC, st)
  {
    hide Step;
    RunInit([p], st);
    assert [p][..0] == [] && RunAll([], st) == Next(st);
  }

  lemma RunNone(st: State)
    ensures RunAll([], st) == Next(st)
  {
  }

  lemma StepConst(v: Val, st: State)
    ensures Step(Const(v), NO_PC, NO_PC, st) == Next(PushVal(st, v))
  {
  }

  lemma StepGet(l: nat, st: State)
    requires l < |st.locals|
    ensures Step(LocalGet(l), NO_PC, NO_PC, st) == Next(PushVal(st, st.locals[l]))
  {
  }

  lemma StepTee(l: nat, st: State)
    requires l < |st.locals| && st.stack.Push?
    ensures Step(LocalTee(l), NO_PC, NO_PC, st) == Next(st.(locals := st.locals[l := st.stack.top]))
  {
  }

  lemma StepSet(l: nat, st: State)
    requires l < |st.locals| && st.stack.Push?
    ensures Step(LocalSet(l), NO_PC, NO_PC, st) == Next(st.(locals := st.locals[l := st.stack.top], stack := st.stack.below))
  {
  }

  lemma Pushed(st: State, v: Val)
    ensures PushVal(st, v) == st.(stack := Push(v, st.stack))
  {
  }

  lemma StepAdd(a: nat, b: nat, rest: Stack, st: State)
    requires st.stack == Push(I32(b), Push(I32(a), rest))
    ensures Step(I32Add, NO_PC, NO_PC, st) == Next(st.(stack := Push(I32(Wrap32(a + b)), rest)))
  {
    hide Wrap32;
  }

  lemma StepOr(a: nat, b: nat, rest: Stack, st: State)
    requires st.stack == Push(I64(b), Push(I64(a), rest))
    ensures Step(I64Or, NO_PC, NO_PC, st) == Next(st.(stack := Push(I64(Or(a, b)), rest)))
  {
    hide Or;
  }

  lemma StepEqz(a: nat, rest: Stack, st: State)
    requires st.stack == Push(I32(a), rest)
    ensures Step(I32Eqz, NO_PC, NO_PC, st) == Next(st.(stack := Push(I32(if a == 0 then 1 else 0), rest)))
  {
  }

  /** Instructions made by a builder leave no event. */
  lemma StepBrIf(l: nat, a: nat, rest: Stack, st: State)
    requires st.stack == Push(I32(a), rest)
    ensures Step(BrIf(l), NO_PC, NO_PC, st)
         == if a != 0 then Jump(l, st.(stack := rest), NO_PC) else Next(st.(stack := rest))
  {
  }

  lemma StepLoad(ty: ValType, w: nat, sg: bool, m: MemId, off: nat, st: State)
    ensures Step(Load(ty, w, sg, m, off), NO_PC, NO_PC, st) == DoLoad(ty, w, sg, m, off, st)
  {
    hide DoLoad;
  }

  lemma StepStore(ty: ValType, w: nat, m: MemId, off: nat, st: State)
    ensures Step(Store(ty, w, m, off), NO_PC, NO_PC, st) == DoStore(ty, w, m, off, st)
  {
    hide DoStore;
  }

  lemma StepGlobals(g: nat, st: State)
    requires g < |st.globals|
    ensures Step(GlobalGet(g), NO_PC, NO_PC, st) == Next(PushVal(st, st.globals[g]))
    ensures st.stack.Push? ==>
      Step(GlobalSet(g), NO_PC, NO_PC, st) == Next(st.(globals := st.globals[g := st.stack.top], stack := st.stack.below))
  {
  }

  // ----- composing code -----

  lemma {:induction false} ExecAppend(fuel: nat, a: seq<Instr>, b: seq<Instr>, end: int, st: State)
    ensures Exec(fuel, a + b, end, st)
         == match Exec(fuel, a, PcAt(b, end), st) case Next(s) => Exec(fuel, b, end, s) case o => o
    decreases |a|
  {
    if a == [] {
      assert a + b == b;
    } else {
      assert (a + b)[1..] == a[1..] + b;
      assert (a + b)[0] == a[0];
      var o := ExecI(fuel, a[0], PcAt(a[1..] + b, end), st);
      assert PcAt(a[1..] + b, end) == PcAt(a[1..], PcAt(b, end));
      if o.Next? {
        ExecAppend(fuel, a[1..], b, end, o.st);
      }
    }
  }

  lemma {:induction false} ExecOne(fuel: nat, i: Instr, end: int, st: State)
    ensures Exec(fuel, [i], end, st) == ExecI(fuel, i, end, st)
  {
    assert [i][1..] == [];
    var o := ExecI(fuel, i, end, st);
    if o.Next? { assert Exec(fuel, [], end, o.st) == Next(o.st); }
  }

  /** Builder-made straight-line code. */
  function Lift(ps: seq<Plain>): (code: seq<Instr>)
    ensures |code| == |ps|
    ensures forall i :: 0 <= i < |ps| ==> code[i] == Do(ps[i], NO_PC)
  {
    seq(|ps|, i requires 0 <= i < |ps| => Do(ps[i], NO_PC))
  }

  /** The first `n` instructions of `ps`. */
  function Run(ps: seq<Plain>, n: nat, st: State): Outcome
    requires n <= |ps|
    decreases n
  {
    if n == 0 then Next(st)
    else match Run(ps, n - 1, st) case Next(s) => Step(ps[n - 1], NO_PC, NO_PC, s) case o => o
  }

  function RunAll(ps: seq<Plain>, st: State): Outcome {
    Run(ps, |ps|, st)
  }

  /** Only the first `n` instructions matter to `Run`. */
  lemma {:induction false} RunPrefix(a: seq<Plain>, b: seq<Plain>, n: nat, st: State)
    requires n <= |a|
    ensures Run(a + b, n, st) == Run(a, n, st)
  {
    if n > 0 { RunPrefix(a, b, n - 1, st); }
  }

  lemma {:induction false} RunAppend(a: seq<Plain>, b: seq<Plain>, st: State)
    ensures RunAll(a + b, st) == match RunAll(a, st) case Next(s) => RunAll(b, s) case o => o
    decreases |b|
  {
    if b == [] {
      assert a + b == a;
    } else {
      var c, x := b[..|b| - 1], b[|b| - 1];
      RunAppend(a, c, st);
      assert (a + b)[..|a + b| - 1] == a + c && (a + b)[|a + b| - 1] == x;
      RunInit(a + b, st);
      var o := RunAll(a, st);
      if o.Next? { RunInit(b, o.st); }
    }
  }

  lemma {:induction false} RunInit(ps: seq<Plain>, st: State)
    requires ps != []
    ensures RunAll(ps, st)
         == match RunAll(ps[..|ps| - 1], st)
            case Next(s) => Step(ps[|ps| - 1], NO_PC, NO_PC, s)
            case o => o
  {
    var init, last := ps[..|ps| - 1], ps[|ps| - 1..];
    assert init + last == ps;
    RunPrefix(init, last, |init|, st);
  }

  lemma {:induction false} RunShift(ps: seq<Plain>, n: nat, st: State)
    requires 0 < n <= |ps|
    ensures Run(ps, n, st)
         == match Step(ps[0], NO_PC, NO_PC, st) case Next(s) => Run(ps[1..], n - 1, s) case o => o
  {
    if n == 1 {
      assert Run(ps, 0, st) == Next(st);
    } else {
      RunShift(ps, n - 1, st);
    }
  }

  lemma {:induction false} StepPc(p: Plain, next: int, st: State)
    ensures Step(p, NO_PC, next, st) == Step(p, NO_PC, NO_PC, st)
  {
  }

  /** Straight-line code runs one instruction after the other. */
  lemma {:induction false} ExecRun(fuel: nat, ps: seq<Plain>, end: int, st: State)
    ensures Exec(fuel, Lift(ps), end, st) == RunAll(ps, st)
    decreases |ps|
  {
    if ps != [] {
      RunShift(ps, |ps|, st);
      StepPc(ps[0], PcAt(Lift(ps)[1..], end), st);
      assert Lift(ps)[1..] == Lift(ps[1..]);
      var o := Step(ps[0], NO_PC, NO_PC, st);
      if o.Next? {
        ExecRun(fuel, ps[1..], end, o.st);
      }
    }
  }

  lemma ExecBr(fuel: nat, d: nat, end: int, st: State)
    ensures Exec(fuel, Lift([Br(d)]), end, st) == Jump(d, st, NO_PC)
  {
    ExecRun(fuel, [Br(d)], end, st);
    assert RunAll([Br(d)], st) == Run([Br(d)], 1, st);
    hide Exec;
  }

  /** Code with a branch behind it. */
  lemma {:induction false} ExecArm(fuel: nat, code: seq<Instr>, d: nat, end: int, st: State)
    ensures Exec(fuel, code + Lift([Br(d)]), end, st)
         == match Exec(fuel, code, NO_PC, st) case Next(s) => Jump(d, s, NO_PC) case o => o
  {
    var br := Lift([Br(d)]);
    assert PcAt(br, end) == NO_PC;
    hide *;
    ExecAppend(fuel, code, br, end, st);
    var o := Exec(fuel, code, NO_PC, st);
    if o.Next? { ExecBr(fuel, d, end, o.st); }
  }

  // ----- facts about stacks -----

  /** The last value on top. */
  function StackOf(vs: seq<Val>): (s: Stack)
    ensures Size(s) == |vs|
  {
    if vs == [] then Nil else Push(vs[|vs| - 1], StackOf(vs[..|vs| - 1]))
  }

  function Consts(vs: seq<Val>): (ps: seq<Plain>)
    ensures |ps| == |vs| && forall i :: 0 <= i < |vs| ==> ps[i] == Const(vs[i])
  {
    seq(|vs|, i requires 0 <= i < |vs| => Const(vs[i]))
  }

  lemma {:induction false} RunConsts(vs: seq<Val>, st: State)
    ensures RunAll(Consts(vs), st) == Next(st.(stack := Append(StackOf(vs), st.stack)))
    decreases |vs|
  {
    if vs != [] {
      RunInit(Consts(vs), st);
      assert Consts(vs)[..|vs| - 1] == Consts(vs[..|vs| - 1]);
      RunConsts(vs[..|vs| - 1], st);
    }
  }

  lemma {:induction false} TakeAppend(a: Stack, b: Stack)
    ensures Size(Append(a, b)) >= Size(a)
    ensures Take(Append(a, b), Size(a)) == a && Under(Append(a, b), Size(a)) == b
  {
    AppendSize(a, b);
    if a.Push? { TakeAppend(a.below, b); }
  }

  lemma {:induction false} AppendSize(a: Stack, b: Stack)
    ensures Size(Append(a, b)) == Size(a) + Size(b)
  {
    if a.Push? { AppendSize(a.below, b); }
  }

  lemma {:induction false} AppendNil(a: Stack)
    ensures Append(a, Nil) == a
  {
    if a.Push? { AppendNil(a.below); }
  }

  lemma {:induction false} TakeAll(s: Stack)
    ensures Take(s, Size(s)) == s && Under(s, Size(s)) == Nil
  {
    if s.Push? { TakeAll(s.below); }
  }

  /** Instructions that touch the stack, the globals and the function's own `n` locals only. */
  predicate Own(p: Plain, n: nat) {
    match p
    case Nop => true case Drop => true case Select => true case Const(_) => true
    case LocalGet(l) => l < n case LocalSet(l) => l < n case LocalTee(l) => l < n
    case GlobalGet(_) => true case GlobalSet(_) => true
    case I32Add => true case I32Eqz => true case I32Ne => true case I64Ne => true case I64Or => true
    case I64ExtendI32U => true
    case _ => false
  }

  lemma {:induction false} OwnLocals(n: nat, l: nat, v: Val, own: seq<Val>, all: seq<Val>)
    requires l < n == |own| <= |all| && all[..n] == own
    ensures all[l] == own[l] && all[l := v] == own[l := v] + all[n..]
  {
    assert all[l] == all[..n][l];
    assert all == own + all[n..];
  }

  /**
   * Instructions on a function's own data do the same in any state that agrees on that data,
   * and leave everything else alone.
   */
  lemma {:induction false} OwnFrame(n: nat, p: Plain, pc: int, next: int, o: State, i: State)
    requires Own(p, n) && |o.locals| == n <= |i.locals| && i.locals[..n] == o.locals
    requires i.stack == o.stack && i.globals == o.globals
    ensures match Step(p, pc, next, o)
            case Next(t) =>
              && |t.locals| == n && t == o.(stack := t.stack, globals := t.globals, locals := t.locals)
              && Step(p, pc, next, i)
                 == Next(i.(stack := t.stack, globals := t.globals, locals := t.locals + i.locals[n..]))
            case Invalid => true
            case _ => false
  {
    assert i.locals == o.locals + i.locals[n..];
    match p
    case LocalGet(l) => OwnLocals(n, l, I32(0), o.locals, i.locals);
    case LocalSet(l) => if o.stack.Push? { OwnLocals(n, l, o.stack.top, o.locals, i.locals); }
    case LocalTee(l) => if o.stack.Push? { OwnLocals(n, l, o.stack.top, o.locals, i.locals); }
    case _ =>
  }
}
