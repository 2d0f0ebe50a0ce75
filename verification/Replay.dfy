/**
 * Replay functions: for one recorded call site, the code that re-enacts every recorded call
 * ("prop") to it.  A switch on the thread id picks a thread's arm, a switch on that thread's
 * tracker global picks the next prop, and the prop's arm waits for its turn, applies the
 * recorded side effects and returns the recorded value.
 */
module Replay {
  import opened Bytes
  import opened Wasm
  import opened Flat
  import opened Ladder

  datatype CallId = Generic | Mmap | WritevId | SpawnId | Futex | ThreadExitId | ProcExitId | OtherId(code: nat)

  datatype MemStore = MemStore(addr: nat, size: nat, value: nat)

  /** Numbers are the bit patterns of the recorder's 32- and 64-bit fields. */
  datatype Prop = Prop(
    tid: nat, returnVal: nat, callId: CallId, args: (nat, nat, nat), stores: seq<MemStore>, syncId: nat)

  datatype Ret = NoRet | Ret(ty: ValType)

  /** What every arm of one replay function shares. */
  datatype Site = Site(accessIdx: nat, funcIdx: nat, ret: Ret, syncAddr: nat, debug: bool)

  const DUMMY: nat := 0xDEADBEEF

  /** Store widths for which an instruction exists; the generator reports an error for others. */
  predicate Supported(p: Prop) {
    forall s <- p.stores :: s.size in {1, 2, 4, 8}
  }

  function CallCode(id: CallId): nat {
    match id
    case Generic => 0xFFFFFFFF case Mmap => 1 case WritevId => 2 case SpawnId => 3
    case Futex => 4 case ThreadExitId => 5 case ProcExitId => 6 case OtherId(c) => c
  }

  // ----- the emitted code -----

  function Arity(ret: Ret): nat {
    if ret.NoRet? then 0 else 1
  }

  /** A scalar constant of the given type from a 64-bit pattern. */
  function ScalarConst(ty: ValType, v: nat): Val {
    MakeVal(ty, if Bits(ty) == 32 then Wrap32(v) else Wrap64(v))
  }

  function ReturnValue(ret: Ret, v: nat): seq<Plain> {
    if ret.NoRet? then [] else [Const(ScalarConst(ret.ty, v))]
  }

  function I32C(n: nat): Plain { Const(I32(Wrap32(n))) }
  function I64C(n: nat): Plain { Const(I64(n)) }

  function WaitOps(addr: nat): seq<Plain> {
    [I32C(addr), AtomicLoad64(0), LocalGet(0), I64Ne, BrIf(0)]
  }

  /** Loops until the sync counter holds the parameter. */
  function WaitBody(addr: nat): seq<Instr> {
    [Loop(BT(0, 0), Lift(WaitOps(addr)), NO_PC, NO_PC)]
  }

  function WaitCall(addr: nat): Instr {
    Call(BT(1, 0), WaitBody(addr), NO_PC)
  }

  /** The operands of a debug log call, in the order they are pushed. */
  function LogVals(site: Site, tid: nat, arm: nat, p: Prop): (vs: seq<Val>)
    ensures |vs| == 10
  {
    [Word(site.accessIdx), Word(site.funcIdx), Word(tid), Word(arm), Word(CallCode(p.callId)),
     I64(p.returnVal), I64(p.args.0), I64(p.args.1), I64(p.args.2), I64(p.syncId)]
  }

  function LogOps(site: Site, tid: nat, arm: nat, p: Prop): seq<Plain> {
    if site.debug then Consts(LogVals(site, tid, arm, p)) + [CallHost(LogCall)] else []
  }

  /** Handlers that exist only for debugging are left out otherwise, and a `nop` takes their place. */
  function DebugCall(site: Site, f: HostFn): Plain {
    if site.debug then CallHost(f) else Nop
  }

  /** `futex_op` is known to the generator: wait or wake. */
  predicate FutexOpKnown(p: Prop) {
    Wrap32(p.args.1) <= 1
  }

  /** The instructions a call id adds for its side effects. */
  function CallOps(site: Site, p: Prop): seq<Plain> {
    match p.callId
    case Mmap =>
      if Wrap32(p.args.0) > 0 then [I32C(p.args.0), MemoryGrow(Main), Drop] else []
    case WritevId => [I32C(p.args.0), I32C(p.args.1), I32C(p.args.2), DebugCall(site, Writev)]
    case ProcExitId => [I32C(p.args.0), CallHost(ProcExit)]
    case ThreadExitId => [I32C(p.args.0), CallHost(ThreadExit)]
    case SpawnId => [I32C(p.args.0), I32C(p.args.1), CallHost(ThreadSpawn)]
    case Futex =>
      if FutexOpKnown(p) then [I32C(p.args.0), I32C(p.args.1), I32C(p.args.2), DebugCall(site, FutexLog)]
      else []
    case Generic => []
    case OtherId(_) => []
  }

  function StoreOps(s: MemStore): seq<Plain> {
    [I32C(s.addr), I64C(s.value)] + (if s.size in {1, 2, 4, 8} then [Store(TI64, s.size, Main, 0)] else [])
  }

  /** The stores of a prop are all performed just when each has a size there is an instruction for. */
  lemma SupportedIff(p: Prop)
    ensures Supported(p) <==> forall s <- p.stores :: exists op <- StoreOps(s) :: op == Store(TI64, s.size, Main, 0)
  {
    forall s | s in p.stores
      ensures s.size in {1, 2, 4, 8} <==> exists op <- StoreOps(s) :: op == Store(TI64, s.size, Main, 0)
    {
      assert s.size in {1, 2, 4, 8} ==> StoreOps(s)[2] in StoreOps(s);
    }
  }

  function AllStoreOps(stores: seq<MemStore>): seq<Plain> {
    if stores == [] then [] else AllStoreOps(stores[..|stores| - 1]) + StoreOps(stores[|stores| - 1])
  }

  function IncOps(addr: nat): seq<Plain> {
    [I32C(addr), I64C(1), AtomicAdd64(0), Drop]
  }

  /** The exits do not come back, so the counter moves on before them. */
  predicate IncFirst(p: Prop) {
    p.callId.ProcExitId? || p.callId.ThreadExitId?
  }

  function SideOps(site: Site, p: Prop): seq<Plain> {
    ReturnValue(site.ret, p.returnVal) + CallOps(site, p) + AllStoreOps(p.stores)
  }

  function PropCode(site: Site, tid: nat, arm: nat, p: Prop): seq<Instr> {
    Lift([I64C(Wrap64(p.syncId - 1))]) + [WaitCall(site.syncAddr)] + Lift(LogOps(site, tid, arm, p))
    + Lift(if IncFirst(p) then IncOps(site.syncAddr) + SideOps(site, p)
           else SideOps(site, p) + IncOps(site.syncAddr))
  }

  function Iota(n: nat): (s: seq<nat>)
    ensures |s| == n && forall i :: 0 <= i < n ==> s[i] == i
  {
    seq(n, i => i)
  }

  function PropSwitch(site: Site, g: nat, n: nat): seq<Instr> {
    Lift(ReturnValue(site.ret, DUMMY) + [GlobalGet(g), BrTable(Iota(n), n)])
  }

  function PropArm(site: Site, tid: nat, props: seq<Prop>, i: nat): seq<Instr>
    requires i < |props|
  {
    PropCode(site, tid, |props| - i - 1, props[i]) + Lift([Br(|props| - i)])
  }

  function TrackerInc(g: nat): seq<Instr> {
    Lift([GlobalGet(g), I32C(1), I32Add, GlobalSet(g)])
  }

  /** One thread's props: the switch, an arm each, the error arm, and the tracker's increment. */
  function PropSegs(site: Site, tid: nat, g: nat, props: seq<Prop>): (s: seq<seq<Instr>>)
    ensures |s| == |props| + 3
  {
    [PropSwitch(site, g, |props|)]
    + seq(|props|, i requires 0 <= i < |props| => PropArm(site, tid, props, i))
    + [Lift([Unreachable]), TrackerInc(g)]
  }

  function ThreadUnit(site: Site, tid: nat, g: nat, props: seq<Prop>): Instr {
    Nest(Arity(site.ret), PropSegs(site, tid, g, props))
  }

  /** The props recorded for thread `t`, in order. */
  function PropsOf(props: seq<Prop>, t: nat): seq<Prop> {
    if props == [] then []
    else PropsOf(props[..|props| - 1], t)
         + (if props[|props| - 1].tid == t then [props[|props| - 1]] else [])
  }

  function TidSwitch(site: Site, n: nat): seq<Instr> {
    Lift(ReturnValue(site.ret, DUMMY) + [CallHost(GetTid), BrTable(Iota(n), n)])
  }

  /** Thread `t` tracks its position in global `g0 + t`. */
  function TidArm(site: Site, g0: nat, props: seq<Prop>, threads: nat, t: nat): seq<Instr>
    requires t < threads
  {
    [ThreadUnit(site, t, g0 + t, PropsOf(props, t))] + Lift([Br(threads - t)])
  }

  function TidSegs(site: Site, g0: nat, props: seq<Prop>, threads: nat): (s: seq<seq<Instr>>)
    ensures |s| == threads + 2
  {
    [TidSwitch(site, threads)]
    + seq(threads, t requires 0 <= t < threads => TidArm(site, g0, props, threads, t))
    + [Lift([Unreachable])]
  }

  function ReplayBody(site: Site, g0: nat, props: seq<Prop>, maxTid: nat, multi: bool): seq<Instr> {
    if props == [] then Lift(ReturnValue(site.ret, 0))
    else if multi then [Nest(Arity(site.ret), TidSegs(site, g0, props, maxTid + 1))]
    else [ThreadUnit(site, 0, g0, props)]
  }

  // ----- what a prop means, without stacks and branches -----

  datatype Memory = Faulty | Memory(data: seq<byte>)

  function StoreAll(m: seq<byte>, stores: seq<MemStore>): Memory {
    if stores == [] then Memory(m)
    else
      var s := stores[|stores| - 1];
      match StoreAll(m, stores[..|stores| - 1])
      case Faulty => Faulty
      case Memory(d) =>
        if Wrap32(s.addr) + s.size > |d| then Faulty
        else Memory(Poke(d, Wrap32(s.addr), ToLE(s.value, s.size)))
  }

  /** `addr` holds an 8-byte counter. */
  predicate CounterAt(m: seq<byte>, addr: nat) {
    Wrap32(addr) + 8 <= |m| && Wrap32(addr) % 8 == 0
  }

  function Counter(m: seq<byte>, addr: nat): nat
    requires CounterAt(m, addr)
  {
    FromLE(Peek(m, Wrap32(addr), 8))
  }

  function Bump(m: seq<byte>, addr: nat): seq<byte>
    requires CounterAt(m, addr)
  {
    Poke(m, Wrap32(addr), ToLE(Wrap64(Counter(m, addr) + 1), 8))
  }

  /** Growth asked for beyond the limit does not happen. */
  function Grown(st: State, n: nat): seq<byte> {
    if |st.main| / PAGE + n <= st.maxPages then st.main + Zeros(n * PAGE) else st.main
  }

  function Word(n: nat): Val { I32(Wrap32(n)) }

  function Args3(p: Prop): Stack {
    Push(Word(p.args.2), Push(Word(p.args.1), Push(Word(p.args.0), Nil)))
  }

  function Called(st: State, f: HostFn, args: Stack): State {
    st.(host := st.host + [HostCall(f, args)])
  }

  /** The state after the side effects proper of the prop's call. */
  function CallEffect(site: Site, p: Prop, st: State): State {
    match p.callId
    case Mmap => st.(main := Grown(st, Wrap32(p.args.0)))
    case WritevId => if site.debug then Called(st, Writev, Args3(p)) else st
    case SpawnId => Called(st, ThreadSpawn, Push(Word(p.args.1), Push(Word(p.args.0), Nil)))
    case Futex => if FutexOpKnown(p) && site.debug then Called(st, FutexLog, Args3(p)) else st
    case ProcExitId => Called(st, ProcExit, Push(Word(p.args.0), Nil))
    case ThreadExitId => Called(st, ThreadExit, Push(Word(p.args.0), Nil))
    case Generic => st
    case OtherId(_) => st
  }

  function Logged(site: Site, tid: nat, arm: nat, p: Prop, st: State): State {
    if site.debug then Called(st, LogCall, StackOf(LogVals(site, tid, arm, p))) else st
  }

  /**
   * One recorded call: wait until it is its turn, log, apply the side effects and then the
   * stores in order, and move the counter on.  An exit moves the counter on first.
   */
  function Effect(site: Site, tid: nat, arm: nat, p: Prop, st: State): Outcome {
    if !CounterAt(st.main, site.syncAddr) then Trap
    else if Counter(st.main, site.syncAddr) != Wrap64(p.syncId - 1) then Spin
    else
      var s0 := Logged(site, tid, arm, p, st);
      if IncFirst(p) then Exit(CallEffect(site, p, s0.(main := Bump(s0.main, site.syncAddr))).(stack := Nil))
      else Settle(site, p, CallEffect(site, p, s0))
  }

  /** The recorded stores, then the counter. */
  function Settle(site: Site, p: Prop, st: State): Outcome {
    match StoreAll(st.main, p.stores)
    case Faulty => Trap
    case Memory(d) =>
      if !CounterAt(d, site.syncAddr) then Trap else Next(st.(main := Bump(d, site.syncAddr)))
  }

  /** What a bit pattern is at a type: as many of its low bits as the type has. */
  function AtType(ty: ValType, v: nat): Val {
    MakeVal(ty, v % Pow2(Bits(ty)))
  }

  /** The value the recorded call returned. */
  function Returned(ret: Ret, p: Prop): Stack {
    if ret.NoRet? then Nil else Push(AtType(ret.ty, p.returnVal), Nil)
  }

  lemma ScalarIs(ty: ValType, v: nat)
    ensures ScalarConst(ty, v) == AtType(ty, v)
  {
    Pow2Consts();
    hide Pow2;
  }

  // ----- codes and logs, read back -----

  /** The call id a recorded code stands for. */
  function CallIdOf(code: nat): CallId {
    if code == 0xFFFFFFFF then Generic
    else if code == 1 then Mmap
    else if code == 2 then WritevId
    else if code == 3 then SpawnId
    else if code == 4 then Futex
    else if code == 5 then ThreadExitId
    else if code == 6 then ProcExitId
    else OtherId(code)
  }

  lemma CodesApart(id: CallId)
    requires id.OtherId? ==> CallIdOf(id.code) == id
    ensures CallIdOf(CallCode(id)) == id
  {
  }

  datatype FutexOp = FutexWait | FutexWake

  function FutexCode(op: FutexOp): nat { match op case FutexWait => 0 case FutexWake => 1 }

  /** A futex call has an effect just for the two operations there are. */
  lemma FutexKnownIff(p: Prop)
    ensures FutexOpKnown(p) <==> exists op :: FutexCode(op) == p.args.1 % TWO32
  {
    assert FutexCode(FutexWait) == 0 && FutexCode(FutexWake) == 1;
  }

  /** A line of the debug log, field by field. */
  datatype LogLine = NoLine | LogLine(
    access: nat, func: nat, tid: nat, arm: nat, callId: nat, returnVal: nat, args: (nat, nat, nat), syncId: nat)

  /** The log function takes the fields in this order; the last one is on top. */
  function ReadLog(h: HostCall): LogLine {
    match (h.f, h.args)
    case (LogCall, Push(I64(s), Push(I64(c), Push(I64(b), Push(I64(a), Push(I64(r), below)))))) =>
      (match below
       case Push(I32(id), Push(I32(arm), Push(I32(t), Push(I32(f), Push(I32(x), Nil))))) => LogLine(x, f, t, arm, id, r, (a, b, c), s)
       case _ => NoLine)
    case _ => NoLine
  }

  /** With debug handlers, a prop logs its own site, place and fields before anything else. */
  lemma {:induction false} LogReads(site: Site, tid: nat, arm: nat, p: Prop, st: State)
    requires site.debug && site.accessIdx < TWO32 && site.funcIdx < TWO32 && tid < TWO32 && arm < TWO32 && CallCode(p.callId) < TWO32
    ensures var s := Logged(site, tid, arm, p, st);
      && s == st.(host := s.host) && |s.host| == |st.host| + 1 && s.host[..|st.host|] == st.host
      && ReadLog(s.host[|st.host|])
         == LogLine(site.accessIdx, site.funcIdx, tid, arm, CallCode(p.callId), p.returnVal, p.args, p.syncId)
  {
    var vs := LogVals(site, tid, arm, p);
    hide CallCode, Wrap32;
    TenOf(vs);
  }

  lemma {:induction false} TenOf(vs: seq<Val>)
    requires |vs| == 10
    ensures StackOf(vs)
         == Push(vs[9], Push(vs[8], Push(vs[7], Push(vs[6], Push(vs[5],
            Push(vs[4], Push(vs[3], Push(vs[2], Push(vs[1], Push(vs[0], Nil))))))))))
  {
    hide StackOf;
    assert vs[..10] == vs;
    StackTop(vs, 10);
    StackTop(vs, 9);
    StackTop(vs, 8);
    StackTop(vs, 7);
    StackTop(vs, 6);
    StackTop(vs, 5);
    StackTop(vs, 4);
    StackTop(vs, 3);
    StackTop(vs, 2);
    StackTop(vs, 1);
  }

  lemma StackTop(vs: seq<Val>, k: nat)
    requires 0 < k <= |vs|
    ensures StackOf(vs[..k]) == Push(vs[k - 1], if k == 1 then Nil else StackOf(vs[..k - 1]))
  {
    assert vs[..k][..k - 1] == vs[..k - 1];
  }

  /** What the side effects of `p` leave on the stack above the return value. */
  function Junk(site: Site, p: Prop, st: State): Stack {
    match p.callId
    case WritevId => if site.debug then Push(I64(st.answer), Nil) else Args3(p)
    case SpawnId => Push(I32(Wrap32(st.answer)), Nil)
    case Futex => if FutexOpKnown(p) && !site.debug then Args3(p) else Nil
    case _ => Nil
  }

  /** Call ids whose side effects leave the stack as they found it. */
  predicate Neutral(site: Site, p: Prop) {
    !p.callId.WritevId? && !p.callId.SpawnId? && (p.callId.Futex? && FutexOpKnown(p) ==> site.debug)
  }
}
