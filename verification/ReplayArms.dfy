/** What one arm of a replay function does: the emitted code refines `Effect`. */
module ReplayArms {
  import opened Bytes
  import opened Wasm
  import opened Flat
  import opened Replay

  lemma {:induction false} RunReturn(ret: Ret, v: nat, st: State)
    ensures RunAll(ReturnValue(ret, v), st)
         == Next(if ret.NoRet? then st else PushVal(st, AtType(ret.ty, v)))
  {
    if ret.Ret? {
      ScalarIs(ret.ty, v);
      hide ScalarConst, AtType;
      assert Run(ReturnValue(ret, v), 1, st) == Next(PushVal(st, AtType(ret.ty, v)));
    }
  }

  lemma {:induction false} RunInc(addr: nat, st: State)
    ensures RunAll(IncOps(addr), st)
         == if CounterAt(st.main, addr) then Next(st.(main := Bump(st.main, addr))) else Trap
  {
    var ops := IncOps(addr);
    var s2 := st.(stack := Push(I64(1), Push(I32(Wrap32(addr)), st.stack)));
    assert Run(ops, 2, st) == Next(s2);
    RunAdd(addr, st.stack, s2);
    assert RunAll(ops, st) == Run(ops, 4, st);
    assert Run(ops, 3, st) == DoAtomic64(AtomicAdd64(0), s2);
  }

  lemma {:induction false} RunAdd(addr: nat, rest: Stack, st: State)
    requires st.stack == Push(I64(1), Push(I32(Wrap32(addr)), rest))
    ensures DoAtomic64(AtomicAdd64(0), st)
         == if CounterAt(st.main, addr)
            then Next(st.(stack := Push(I64(Counter(st.main, addr)), rest), main := Bump(st.main, addr)))
            else Trap
  {
    hide Wrap32, Wrap64, ToLE, FromLE;
  }

  lemma {:induction false} RunStore(s: MemStore, st: State)
    requires s.size in {1, 2, 4, 8}
    ensures RunAll(StoreOps(s), st)
         == if Wrap32(s.addr) + s.size > |st.main| then Trap
            else Next(st.(main := Poke(st.main, Wrap32(s.addr), ToLE(s.value, s.size))))
  {
    assert StoreOps(s) == [I32C(s.addr), I64C(s.value), Store(TI64, s.size, Main, 0)];
    assert RunAll(StoreOps(s), st) == Run(StoreOps(s), 3, st);
  }

  lemma {:induction false} RunStores(stores: seq<MemStore>, st: State)
    requires forall s <- stores :: s.size in {1, 2, 4, 8}
    ensures RunAll(AllStoreOps(stores), st)
         == match StoreAll(st.main, stores) case Faulty => Trap case Memory(d) => Next(st.(main := d))
    decreases |stores|
  {
    if stores != [] {
      var init, s := stores[..|stores| - 1], stores[|stores| - 1];
      RunStores(init, st);
      RunAppend(AllStoreOps(init), StoreOps(s), st);
      var m := StoreAll(st.main, init);
      if m.Memory? { RunStore(s, st.(main := m.data)); }
    }
  }

  lemma {:induction false} RunMmap(site: Site, p: Prop, st: State)
    requires p.callId.Mmap?
    ensures RunAll(CallOps(site, p), st) == Next(CallEffect(site, p, st))
  {
    if Wrap32(p.args.0) > 0 {
      assert RunAll(CallOps(site, p), st) == Run(CallOps(site, p), 3, st);
    } else {
      assert st.main + Zeros(0) == st.main;
    }
  }

  /** Three operands and a handler that takes them, or a `nop` in its place. */
  lemma {:induction false} RunThreeArgs(site: Site, p: Prop, f: HostFn, st: State)
    requires f == Writev || f == FutexLog
    ensures RunAll([I32C(p.args.0), I32C(p.args.1), I32C(p.args.2), DebugCall(site, f)], st)
         == if !site.debug then Next(st.(stack := Append(Args3(p), st.stack)))
            else if f == Writev then Next(PushVal(Called(st, f, Args3(p)), I64(st.answer)))
            else Next(Called(st, f, Args3(p)))
  {
    hide *;
    var a, b, c, call := I32C(p.args.0), I32C(p.args.1), I32C(p.args.2), DebugCall(site, f);
    var s1 := PushVal(st, Word(p.args.0));
    var s2 := PushVal(s1, Word(p.args.1));
    assert [a, b, c, call] == [a] + ([b] + ([c] + [call]));
    RunCons(a, [b] + ([c] + [call]), st);
    RunCons(b, [c] + [call], s1);
    RunCons(c, [call], s2);
    StepWord(p.args.0, st);
    StepWord(p.args.1, s1);
    StepWord(p.args.2, s2);
    ThreePushed(p, st);
    RunOne(call, st.(stack := Append(Args3(p), st.stack)));
    StepDebug(site, p, f, st);
  }

  lemma StepWord(n: nat, st: State)
    ensures Step(I32C(n), NO_PC, NO_PC, st) == Next(PushVal(st, Word(n)))
  {
  }

  lemma ThreePushed(p: Prop, st: State)
    ensures PushVal(PushVal(PushVal(st, Word(p.args.0)), Word(p.args.1)), Word(p.args.2)) == st.(stack := Append(Args3(p), st.stack))
  {
    ThreeOnTop(p, st.stack);
    hide Append, Args3;
  }

  lemma StepDebug(site: Site, p: Prop, f: HostFn, st: State)
    requires f == Writev || f == FutexLog
    ensures Step(DebugCall(site, f), NO_PC, NO_PC, st.(stack := Append(Args3(p), st.stack)))
         == if !site.debug then Next(st.(stack := Append(Args3(p), st.stack)))
            else if f == Writev then Next(PushVal(Called(st, f, Args3(p)), I64(st.answer)))
            else Next(Called(st, f, Args3(p)))
  {
    TakeAppend(Args3(p), st.stack);
    ThreeOnTop(p, st.stack);
    hide Append, Args3, Take, Under, Size;
  }

  lemma {:induction false} ThreeOnTop(p: Prop, rest: Stack)
    ensures Append(Args3(p), rest)
         == Push(Word(p.args.2), Push(Word(p.args.1), Push(Word(p.args.0), rest)))
    ensures Size(Args3(p)) == 3
  {
    assert Append(Nil, rest) == rest;
    assert Append(Push(Word(p.args.0), Nil), rest) == Push(Word(p.args.0), rest);
    assert Size(Push(Word(p.args.0), Nil)) == 1;
  }

  lemma {:induction false} TakeTwo(a: Val, b: Val, rest: Stack)
    ensures var s := Push(a, Push(b, rest));
            Size(s) >= 2 && Take(s, 2) == Push(a, Push(b, Nil)) && Under(s, 2) == rest
  {
    var s := Push(a, Push(b, rest));
    assert Take(s.below, 1) == Push(b, Nil) && Under(s.below, 1) == rest;
  }

  lemma {:induction false} RunSpawn(site: Site, p: Prop, st: State)
    requires p.callId.SpawnId?
    ensures RunAll(CallOps(site, p), st)
         == Next(CallEffect(site, p, st).(stack := Append(Junk(site, p, st), st.stack)))
  {
    var ops := CallOps(site, p);
    assert RunAll(ops, st) == Run(ops, 3, st);
    assert Run(ops, 2, st) == Next(st.(stack := Push(Word(p.args.1), Push(Word(p.args.0), st.stack))));
    TakeTwo(Word(p.args.1), Word(p.args.0), st.stack);
    assert Append(Junk(site, p, st), st.stack) == Push(I32(Wrap32(st.answer)), st.stack);
  }

  lemma {:induction false} RunExit(site: Site, p: Prop, st: State)
    requires IncFirst(p)
    ensures RunAll(CallOps(site, p), st) == Exit(CallEffect(site, p, st).(stack := Nil))
  {
    var ops := CallOps(site, p);
    assert RunAll(ops, st) == Run(ops, 2, st);
    var s := Push(Word(p.args.0), st.stack);
    assert Take(s, 1) == Push(Word(p.args.0), Nil) && Under(s, 1) == st.stack;
  }

  /** The code for a call id has the call's effect and leaves `Junk` above what was there. */
  lemma {:induction false} RunCall(site: Site, p: Prop, st: State)
    ensures RunAll(CallOps(site, p), st)
         == if IncFirst(p) then Exit(CallEffect(site, p, st).(stack := Nil))
            else Next(CallEffect(site, p, st).(stack := Append(Junk(site, p, st), st.stack)))
  {
    if IncFirst(p) {
      RunExit(site, p, st);
    } else if p.callId.Mmap? {
      RunMmap(site, p, st);
    } else if p.callId.SpawnId? {
      RunSpawn(site, p, st);
    } else if p.callId.WritevId? {
      RunThreeArgs(site, p, Writev, st);
      assert Append(Push(I64(st.answer), Nil), st.stack) == Push(I64(st.answer), st.stack);
    } else if p.callId.Futex? && FutexOpKnown(p) {
      RunThreeArgs(site, p, FutexLog, st);
    }
  }

  lemma {:induction false} RunLog(site: Site, tid: nat, arm: nat, p: Prop, st: State)
    ensures RunAll(LogOps(site, tid, arm, p), st) == Next(Logged(site, tid, arm, p, st))
  {
    if site.debug {
      var vs := LogVals(site, tid, arm, p);
      assert |vs| == 10;
      LogIs(site, tid, arm, p);
      hide *;
      RunConsts(vs, st);
      RunAppend(Consts(vs), [CallHost(LogCall)], st);
      RunLogCall(vs, st);
      LoggedIs(site, tid, arm, p, st);
    }
  }

  lemma LogIs(site: Site, tid: nat, arm: nat, p: Prop)
    requires site.debug
    ensures LogOps(site, tid, arm, p) == Consts(LogVals(site, tid, arm, p)) + [CallHost(LogCall)]
  {
    hide LogVals, Consts;
  }

  lemma LoggedIs(site: Site, tid: nat, arm: nat, p: Prop, st: State)
    requires site.debug
    ensures Logged(site, tid, arm, p, st) == Called(st, LogCall, StackOf(LogVals(site, tid, arm, p)))
  {
    hide LogVals, Called, StackOf;
  }

  /** The host gets the ten values. */
  lemma {:induction false} RunLogCall(vs: seq<Val>, st: State)
    requires |vs| == 10
    ensures RunAll([CallHost(LogCall)], st.(stack := Append(StackOf(vs), st.stack))) == Next(Called(st, LogCall, StackOf(vs)))
  {
    var s := st.(stack := Append(StackOf(vs), st.stack));
    TakeAppend(StackOf(vs), st.stack);
    AppendSize(StackOf(vs), st.stack);
    RunInit([CallHost(LogCall)], s);
    assert [CallHost(LogCall)][..0] == [];
    assert RunAll([], s) == Next(s);
    hide StackOf, RunAll, Take, Under, Append, Size;
  }

  lemma {:induction false} RunCounter(addr: nat, st: State)
    requires st.stack == Push(Word(addr), Nil)
    ensures DoAtomic64(AtomicLoad64(0), st)
         == if CounterAt(st.main, addr) then Next(st.(stack := Push(I64(Counter(st.main, addr)), Nil))) else Trap
  {
  }

  /** Compare the counter `c` with the parameter and start over unless they agree. */
  lemma {:induction false} WaitTest(c: nat, v: nat, st: State)
    requires st.stack == Push(I64(c), Nil) && st.locals == [I64(v)]
    ensures RunAll([LocalGet(0), I64Ne, BrIf(0)], st)
         == if c == v then Next(st.(stack := Nil)) else Jump(0, st.(stack := Nil), NO_PC)
  {
    var ops := [LocalGet(0), I64Ne, BrIf(0)];
    assert RunAll(ops, st) == Run(ops, 3, st);
    assert Run(ops, 1, st) == Next(st.(stack := Push(I64(v), Push(I64(c), Nil))));
    assert Run(ops, 2, st) == Next(st.(stack := Push(Bool32(c != v), Nil)));
  }

  /** One round of the wait loop: leave, or start over with nothing changed. */
  lemma {:induction false} WaitRound(addr: nat, v: nat, st: State)
    requires st.stack == Nil && st.locals == [I64(v)]
    ensures RunAll(WaitOps(addr), st)
         == if !CounterAt(st.main, addr) then Trap
            else if Counter(st.main, addr) == v then Next(st)
            else Jump(0, st, NO_PC)
  {
    var head, test := [I32C(addr), AtomicLoad64(0)], [LocalGet(0), I64Ne, BrIf(0)];
    assert WaitOps(addr) == head + test;
    RunAppend(head, test, st);
    var s1 := st.(stack := Push(Word(addr), Nil));
    assert Run(head, 1, st) == Next(s1);
    assert RunAll(head, st) == Run(head, 2, st) == DoAtomic64(AtomicLoad64(0), s1);
    RunCounter(addr, s1);
    if CounterAt(st.main, addr) {
      var c := Counter(st.main, addr);
      WaitTest(c, v, st.(stack := Push(I64(c), Nil)));
    }
  }

  lemma {:induction false} WaitLoop(fuel: nat, addr: nat, v: nat, next: int, st: State)
    requires st.stack == Nil && st.locals == [I64(v)]
    ensures ExecI(fuel, WaitBody(addr)[0], next, st)
         == if !CounterAt(st.main, addr) then Trap
            else if Counter(st.main, addr) == v then Next(st)
            else Spin
    decreases fuel
  {
    var ops := WaitOps(addr);
    ExecRun(fuel, ops, NO_PC, st);
    WaitRound(addr, v, st);
    assert Append(Nil, Nil) == Nil;
    if fuel > 0 && CounterAt(st.main, addr) && Counter(st.main, addr) != v {
      assert Exec(fuel, Lift(ops), NO_PC, st) == Jump(0, st, NO_PC);
      WaitLoop(fuel - 1, addr, v, next, st);
    }
  }

  /**
   * The wait function returns just when the counter holds its parameter; otherwise, with no
   * other thread to move the counter, no bound on the iterations makes it return.
   */
  lemma {:induction false} WaitFunction(fuel: nat, addr: nat, v: nat, next: int, rest: Stack, st: State)
    requires st.stack == Push(I64(v), rest)
    ensures ExecI(fuel, WaitCall(addr), next, st)
         == if !CounterAt(st.main, addr) then Trap
            else if Counter(st.main, addr) == v then Next(st.(stack := rest))
            else Spin
  {
    var inner := st.(stack := Nil, locals := [I64(v)]);
    assert Args(Take(st.stack, 1)) == [I64(v)] && Under(st.stack, 1) == rest by {
      assert Take(st.stack, 1) == Push(I64(v), Nil);
      assert Args(Nil) == [];
    }
    var body := WaitBody(addr);
    WaitLoop(fuel, addr, v, NO_PC, inner);
    assert body[1..] == [];
    var o := ExecI(fuel, body[0], NO_PC, inner);
    assert Exec(fuel, body, NO_PC, inner) == o;
    assert Append(Nil, rest) == rest;
  }

  lemma {:induction false} CallEffectStack(site: Site, p: Prop, st: State, x: Stack)
    ensures CallEffect(site, p, st.(stack := x)) == CallEffect(site, p, st).(stack := x)
    ensures CallEffect(site, p, st).stack == st.stack
  {
    var t := st.(stack := x);
    match p.callId
    case Mmap => assert Grown(t, Wrap32(p.args.0)) == Grown(st, Wrap32(p.args.0));
    case WritevId => assert Called(t, Writev, Args3(p)) == Called(st, Writev, Args3(p)).(stack := x);
    case SpawnId =>
    case Futex => assert Called(t, FutexLog, Args3(p)) == Called(st, FutexLog, Args3(p)).(stack := x);
    case ThreadExitId =>
    case ProcExitId =>
    case Generic =>
    case OtherId(_) =>
  }

  /** The operands an arm leaves: the recorded value, and above it whatever the call id's code forgot. */
  function Left(site: Site, p: Prop, st: State): Stack {
    Append(Junk(site, p, st), Append(Returned(site.ret, p), st.stack))
  }

  lemma {:induction false} RunSide(site: Site, p: Prop, st: State)
    requires Supported(p)
    ensures RunAll(SideOps(site, p), st)
         == if IncFirst(p) then Exit(CallEffect(site, p, st).(stack := Nil))
            else match StoreAll(CallEffect(site, p, st).main, p.stores)
                 case Faulty => Trap
                 case Memory(d) => Next(CallEffect(site, p, st).(main := d, stack := Left(site, p, st)))
  {
    var ret, call, stores := ReturnValue(site.ret, p.returnVal), CallOps(site, p), AllStoreOps(p.stores);
    var s1 := st.(stack := Append(Returned(site.ret, p), st.stack));
    RunReturn(site.ret, p.returnVal, st);
    assert RunAll(ret, st) == Next(s1) by {
      if site.ret.Ret? { assert Append(Nil, st.stack) == st.stack; }
    }
    RunAppend(ret + call, stores, st);
    RunAppend(ret, call, st);
    RunCall(site, p, s1);
    CallEffectStack(site, p, st, s1.stack);
    assert Junk(site, p, s1) == Junk(site, p, st);
    if !IncFirst(p) {
      RunStores(p.stores, CallEffect(site, p, st).(stack := Left(site, p, st)));
    }
  }

  function Tail(site: Site, p: Prop): seq<Plain> {
    if IncFirst(p) then IncOps(site.syncAddr) + SideOps(site, p)
    else SideOps(site, p) + IncOps(site.syncAddr)
  }

  /** What follows the wait: log, side effects and the counter, in the prop's order. */
  lemma {:induction false} RunAfterWait(site: Site, tid: nat, arm: nat, p: Prop, st: State)
    requires Supported(p) && CounterAt(st.main, site.syncAddr)
    requires Counter(st.main, site.syncAddr) == Wrap64(p.syncId - 1)
    ensures RunAll(Tail(site, p), Logged(site, tid, arm, p, st))
         == match Effect(site, tid, arm, p, st)
            case Next(s) => Next(s.(stack := Left(site, p, st)))
            case o => o
  {
    var s0 := Logged(site, tid, arm, p, st);
    assert s0.main == st.main && s0.stack == st.stack && s0.answer == st.answer;
    if IncFirst(p) {
      RunIncSide(site, p, s0);
    } else {
      RunSideInc(site, p, s0);
      assert Left(site, p, s0) == Left(site, p, st);
    }
  }

  lemma {:induction false} RunIncSide(site: Site, p: Prop, s0: State)
    requires Supported(p) && IncFirst(p) && CounterAt(s0.main, site.syncAddr)
    ensures RunAll(IncOps(site.syncAddr) + SideOps(site, p), s0)
         == Exit(CallEffect(site, p, s0.(main := Bump(s0.main, site.syncAddr))).(stack := Nil))
  {
    RunAppend(IncOps(site.syncAddr), SideOps(site, p), s0);
    RunInc(site.syncAddr, s0);
    RunSide(site, p, s0.(main := Bump(s0.main, site.syncAddr)));
  }

  lemma {:induction false} RunSideInc(site: Site, p: Prop, s0: State)
    requires Supported(p) && !IncFirst(p)
    ensures RunAll(SideOps(site, p) + IncOps(site.syncAddr), s0)
         == match Settle(site, p, CallEffect(site, p, s0))
            case Next(s) => Next(s.(stack := Left(site, p, s0)))
            case o => o
  {
    RunAppend(SideOps(site, p), IncOps(site.syncAddr), s0);
    RunSide(site, p, s0);
    var m := StoreAll(CallEffect(site, p, s0).main, p.stores);
    if m.Memory? {
      RunInc(site.syncAddr, CallEffect(site, p, s0).(main := m.data, stack := Left(site, p, s0)));
    }
  }

  /** One arm, whatever the call id: the prop's effect, with the operands `Left` describes. */
  lemma {:induction false} ArmExec(fuel: nat, site: Site, tid: nat, arm: nat, p: Prop, end: int, st: State)
    requires Supported(p)
    ensures Exec(fuel, PropCode(site, tid, arm, p), end, st)
         == match Effect(site, tid, arm, p, st)
            case Next(s) => Next(s.(stack := Left(site, p, st)))
            case o => o
  {
    hide Effect, Wrap64, LogOps, Tail, Left, Logged;
    var turn := Wrap64(p.syncId - 1);
    var log, rest := LogOps(site, tid, arm, p), Tail(site, p);
    var c1, c2, c3, c4 := Lift([I64C(turn)]), [WaitCall(site.syncAddr)], Lift(log), Lift(rest);
    PropCodeParts(site, tid, arm, p);
    ExecAppend(fuel, c1 + c2 + c3, c4, end, st);
    ExecAppend(fuel, c1 + c2, c3, PcAt(c4, end), st);
    ExecWait(fuel, site, turn, PcAt(c3, PcAt(c4, end)), st);
    EffectBlocked(site, tid, arm, p, st);
    if CounterAt(st.main, site.syncAddr) && Counter(st.main, site.syncAddr) == turn {
      ExecRun(fuel, log, PcAt(c4, end), st);
      RunLog(site, tid, arm, p, st);
      ExecRun(fuel, rest, end, Logged(site, tid, arm, p, st));
      RunAfterWait(site, tid, arm, p, st);
    }
  }

  lemma {:induction false} PropCodeParts(site: Site, tid: nat, arm: nat, p: Prop)
    ensures PropCode(site, tid, arm, p)
         == Lift([I64C(Wrap64(p.syncId - 1))]) + [WaitCall(site.syncAddr)]
            + Lift(LogOps(site, tid, arm, p)) + Lift(Tail(site, p))
  {
  }

  lemma {:induction false} EffectBlocked(site: Site, tid: nat, arm: nat, p: Prop, st: State)
    ensures !CounterAt(st.main, site.syncAddr) ==> Effect(site, tid, arm, p, st) == Trap
    ensures CounterAt(st.main, site.syncAddr) && Counter(st.main, site.syncAddr) != Wrap64(p.syncId - 1)
        ==> Effect(site, tid, arm, p, st) == Spin
  {
    hide CounterAt, Counter, Wrap64, Logged, IncFirst, CallEffect, Bump, Settle;
  }

  lemma {:induction false} ExecWait(fuel: nat, site: Site, turn: nat, end: int, st: State)
    ensures Exec(fuel, Lift([I64C(turn)]) + [WaitCall(site.syncAddr)], end, st)
         == if !CounterAt(st.main, site.syncAddr) then Trap
            else if Counter(st.main, site.syncAddr) == turn then Next(st)
            else Spin
  {
    var c1, w := Lift([I64C(turn)]), WaitCall(site.syncAddr);
    ExecAppend(fuel, c1, [w], end, st);
    ExecRun(fuel, [I64C(turn)], PcAt([w], end), st);
    var s1 := st.(stack := Push(I64(turn), st.stack));
    assert RunAll([I64C(turn)], st) == Run([I64C(turn)], 1, st) == Next(s1);
    WaitFunction(fuel, site.syncAddr, turn, end, st.stack, s1);
    assert [w][1..] == [];
  }

  /** The recorded value is what an arm leaves on top, with nothing above it, just for the neutral call ids. */
  lemma {:induction false} CleanIffNeutral(site: Site, p: Prop, st: State)
    ensures Left(site, p, st) == Append(Returned(site.ret, p), st.stack) <==> Neutral(site, p)
  {
    AppendSize(Junk(site, p, st), Append(Returned(site.ret, p), st.stack));
  }
}
