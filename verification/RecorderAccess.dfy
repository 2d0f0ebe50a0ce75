/** A whole recorded access: the program sees the original one, and the shadow keeps up. */
module RecorderAccess {
  import opened Bytes
  import opened Wasm
  import opened Recorder
  import opened RecorderSteps

  /** Room for the recorder: the program's `n` locals and the pool behind them, memories of equal size, no lock held. */
  predicate Ready(n: nat, st: State) {
    |st.locals| == n + POOL && |st.shadow| == |st.main| <= TWO32 && !st.locked
  }

  lemma {:induction false} ExecThree(fuel: nat, a: seq<Plain>, b: Instr, c: seq<Plain>, end: int, st: State)
    ensures Exec(fuel, Lift(a) + [b] + Lift(c), end, st)
         == match RunAll(a, st)
            case Next(s1) => (match ExecI(fuel, b, PcAt(Lift(c), end), s1) case Next(s2) => RunAll(c, s2) case o => o)
            case o => o
  {
    hide RunAll, ExecI, Lift;
    ExecAppend(fuel, Lift(a) + [b], Lift(c), end, st);
    ExecAppend(fuel, Lift(a), [b], PcAt(Lift(c), end), st);
    ExecRun(fuel, a, PcAt([b], PcAt(Lift(c), end)), st);
    var o := RunAll(a, st);
    if o.Next? {
      ExecOne(fuel, b, PcAt(Lift(c), end), o.st);
      var o2 := ExecI(fuel, b, PcAt(Lift(c), end), o.st);
      if o2.Next? { ExecRun(fuel, c, end, o2.st); }
    }
  }

  // ----- loads -----

  lemma {:induction false} LoadFront(fuel: nat, n: nat, x: Access, a: nat, rest: Stack, end: int, st: State)
    requires ValidAccess(x) && x.kind.LoadK? && Ready(n, st) && st.stack == Push(I32(a), rest)
    ensures var s, ea := SlotsOf(n, x), a + x.offset;
      Exec(fuel, Lift([CallHost(Lock)]) + [ShadowBlock(s, x)] + Lift([Original(x)]), end, st)
      == if ea + x.width > |st.main| then Trap
         else Next(st.(locked := true, stack := Push(At(x, st.main, ea), rest),
                       locals := st.locals[s.base := I32(a)][s.ret := At(x, st.shadow, ea)]))
  {
    hide Extend, Peek, ShadowBlock;
    var s, ea := SlotsOf(n, x), a + x.offset;
    ExecThree(fuel, [CallHost(Lock)], ShadowBlock(s, x), [Original(x)], end, st);
    RunOne(CallHost(Lock), st);
    var s1 := st.(locked := true);
    LoadSetup(fuel, n, x, a, rest, PcAt(Lift([Original(x)]), end), s1);
    var s2 := s1.(locals := st.locals[s.base := I32(a)][s.ret := if ea + x.width <= |st.shadow| then At(x, st.shadow, ea) else I32(0)]);
    RunOne(Original(x), s2);
  }

  lemma {:induction false} LoadMiddle(n: nat, x: Access, a: nat, v: nat, w: nat, rest: Stack, st: State)
    requires ValidAccess(x) && x.kind.LoadK? && |st.locals| == n + POOL
    requires st.stack == Push(MakeVal(x.ty, v), rest)
    requires st.locals[SlotsOf(n, x).ret] == MakeVal(x.ty, w) && st.locals[SlotsOf(n, x).base] == I32(a)
    ensures var s, d, full := SlotsOf(n, x), Bool32(v != w), Wrap32(x.offset + a);
      RunAll(CompareOps(s, x) + ReportOps(s, x), st)
      == Next(st.(stack := Report(x, full, Push(d, st.stack)),
                  locals := st.locals[s.main := MakeVal(x.ty, v)][s.differ := d][s.full := I32(full)]))
  {
    hide CompareOps, ReportOps, Wrap32, Report;
    var s, d := SlotsOf(n, x), Bool32(v != w);
    RunAppend(CompareOps(s, x), ReportOps(s, x), st);
    LoadCompare(s, x, v, w, rest, st);
    var s1 := st.(stack := Push(d, st.stack), locals := st.locals[s.main := MakeVal(x.ty, v)][s.differ := d]);
    RunReport(s, x, a, s1);
  }

  /** The locals after a recorded load. */
  function LoadLocals(s: Slots, x: Access, a: nat, v: nat, w: nat, ls: seq<Val>): (r: seq<Val>)
    requires s.base < |ls| && s.ret < |ls| && s.main < |ls| && s.differ < |ls| && s.full < |ls|
    ensures |r| == |ls|
  {
    ls[s.base := I32(a)][s.ret := MakeVal(x.ty, w)][s.main := MakeVal(x.ty, v)][s.differ := Bool32(v != w)]
      [s.full := I32(Wrap32(x.offset + a))]
  }

  lemma {:induction false} LoadBack(fuel: nat, n: nat, x: Access, a: nat, v: nat, w: nat, rest: Stack, end: int, st: State, ls: seq<Val>)
    requires ValidAccess(x) && x.kind.LoadK? && |ls| == n + POOL
    requires st.locals == LoadLocals(SlotsOf(n, x), x, a, v, w, ls)
    requires Wrap32(x.offset + a) == x.offset + a && x.offset + a + x.width <= |st.shadow|
    requires st.stack == Report(x, x.offset + a, Push(Bool32(v != w), rest))
    ensures var s, ea := SlotsOf(n, x), x.offset + a;
      var o := Exec(fuel, [WriteBack(s, x)] + Lift(LastOps(s, x)), end, st);
      && o.Next? && |o.st.locals| == n + POOL && o.st.locals[..n] == ls[..n]
      && var ls' := o.st.locals;
      && (v != w ==> ls'[s.main64] == I64(v) && ls'[s.shadow64] == I64(w))
      && o.st == st.(stack := rest, locked := false, locals := ls',
           shadow := if v != w then Poke(st.shadow, ea, ToLE(v, x.width)) else st.shadow,
           host := st.host + [HostCall(Trace, TraceArgs(Bool32(v != w), x, ea, ls'[s.main64], ls'[s.shadow64]))])
  {
    hide Poke, ToLE, LastOps, WriteBack, Report, TraceArgs, Wrap32;
    var s, k := SlotsOf(n, x), st.locals;
    assert k[..n] == ls[..n];
    assert k[s.differ] == Bool32(v != w) && k[s.full] == I32(x.offset + a);
    assert k[s.main] == MakeVal(x.ty, v) && k[s.ret] == MakeVal(x.ty, w);
    if v == w {
      LoadBackSame(fuel, n, x, x.offset + a, rest, end, st);
    } else {
      LoadBackDiffer(fuel, n, x, x.offset + a, v, w, rest, end, st);
      assert k[s.main64 := I64(v)][s.shadow64 := I64(w)][..n] == k[..n];
    }
  }

  lemma {:induction false} BackIs(fuel: nat, s: Slots, x: Access, end: int, st: State)
    ensures Exec(fuel, [WriteBack(s, x)] + Lift(LastOps(s, x)), end, st)
         == match ExecI(fuel, WriteBack(s, x), PcAt(Lift(LastOps(s, x)), end), st)
            case Next(s1) => RunAll(LastOps(s, x), s1)
            case o => o
  {
    hide WriteBack, LastOps;
    ExecThree(fuel, [], WriteBack(s, x), LastOps(s, x), end, st);
    assert Lift([]) + [WriteBack(s, x)] == [WriteBack(s, x)];
    assert RunAll([], st) == Next(st);
  }

  lemma {:induction false} LoadBackSame(fuel: nat, n: nat, x: Access, ea: nat, rest: Stack, end: int, st: State)
    requires x.kind.LoadK? && |st.locals| == n + POOL && st.locals[SlotsOf(n, x).differ] == I32(0)
    requires st.stack == Report(x, ea, Push(I32(0), rest))
    ensures var s, k := SlotsOf(n, x), st.locals;
      Exec(fuel, [WriteBack(s, x)] + Lift(LastOps(s, x)), end, st)
      == Next(st.(stack := rest, locked := false,
           host := st.host + [HostCall(Trace, TraceArgs(I32(0), x, ea, k[s.main64], k[s.shadow64]))]))
  {
    hide LastOps, WriteBack, Report, TraceArgs;
    var s, k := SlotsOf(n, x), st.locals;
    BackIs(fuel, s, x, end, st);
    WriteBackSkipped(fuel, s, x, PcAt(Lift(LastOps(s, x)), end), st);
    RunLast(s, x, I32(0), ea, k[s.main64], k[s.shadow64], rest, st);
  }

  lemma {:induction false} LoadBackDiffer(
      fuel: nat, n: nat, x: Access, ea: nat, v: nat, w: nat, rest: Stack, end: int, st: State)
    requires ValidAccess(x) && x.kind.LoadK? && |st.locals| == n + POOL && ea + x.width <= |st.shadow|
    requires var s, k := SlotsOf(n, x), st.locals;
      k[s.differ] == I32(1) && k[s.full] == I32(ea) && k[s.main] == MakeVal(x.ty, v) && k[s.ret] == MakeVal(x.ty, w)
    requires st.stack == Report(x, ea, Push(I32(1), rest))
    ensures var s := SlotsOf(n, x);
      Exec(fuel, [WriteBack(s, x)] + Lift(LastOps(s, x)), end, st)
      == Next(st.(stack := rest, locked := false, shadow := Poke(st.shadow, ea, ToLE(v, x.width)),
           locals := st.locals[s.main64 := I64(v)][s.shadow64 := I64(w)],
           host := st.host + [HostCall(Trace, TraceArgs(I32(1), x, ea, I64(v), I64(w)))]))
  {
    hide Poke, ToLE, LastOps, WriteBack, Report, TraceArgs;
    var s := SlotsOf(n, x);
    BackIs(fuel, s, x, end, st);
    WriteBackDone(fuel, s, x, ea, v, w, PcAt(Lift(LastOps(s, x)), end), st);
    var s1 := st.(shadow := Poke(st.shadow, ea, ToLE(v, x.width)),
                  locals := st.locals[s.main64 := I64(v)][s.shadow64 := I64(w)]);
    RunLast(s, x, I32(1), ea, I64(v), I64(w), rest, s1);
  }

  /** The shadow after a load found `v` in the program's memory and `w` in the shadow. */
  function Synced(x: Access, shadow: seq<byte>, ea: nat, v: nat, w: nat): seq<byte>
    requires ea + x.width <= |shadow|
  {
    if v != w then Poke(shadow, ea, ToLE(v, x.width)) else shadow
  }

  function RawAt(x: Access, m: seq<byte>, ea: nat): nat
    requires x.kind.LoadK? && ea + x.width <= |m|
  {
    Extend(x.ty, x.kind.signed, Peek(m, ea, x.width))
  }

  /** The outcome of a recorded load at `ea`, up to the recorder's own locals. */
  ghost predicate LoadDone(n: nat, x: Access, ea: nat, rest: Stack, st: State, t: State)
    requires x.kind.LoadK? && ea + x.width <= |st.main| && |st.shadow| == |st.main|
  {
    var v, w := RawAt(x, st.main, ea), RawAt(x, st.shadow, ea);
    var s := SlotsOf(n, x);
    && |t.locals| == n + POOL == |st.locals| && t.locals[..n] == st.locals[..n]
    && (v != w ==> t.locals[s.main64] == I64(v) && t.locals[s.shadow64] == I64(w))
    && t == st.(stack := Push(MakeVal(x.ty, v), rest), locked := false, locals := t.locals,
                shadow := Synced(x, st.shadow, ea, v, w),
                host := st.host + [HostCall(Trace, TraceArgs(Bool32(v != w), x, ea, t.locals[s.main64], t.locals[s.shadow64]))])
  }

  lemma {:induction false} LoadRecorded(fuel: nat, n: nat, x: Access, a: nat, rest: Stack, end: int, st: State)
    requires ValidAccess(x) && x.kind.LoadK? && Ready(n, st) && st.stack == Push(I32(a), rest)
    ensures a + x.offset + x.width > |st.main| ==> Exec(fuel, Recorded(n, x), end, st) == Trap
    ensures a + x.offset + x.width <= |st.main| ==>
      var o := Exec(fuel, Recorded(n, x), end, st);
      o.Next? && LoadDone(n, x, a + x.offset, rest, st, o.st)
  {
    hide Extend, Peek, Poke, ToLE, Middle, Back, Recorded, ShadowBlock, Lift, Original;
    var s, ea := SlotsOf(n, x), a + x.offset;
    RecordedParts(n, x);
    LoadFront(fuel, n, x, a, rest, PcAt(Lift(Middle(s, x)) + Back(s, x), end), st);
    if ea + x.width > |st.main| {
      FrontTraps(fuel, Front(s, x), Middle(s, x), Back(s, x), end, st);
    } else {
      LoadBehindFront(fuel, n, x, a, rest, end, st);
    }
  }

  function Front(s: Slots, x: Access): seq<Instr> {
    Lift([CallHost(Lock)]) + [ShadowBlock(s, x)] + Lift([Original(x)])
  }

  function Middle(s: Slots, x: Access): seq<Plain> {
    CompareOps(s, x) + ReportOps(s, x)
  }

  function Back(s: Slots, x: Access): seq<Instr> {
    (if x.kind.LoadK? then [WriteBack(s, x)] else []) + Lift(LastOps(s, x))
  }

  lemma {:induction false} RecordedParts(n: nat, x: Access)
    ensures var s := SlotsOf(n, x); Recorded(n, x) == Front(s, x) + (Lift(Middle(s, x)) + Back(s, x))
  {
    hide ShadowBlock, CompareOps, ReportOps, LastOps, WriteBack, Lift, Original;
  }

  lemma {:induction false} FrontTraps(fuel: nat, front: seq<Instr>, mid: seq<Plain>, back: seq<Instr>, end: int, st: State)
    requires Exec(fuel, front, PcAt(Lift(mid) + back, end), st) == Trap
    ensures Exec(fuel, front + (Lift(mid) + back), end, st) == Trap
  {
    ExecAppend(fuel, front, Lift(mid) + back, end, st);
  }

  lemma {:induction false} ThreeStages(
      fuel: nat, front: seq<Instr>, mid: seq<Plain>, back: seq<Instr>, end: int, st: State, s1: State, s2: State)
    requires Exec(fuel, front, PcAt(Lift(mid) + back, end), st) == Next(s1)
    requires RunAll(mid, s1) == Next(s2)
    ensures Exec(fuel, front + (Lift(mid) + back), end, st) == Exec(fuel, back, end, s2)
  {
    hide Lift, RunAll;
    ExecAppend(fuel, front, Lift(mid) + back, end, st);
    ExecAppend(fuel, Lift(mid), back, end, s1);
    ExecRun(fuel, mid, PcAt(back, end), s1);
  }

  lemma {:induction false} LoadBehindFront(fuel: nat, n: nat, x: Access, a: nat, rest: Stack, end: int, st: State)
    requires ValidAccess(x) && x.kind.LoadK? && Ready(n, st) && st.stack == Push(I32(a), rest)
    requires a + x.offset + x.width <= |st.main|
    ensures var s := SlotsOf(n, x);
      var o := Exec(fuel, Front(s, x) + (Lift(Middle(s, x)) + Back(s, x)), end, st);
      o.Next? && LoadDone(n, x, a + x.offset, rest, st, o.st)
  {
    hide Extend, Peek, Poke, ToLE, ShadowBlock, CompareOps, ReportOps, LastOps, WriteBack, Report, TraceArgs, Lift, Original, Wrap32;
    var s, ea := SlotsOf(n, x), a + x.offset;
    var v, w := RawAt(x, st.main, ea), RawAt(x, st.shadow, ea);
    LoadFront(fuel, n, x, a, rest, PcAt(Lift(Middle(s, x)) + Back(s, x), end), st);
    var s1 := st.(locked := true, stack := Push(MakeVal(x.ty, v), rest),
                  locals := st.locals[s.base := I32(a)][s.ret := MakeVal(x.ty, w)]);
    LoadMiddle(n, x, a, v, w, rest, s1);
    FullAddress(x, a, |st.main|);
    var s2 := s1.(stack := Report(x, ea, Push(Bool32(v != w), s1.stack)), locals := LoadLocals(s, x, a, v, w, st.locals));
    ThreeStages(fuel, Front(s, x), Middle(s, x), Back(s, x), end, st, s1, s2);
    LoadBack(fuel, n, x, a, v, w, s1.stack, end, s2, st.locals);
  }

  // ----- stores -----

  lemma {:induction false} StoreFront(fuel: nat, n: nat, x: Access, a: nat, v: Val, rest: Stack, end: int, st: State)
    requires ValidAccess(x) && x.kind.StoreK? && Ready(n, st) && TypeOf(v) == x.ty
    requires st.stack == Push(v, Push(I32(a), rest))
    ensures var s, ea := SlotsOf(n, x), a + x.offset;
      Exec(fuel, Lift([CallHost(Lock)]) + [ShadowBlock(s, x)] + Lift([Original(x)]), end, st)
      == if ea + x.width > |st.main| then Trap
         else Next(st.(locked := true, stack := rest, locals := st.locals[s.value := v][s.base := I32(a)],
                       main := Poke(st.main, ea, ToLE(v.n, x.width)), shadow := Poke(st.shadow, ea, ToLE(v.n, x.width))))
  {
    hide Poke, ToLE, ShadowBlock, Exec, RunAll;
    var s, ea := SlotsOf(n, x), a + x.offset;
    ExecThree(fuel, [CallHost(Lock)], ShadowBlock(s, x), [Original(x)], end, st);
    RunOne(CallHost(Lock), st);
    var s1 := st.(locked := true);
    StoreSetup(fuel, n, x, a, v, rest, PcAt(Lift([Original(x)]), end), s1);
    if ea + x.width <= |st.main| {
      StoreItself(n, x, a, v, rest, s1.(locals := st.locals[s.value := v][s.base := I32(a)],
                                        shadow := Poke(st.shadow, ea, ToLE(v.n, x.width))));
    }
  }

  /** The program's own store. */
  lemma {:induction false} StoreItself(n: nat, x: Access, a: nat, v: Val, rest: Stack, st: State)
    requires ValidAccess(x) && x.kind.StoreK? && TypeOf(v) == x.ty && st.stack == Push(v, Push(I32(a), rest))
    requires a + x.offset + x.width <= |st.main|
    ensures RunAll([Original(x)], st)
         == Next(st.(stack := rest, main := Poke(st.main, a + x.offset, ToLE(v.n, x.width))))
  {
    hide Poke, ToLE, RunAll;
    RunOne(Original(x), st);
  }

  ghost predicate StoreDone(n: nat, x: Access, ea: nat, v: Val, rest: Stack, st: State, t: State)
    requires ea + x.width <= |st.main| && |st.shadow| == |st.main|
  {
    && |t.locals| == n + POOL == |st.locals| && t.locals[..n] == st.locals[..n]
    && t == st.(stack := rest, locked := false, locals := t.locals,
                main := Poke(st.main, ea, ToLE(v.n, x.width)), shadow := Poke(st.shadow, ea, ToLE(v.n, x.width)),
                host := st.host + [HostCall(Trace, TraceArgs(I32(0), x, ea, I64(0), I64(0)))])
  }

  lemma {:induction false} StoreRecorded(fuel: nat, n: nat, x: Access, a: nat, v: Val, rest: Stack, end: int, st: State)
    requires ValidAccess(x) && x.kind.StoreK? && Ready(n, st) && TypeOf(v) == x.ty
    requires st.stack == Push(v, Push(I32(a), rest))
    ensures a + x.offset + x.width > |st.main| ==> Exec(fuel, Recorded(n, x), end, st) == Trap
    ensures a + x.offset + x.width <= |st.main| ==>
      var o := Exec(fuel, Recorded(n, x), end, st);
      o.Next? && StoreDone(n, x, a + x.offset, v, rest, st, o.st)
  {
    hide Poke, ToLE, Middle, Back, Recorded, ShadowBlock, Lift, Original;
    var s, ea := SlotsOf(n, x), a + x.offset;
    RecordedParts(n, x);
    StoreFront(fuel, n, x, a, v, rest, PcAt(Lift(Middle(s, x)) + Back(s, x), end), st);
    if ea + x.width > |st.main| {
      FrontTraps(fuel, Front(s, x), Middle(s, x), Back(s, x), end, st);
    } else {
      StoreBehindFront(fuel, n, x, a, v, rest, end, st);
    }
  }

  lemma {:induction false} StoreMiddle(s: Slots, x: Access, a: nat, st: State)
    requires x.kind.StoreK? && s.differ < |st.locals| && s.base < |st.locals| && s.full < |st.locals|
    requires st.locals[s.base] == I32(a) && s.differ != s.base
    ensures RunAll(Middle(s, x), st)
         == Next(st.(stack := Report(x, Wrap32(x.offset + a), Push(I32(0), st.stack)),
                     locals := st.locals[s.differ := I32(0)][s.full := I32(Wrap32(x.offset + a))]))
  {
    hide Report, Wrap32, CompareOps, ReportOps;
    RunAppend(CompareOps(s, x), ReportOps(s, x), st);
    StoreCompare(s, x, st);
    RunReport(s, x, a, st.(stack := Push(I32(0), st.stack), locals := st.locals[s.differ := I32(0)]));
  }

  lemma {:induction false} StoreBehindFront(
      fuel: nat, n: nat, x: Access, a: nat, v: Val, rest: Stack, end: int, st: State)
    requires ValidAccess(x) && x.kind.StoreK? && Ready(n, st) && TypeOf(v) == x.ty
    requires st.stack == Push(v, Push(I32(a), rest)) && a + x.offset + x.width <= |st.main|
    ensures var s := SlotsOf(n, x);
      var o := Exec(fuel, Front(s, x) + (Lift(Middle(s, x)) + Back(s, x)), end, st);
      o.Next? && StoreDone(n, x, a + x.offset, v, rest, st, o.st)
  {
    hide Poke, ToLE, ShadowBlock, LastOps, Report, TraceArgs, Lift, Original, Wrap32, Middle;
    var s, ea := SlotsOf(n, x), a + x.offset;
    StoreFront(fuel, n, x, a, v, rest, PcAt(Lift(Middle(s, x)) + Back(s, x), end), st);
    var s1 := st.(locked := true, stack := rest, locals := st.locals[s.value := v][s.base := I32(a)],
                  main := Poke(st.main, ea, ToLE(v.n, x.width)), shadow := Poke(st.shadow, ea, ToLE(v.n, x.width)));
    StoreMiddle(s, x, a, s1);
    FullAddress(x, a, |st.main|);
    var s2 := s1.(stack := Report(x, ea, Push(I32(0), rest)), locals := s1.locals[s.differ := I32(0)][s.full := I32(ea)]);
    ThreeStages(fuel, Front(s, x), Middle(s, x), Back(s, x), end, st, s1, s2);
    assert Back(s, x) == Lift(LastOps(s, x));
    ExecRun(fuel, LastOps(s, x), end, s2);
    RunLast(s, x, I32(0), ea, I64(0), I64(0), rest, s2);
    assert s2.locals[..n] == st.locals[..n];
  }

  /** In bounds, the address computed with wrap-around is the effective address. */
  lemma FullAddress(x: Access, a: nat, size: nat)
    requires x.width >= 1 && a + x.offset + x.width <= size <= TWO32
    ensures Wrap32(x.offset + a) == a + x.offset
  {
  }

  // ----- the shadow after a load -----

  /** After any load, the shadow holds the bytes the program loaded. */
  lemma {:induction false} ShadowCaughtUp(x: Access, main: seq<byte>, shadow: seq<byte>, ea: nat)
    requires ValidAccess(x) && x.kind.LoadK? && |shadow| == |main| && ea + x.width <= |main|
    ensures var t := Synced(x, shadow, ea, RawAt(x, main, ea), RawAt(x, shadow, ea));
      |t| == |shadow| && Peek(t, ea, x.width) == Peek(main, ea, x.width) && RawAt(x, t, ea) == RawAt(x, main, ea)
  {
    hide Extend, ToLE;
    var bs, cs := Peek(main, ea, x.width), Peek(shadow, ea, x.width);
    if RawAt(x, main, ea) == RawAt(x, shadow, ea) {
      ExtendInjective(x.ty, x.kind.signed, bs, cs);
    } else {
      ExtendLow(x.ty, x.kind.signed, bs);
      PokePeek(shadow, ea, bs);
    }
  }
}
