/** The recorder's inserted pieces, one by one, and a whole recorded access. */
module RecorderSteps {
  import opened Bytes
  import opened Wasm
  import opened Recorder

  /** The value an access of type `x.ty` finds at effective address `ea` of `m`. */
  function At(x: Access, m: seq<byte>, ea: nat): Val
    requires x.kind.LoadK? && ea + x.width <= |m|
  {
    MakeVal(x.ty, Extend(x.ty, x.kind.signed, Peek(m, ea, x.width)))
  }

  lemma {:induction false} LoadSetup(fuel: nat, n: nat, x: Access, a: nat, rest: Stack, next: int, st: State)
    requires ValidAccess(x) && x.kind.LoadK?
    requires |st.locals| == n + POOL && st.stack == Push(I32(a), rest)
    ensures var s, ea := SlotsOf(n, x), a + x.offset;
      ExecI(fuel, ShadowBlock(s, x), next, st)
      == if ea + x.width > |st.shadow| then Trap
         else Next(st.(locals := st.locals[s.base := I32(a)][s.ret := At(x, st.shadow, ea)]))
  {
    hide DoLoad, At;
    var s := SlotsOf(n, x);
    var inner := st.(stack := Push(I32(a), Nil));
    assert Take(st.stack, 1) == Push(I32(a), Nil) && Under(st.stack, 1) == rest;
    assert Append(Push(I32(a), Nil), rest) == Push(I32(a), Append(Nil, rest));
    assert Size(Push(I32(a), Nil)) == 1;
    ExecRun(fuel, SaveLoad(s, x), NO_PC, inner);
    RunSaveLoad(s, x, a, inner);
  }

  function SaveLoad(s: Slots, x: Access): seq<Plain> {
    [LocalTee(s.base), LocalGet(s.base), OnShadow(x), LocalSet(s.ret)]
  }

  lemma {:induction false} RunSaveLoad(s: Slots, x: Access, a: nat, inner: State)
    requires s.ret < |inner.locals| && s.base < |inner.locals| && s.ret != s.base
    requires x.kind.LoadK? && inner.stack == Push(I32(a), Nil)
    ensures RunAll(SaveLoad(s, x), inner)
         == if a + x.offset + x.width > |inner.shadow| then Trap
            else Next(inner.(locals := inner.locals[s.base := I32(a)][s.ret := At(x, inner.shadow, a + x.offset)]))
  {
    hide DoLoad, At;
    var ops := SaveLoad(s, x);
    assert RunAll(ops, inner) == Run(ops, 4, inner);
    var s1 := inner.(locals := inner.locals[s.base := I32(a)]);
    assert Run(ops, 1, inner) == Next(s1);
    var s2 := s1.(stack := Push(I32(a), inner.stack));
    assert Run(ops, 2, inner) == Next(s2);
    LoadOnShadow(x, a, inner.stack, s2);
  }

  lemma {:induction false} LoadOnShadow(x: Access, a: nat, rest: Stack, st: State)
    requires x.kind.LoadK? && st.stack == Push(I32(a), rest)
    ensures DoLoad(x.ty, x.width, x.kind.signed, Shadow, x.offset, st)
         == if a + x.offset + x.width > |st.shadow| then Trap
            else Next(st.(stack := Push(At(x, st.shadow, a + x.offset), rest)))
  {
    hide Extend, Peek;
  }

  lemma {:induction false} StoreSetup(
      fuel: nat, n: nat, x: Access, a: nat, v: Val, rest: Stack, next: int, st: State)
    requires ValidAccess(x) && x.kind.StoreK? && TypeOf(v) == x.ty
    requires |st.locals| == n + POOL && st.stack == Push(v, Push(I32(a), rest))
    ensures var s, ea := SlotsOf(n, x), a + x.offset;
      ExecI(fuel, ShadowBlock(s, x), next, st)
      == if ea + x.width > |st.shadow| then Trap
         else Next(st.(locals := st.locals[s.value := v][s.base := I32(a)],
                       shadow := Poke(st.shadow, ea, ToLE(v.n, x.width))))
  {
    hide Poke, ToLE, DoStore;
    var s := SlotsOf(n, x);
    var two := Push(v, Push(I32(a), Nil));
    var inner := st.(stack := two);
    assert Take(st.stack, 2) == two && Under(st.stack, 2) == rest by {
      assert Take(st.stack.below, 1) == Push(I32(a), Nil) && Under(st.stack.below, 1) == rest;
    }
    assert Size(two) == 2;
    assert Append(two, rest) == st.stack by {
      assert Append(Push(I32(a), Nil), rest) == Push(I32(a), Append(Nil, rest));
    }
    ExecRun(fuel, SaveStore(s, x), NO_PC, inner);
    RunSaveStore(s, x, a, v, inner);
    StoreOnShadow(s, x, a, v, inner);
  }

  function SaveStore(s: Slots, x: Access): seq<Plain> {
    [LocalSet(s.value), LocalTee(s.base), LocalGet(s.value), LocalGet(s.base), LocalGet(s.value), OnShadow(x)]
  }

  lemma {:induction false} RunSaveStore(s: Slots, x: Access, a: nat, v: Val, inner: State)
    requires s.value < |inner.locals| && s.base < |inner.locals| && s.value != s.base
    requires x.kind.StoreK? && inner.stack == Push(v, Push(I32(a), Nil))
    ensures RunAll(SaveStore(s, x), inner)
         == DoStore(x.ty, x.width, Shadow, x.offset,
              inner.(locals := inner.locals[s.value := v][s.base := I32(a)], stack := Push(v, Push(I32(a), inner.stack))))
  {
    hide *;
    SaveStoreIs(s, x);
    var s1 := inner.(locals := inner.locals[s.value := v], stack := Push(I32(a), Nil));
    StepSet(s.value, inner);
    RunCons(LocalSet(s.value), [LocalTee(s.base)] + Copies(s, x), inner);
    var s2 := s1.(locals := s1.locals[s.base := I32(a)]);
    StepTee(s.base, s1);
    RunCons(LocalTee(s.base), Copies(s, x), s1);
    RunCopies(s, x, a, v, inner.stack, s2);
  }

  function Copies(s: Slots, x: Access): seq<Plain> {
    [LocalGet(s.value)] + ([LocalGet(s.base)] + ([LocalGet(s.value)] + [OnShadow(x)]))
  }

  lemma SaveStoreIs(s: Slots, x: Access)
    ensures SaveStore(s, x) == [LocalSet(s.value)] + ([LocalTee(s.base)] + Copies(s, x))
  {
  }

  lemma {:induction false} RunCopies(s: Slots, x: Access, a: nat, v: Val, was: Stack, st: State)
    requires s.value < |st.locals| && s.base < |st.locals| && st.locals[s.value] == v && st.locals[s.base] == I32(a)
    requires x.kind.StoreK? && was == Push(v, st.stack) && st.stack == Push(I32(a), Nil)
    ensures RunAll(Copies(s, x), st) == DoStore(x.ty, x.width, Shadow, x.offset, st.(stack := Push(v, Push(I32(a), was))))
  {
    hide *;
    CopiesAre(s, x);
    var r2 := [LocalGet(s.value)] + [OnShadow(x)];
    var s1 := st.(stack := was);
    StepGet(s.value, st);
    Pushed(st, v);
    RunCons(LocalGet(s.value), [LocalGet(s.base)] + r2, st);
    var s2 := st.(stack := Push(I32(a), was));
    StepGet(s.base, s1);
    Pushed(s1, I32(a));
    RunCons(LocalGet(s.base), r2, s1);
    StepGet(s.value, s2);
    Pushed(s2, v);
    RunCons(LocalGet(s.value), [OnShadow(x)], s2);
    var s3 := st.(stack := Push(v, Push(I32(a), was)));
    RunOne(OnShadow(x), s3);
    ShadowStore(x);
    StepStore(x.ty, x.width, Shadow, x.offset, s3);
  }

  lemma CopiesAre(s: Slots, x: Access)
    ensures Copies(s, x) == [LocalGet(s.value)] + ([LocalGet(s.base)] + ([LocalGet(s.value)] + [OnShadow(x)]))
  {
  }

  lemma ShadowStore(x: Access)
    requires x.kind.StoreK?
    ensures OnShadow(x) == Store(x.ty, x.width, Shadow, x.offset)
  {
  }

  lemma {:induction false} StoreOnShadow(s: Slots, x: Access, a: nat, v: Val, inner: State)
    requires x.kind.StoreK? && TypeOf(v) == x.ty && s.value < |inner.locals| && s.base < |inner.locals|
    ensures var st := inner.(locals := inner.locals[s.value := v][s.base := I32(a)], stack := Push(v, Push(I32(a), inner.stack)));
      DoStore(x.ty, x.width, Shadow, x.offset, st)
      == if a + x.offset + x.width > |inner.shadow| then Trap
         else Next(st.(stack := inner.stack, shadow := Poke(inner.shadow, a + x.offset, ToLE(v.n, x.width))))
  {
    hide Poke, ToLE;
  }

  /** The loaded value is kept and compared with the shadow's. */
  lemma {:induction false} LoadCompare(s: Slots, x: Access, v: nat, w: nat, rest: Stack, st: State)
    requires ValidAccess(x) && x.kind.LoadK?
    requires s.main < |st.locals| && s.ret < |st.locals| && s.differ < |st.locals|
    requires s.main != s.ret && s.main != s.differ && s.ret != s.differ
    requires st.stack == Push(MakeVal(x.ty, v), rest) && st.locals[s.ret] == MakeVal(x.ty, w)
    ensures RunAll(CompareOps(s, x), st)
         == Next(st.(stack := Push(Bool32(v != w), st.stack),
                     locals := st.locals[s.main := MakeVal(x.ty, v)][s.differ := Bool32(v != w)]))
  {
    hide *;
    CompareIs(s, x);
    var m, r := MakeVal(x.ty, v), MakeVal(x.ty, w);
    var r1 := [LocalTee(s.differ)];
    var r2 := [Ne(x.ty)] + r1;
    var r3 := [LocalGet(s.ret)] + r2;
    var s1 := st.(locals := st.locals[s.main := m]);
    StepTee(s.main, st);
    RunCons(LocalTee(s.main), [LocalGet(s.main)] + r3, st);
    var s2 := s1.(stack := Push(m, st.stack));
    StepGet(s.main, s1);
    Pushed(s1, m);
    RunCons(LocalGet(s.main), r3, s1);
    var s3 := s1.(stack := Push(r, Push(m, st.stack)));
    StepGet(s.ret, s2);
    Pushed(s2, r);
    RunCons(LocalGet(s.ret), r2, s2);
    var s4 := s1.(stack := Push(Bool32(v != w), st.stack));
    StepNe(x, v, w, st.stack, s3);
    RunCons(Ne(x.ty), r1, s3);
    StepTee(s.differ, s4);
    RunOne(LocalTee(s.differ), s4);
  }

  lemma CompareIs(s: Slots, x: Access)
    requires x.kind.LoadK?
    ensures CompareOps(s, x) == [LocalTee(s.main)] + ([LocalGet(s.main)] + ([LocalGet(s.ret)] + ([Ne(x.ty)] + [LocalTee(s.differ)])))
  {
  }

  lemma StepNe(x: Access, v: nat, w: nat, rest: Stack, st: State)
    requires ValidAccess(x) && st.stack == Push(MakeVal(x.ty, w), Push(MakeVal(x.ty, v), rest))
    ensures Step(Ne(x.ty), NO_PC, NO_PC, st) == Next(st.(stack := Push(Bool32(v != w), rest)))
  {
  }

  lemma {:induction false} StoreCompare(s: Slots, x: Access, st: State)
    requires x.kind.StoreK? && s.differ < |st.locals|
    ensures RunAll(CompareOps(s, x), st)
         == Next(st.(stack := Push(I32(0), st.stack), locals := st.locals[s.differ := I32(0)]))
  {
    assert RunAll(CompareOps(s, x), st) == Run(CompareOps(s, x), 2, st);
  }

  /** The operands of the report, above `rest`. */
  function Report(x: Access, full: nat, rest: Stack): Stack {
    Push(I32(x.width), Push(I32(full), Push(I32(x.opcode), Push(I32(x.idx), rest))))
  }

  lemma {:induction false} RunReport(s: Slots, x: Access, a: nat, st: State)
    requires s.base < |st.locals| && s.full < |st.locals| && st.locals[s.base] == I32(a)
    ensures RunAll(ReportOps(s, x), st)
         == Next(st.(stack := Report(x, Wrap32(x.offset + a), st.stack),
                     locals := st.locals[s.full := I32(Wrap32(x.offset + a))]))
  {
    hide *;
    ReportIs(s, x);
    var two := Push(I32(x.opcode), Push(I32(x.idx), st.stack));
    var full := I32(Wrap32(x.offset + a));
    var s2 := st.(stack := two);
    RunTwo(I32(x.idx), I32(x.opcode), ReportRest(s, x), st);
    var r7 := [Const(I32(x.width))];
    var r6 := [LocalTee(s.full)] + r7;
    var r5 := [I32Add] + r6;
    var r4 := [LocalGet(s.base)] + r5;
    var s3 := st.(stack := Push(I32(x.offset), two));
    StepConst(I32(x.offset), s2);
    Pushed(s2, I32(x.offset));
    RunCons(Const(I32(x.offset)), r4, s2);
    var s4 := st.(stack := Push(I32(a), s3.stack));
    StepGet(s.base, s3);
    Pushed(s3, I32(a));
    RunCons(LocalGet(s.base), r5, s3);
    var s5 := st.(stack := Push(full, two));
    StepAdd(x.offset, a, two, s4);
    RunCons(I32Add, r6, s4);
    var s6 := s5.(locals := st.locals[s.full := full]);
    StepTee(s.full, s5);
    RunCons(LocalTee(s.full), r7, s5);
    StepConst(I32(x.width), s6);
    Pushed(s6, I32(x.width));
    RunOne(Const(I32(x.width)), s6);
    ReportStack(x, Wrap32(x.offset + a), st.stack);
  }

  lemma {:induction false} RunTwo(v: Val, w: Val, ps: seq<Plain>, st: State)
    ensures RunAll([Const(v)] + ([Const(w)] + ps), st) == RunAll(ps, st.(stack := Push(w, Push(v, st.stack))))
  {
    hide *;
    var s1 := st.(stack := Push(v, st.stack));
    StepConst(v, st);
    Pushed(st, v);
    RunCons(Const(v), [Const(w)] + ps, st);
    StepConst(w, s1);
    Pushed(s1, w);
    RunCons(Const(w), ps, s1);
  }

  function ReportRest(s: Slots, x: Access): seq<Plain> {
    [Const(I32(x.offset))] + ([LocalGet(s.base)] + ([I32Add] + ([LocalTee(s.full)] + [Const(I32(x.width))])))
  }

  lemma ReportIs(s: Slots, x: Access)
    ensures ReportOps(s, x) == [Const(I32(x.idx))] + ([Const(I32(x.opcode))] + ReportRest(s, x))
    ensures ReportRest(s, x) == [Const(I32(x.offset))] + ([LocalGet(s.base)] + ([I32Add] + ([LocalTee(s.full)] + [Const(I32(x.width))])))
  {
  }

  lemma ReportStack(x: Access, full: nat, rest: Stack)
    ensures Report(x, full, rest) == Push(I32(x.width), Push(I32(full), Push(I32(x.opcode), Push(I32(x.idx), rest))))
  {
  }

  /** Equal values: the write-back is jumped over. */
  lemma {:induction false} WriteBackSkipped(fuel: nat, s: Slots, x: Access, next: int, st: State)
    requires s.differ < |st.locals| && st.locals[s.differ] == I32(0)
    ensures ExecI(fuel, WriteBack(s, x), next, st) == Next(st)
  {
    hide *;
    var inner := st.(stack := Nil);
    WriteBackStart(fuel, s, x, inner);
    DifferTest(s, 0, inner);
    WriteBackIs(fuel, s, x, next, st);
    EmptyLeft(inner, st.stack);
  }

  /** The flag decides whether the write-back is jumped over. */
  lemma {:induction false} DifferTest(s: Slots, flag: nat, st: State)
    requires s.differ < |st.locals| && st.locals[s.differ] == I32(flag)
    ensures RunAll([LocalGet(s.differ), I32Eqz, BrIf(0)], st) == if flag == 0 then Jump(0, st, NO_PC) else Next(st)
  {
    var test := [LocalGet(s.differ), I32Eqz, BrIf(0)];
    assert RunAll(test, st) == Run(test, 3, st);
  }

  lemma WriteBackIs(fuel: nat, s: Slots, x: Access, next: int, st: State)
    ensures ExecI(fuel, WriteBack(s, x), next, st)
         == Leave(0, st.stack, NO_PC, Exec(fuel, Lift(WriteBackOps(s, x)), NO_PC, st.(stack := Nil)))
  {
    hide Lift, WriteBackOps, Exec, Leave;
  }

  lemma EmptyLeft(st: State, below: Stack)
    requires st.stack == Nil
    ensures Leave(0, below, NO_PC, Next(st)) == Next(st.(stack := below)) == Leave(0, below, NO_PC, Jump(0, st, NO_PC))
  {
    assert Append(Nil, below) == below;
  }

  lemma {:induction false} WriteBackStart(fuel: nat, s: Slots, x: Access, st: State)
    ensures Exec(fuel, Lift(WriteBackOps(s, x)), NO_PC, st)
         == match RunAll([LocalGet(s.differ), I32Eqz, BrIf(0)], st)
            case Next(s1) => RunAll(WriteBackOps(s, x)[3..], s1)
            case o => o
  {
    var ops := WriteBackOps(s, x);
    ExecRun(fuel, ops, NO_PC, st);
    assert ops == [LocalGet(s.differ), I32Eqz, BrIf(0)] + ops[3..];
    RunAppend([LocalGet(s.differ), I32Eqz, BrIf(0)], ops[3..], st);
  }

  predicate WriteBackSlots(s: Slots, k: nat) {
    && s.differ < k && s.full < k && s.main < k && s.ret < k && s.main64 < k && s.shadow64 < k
    && s.main64 !in {s.ret, s.full, s.main, s.differ} && s.shadow64 !in {s.ret, s.full, s.main, s.differ, s.main64}
  }

  lemma SlotsWithin(s: Slots, k: nat)
    requires WriteBackSlots(s, k)
    ensures s.differ < k && s.full < k && s.main < k && s.ret < k && s.main64 < k && s.shadow64 < k
  {
  }

  lemma {:induction false} RunTo64(ty: ValType, v: nat, rest: Stack, st: State)
    requires (ty == TI32 || ty == TI64) && st.stack == Push(MakeVal(ty, v), rest)
    ensures RunAll(To64(ty), st) == Next(st.(stack := Push(I64(v), rest)))
  {
    if ty == TI32 { assert RunAll(To64(ty), st) == Run(To64(ty), 1, st); }
  }

  /** Differing values: the low bytes of the loaded value go to the shadow. */
  lemma {:induction false} WriteBackDone(
      fuel: nat, s: Slots, x: Access, full: nat, v: nat, w: nat, next: int, st: State)
    requires ValidAccess(x) && WriteBackSlots(s, |st.locals|)
    requires st.locals[s.differ] == I32(1) && st.locals[s.full] == I32(full)
    requires st.locals[s.main] == MakeVal(x.ty, v) && st.locals[s.ret] == MakeVal(x.ty, w)
    requires full + x.width <= |st.shadow|
    ensures ExecI(fuel, WriteBack(s, x), next, st)
         == Next(st.(shadow := Poke(st.shadow, full, ToLE(v, x.width)),
                     locals := st.locals[s.main64 := I64(v)][s.shadow64 := I64(w)]))
  {
    hide *;
    var inner := st.(stack := Nil);
    SlotsWithin(s, |st.locals|);
    WriteBackStart(fuel, s, x, inner);
    DifferTest(s, 1, inner);
    WriteBackTail(s, x, full, v, w, inner);
    WriteBackIs(fuel, s, x, next, st);
    EmptyLeft(inner.(shadow := Poke(st.shadow, full, ToLE(v, x.width)), locals := st.locals[s.main64 := I64(v)][s.shadow64 := I64(w)]), st.stack);
  }

  lemma {:induction false} WriteBackTail(s: Slots, x: Access, full: nat, v: nat, w: nat, st: State)
    requires ValidAccess(x) && WriteBackSlots(s, |st.locals|) && st.stack == Nil
    requires st.locals[s.full] == I32(full)
    requires st.locals[s.main] == MakeVal(x.ty, v) && st.locals[s.ret] == MakeVal(x.ty, w)
    requires full + x.width <= |st.shadow|
    ensures RunAll(WriteBackOps(s, x)[3..], st)
         == Next(st.(shadow := Poke(st.shadow, full, ToLE(v, x.width)),
                     locals := st.locals[s.main64 := I64(v)][s.shadow64 := I64(w)]))
  {
    hide *;
    WriteBackRest(s, x);
    SlotsWithin(s, |st.locals|);
    var c, b, d := To64(x.ty), [LocalTee(s.main64), Store(TI64, x.width, Shadow, 0), LocalGet(s.ret)], [LocalSet(s.shadow64)];
    var m, r := MakeVal(x.ty, v), MakeVal(x.ty, w);
    RunAppend([LocalGet(s.full), LocalGet(s.main)], c + (b + (c + d)), st);
    var s1 := st.(stack := Push(m, Push(I32(full), Nil)));
    RunGets(s.full, s.main, st);
    RunAppend(c, b + (c + d), s1);
    AccessTypes(x);
    RunTo64(x.ty, v, Push(I32(full), Nil), s1);
    var s2 := st.(stack := Push(I64(v), Push(I32(full), Nil)));
    RunAppend(b, c + d, s2);
    WriteBackStore(s, x, full, v, w, s2);
    var s3 := st.(shadow := Poke(st.shadow, full, ToLE(v, x.width)), locals := st.locals[s.main64 := I64(v)], stack := Push(r, Nil));
    RunAppend(c, d, s3);
    RunTo64(x.ty, w, Nil, s3);
    var s4 := s3.(stack := Push(I64(w), Nil));
    RunOne(LocalSet(s.shadow64), s4);
    StepSet(s.shadow64, s4);
  }

  lemma WriteBackRest(s: Slots, x: Access)
    ensures WriteBackOps(s, x)[3..]
         == [LocalGet(s.full), LocalGet(s.main)]
            + (To64(x.ty) + ([LocalTee(s.main64), Store(TI64, x.width, Shadow, 0), LocalGet(s.ret)] + (To64(x.ty) + [LocalSet(s.shadow64)])))
  {
    hide To64;
  }

  lemma AccessTypes(x: Access)
    requires ValidAccess(x)
    ensures x.ty == TI32 || x.ty == TI64
  {
  }

  lemma {:induction false} RunGets(l: nat, m: nat, st: State)
    requires l < |st.locals| && m < |st.locals|
    ensures RunAll([LocalGet(l), LocalGet(m)], st) == Next(st.(stack := Push(st.locals[m], Push(st.locals[l], st.stack))))
  {
    hide *;
    var s1 := st.(stack := Push(st.locals[l], st.stack));
    assert [LocalGet(l), LocalGet(m)] == [LocalGet(l)] + [LocalGet(m)];
    RunCons(LocalGet(l), [LocalGet(m)], st);
    StepGet(l, st);
    Pushed(st, st.locals[l]);
    RunOne(LocalGet(m), s1);
    StepGet(m, s1);
    Pushed(s1, s1.locals[m]);
  }

  lemma {:induction false} WriteBackStore(s: Slots, x: Access, full: nat, v: nat, w: nat, st: State)
    requires ValidAccess(x) && WriteBackSlots(s, |st.locals|)
    requires st.stack == Push(I64(v), Push(I32(full), Nil)) && st.locals[s.ret] == MakeVal(x.ty, w)
    requires full + x.width <= |st.shadow|
    ensures RunAll([LocalTee(s.main64), Store(TI64, x.width, Shadow, 0), LocalGet(s.ret)], st)
         == Next(st.(shadow := Poke(st.shadow, full, ToLE(v, x.width)), locals := st.locals[s.main64 := I64(v)],
                     stack := Push(MakeVal(x.ty, w), Nil)))
  {
    hide Poke, ToLE;
    var b := [LocalTee(s.main64), Store(TI64, x.width, Shadow, 0), LocalGet(s.ret)];
    assert RunAll(b, st) == Run(b, 3, st);
    var s1 := st.(locals := st.locals[s.main64 := I64(v)]);
    assert Run(b, 1, st) == Next(s1);
    assert Run(b, 2, st) == DoStore(TI64, x.width, Shadow, 0, s1);
  }

  /** The eight operands of one report. */
  function TraceArgs(differ: Val, x: Access, full: nat, m64: Val, s64: Val): Stack {
    Push(I32(0), Push(s64, Push(m64, Report(x, full, Push(differ, Nil)))))
  }

  lemma {:induction false} RunLast(s: Slots, x: Access, differ: Val, full: nat, m64: Val, s64: Val, rest: Stack, st: State)
    requires st.stack == Report(x, full, Push(differ, rest))
    requires x.kind.LoadK? ==> s.main64 < |st.locals| && s.shadow64 < |st.locals|
                               && st.locals[s.main64] == m64 && st.locals[s.shadow64] == s64
    requires x.kind.StoreK? ==> m64 == s64 == I64(0)
    ensures RunAll(LastOps(s, x), st)
         == Next(st.(stack := rest, locked := false,
                     host := st.host + [HostCall(Trace, TraceArgs(differ, x, full, m64, s64))]))
  {
    hide Report, TraceArgs, DoHost;
    var head := LastOps(s, x)[..3];
    assert LastOps(s, x) == head + [CallHost(Trace), CallHost(Unlock)];
    RunAppend(head, [CallHost(Trace), CallHost(Unlock)], st);
    var s3 := st.(stack := Push(I32(0), Push(s64, Push(m64, st.stack))));
    assert RunAll(head, st) == Run(head, 3, st) == Next(s3);
    TraceOnTop(x, differ, full, m64, s64, rest);
    RunEnd(TraceArgs(differ, x, full, m64, s64), rest, s3);
  }

  lemma {:induction false} RunEnd(args: Stack, rest: Stack, st: State)
    requires Size(args) == 8 && st.stack == Append(args, rest)
    ensures RunAll([CallHost(Trace), CallHost(Unlock)], st)
         == Next(st.(stack := rest, locked := false, host := st.host + [HostCall(Trace, args)]))
  {
    var ops := [CallHost(Trace), CallHost(Unlock)];
    assert RunAll(ops, st) == Run(ops, 2, st);
    RunTrace(args, rest, st);
    assert Run(ops, 1, st) == DoHost(Trace, st);
    assert Under(rest, 0) == rest;
  }

  lemma {:induction false} RunTrace(args: Stack, rest: Stack, st: State)
    requires Size(args) == 8 && st.stack == Append(args, rest)
    ensures DoHost(Trace, st) == Next(st.(stack := rest, host := st.host + [HostCall(Trace, args)]))
  {
    TakeAppend(args, rest);
  }

  lemma {:induction false} TraceOnTop(x: Access, differ: Val, full: nat, m64: Val, s64: Val, rest: Stack)
    ensures Size(TraceArgs(differ, x, full, m64, s64)) == 8
    ensures Append(TraceArgs(differ, x, full, m64, s64), rest)
         == Push(I32(0), Push(s64, Push(m64, Report(x, full, Push(differ, rest)))))
  {
    var d := Push(differ, Nil);
    assert Size(d) == 1 && Append(d, rest) == Push(differ, rest) by { assert Append(Nil, rest) == rest; }
    var r := Report(x, full, d);
    assert Size(r) == 5 && Append(r, rest) == Report(x, full, Push(differ, rest)) by {
      var r2 := r.below.below;
      assert Size(r2) == 3 && Append(r2, rest) == Push(I32(x.opcode), Push(I32(x.idx), Push(differ, rest)));
    }
    var t2 := Push(m64, r);
    assert Size(t2) == 6 && Append(t2, rest) == Push(m64, Append(r, rest));
  }
}
