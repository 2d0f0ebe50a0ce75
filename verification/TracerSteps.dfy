/** The tracer's inserted code appends exactly one word and touches nothing of the program's. */
module TracerSteps {
  import opened Bytes
  import opened Wasm
  import opened Flat
  import opened Ladder
  import opened Tracer

  /** Room for the scratch locals, and the recorded events in the buffer. */
  ghost predicate Ready(c: Ctx, events: seq<Rec>, st: State) {
    ValidCtx(c) && |st.locals| == c.n + SCRATCH && Logged(c.base, c.size, st.main, events)
  }

  /** `t` is `s` but for the scratch locals and the memory behind the program's. */
  ghost predicate Untouched(c: Ctx, s: State, t: State) {
    && |t.locals| == |s.locals| && |s.locals| == c.n + SCRATCH && t.locals[..c.n] == s.locals[..c.n]
    && |t.main| == |s.main| && c.base <= |s.main| && t.main[..c.base] == s.main[..c.base]
    && t == s.(locals := t.locals, main := t.main)
  }

  function Count(c: Ctx, m: seq<byte>): nat
    requires c.base + 4 <= |m|
  {
    FromLE(Peek(m, c.base, 4))
  }

  /** The memory after one more word. */
  function Appended(c: Ctx, m: seq<byte>, word: nat): (r: seq<byte>)
    requires c.base + 4 <= |m| && c.base + 8 + Count(c, m) + 8 <= |m|
    ensures |r| == |m|
  {
    Poke(Poke(m, c.base, ToLE(Wrap32(Count(c, m) + 8), 4)), c.base + 8 + Count(c, m), ToLE(word, 8))
  }

  // ----- the recorder's instructions, in three stretches -----

  function FetchOps(c: Ctx): seq<Plain> {
    [LocalSet(Target(c)), Const(I32(c.base + 8)), Const(I32(0)), Load(TI32, 4, false, Main, c.base), LocalTee(Bytes32(c))]
  }

  function BumpOps(c: Ctx): seq<Plain> {
    [Const(I32(0)), LocalGet(Bytes32(c)), Const(I32(8)), I32Add, Store(TI32, 4, Main, c.base)]
  }

  function WriteOps(c: Ctx, source: Plain): seq<Plain> {
    [I32Add, source, LocalGet(Target(c)), I64Or, Store(TI64, 8, Main, 0)]
  }

  /** The instruction pushes this source, from a constant or from one of the function's own locals. */
  predicate Pushes(c: Ctx, source: Plain, shift: nat, locals: seq<Val>) {
    source == Const(I64(shift))
    || (source.LocalGet? && source.l < c.n && source.l < |locals| && locals[source.l] == I64(shift))
  }

  lemma PushesStep(c: Ctx, source: Plain, shift: nat, st: State)
    requires Pushes(c, source, shift, st.locals)
    ensures Step(source, NO_PC, NO_PC, st) == Next(PushVal(st, I64(shift)))
  {
  }

  lemma {:induction false} RunFetch(c: Ctx, t: nat, rest: Stack, st: State)
    requires |st.locals| == c.n + SCRATCH && st.stack == Push(I64(t), rest) && c.base + 4 <= |st.main|
    ensures RunAll(FetchOps(c), st)
         == Next(st.(stack := Push(I32(Count(c, st.main)), Push(I32(c.base + 8), rest)),
                     locals := st.locals[Target(c) := I64(t)][Bytes32(c) := I32(Count(c, st.main))]))
  {
    hide *;
    FetchIs(c);
    ScratchIs(c);
    var load: Plain := Load(TI32, 4, false, Main, c.base);
    var r5 := [LocalTee(Bytes32(c))];
    var r4 := [load] + r5;
    var r3 := [Const(I32(0))] + r4;
    var r2 := [Const(I32(c.base + 8))] + r3;
    var s1 := st.(stack := rest, locals := st.locals[Target(c) := I64(t)]);
    StepSet(Target(c), st);
    RunCons(LocalSet(Target(c)), r2, st);
    var s2 := s1.(stack := Push(I32(c.base + 8), rest));
    StepConst(I32(c.base + 8), s1);
    Pushed(s1, I32(c.base + 8));
    RunCons(Const(I32(c.base + 8)), r3, s1);
    var s3 := s2.(stack := Push(I32(0), s2.stack));
    StepConst(I32(0), s2);
    Pushed(s2, I32(0));
    RunCons(Const(I32(0)), r4, s2);
    FetchLoad(c, s2.stack, s3);
    StepLoad(TI32, 4, false, Main, c.base, s3);
    RunCons(load, r5, s3);
    var s4 := s3.(stack := Push(I32(Count(c, st.main)), s2.stack));
    StepTee(Bytes32(c), s4);
    RunOne(LocalTee(Bytes32(c)), s4);
  }

  lemma FetchIs(c: Ctx)
    ensures FetchOps(c) == [LocalSet(Target(c))] + ([Const(I32(c.base + 8))] + ([Const(I32(0))]
      + ([Load(TI32, 4, false, Main, c.base)] + [LocalTee(Bytes32(c))])))
  {
  }

  lemma ScratchIs(c: Ctx)
    ensures Target(c) < c.n + SCRATCH && Bytes32(c) < c.n + SCRATCH
  {
  }

  lemma {:induction false} FetchLoad(c: Ctx, rest: Stack, st: State)
    requires st.stack == Push(I32(0), rest) && c.base + 4 <= |st.main|
    ensures DoLoad(TI32, 4, false, Main, c.base, st) == Next(st.(stack := Push(I32(Count(c, st.main)), rest)))
  {
    hide FromLE, Peek;
  }

  lemma {:induction false} RunBump(c: Ctx, k: nat, st: State)
    requires |st.locals| == c.n + SCRATCH && st.locals[Bytes32(c)] == I32(k) && c.base + 4 <= |st.main|
    ensures RunAll(BumpOps(c), st) == Next(st.(main := Poke(st.main, c.base, ToLE(Wrap32(k + 8), 4))))
  {
    hide *;
    BumpIs(c);
    ScratchIs(c);
    var store: Plain := Store(TI32, 4, Main, c.base);
    var r5 := [store];
    var r4 := [I32Add] + r5;
    var r3 := [Const(I32(8))] + r4;
    var r2 := [LocalGet(Bytes32(c))] + r3;
    var s1 := st.(stack := Push(I32(0), st.stack));
    StepConst(I32(0), st);
    Pushed(st, I32(0));
    RunCons(Const(I32(0)), r2, st);
    var s2 := st.(stack := Push(I32(k), s1.stack));
    StepGet(Bytes32(c), s1);
    Pushed(s1, I32(k));
    RunCons(LocalGet(Bytes32(c)), r3, s1);
    var s3 := st.(stack := Push(I32(8), s2.stack));
    StepConst(I32(8), s2);
    Pushed(s2, I32(8));
    RunCons(Const(I32(8)), r4, s2);
    var s4 := st.(stack := Push(I32(Wrap32(k + 8)), s1.stack));
    StepAdd(k, 8, s1.stack, s3);
    RunCons(I32Add, r5, s3);
    TypesOf(Wrap32(k + 8));
    MainStore(TI32, 4, c.base, I32(Wrap32(k + 8)), 0, st.stack, s4);
    StepStore(TI32, 4, Main, c.base, s4);
    RunOne(store, s4);
  }

  lemma TypesOf(n: nat)
    ensures TypeOf(I32(n)) == TI32 && TypeOf(I64(n)) == TI64
  {
  }

  lemma BumpIs(c: Ctx)
    ensures BumpOps(c) == [Const(I32(0))] + ([LocalGet(Bytes32(c))] + ([Const(I32(8))] + ([I32Add] + [Store(TI32, 4, Main, c.base)])))
  {
  }

  lemma {:induction false} MainStore(ty: ValType, w: nat, off: nat, v: Val, a: nat, rest: Stack, st: State)
    requires st.stack == Push(v, Push(I32(a), rest)) && TypeOf(v) == ty && a + off + w <= |st.main|
    ensures DoStore(ty, w, Main, off, st) == Next(st.(stack := rest, main := Poke(st.main, a + off, ToLE(v.n, w))))
  {
    hide Poke, ToLE;
  }

  lemma {:induction false} RunWrite(c: Ctx, source: Plain, shift: nat, k: nat, t: nat, rest: Stack, st: State)
    requires |st.locals| == c.n + SCRATCH && st.locals[Target(c)] == I64(t) && Pushes(c, source, shift, st.locals)
    requires st.stack == Push(I32(k), Push(I32(c.base + 8), rest)) && c.base + 8 + k + 8 <= |st.main| <= TWO32
    ensures RunAll(WriteOps(c, source), st)
         == Next(st.(stack := rest, main := Poke(st.main, c.base + 8 + k, ToLE(Or(shift, t), 8))))
  {
    hide Poke, ToLE, Or, DoStore, Pushes;
    var ops := WriteOps(c, source);
    var tail := [source, LocalGet(Target(c)), I64Or, Store(TI64, 8, Main, 0)];
    assert ops == [I32Add] + tail;
    RunAppend([I32Add], tail, st);
    var s1 := st.(stack := Push(I32(c.base + 8 + k), rest));
    assert RunAll([I32Add], st) == Run([I32Add], 1, st) == Next(s1);
    RunWord(c, source, shift, c.base + 8 + k, t, rest, s1);
  }

  lemma {:induction false} RunWord(c: Ctx, source: Plain, shift: nat, a: nat, t: nat, rest: Stack, st: State)
    requires |st.locals| == c.n + SCRATCH && st.locals[Target(c)] == I64(t) && Pushes(c, source, shift, st.locals)
    requires st.stack == Push(I32(a), rest) && a + 8 <= |st.main|
    ensures RunAll([source, LocalGet(Target(c)), I64Or, Store(TI64, 8, Main, 0)], st)
         == Next(st.(stack := rest, main := Poke(st.main, a, ToLE(Or(shift, t), 8))))
  {
    hide *;
    ScratchIs(c);
    var store: Plain := Store(TI64, 8, Main, 0);
    var r4 := [store];
    var r3 := [I64Or] + r4;
    var r2 := [LocalGet(Target(c))] + r3;
    assert [source, LocalGet(Target(c)), I64Or, store] == [source] + r2;
    var word := Or(shift, t);
    var s1 := st.(stack := Push(I64(shift), st.stack));
    PushesStep(c, source, shift, st);
    Pushed(st, I64(shift));
    RunCons(source, r2, st);
    var s2 := st.(stack := Push(I64(t), s1.stack));
    StepGet(Target(c), s1);
    Pushed(s1, I64(t));
    RunCons(LocalGet(Target(c)), r3, s1);
    var s3 := st.(stack := Push(I64(word), st.stack));
    StepOr(shift, t, st.stack, s2);
    RunCons(I64Or, r4, s2);
    TypesOf(word);
    MainStore(TI64, 8, 0, I64(word), a, rest, s3);
    StepStore(TI64, 8, Main, 0, s3);
    RunOne(store, s3);
  }

  lemma PushesStill(c: Ctx, source: Plain, shift: nat, locals: seq<Val>, t: Val, k: Val)
    requires Pushes(c, source, shift, locals) && |locals| == c.n + SCRATCH
    ensures Pushes(c, source, shift, locals[Target(c) := t][Bytes32(c) := k])
  {
  }

  lemma {:induction false} RunRecord(c: Ctx, source: Plain, shift: nat, t: nat, rest: Stack, st: State)
    requires |st.locals| == c.n + SCRATCH && st.stack == Push(I64(t), rest) && Pushes(c, source, shift, st.locals)
    requires c.base + 8 <= |st.main| <= TWO32 && c.base + 8 + Count(c, st.main) + 8 <= |st.main|
    ensures RunAll(RecordOps(c, source), st)
         == Next(st.(stack := rest, main := Appended(c, st.main, Or(shift, t)),
                     locals := st.locals[Target(c) := I64(t)][Bytes32(c) := I32(Count(c, st.main))]))
  {
    hide Poke, ToLE, Or, FetchOps, BumpOps, WriteOps, RunAll, Pushes;
    RecordParts(c, source);
    var a, b, w := FetchOps(c), BumpOps(c), WriteOps(c, source);
    var k := Count(c, st.main);
    RunAppend(a + b, w, st);
    RunAppend(a, b, st);
    RunFetch(c, t, rest, st);
    PushesStill(c, source, shift, st.locals, I64(t), I32(k));
    var s1 := st.(stack := Push(I32(k), Push(I32(c.base + 8), rest)),
                  locals := st.locals[Target(c) := I64(t)][Bytes32(c) := I32(k)]);
    RunBump(c, k, s1);
    RunWrite(c, source, shift, k, t, rest, s1.(main := Poke(st.main, c.base, ToLE(Wrap32(k + 8), 4))));
  }

  lemma RecordParts(c: Ctx, source: Plain)
    ensures RecordOps(c, source) == FetchOps(c) + BumpOps(c) + WriteOps(c, source)
  {
  }

  // ----- the buffer gains one event -----

  lemma PokeOther(m: seq<byte>, a: nat, bs: seq<byte>, b: nat, w: nat)
    requires a + |bs| <= |m| && b + w <= |m| && (b + w <= a || a + |bs| <= b)
    ensures Peek(Poke(m, a, bs), b, w) == Peek(m, b, w)
  {
  }

  lemma PokeBelow(m: seq<byte>, a: nat, bs: seq<byte>, k: nat)
    requires k <= a && a + |bs| <= |m|
    ensures Poke(m, a, bs)[..k] == m[..k]
  {
  }

  lemma {:induction false} AppendedBelow(c: Ctx, m: seq<byte>, word: nat)
    requires c.base + 4 <= |m| && c.base + 8 + Count(c, m) + 8 <= |m|
    ensures Appended(c, m, word)[..c.base] == m[..c.base]
  {
    hide *;
    var m1 := Poke(m, c.base, ToLE(Wrap32(Count(c, m) + 8), 4));
    AppendedIs(c, m, word);
    PokeBelow(m, c.base, ToLE(Wrap32(Count(c, m) + 8), 4), c.base);
    PokeBelow(m1, c.base + 8 + Count(c, m), ToLE(word, 8), c.base);
  }

  lemma AppendedIs(c: Ctx, m: seq<byte>, word: nat)
    requires c.base + 4 <= |m| && c.base + 8 + Count(c, m) + 8 <= |m|
    ensures Appended(c, m, word) == Poke(Poke(m, c.base, ToLE(Wrap32(Count(c, m) + 8), 4)), c.base + 8 + Count(c, m), ToLE(word, 8))
  {
    hide Poke, ToLE, Wrap32, Count;
  }

  lemma {:induction false} AppendedLogged(c: Ctx, m: seq<byte>, events: seq<Rec>, e: Rec)
    requires Logged(c.base, c.size, m, events) && InRange(e) && c.size <= TWO32
    requires c.base + 8 + ENTRY * (|events| + 1) <= c.size
    ensures Logged(c.base, c.size, Appended(c, m, Word(e)), events + [e])
  {
    hide Poke, Peek, ToLE, FromLE, Word;
    var n := Count(c, m);
    assert n == ENTRY * |events|;
    var count, word := ToLE(n + 8, 4), ToLE(Word(e), 8);
    var m1 := Poke(m, c.base, count);
    var m2 := Poke(m1, c.base + 8 + n, word);
    PokeOther(m1, c.base + 8 + n, word, c.base, 4);
    PokePeek(m, c.base, count);
    PokePeek(m1, c.base + 8 + n, word);
    CountCodes(n + 8);
    var all := events + [e];
    forall k | 0 <= k < |all|
      ensures InRange(all[k]) && Peek(m2, c.base + 8 + ENTRY * k, 8) == ToLE(Word(all[k]), 8)
    {
      if k < |events| {
        PokeOther(m, c.base, count, c.base + 8 + ENTRY * k, 8);
        PokeOther(m1, c.base + 8 + n, word, c.base + 8 + ENTRY * k, 8);
      }
    }
  }

  lemma CountCodes(n: nat)
    requires n < TWO32
    ensures FromLE(ToLE(n, 4)) == n
  {
    PowerTable();
    FromToLE(n, 4);
  }

  /** Recording `e` with its destination on the stack: one more event, the program's data untouched. */
  lemma {:induction false} RecordEvent(c: Ctx, source: Plain, e: Rec, events: seq<Rec>, rest: Stack, st: State)
    requires Ready(c, events, st) && InRange(e) && st.stack == Push(I64(e.dst), rest)
    requires Pushes(c, source, SrcShift(e.fn, e.src), st.locals) && c.base + 8 + ENTRY * (|events| + 1) <= c.size
    ensures var o := RunAll(RecordOps(c, source), st);
      o.Next? && Untouched(c, st.(stack := rest), o.st) && Ready(c, events + [e], o.st)
  {
    hide Appended, Word, Peek, Poke, ToLE, SrcShift, Or, RecordOps, RunAll, Pushes;
    RunRecord(c, source, SrcShift(e.fn, e.src), e.dst, rest, st);
    Packed(e);
    AppendedLogged(c, st.main, events, e);
    AppendedBelow(c, st.main, Word(e));
    var k := Count(c, st.main);
    assert st.locals[Target(c) := I64(e.dst)][Bytes32(c) := I32(k)][..c.n] == st.locals[..c.n];
  }

  // ----- what precedes each kind of branch -----

  predicate IsBranch(p: Plain) {
    p.Br? || p.BrIf? || p.BrTable?
  }

  /** The operand a conditional or table branch finds on top of the stack. */
  predicate Selects(p: Plain, st: State) {
    p.Br? || (st.stack.Push? && st.stack.top.I32?)
  }

  function Chosen(ls: seq<nat>, d: nat, i: nat): nat {
    if i < |ls| then ls[i] else d
  }

  /** Where the branch will lead from this state. */
  function Dest(labels: seq<nat>, p: Plain, next: nat, st: State): nat
    requires IsBranch(p) && Selects(p, st)
    requires match p case Br(l) => l < |labels| case BrIf(l) => l < |labels| case BrTable(ls, d) => MaxLabel(ls, d) < |labels| case _ => true
  {
    match p
    case Br(l) => labels[l]
    case BrIf(l) => if st.stack.top.n != 0 then labels[l] else next
    case BrTable(ls, d) => labels[Chosen(ls, d, st.stack.top.n)]
    case _ => 0
  }

  lemma {:induction false} BrInserted(c: Ctx, labels: seq<nat>, l: nat, pc: nat, events: seq<Rec>, st: State)
    requires Ready(c, events, st) && l < |labels| && InRange(Rec(c.fn, pc, labels[l]))
    requires c.base + 8 + ENTRY * (|events| + 1) <= c.size
    ensures var o := RunAll(BrOps(c, labels, l, pc), st);
      o.Next? && Untouched(c, st, o.st) && Ready(c, events + [Rec(c.fn, pc, labels[l])], o.st)
  {
    hide RecordOps, Logged;
    var e := Rec(c.fn, pc, labels[l]);
    RunAppend([Const(I64(e.dst))], RecordOps(c, Here(c, pc)), st);
    var s1 := st.(stack := Push(I64(e.dst), st.stack));
    assert RunAll([Const(I64(e.dst))], st) == Run([Const(I64(e.dst))], 1, st) == Next(s1);
    RecordEvent(c, Here(c, pc), e, events, st.stack, s1);
  }

  lemma {:induction false} SelectOps(c: Ctx, yes: nat, no: nat, st: State)
    requires |st.locals| == c.n + SCRATCH && st.stack.Push? && st.stack.top.I32?
    ensures RunAll([LocalTee(Cond(c)), Const(I64(yes)), Const(I64(no)), LocalGet(Cond(c)), Select], st)
         == Next(st.(stack := Push(I64(if st.stack.top.n != 0 then yes else no), st.stack),
                     locals := st.locals[Cond(c) := st.stack.top]))
  {
    var ops := [LocalTee(Cond(c)), Const(I64(yes)), Const(I64(no)), LocalGet(Cond(c)), Select];
    assert RunAll(ops, st) == Run(ops, 5, st);
    var s1 := st.(locals := st.locals[Cond(c) := st.stack.top]);
    assert Run(ops, 3, st) == Next(s1.(stack := Push(I64(no), Push(I64(yes), st.stack))));
  }

  lemma {:induction false} BrIfInserted(
      c: Ctx, labels: seq<nat>, l: nat, pc: nat, next: nat, events: seq<Rec>, st: State)
    requires Ready(c, events, st) && l < |labels| && st.stack.Push? && st.stack.top.I32?
    requires var e := Rec(c.fn, pc, if st.stack.top.n != 0 then labels[l] else next); InRange(e)
    requires c.base + 8 + ENTRY * (|events| + 1) <= c.size
    ensures var e := Rec(c.fn, pc, if st.stack.top.n != 0 then labels[l] else next);
      var o := RunAll(BrIfOps(c, labels, l, pc, next), st);
      o.Next? && Untouched(c, st, o.st) && Ready(c, events + [e], o.st)
  {
    hide RecordOps, Logged;
    var e := Rec(c.fn, pc, if st.stack.top.n != 0 then labels[l] else next);
    var head := [LocalTee(Cond(c)), Const(I64(labels[l])), Const(I64(next)), LocalGet(Cond(c)), Select];
    RunAppend(head, RecordOps(c, Here(c, pc)), st);
    SelectOps(c, labels[l], next, st);
    var s0 := st.(locals := st.locals[Cond(c) := st.stack.top]);
    assert s0.locals[..c.n] == st.locals[..c.n];
    RecordEvent(c, Here(c, pc), e, events, st.stack, s0.(stack := Push(I64(e.dst), st.stack)));
  }

  /** The ladder leaves the position that the table's label leads to. */
  lemma {:induction false} TableTarget(fuel: nat, c: Ctx, labels: seq<nat>, ls: seq<nat>, d: nat, i: nat, next: int, st: State)
    requires MaxLabel(ls, d) < |labels| && |st.locals| == c.n + SCRATCH && st.locals[Cond(c)] == I32(i)
    ensures Chosen(ls, d, i) < |labels|
    ensures ExecI(fuel, Nest(1, TableSegs(c, labels, ls, d)), next, st)
         == Next(PushVal(st, I64(labels[Chosen(ls, d, i)])))
  {
    hide Nest, MaxLabel;
    var m, segs, l := MaxLabel(ls, d), TableSegs(c, labels, ls, d), Chosen(ls, d, i);
    var st0 := st.(stack := Nil);
    NestExec(fuel, 1, segs, next, st);
    TableEntry(fuel, c, labels, ls, d, i, st0);
    TableExit(fuel, c, labels, ls, d, l, st0.(stack := Push(I64(0), Nil)));
    var done := st0.(stack := Push(I64(labels[l]), Nil));
    assert Append(Push(I64(labels[l]), Nil), st.stack) == Push(I64(labels[l]), Append(Nil, st.stack));
  }

  lemma {:induction false} TableEntry(fuel: nat, c: Ctx, labels: seq<nat>, ls: seq<nat>, d: nat, i: nat, st: State)
    requires MaxLabel(ls, d) < |labels| && |st.locals| == c.n + SCRATCH && st.locals[Cond(c)] == I32(i) && st.stack == Nil
    ensures Chosen(ls, d, i) <= MaxLabel(ls, d)
    ensures var segs := TableSegs(c, labels, ls, d);
      After(fuel, 1, segs, 0, st) == After(fuel, 1, segs, Chosen(ls, d, i) + 1, st.(stack := Push(I64(0), Nil)))
  {
    var segs, l := TableSegs(c, labels, ls, d), Chosen(ls, d, i);
    var ops := [Const(I64(0)), LocalGet(Cond(c)), BrTable(ls, d)];
    var s1 := st.(stack := Push(I64(0), Nil));
    ExecRun(fuel, ops, NO_PC, st);
    assert RunAll(ops, st) == Run(ops, 3, st) == Jump(l, s1, NO_PC);
    assert segs[0] == Lift(ops);
    assert Take(s1.stack, 1) == s1.stack;
    assert After(fuel, 1, segs, 0, st) == Resume(fuel, 1, segs, 0, Jump(l, s1, NO_PC));
  }

  lemma {:induction false} TableExit(fuel: nat, c: Ctx, labels: seq<nat>, ls: seq<nat>, d: nat, l: nat, st: State)
    requires MaxLabel(ls, d) < |labels| && l <= MaxLabel(ls, d) && st.stack == Push(I64(0), Nil)
    ensures After(fuel, 1, TableSegs(c, labels, ls, d), l + 1, st) == Next(st.(stack := Push(I64(labels[l]), Nil)))
  {
    var m, segs := MaxLabel(ls, d), TableSegs(c, labels, ls, d);
    var ops := [Const(I64(labels[l])), Br(m - l)];
    var s1 := st.(stack := Push(I64(labels[l]), st.stack));
    ExecRun(fuel, ops, NO_PC, st);
    assert RunAll(ops, st) == Run(ops, 2, st) == Jump(m - l, s1, NO_PC);
    assert segs[l + 1] == TableArm(labels, m, l) == Lift(ops);
    assert Take(s1.stack, 1) == Push(I64(labels[l]), Nil) by { assert Take(st.stack, 0) == Nil; }
    var s2 := st.(stack := Push(I64(labels[l]), Nil));
    assert After(fuel, 1, segs, l + 1, st) == Resume(fuel, 1, segs, l + 1, Jump(m - l, s1, NO_PC));
    assert Resume(fuel, 1, segs, l + 1, Jump(m - l, s1, NO_PC)) == After(fuel, 1, segs, m + 2, s2);
  }

  lemma {:induction false} BrTableInserted(
      fuel: nat, c: Ctx, labels: seq<nat>, ls: seq<nat>, d: nat, pc: nat, end: int, events: seq<Rec>, st: State)
    requires Ready(c, events, st) && MaxLabel(ls, d) < |labels| && st.stack.Push? && st.stack.top.I32?
    requires InRange(Rec(c.fn, pc, labels[Chosen(ls, d, st.stack.top.n)]))
    requires c.base + 8 + ENTRY * (|events| + 1) <= c.size
    ensures var e := Rec(c.fn, pc, labels[Chosen(ls, d, st.stack.top.n)]);
      var o := Exec(fuel, BrTableCode(c, labels, ls, d, pc), end, st);
      o.Next? && Untouched(c, st, o.st) && Ready(c, events + [e], o.st)
  {
    hide RecordOps, Logged, Nest, TableSegs, MaxLabel;
    var i := st.stack.top.n;
    var e := Rec(c.fn, pc, labels[Chosen(ls, d, i)]);
    var nest, rec := Nest(1, TableSegs(c, labels, ls, d)), RecordOps(c, Here(c, pc));
    var tee := [LocalTee(Cond(c))];
    ExecAppend(fuel, Lift(tee) + [nest], Lift(rec), end, st);
    ExecAppend(fuel, Lift(tee), [nest], PcAt(Lift(rec), end), st);
    ExecRun(fuel, tee, PcAt([nest], PcAt(Lift(rec), end)), st);
    var s0 := st.(locals := st.locals[Cond(c) := I32(i)]);
    assert RunAll(tee, st) == Run(tee, 1, st) == Next(s0);
    var next := PcAt(Lift(rec), end);
    TableTarget(fuel, c, labels, ls, d, i, next, s0);
    ExecOne(fuel, nest, next, s0);
    var s1 := PushVal(s0, I64(e.dst));
    ExecRun(fuel, rec, end, s1);
    assert s0.locals[..c.n] == st.locals[..c.n];
    RecordEvent(c, Here(c, pc), e, events, s0.stack, s1);
  }

  /** Whatever the branch: its one event is recorded before it, and nothing else happens. */
  lemma {:induction false} InsertedRuns(
      fuel: nat, c: Ctx, labels: seq<nat>, p: Plain, pc: nat, next: nat, end: int, events: seq<Rec>, st: State)
    requires IsBranch(p) && TracedPlain(c, p, |labels|) && Selects(p, st) && Ready(c, events, st)
    requires InRange(Rec(c.fn, pc, Dest(labels, p, next, st))) && c.base + 8 + ENTRY * (|events| + 1) <= c.size
    ensures var o := Exec(fuel, Inserted(c, labels, p, pc, next), end, st);
      o.Next? && Untouched(c, st, o.st) && Ready(c, events + [Rec(c.fn, pc, Dest(labels, p, next, st))], o.st)
  {
    hide Ready, Untouched, BrOps, BrIfOps, BrTableCode, MaxLabel;
    match p
    case Br(l) =>
      ExecRun(fuel, BrOps(c, labels, l, pc), end, st);
      BrInserted(c, labels, l, pc, events, st);
    case BrIf(l) =>
      ExecRun(fuel, BrIfOps(c, labels, l, pc, next), end, st);
      BrIfInserted(c, labels, l, pc, next, events, st);
    case BrTable(ls, d) =>
      BrTableInserted(fuel, c, labels, ls, d, pc, end, events, st);
    case _ =>
  }
}
