/**
 * Whole programs under the recorder: code of any shape with its calls runs as if its accesses were not
 * recorded, and its tokens are the ones the pass over the functions leaves.
 */
module RecorderFlow {
  import opened Bytes
  import opened Wasm
  import opened Flat
  import opened Recorder
  import opened Locals
  import opened RecorderSteps
  import opened RecorderAccess
  import opened RecorderRun
  import opened RecorderGen

  // ----- recorded code -----

  function Behind(s: Slots, x: Access): seq<Instr> { AfterOps(s, x) + Lift([CallHost(Unlock)]) }

  /** An access with what is inserted on both sides. */
  function Around(n: nat, i: Instr, idx: nat): seq<Instr>
    requires IsAccess(InsT(i))
  {
    var x := AccessOf(InsT(i), idx);
    Lift([CallHost(Lock)]) + [ShadowBlock(SlotsOf(n, x), x)] + [i] + Behind(SlotsOf(n, x), x)
  }

  /** Code of a function with `n` locals, its accesses numbered from `idx`. */
  function RecCode(n: nat, code: seq<Instr>, idx: nat): seq<Instr>
    decreases code, 1
  {
    if code == [] then [] else RecI(n, code[0], idx) + RecCode(n, code[1..], idx + Accesses(FlattenI(code[0])))
  }

  function RecI(n: nat, i: Instr, idx: nat): seq<Instr>
    decreases i, 0
  {
    if IsAccess(InsT(i)) then Around(n, i, idx)
    else
      match i
      case Block(bt, body, pc, end) => [Block(bt, RecCode(n, body, idx), pc, end)]
      case Loop(bt, body, pc, end) => [Loop(bt, RecCode(n, body, idx), pc, end)]
      case _ => [i]
  }

  /** Accesses, a function's own data, branches, calls and returns. */
  predicate Recordable(n: nat, code: seq<Instr>)
    decreases code, 1
  {
    code == [] || (RecordableI(n, code[0]) && Recordable(n, code[1..]))
  }

  predicate RecordableI(n: nat, i: Instr)
    decreases i, 0
  {
    match i
    case Do(p, _) => IsAccess(InsT(i)) || Own(p, n) || p.Unreachable? || p.Br? || p.BrIf? || p.BrTable?
    case Block(_, body, _, _) => Recordable(n, body)
    case Loop(_, body, _, _) => Recordable(n, body)
    case Call(_, _, _) => false
    case _ => true
  }

  /** The plain instructions that are not: other accesses, host calls, and locals the function does not have. */
  predicate NotRecordable(n: nat, t: Tok, p: Plain) {
    match p
    case LocalGet(l) => l >= n
    case LocalSet(l) => l >= n
    case LocalTee(l) => l >= n
    case Load(_, _, _, _, _) => !IsAccess(t)
    case Store(_, _, _, _) => !IsAccess(t)
    case AtomicLoad64(_) => true
    case AtomicAdd64(_) => true
    case MemoryGrow(_) => true
    case CallHost(_) => true
    case _ => false
  }

  /** Everything else may stand in a recorded function. */
  lemma RecordableIff(n: nat, i: Instr)
    ensures RecordableI(n, i) <==>
      !i.Call? && (i.Do? ==> !NotRecordable(n, InsT(i), i.p)) && (i.Block? || i.Loop? ==> Recordable(n, i.body))
  {
    hide Recordable;
  }

  // ----- its tokens -----

  lemma {:induction false} AccessesCat(a: seq<Tok>, b: seq<Tok>)
    ensures Accesses(a + b) == Accesses(a) + Accesses(b)
    decreases |b|
  {
    hide IsAccess;
    if b == [] {
      assert a + b == a;
    } else {
      assert (a + b)[..|a + b| - 1] == a + b[..|b| - 1];
      AccessesCat(a, b[..|b| - 1]);
    }
  }

  lemma {:induction false} RewrittenCat(n: nat, a: seq<Tok>, b: seq<Tok>, idx: nat)
    ensures Rewritten(n, a + b, idx) == Rewritten(n, a, idx) + Rewritten(n, b, idx + Accesses(a))
    decreases |b|
  {
    hide *;
    if b == [] {
      assert a + b == a;
      RewrittenNone(n, idx + Accesses(a));
    } else {
      var init, t := b[..|b| - 1], b[|b| - 1];
      assert a + b == a + init + [t] && b == init + [t];
      RewrittenCat(n, a, init, idx);
      RewrittenSnoc(n, a + init, t, idx);
      RewrittenSnoc(n, init, t, idx + Accesses(a));
      AccessesCat(a, init);
    }
  }

  function Piece(n: nat, t: Tok, idx: nat): seq<Tok> {
    if IsAccess(t) then PreToks(n, AccessOf(t, idx)) + [t] + PostToks(n, AccessOf(t, idx)) else [t]
  }

  lemma RewrittenSnoc(n: nat, init: seq<Tok>, t: Tok, idx: nat)
    ensures Rewritten(n, init + [t], idx) == Rewritten(n, init, idx) + Piece(n, t, idx + Accesses(init))
    ensures Accesses(init + [t]) == Accesses(init) + if IsAccess(t) then 1 else 0
  {
    hide PreToks, PostToks, AccessOf, IsAccess;
    assert (init + [t])[..|init|] == init;
  }

  lemma RewrittenOne(n: nat, t: Tok, idx: nat)
    ensures Rewritten(n, [t], idx) == Piece(n, t, idx) && Accesses([t]) == if IsAccess(t) then 1 else 0
  {
    hide *;
    assert [] + [t] == [t];
    RewrittenSnoc(n, [], t, idx);
    RewrittenNone(n, idx);
  }

  /** The places of the program's loads and stores. */
  ghost function AccessPlaces(toks: seq<Tok>): set<nat> { set k: nat | k < |toks| && Accessing(toks[k]) }

  lemma {:induction false} AccessesAre(toks: seq<Tok>)
    ensures Accesses(toks) == |AccessPlaces(toks)|
  {
    hide IsAccess, Accessing;
    if toks != [] {
      var last := |toks| - 1;
      AccessesAre(toks[..last]);
      AccessIff(toks[last]);
      assert AccessPlaces(toks) == AccessPlaces(toks[..last]) + if Accessing(toks[last]) then {last} else {};
    }
  }

  /** At `k` the pass has surrounded the access `x` with its own setup and its own report, and goes on behind. */
  ghost predicate Surrounded(n: nat, toks: seq<Tok>, idx: nat, k: nat, x: Access)
    requires k < |toks|
  {
    var c := idx + |AccessPlaces(toks[..k])|;
    exists y: Access {:trigger Numbered(x, y, c)} :: Numbered(x, y, c)
      && Rewritten(n, toks, idx)
         == Rewritten(n, toks[..k], idx) + (PreToks(n, y) + [toks[k]] + PostToks(n, y)) + Rewritten(n, toks[k + 1..], c + 1)
  }

  /**
   * The whole list: each load or store of the program's memory stands between its own setup and its own
   * report, numbered by those before it; everything else stands alone.
   */
  lemma {:induction false} EachRecorded(n: nat, toks: seq<Tok>, idx: nat, k: nat)
    requires k < |toks|
    ensures !Accessing(toks[k]) ==>
      Rewritten(n, toks, idx)
      == Rewritten(n, toks[..k], idx) + [toks[k]] + Rewritten(n, toks[k + 1..], idx + |AccessPlaces(toks[..k])|)
    ensures forall x :: Encodable(x) && IsOf(toks[k], x) ==> Surrounded(n, toks, idx, k, x)
  {
    hide *;
    var t, c := toks[k], idx + |AccessPlaces(toks[..k])|;
    AccessesAre(toks[..k]);
    AccessIff(t);
    assert toks == toks[..k] + [t] + toks[k + 1..];
    RewrittenCat(n, toks[..k] + [t], toks[k + 1..], idx);
    RewrittenSnoc(n, toks[..k], t, idx);
    PieceIs(n, t, c);
    forall x | Encodable(x) && IsOf(t, x) ensures Surrounded(n, toks, idx, k, x) {
      AccessFound(t, x);
      OpcodeExact(t, x, c);
      SurroundedIf(n, toks, idx, k, x, AccessOf(t, c));
    }
  }

  lemma SurroundedIf(n: nat, toks: seq<Tok>, idx: nat, k: nat, x: Access, y: Access)
    requires k < |toks| && Numbered(x, y, idx + |AccessPlaces(toks[..k])|)
    requires Rewritten(n, toks, idx)
      == Rewritten(n, toks[..k], idx) + (PreToks(n, y) + [toks[k]] + PostToks(n, y))
         + Rewritten(n, toks[k + 1..], idx + |AccessPlaces(toks[..k])| + 1)
    ensures Surrounded(n, toks, idx, k, x)
  {
    hide Numbered, Rewritten, PreToks, PostToks, AccessPlaces;
  }

  lemma AccessFound(t: Tok, x: Access)
    requires Encodable(x) && IsOf(t, x)
    ensures IsAccess(t)
  {
    AccessIff(t);
    hide IsAccess;
  }

  lemma {:induction false} AroundToks(n: nat, i: Instr, idx: nat)
    requires IsAccess(InsT(i))
    ensures Flatten(Around(n, i, idx)) == Piece(n, InsT(i), idx)
  {
    var x := AccessOf(InsT(i), idx);
    var s := SlotsOf(n, x);
    assert FlattenI(i) == [InsT(i)];
    hide Flatten, ShadowBlock, AfterOps, AccessOf, SlotsOf, FlattenI, Lift;
    var pre := Lift([CallHost(Lock)]) + [ShadowBlock(s, x)];
    FlattenAppend(pre + [i], Behind(s, x));
    FlattenAppend(pre, [i]);
    FlattenOne(i);
  }

  /** The tokens of recorded code are those the pass makes of the code's tokens. */
  lemma {:induction false} RecordedTokens(n: nat, code: seq<Instr>, idx: nat)
    ensures Flatten(RecCode(n, code, idx)) == Rewritten(n, Flatten(code), idx)
    decreases code, 1
  {
    hide *;
    CodeParts(n, code, idx);
    if code == [] {
      RewrittenNone(n, idx);
    } else {
      var k := idx + Accesses(FlattenI(code[0]));
      RecordedTokensI(n, code[0], idx);
      RecordedTokens(n, code[1..], k);
      FlattenAppend(RecI(n, code[0], idx), RecCode(n, code[1..], k));
      RewrittenCat(n, FlattenI(code[0]), Flatten(code[1..]), idx);
    }
  }

  lemma CodeParts(n: nat, code: seq<Instr>, idx: nat)
    ensures code == [] ==> RecCode(n, code, idx) == [] && Flatten(code) == []
    ensures code != [] ==> Flatten(code) == FlattenI(code[0]) + Flatten(code[1..])
    ensures code != [] ==>
      RecCode(n, code, idx) == RecI(n, code[0], idx) + RecCode(n, code[1..], idx + Accesses(FlattenI(code[0])))
  {
    hide RecI, FlattenI, Accesses;
  }

  lemma RecIs(n: nat, i: Instr, idx: nat)
    ensures IsAccess(InsT(i)) ==> i.Do? && RecI(n, i, idx) == Around(n, i, idx)
    ensures i.Block? ==> RecI(n, i, idx) == [Block(i.bt, RecCode(n, i.body, idx), i.pc, i.end)]
    ensures i.Loop? ==> RecI(n, i, idx) == [Loop(i.bt, RecCode(n, i.body, idx), i.pc, i.end)]
    ensures !IsAccess(InsT(i)) && !i.Block? && !i.Loop? ==> RecI(n, i, idx) == [i]
  {
    hide Around, RecCode;
  }

  lemma NestToks(i: Instr)
    ensures i.Block? ==> FlattenI(i) == [BlockT(i.bt, i.pc)] + (Flatten(i.body) + [EndT(i.end)])
    ensures i.Loop? ==> FlattenI(i) == [LoopT(i.bt, i.pc)] + (Flatten(i.body) + [EndT(i.end)])
    ensures !i.Block? && !i.Loop? ==> FlattenI(i) == [InsT(i)]
  {
    hide Flatten;
  }

  lemma NoAccess(bt: BlockType, pc: int)
    ensures !IsAccess(BlockT(bt, pc)) && !IsAccess(LoopT(bt, pc)) && !IsAccess(EndT(pc))
  {
  }

  lemma PieceIs(n: nat, t: Tok, idx: nat)
    ensures !IsAccess(t) ==> Piece(n, t, idx) == [t]
    ensures IsAccess(t) ==> Piece(n, t, idx) == PreToks(n, AccessOf(t, idx)) + [t] + PostToks(n, AccessOf(t, idx))
  {
    hide IsAccess;
  }

  lemma {:induction false} RecordedTokensI(n: nat, i: Instr, idx: nat)
    ensures Flatten(RecI(n, i, idx)) == Rewritten(n, FlattenI(i), idx)
    decreases i, 0
  {
    hide *;
    RecIs(n, i, idx);
    NestToks(i);
    if i.Block? || i.Loop? {
      var open := FlattenI(i)[0];
      var i' := RecI(n, i, idx)[0];
      NestToks(i');
      NoAccess(i.bt, i.pc);
      NoAccess(i.bt, i.end);
      RecordedTokens(n, i.body, idx);
      FlattenOne(i');
      RewrittenCat(n, [open], Flatten(i.body) + [EndT(i.end)], idx);
      RewrittenOne(n, open, idx);
      RewrittenCat(n, Flatten(i.body), [EndT(i.end)], idx);
      RewrittenOne(n, EndT(i.end), idx + Accesses(Flatten(i.body)));
      PieceIs(n, open, idx);
      PieceIs(n, EndT(i.end), idx + Accesses(Flatten(i.body)));
    } else {
      RewrittenOne(n, InsT(i), idx);
      if IsAccess(InsT(i)) {
        AroundToks(n, i, idx);
      } else {
        FlattenOne(i);
        PieceIs(n, InsT(i), idx);
      }
    }
  }

  /** A function's list, with the `end` that closes it. */
  lemma {:induction false} RecordedFunction(n: nat, code: seq<Instr>, end: int, idx: nat)
    ensures Rewritten(n, Flatten(code) + [EndT(end)], idx) == Flatten(RecCode(n, code, idx)) + [EndT(end)]
    ensures Parse(Rewritten(n, Flatten(code) + [EndT(end)], idx)) == Parsed(RecCode(n, code, idx), end, [])
  {
    hide *;
    RecordedTokens(n, code, idx);
    RewrittenCat(n, Flatten(code), [EndT(end)], idx);
    RewrittenOne(n, EndT(end), idx + Accesses(Flatten(code)));
    NoAccess(BT(0, 0), end);
    PieceIs(n, EndT(end), idx + Accesses(Flatten(code)));
    ParseFlatten(RecCode(n, code, idx), end, []);
    assert Flatten(RecCode(n, code, idx)) + [EndT(end)] + [] == Flatten(RecCode(n, code, idx)) + [EndT(end)];
  }

  // ----- programs -----

  function Own0(fn: WasmFn): nat { |fn.ty.params| + |fn.locals| }

  /** The pool's locals start out as zeros. */
  function PoolZeros(): (r: seq<Val>)
    ensures |r| == POOL
  {
    PoolCount();
    var tys := PoolTypes(RECORD_LOCALS, 4);
    seq(|tys|, i requires 0 <= i < |tys| => MakeVal(tys[i], 0))
  }

  /** The functions of the program, the same recorded, and where each one's numbers start. */
  datatype Recs = Recs(fs: seq<WasmFn>, gs: seq<WasmFn>, firsts: seq<nat>)

  predicate FnRecorded(g: Recs, f: nat)
    requires f < |g.fs| && f < |g.gs| && f < |g.firsts|
  {
    && Recordable(Own0(g.fs[f]), g.fs[f].body)
    && g.gs[f] == WasmFn(g.fs[f].ty, g.fs[f].locals + PoolZeros(), RecCode(Own0(g.fs[f]), g.fs[f].body, g.firsts[f]), g.fs[f].end)
  }

  predicate RecordedProgram(g: Recs) {
    |g.fs| == |g.gs| == |g.firsts| && forall f :: 0 <= f < |g.fs| ==> FnRecorded(g, f)
  }

  /**
   * What the recorded run agrees on: everything but the pool's locals, the shadow, the reports, and the
   * positions an evaluation notes.
   */
  ghost predicate Beside(g: Recs, n: nat, o: State, i: State) {
    && |o.locals| == n && Ready(n, i) && i.locals[..n] == o.locals && o.funcs == g.fs && i.funcs == g.gs
    && i == o.(locals := i.locals, shadow := i.shadow, host := i.host, funcs := i.funcs, log := i.log)
  }

  /** Outcomes of both; nothing is said of code that is not valid. */
  ghost predicate Matched(g: Recs, n: nat, a: Outcome, b: Outcome) {
    || a.Invalid? || (a.Trap? && b.Trap?) || (a.Spin? && b.Spin?)
    || (a.Next? && b.Next? && Beside(g, n, a.st, b.st))
    || (a.Jump? && b.Jump? && a.l == b.l && Beside(g, n, a.st, b.st))
    || (a.Leaving? && b.Leaving? && Beside(g, n, a.st, b.st))
  }

  // ----- one access -----

  lemma ShadowAny(fuel: nat, s: Slots, x: Access, next: int, next2: int, st: State)
    ensures ExecI(fuel, ShadowBlock(s, x), next, st) == ExecI(fuel, ShadowBlock(s, x), next2, st)
  {
    hide Exec;
  }

  lemma {:induction false} FrontAny(fuel: nat, s: Slots, x: Access, end: int, end2: int, st: State)
    ensures var a := Lift([CallHost(Lock)]) + [ShadowBlock(s, x)]; Exec(fuel, a, end, st) == Exec(fuel, a, end2, st)
  {
    hide *;
    var a := Lift([CallHost(Lock)]) + [ShadowBlock(s, x)];
    LiftNone();
    assert a + Lift([]) == a;
    ExecThree(fuel, [CallHost(Lock)], ShadowBlock(s, x), [], end, st);
    ExecThree(fuel, [CallHost(Lock)], ShadowBlock(s, x), [], end2, st);
    var o := RunAll([CallHost(Lock)], st);
    if o.Next? { ShadowAny(fuel, s, x, PcAt(Lift([]), end), PcAt(Lift([]), end2), o.st); }
  }

  lemma LiftNone()
    ensures Lift([]) == []
  {
  }

  lemma StepAny(i: Instr, idx: nat, next: int, next2: int, fuel: nat, st: State)
    requires IsAccess(InsT(i))
    ensures var y := Do(Original(AccessOf(InsT(i), idx)), NO_PC);
      ExecI(fuel, i, next, st) == ExecI(fuel, y, next2, st) == Step(y.p, NO_PC, NO_PC, st)
  {
    hide DoLoad, DoStore, Opcode;
  }

  lemma RecordedIs(n: nat, x: Access)
    ensures var s := SlotsOf(n, x);
      Recorded(n, x) == Lift([CallHost(Lock)]) + [ShadowBlock(s, x)] + [Do(Original(x), NO_PC)] + Behind(s, x)
  {
    hide ShadowBlock, WriteBack, CompareOps, ReportOps, Original;
    var s := SlotsOf(n, x);
    assert Lift(LastOps(s, x)) == Lift(LastOps(s, x)[..4]) + Lift([CallHost(Unlock)]);
    assert Lift([Original(x)]) == [Do(Original(x), NO_PC)];
  }

  lemma {:induction false} MiddleIs(fuel: nat, a: seq<Instr>, i: Instr, b: seq<Instr>, end: int, st: State)
    ensures Exec(fuel, a + [i] + b, end, st) == match Exec(fuel, a, i.pc, st)
      case Next(s1) => (match ExecI(fuel, i, PcAt(b, end), s1) case Next(s2) => Exec(fuel, b, end, s2) case o => o)
      case o => o
  {
    hide ExecI;
    ExecAppend(fuel, a + [i], b, end, st);
    ExecAppend(fuel, a, [i], PcAt(b, end), st);
    var o := Exec(fuel, a, i.pc, st);
    if o.Next? { ExecOne(fuel, i, PcAt(b, end), o.st); }
  }

  /** Where the access stood does not matter. */
  lemma {:induction false} AroundRuns(fuel: nat, n: nat, i: Instr, idx: nat, end: int, st: State)
    requires IsAccess(InsT(i))
    ensures Exec(fuel, Around(n, i, idx), end, st) == Exec(fuel, Recorded(n, AccessOf(InsT(i), idx)), end, st)
  {
    var x := AccessOf(InsT(i), idx);
    var s := SlotsOf(n, x);
    var y := Do(Original(x), NO_PC);
    var a := Lift([CallHost(Lock)]) + [ShadowBlock(s, x)];
    AroundIs(n, i, idx);
    hide *;
    RecordedIs(n, x);
    MiddleIs(fuel, a, i, Behind(s, x), end, st);
    MiddleIs(fuel, a, y, Behind(s, x), end, st);
    FrontAny(fuel, s, x, i.pc, NO_PC, st);
    var o := Exec(fuel, a, i.pc, st);
    if o.Next? { StepAny(i, idx, PcAt(Behind(s, x), end), PcAt(Behind(s, x), end), fuel, o.st); }
  }

  lemma AroundIs(n: nat, i: Instr, idx: nat)
    requires IsAccess(InsT(i))
    ensures var x := AccessOf(InsT(i), idx); var s := SlotsOf(n, x);
      Around(n, i, idx) == Lift([CallHost(Lock)]) + [ShadowBlock(s, x)] + [i] + Behind(s, x)
  {
    hide Behind, ShadowBlock;
  }

  lemma BesideNow(g: Recs, n: nat, o: State, i: State)
    requires Beside(g, n, o, i)
    ensures Ready(n, i) && i.stack == o.stack && i.main == o.main && |o.locals| == n && i.locals[..n] == o.locals
    ensures o.funcs == g.fs && i.funcs == g.gs && i.table == o.table && i.fn == o.fn && i.globals == o.globals
    ensures |i.locals| == n + POOL
  {
  }

  lemma {:induction false} LoadMatched(g: Recs, n: nat, k: nat, x: Access, a: nat, rest: Stack, end: int, o: State, i: State)
    requires ValidAccess(x) && x.kind.LoadK? && Beside(g, n, o, i) && o.stack == Push(I32(a), rest)
    ensures Matched(g, n, Step(Original(x), NO_PC, NO_PC, o), Exec(k, Recorded(n, x), end, i))
  {
    hide *;
    BesideNow(g, n, o, i);
    LoadRecorded(k, n, x, a, rest, end, i);
    OriginalLoad(x, a, rest, o);
    if a + x.offset + x.width <= |o.main| {
      LoadBeside(g, n, x, a + x.offset, rest, o, i, Exec(k, Recorded(n, x), end, i).st);
      NextMatched(g, n, o.(stack := Push(MakeVal(x.ty, RawAt(x, o.main, a + x.offset)), rest)), Exec(k, Recorded(n, x), end, i));
    } else {
      TrapMatched(g, n);
    }
  }

  lemma NextMatched(g: Recs, n: nat, s: State, b: Outcome)
    requires b.Next? && Beside(g, n, s, b.st)
    ensures Matched(g, n, Next(s), b)
  {
    hide Beside;
  }

  lemma TrapMatched(g: Recs, n: nat)
    ensures Matched(g, n, Trap, Trap)
  {
  }

  lemma LoadBeside(g: Recs, n: nat, x: Access, ea: nat, rest: Stack, o: State, i: State, t: State)
    requires x.kind.LoadK? && Beside(g, n, o, i) && ea + x.width <= |i.main| && LoadDone(n, x, ea, rest, i, t)
    ensures Beside(g, n, o.(stack := Push(MakeVal(x.ty, RawAt(x, o.main, ea)), rest)), t)
  {
    hide RawAt, TraceArgs, ToLE;
  }

  lemma StoreBeside(g: Recs, n: nat, x: Access, ea: nat, v: Val, rest: Stack, o: State, i: State, t: State)
    requires Beside(g, n, o, i) && ea + x.width <= |i.main| && StoreDone(n, x, ea, v, rest, i, t)
    ensures Beside(g, n, o.(stack := rest, main := Poke(o.main, ea, ToLE(v.n, x.width))), t)
  {
    hide TraceArgs, ToLE;
  }

  lemma {:induction false} StoreMatched(g: Recs, n: nat, k: nat, x: Access, a: nat, v: Val, rest: Stack, end: int, o: State, i: State)
    requires ValidAccess(x) && x.kind.StoreK? && Beside(g, n, o, i)
    requires o.stack == Push(v, Push(I32(a), rest)) && TypeOf(v) == x.ty
    ensures Matched(g, n, Step(Original(x), NO_PC, NO_PC, o), Exec(k, Recorded(n, x), end, i))
  {
    hide *;
    BesideNow(g, n, o, i);
    StoreRecorded(k, n, x, a, v, rest, end, i);
    OriginalStore(x, a, v, rest, o);
    if a + x.offset + x.width <= |o.main| {
      StoreBeside(g, n, x, a + x.offset, v, rest, o, i, Exec(k, Recorded(n, x), end, i).st);
      NextMatched(g, n, o.(stack := rest, main := Poke(o.main, a + x.offset, ToLE(v.n, x.width))), Exec(k, Recorded(n, x), end, i));
    } else {
      TrapMatched(g, n);
    }
  }

  lemma InvalidMatched(g: Recs, n: nat, a: Outcome, b: Outcome)
    requires a.Invalid?
    ensures Matched(g, n, a, b)
  {
    hide Beside;
  }

  lemma LoadOrStore(x: Access)
    ensures x.kind.LoadK? || x.kind.StoreK?
  {
  }

  /** One access, and the same with everything around it. */
  lemma {:induction false} AccessMatched(g: Recs, n: nat, k: nat, x: Instr, idx: nat, next: int, end: int, o: State, i: State)
    requires IsAccess(InsT(x)) && Beside(g, n, o, i)
    ensures Matched(g, n, ExecI(k, x, next, o), Exec(k, Around(n, x, idx), end, i))
  {
    hide *;
    var y := AccessOf(InsT(x), idx);
    AroundRuns(k, n, x, idx, end, i);
    StepAny(x, idx, next, next, k, o);
    if Step(Original(y), NO_PC, NO_PC, o).Invalid? {
      InvalidMatched(g, n, ExecI(k, x, next, o), Exec(k, Around(n, x, idx), end, i));
    } else {
      AccessOperands(y, o);
      LoadOrStore(y);
      if y.kind.LoadK? {
        LoadMatched(g, n, k, y, o.stack.top.n, o.stack.below, end, o, i);
      } else {
        StoreMatched(g, n, k, y, o.stack.below.top.n, o.stack.top, o.stack.below.below, end, o, i);
      }
    }
  }

  // ----- other instructions -----

  lemma {:induction false} OwnMatched(g: Recs, n: nat, p: Plain, pc: int, next: int, next2: int, o: State, i: State)
    requires Own(p, n) && Beside(g, n, o, i)
    ensures Matched(g, n, Step(p, pc, next, o), Step(p, pc, next2, i))
  {
    hide Step, Own;
    StepPlace(p, n, pc, next, next2, i);
    OwnFrame(n, p, pc, next, o, i);
    var a := Step(p, pc, next, o);
    if a.Next? { assert (a.st.locals + i.locals[n..])[..n] == a.st.locals; }
  }

  lemma StepPlace(p: Plain, n: nat, pc: int, next: int, next2: int, st: State)
    requires Own(p, n)
    ensures Step(p, pc, next, st) == Step(p, pc, next2, st)
  {
  }

  lemma BranchMatched(g: Recs, n: nat, p: Plain, pc: int, next: int, next2: int, o: State, i: State)
    requires (p.Unreachable? || p.Br? || p.BrIf? || p.BrTable?) && Beside(g, n, o, i)
    ensures Matched(g, n, Step(p, pc, next, o), Step(p, pc, next2, i))
  {
    hide Arrive;
  }

  lemma StackBeside(g: Recs, n: nat, o: State, i: State, s: Stack)
    requires Beside(g, n, o, i)
    ensures Beside(g, n, o.(stack := s), i.(stack := s))
  {
  }

  lemma LogBeside(g: Recs, n: nat, o: State, i: State, s: Stack, l1: seq<Event>, l2: seq<Event>)
    requires Beside(g, n, o, i)
    ensures Beside(g, n, o.(stack := s, log := l1), i.(stack := s, log := l2))
  {
  }

  lemma {:induction false} LeaveMatched(g: Recs, n: nat, r: nat, below: Stack, dst: int, dst2: int, a: Outcome, b: Outcome)
    requires Matched(g, n, a, b)
    ensures Matched(g, n, Leave(r, below, dst, a), Leave(r, below, dst2, b))
  {
    if a.Next? { StackBeside(g, n, a.st, b.st, Append(a.st.stack, below)); }
    if a.Jump? && a.l == 0 && Size(a.st.stack) >= r {
      LogBeside(g, n, a.st, b.st, Append(Take(a.st.stack, r), below), Arrive(a.st, a.src, dst, Within), Arrive(b.st, b.src, dst2, Within));
      MatchedStack(g, n, a, b);
    }
    if a.Next? || a.Jump? { MatchedStack(g, n, a, b); }
    hide Beside, Append, Take, Size, Arrive;
  }

  lemma MatchedStack(g: Recs, n: nat, a: Outcome, b: Outcome)
    requires Matched(g, n, a, b) && (a.Next? || a.Jump? || a.Leaving?)
    ensures (b.Next? || b.Jump? || b.Leaving?) && b.st.stack == a.st.stack
  {
  }

  lemma MatchedNext(g: Recs, n: nat, a: Outcome, b: Outcome)
    requires Matched(g, n, a, b)
    ensures a.Next? ==> b.Next? && Beside(g, n, a.st, b.st)
    ensures a.Jump? ==> b.Jump? && b.l == a.l && Beside(g, n, a.st, b.st)
    ensures !a.Invalid? && !a.Next? ==> !b.Next?
    ensures !a.Invalid? && !a.Jump? ==> !b.Jump?
  {
    hide Beside;
  }

  // ----- calls -----

  lemma FnNow(g: Recs, f: nat)
    requires RecordedProgram(g) && f < |g.fs|
    ensures |g.gs| == |g.fs| == |g.firsts| && Recordable(Own0(g.fs[f]), g.fs[f].body)
    ensures g.gs[f].ty == g.fs[f].ty && g.gs[f].locals == g.fs[f].locals + PoolZeros() && g.gs[f].end == g.fs[f].end
    ensures g.gs[f].body == RecCode(Own0(g.fs[f]), g.fs[f].body, g.firsts[f])
  {
    assert FnRecorded(g, f);
    hide Recordable, RecCode, PoolZeros;
  }

  lemma SameSizes(g: Recs)
    requires RecordedProgram(g)
    ensures |g.gs| == |g.fs|
  {
    hide FnRecorded;
  }

  /** Both call the same function with the same operands, or stop alike. */
  ghost predicate SameCall(g: Recs, n: nat, a: Dispatch, b: Dispatch) {
    || (a.Stops? && a.o.Invalid?) || (a.Stops? && b.Stops? && a.o.Trap? && b.o.Trap?)
    || (a.Goes? && b.Goes? && a.f == b.f && Beside(g, n, a.s, b.s) && a.f < |g.fs| && |g.fs[a.f].ty.params| <= Size(a.s.stack))
  }

  lemma {:induction false} CallableSame(g: Recs, n: nat, f: nat, o: State, i: State)
    requires RecordedProgram(g) && Beside(g, n, o, i)
    ensures SameCall(g, n, Callable(f, o), Callable(f, i))
  {
    SameSizes(g);
    BesideNow(g, n, o, i);
    if f < |g.fs| { FnNow(g, f); }
    hide RecordedProgram, Beside, Size;
  }

  lemma {:induction false} DispatchSame(g: Recs, n: nat, x: Instr, o: State, i: State)
    requires RecordedProgram(g) && Beside(g, n, o, i) && (x.CallFn? || x.CallTable?)
    ensures SameCall(g, n, Dispatched(x, o), Dispatched(x, i))
  {
    BesideNow(g, n, o, i);
    SameSizes(g);
    hide RecordedProgram, Beside, Size, Callable, Arrive, SameCall;
    if x.CallFn? {
      CallableSame(g, n, x.f, o, i);
    } else if o.stack.Push? && o.stack.top.I32? && o.stack.top.n < |o.table| && o.table[o.stack.top.n].SomeFunc? {
      var f := o.table[o.stack.top.n].f;
      if f < |g.fs| {
        FnNow(g, f);
        LogBeside(g, n, o, i, o.stack.below, Arrive(o, x.pc, f, Calls), Arrive(i, x.pc, f, Calls));
        CallableSame(g, n, f, o.(stack := o.stack.below, log := Arrive(o, x.pc, f, Calls)),
                     i.(stack := i.stack.below, log := Arrive(i, x.pc, f, Calls)));
        StopsSame(g, n, Trap, Stops(Trap));
      } else {
        StopsSame(g, n, Invalid, Dispatched(x, i));
      }
    } else {
      StopsSame(g, n, Invalid, Dispatched(x, i));
      StopsSame(g, n, Trap, Stops(Trap));
    }
  }

  lemma StopsSame(g: Recs, n: nat, a: Outcome, b: Dispatch)
    requires a.Invalid? || (a.Trap? && b.Stops? && b.o.Trap?)
    ensures SameCall(g, n, Stops(a), b)
  {
    hide Beside;
  }

  lemma {:induction false} ArgsSize(s: Stack)
    ensures |Args(s)| == Size(s)
  {
    if s.Push? { ArgsSize(s.below); }
  }

  lemma {:induction false} FrameBeside(g: Recs, n: nat, f: nat, s: State, t: State)
    requires RecordedProgram(g) && Beside(g, n, s, t) && f < |g.fs| && |g.fs[f].ty.params| <= Size(s.stack)
    ensures f < |s.funcs| && f < |t.funcs| && t.stack == s.stack
    ensures |s.funcs[f].ty.params| <= Size(s.stack) && |t.funcs[f].ty.params| <= Size(t.stack)
    ensures Beside(g, Own0(g.fs[f]), Frame(s, f), Frame(t, f))
  {
    FnNow(g, f);
    var args := Args(Take(s.stack, |g.fs[f].ty.params|));
    ArgsSize(Take(s.stack, |g.fs[f].ty.params|));
    hide RecordedProgram, Args, Take, Size, RecCode, PoolZeros, Recordable;
    var all := args + (g.fs[f].locals + PoolZeros());
    assert all[..Own0(g.fs[f])] == args + g.fs[f].locals;
  }

  lemma BackBeside(g: Recs, n: nat, m: nat, f: nat, s: State, t: State, a: State, b: State, res: Stack, l1: seq<Event>, l2: seq<Event>)
    requires Beside(g, n, s, t) && Beside(g, m, a, b)
    requires f < |s.funcs| && f < |t.funcs| && t.stack == s.stack && s.funcs[f].ty == t.funcs[f].ty
    requires |s.funcs[f].ty.params| <= Size(s.stack) && |t.funcs[f].ty.params| <= Size(t.stack)
    ensures Beside(g, n, Wasm.Back(s, f, a, res, l1), Wasm.Back(t, f, b, res, l2))
  {
    hide Append, Under, Size;
  }

  lemma {:induction false} LeaveFnMatched(g: Recs, n: nat, f: nat, s: State, t: State, a: Outcome, b: Outcome)
    requires RecordedProgram(g) && Beside(g, n, s, t) && f < |g.fs|
    requires f < |s.funcs| && f < |t.funcs| && t.stack == s.stack
    requires |s.funcs[f].ty.params| <= Size(s.stack) && |t.funcs[f].ty.params| <= Size(t.stack)
    requires Matched(g, Own0(g.fs[f]), a, b)
    ensures Matched(g, n, LeaveFn(s, f, a), LeaveFn(t, f, b))
  {
    BesideNow(g, n, s, t);
    FnNow(g, f);
    var m, end := Own0(g.fs[f]), g.fs[f].end;
    var r := |g.fs[f].ty.results|;
    if a.Next? || a.Jump? || a.Leaving? { MatchedStack(g, m, a, b); }
    hide Beside, RecordedProgram, Wasm.Back, Take, Size, Arrive, RecCode, PoolZeros, Recordable, Own0;
    if a.Next? { BackBeside(g, n, m, f, s, t, a.st, b.st, a.st.stack, a.st.log, b.st.log); }
    if a.Jump? && Size(a.st.stack) >= r {
      BackBeside(g, n, m, f, s, t, a.st, b.st, Take(a.st.stack, r), Arrive(a.st, a.src, end, Exits), Arrive(b.st, b.src, end, Exits));
    }
    if a.Leaving? && Size(a.st.stack) >= r {
      BackBeside(g, n, m, f, s, t, a.st, b.st, Take(a.st.stack, r), a.st.log, b.st.log);
    }
  }
}
