/** When the buffer tells the truth: the target recorded for branches out of a function. */
module TracerTruth {
  import opened Bytes
  import opened Wasm
  import opened Flat
  import opened Ladder
  import opened Tracer
  import opened TracerSteps
  import opened TracerProof
  import opened TracerCalls
  import opened TracerSim

  /** Where control really went. */
  function True(e: Event): Rec { Rec(e.fn, e.src, e.dst) }

  /** A branch out of a function leads to the function's end. */
  predicate WellLogged(funcs: seq<WasmFn>, log: seq<Event>) {
    forall e <- log :: e.way.Exits? ==> e.fn < |funcs| && e.dst == funcs[e.fn].end
  }

  /** The state of an outcome belongs to the same function of the same program. */
  predicate Good(funcs: seq<WasmFn>, fn: nat, st: State) {
    st.funcs == funcs && st.fn == fn && WellLogged(funcs, st.log)
  }

  predicate AllGood(funcs: seq<WasmFn>, fn: nat, o: Outcome) {
    match o
    case Next(s) => Good(funcs, fn, s)
    case Leaving(s) => Good(funcs, fn, s)
    case Jump(_, s, _) => Good(funcs, fn, s)
    case _ => true
  }

  lemma ArriveGood(funcs: seq<WasmFn>, st: State, src: int, dst: int, way: Way)
    requires Good(funcs, st.fn, st) && (way.Exits? ==> st.fn < |funcs| && dst == funcs[st.fn].end)
    ensures WellLogged(funcs, Arrive(st, src, dst, way))
  {
  }

  lemma {:induction false} StepGood(p: Plain, pc: int, next: int, st: State)
    requires Good(st.funcs, st.fn, st)
    ensures AllGood(st.funcs, st.fn, Step(p, pc, next, st))
  {
    hide *;
    GoodLog(st.funcs, st.fn, st);
    ArriveGood(st.funcs, st, pc, next, Within);
    if OnMemory(p) { MemoryKept(p, pc, next, st); } else { OthersKept(p, pc, next, st); }
    KeptGood(st, Step(p, pc, next, st), Arrive(st, pc, next, Within));
  }

  /** A step stays in its function and logs nothing but `log`. */
  predicate Kept(st: State, o: Outcome, log: seq<Event>) {
    match o
    case Next(s) => s.funcs == st.funcs && s.fn == st.fn && (s.log == st.log || s.log == log)
    case Leaving(s) => s.funcs == st.funcs && s.fn == st.fn && s.log == st.log
    case Jump(_, s, _) => s.funcs == st.funcs && s.fn == st.fn && s.log == st.log
    case _ => true
  }

  predicate OnMemory(p: Plain) {
    p.Load? || p.Store? || p.AtomicLoad64? || p.AtomicAdd64? || p.MemoryGrow? || p.CallHost?
  }

  lemma MemoryKept(p: Plain, pc: int, next: int, st: State)
    requires OnMemory(p)
    ensures Kept(st, Step(p, pc, next, st), Arrive(st, pc, next, Within))
  {
    hide Arrive, Extend, Peek, Poke, ToLE, FromLE, MakeVal, Wrap32, Wrap64, Zeros, TypeOf, Take, Under, Size;
  }

  lemma OthersKept(p: Plain, pc: int, next: int, st: State)
    requires !OnMemory(p)
    ensures Kept(st, Step(p, pc, next, st), Arrive(st, pc, next, Within))
  {
    hide Arrive, Wrap32, Or, Bool32;
  }

  lemma GoodLog(funcs: seq<WasmFn>, fn: nat, st: State)
    requires Good(funcs, fn, st)
    ensures st.funcs == funcs && st.fn == fn && WellLogged(funcs, st.log)
  {
    hide WellLogged;
  }

  lemma KeptGood(st: State, o: Outcome, log: seq<Event>)
    requires Kept(st, o, log) && WellLogged(st.funcs, st.log) && WellLogged(st.funcs, log)
    ensures AllGood(st.funcs, st.fn, o)
  {
    hide WellLogged;
  }

  lemma {:induction false} ExecGood(fuel: nat, code: seq<Instr>, end: int, st: State)
    requires Good(st.funcs, st.fn, st)
    ensures AllGood(st.funcs, st.fn, Exec(fuel, code, end, st))
    decreases fuel, code, 1
  {
    if code == [] {
      ExecNone(fuel, end, st);
    } else {
      ExecIGood(fuel, code[0], PcAt(code[1..], end), st);
      ExecHead(fuel, code, end, st);
      var o := ExecI(fuel, code[0], PcAt(code[1..], end), st);
      hide Exec, ExecI, WellLogged;
      if o.Next? { ExecGood(fuel, code[1..], end, o.st); }
    }
  }

  lemma LeaveGood(funcs: seq<WasmFn>, fn: nat, r: nat, below: Stack, dst: int, o: Outcome)
    requires AllGood(funcs, fn, o)
    ensures AllGood(funcs, fn, Leave(r, below, dst, o))
  {
    if o.Jump? { ArriveGood(funcs, o.st, o.src, dst, Within); }
    hide WellLogged, Append, Take;
  }

  lemma AgainGood(funcs: seq<WasmFn>, fn: nat, bt: BlockType, st: State, s: State, src: int, pc: int)
    requires Good(funcs, fn, s) && bt.params <= Size(st.stack) && bt.params <= Size(s.stack)
    ensures Good(funcs, fn, Again(bt, st, s, src, pc))
  {
    ArriveGood(funcs, s, src, pc, Within);
    hide WellLogged;
  }

  lemma LeaveFnGood(s: State, f: nat, o: Outcome)
    requires f < |s.funcs| && |s.funcs[f].ty.params| <= Size(s.stack) && AllGood(s.funcs, f, o)
    ensures AllGood(s.funcs, s.fn, LeaveFn(s, f, o))
  {
    if o.Jump? { ArriveGood(s.funcs, o.st, o.src, s.funcs[f].end, Exits); }
    hide WellLogged, Append, Take, Under;
  }

  lemma DispatchGood(x: Instr, st: State)
    requires (x.CallFn? || x.CallTable?) && Good(st.funcs, st.fn, st)
    ensures match Dispatched(x, st)
      case Goes(f, s) => Good(st.funcs, st.fn, s) && s.funcs == st.funcs && Good(st.funcs, f, Frame(s, f))
      case Stops(o) => !Ends(o)
  {
    if x.CallTable? && Dispatched(x, st).Goes? { ArriveGood(st.funcs, st, x.pc, Dispatched(x, st).f, Calls); }
    hide WellLogged, Args, Take;
  }

  lemma {:induction false} ExecIGood(fuel: nat, x: Instr, next: int, st: State)
    requires Good(st.funcs, st.fn, st)
    ensures AllGood(st.funcs, st.fn, ExecI(fuel, x, next, st))
    decreases fuel, x, 0
  {
    match x
    case Do(p, pc) => StepGood(p, pc, next, st);
    case Block(bt, body, _, end) =>
      BlockIs(fuel, x, next, st);
      if bt.params <= Size(st.stack) {
        ExecGood(fuel, body, end, st.(stack := Take(st.stack, bt.params)));
        LeaveGood(st.funcs, st.fn, bt.results, Under(st.stack, bt.params), end,
                  Exec(fuel, body, end, st.(stack := Take(st.stack, bt.params))));
      }
      hide Exec, ExecI, Leave, WellLogged;
    case Loop(bt, body, pc, end) => LoopGood(fuel, x, next, st);
    case Call(bt, body, _) => HelperGood(fuel, x, next, st);
    case ReturnOp(_) =>
    case _ =>
      var d := Dispatched(x, st);
      CallIs(fuel, x, next, st);
      DispatchGood(x, st);
      if d.Goes? && fuel > 0 {
        ExecGood(fuel - 1, d.s.funcs[d.f].body, d.s.funcs[d.f].end, Frame(d.s, d.f));
        LeaveFnGood(d.s, d.f, Exec(fuel - 1, d.s.funcs[d.f].body, d.s.funcs[d.f].end, Frame(d.s, d.f)));
      }
      hide Exec, ExecI, LeaveFn, Dispatched, WellLogged, Frame;
  }

  lemma HelperIs(fuel: nat, x: Instr, next: int, st: State)
    requires x.Call?
    ensures ExecI(fuel, x, next, st) == if Size(st.stack) < x.bt.params then Invalid
      else Return(st, Leave(x.bt.results, Under(st.stack, x.bt.params), NO_PC,
        Exec(fuel, x.body, NO_PC, st.(stack := Nil, locals := Args(Take(st.stack, x.bt.params))))))
  {
    hide Exec, Leave, Return;
  }

  lemma {:induction false} HelperGood(fuel: nat, x: Instr, next: int, st: State)
    requires x.Call? && Good(st.funcs, st.fn, st)
    ensures AllGood(st.funcs, st.fn, ExecI(fuel, x, next, st))
    decreases fuel, x, -1
  {
    HelperIs(fuel, x, next, st);
    hide ExecI;
    if x.bt.params <= Size(st.stack) {
      var s := st.(stack := Nil, locals := Args(Take(st.stack, x.bt.params)));
      ExecGood(fuel, x.body, NO_PC, s);
      hide Exec;
      LeaveGood(st.funcs, st.fn, x.bt.results, Under(st.stack, x.bt.params), NO_PC, Exec(fuel, x.body, NO_PC, s));
      hide Leave, WellLogged;
    }
  }

  lemma {:induction false} LoopGood(fuel: nat, x: Instr, next: int, st: State)
    requires x.Loop? && Good(st.funcs, st.fn, st)
    ensures AllGood(st.funcs, st.fn, ExecI(fuel, x, next, st))
    decreases fuel, x, -1
  {
    var bt := x.bt;
    if Size(st.stack) < bt.params {
      LoopInvalid(fuel, x, next, st);
    } else {
      var o := Exec(fuel, x.body, x.end, st.(stack := Take(st.stack, bt.params)));
      LoopIs(fuel, x, next, st);
      LoopOnIs(fuel, x, next, st, o);
      ExecGood(fuel, x.body, x.end, st.(stack := Take(st.stack, bt.params)));
      LeaveGood(st.funcs, st.fn, bt.results, Under(st.stack, bt.params), x.end, o);
      hide Exec, ExecI, LoopOn, Leave, WellLogged, Again;
      if o.Jump? && o.l == 0 && bt.params <= Size(o.st.stack) && fuel > 0 {
        AgainGood(st.funcs, st.fn, bt, st, o.st, o.src, x.pc);
        ExecIGood(fuel - 1, x, next, Again(bt, st, o.st, o.src, x.pc));
      }
    }
  }

  // ----- words -----

  predicate BeginsWithLoop(f: WasmFn) { f.body != [] && f.body[0].Loop? }

  /** Decoded functions: the first instruction comes before the end. */
  predicate InPlace(funcs: seq<WasmFn>) {
    forall f <- funcs :: f.body != [] ==> f.body[0].pc < f.end
  }

  /** A branch out of a function that begins with a loop. */
  predicate Misread(funcs: seq<WasmFn>, e: Event) {
    e.way.Exits? && e.fn < |funcs| && BeginsWithLoop(funcs[e.fn])
  }

  /** What is recorded for an event is what happened, unless a function that begins with a loop is left by a branch. */
  lemma ToldTrue(funcs: seq<WasmFn>, log: seq<Event>, e: Event)
    requires InPlace(funcs) && WellLogged(funcs, log) && e in log
    ensures Told(funcs, e) == True(e) <==> !Misread(funcs, e)
  {
    if e.way.Exits? { assert funcs[e.fn] in funcs; }
  }

  /** Word `n` of the buffer says `e`. */
  predicate Shows(base: nat, m: seq<byte>, n: nat, e: Rec) {
    base + 8 + ENTRY * n + 8 <= |m| && InRange(e) && Peek(m, base + 8 + ENTRY * n, 8) == ToLE(Word(e), 8)
  }

  lemma {:induction false} ShowsOne(base: nat, m: seq<byte>, n: nat, a: Rec, b: Rec)
    requires Shows(base, m, n, a)
    ensures Shows(base, m, n, b) ==> a == b
  {
    if Shows(base, m, n, b) {
      Unpack(a);
      Unpack(b);
      PowerTable();
      FromToLE(Word(a), 8);
      FromToLE(Word(b), 8);
      hide ToLE, Peek, Word;
    }
  }

  /** The buffer shows what really happened. */
  ghost predicate Truthful(base: nat, m: seq<byte>, log: seq<Event>) {
    forall n :: 0 <= n < |log| ==> Shows(base, m, n, True(log[n]))
  }

  lemma LoggedShows(base: nat, size: nat, m: seq<byte>, recs: seq<Rec>, n: nat)
    requires Logged(base, size, m, recs) && n < |recs|
    ensures Shows(base, m, n, recs[n])
  {
    hide Peek, ToLE, Word;
  }

  /** Exactly when the buffer is truthful. */
  lemma {:induction false} TruthfulIff(g: Progs, m: seq<byte>, log: seq<Event>)
    requires InPlace(g.funcs) && WellLogged(g.funcs, log) && Logged(g.base, g.size, m, ToldAll(g.funcs, log))
    ensures Truthful(g.base, m, log) <==> forall e <- log :: !Misread(g.funcs, e)
  {
    forall n | 0 <= n < |log| ensures Shows(g.base, m, n, True(log[n])) <==> !Misread(g.funcs, log[n]) {
      LoggedShows(g.base, g.size, m, ToldAll(g.funcs, log), n);
      ToldTrue(g.funcs, log, log[n]);
      ShowsOne(g.base, m, n, Told(g.funcs, log[n]), True(log[n]));
      hide Shows, Misread, Told, Logged;
    }
    hide Shows, Misread, Logged, WellLogged;
  }

  /**
   * A call of the traced program leaves a truthful buffer if and only if, in the run of the original,
   * no function that begins with a loop is left by a branch.
   */
  lemma {:induction false} TracedTruth(g: Progs, k: nat, f: nat, o: State, i: State)
    requires TracedProgram(g) && f < |g.funcs| && Entering(g, f, o, i) && i.stack == o.stack
    requires InPlace(g.funcs) && WellLogged(g.funcs, o.log)
    requires ExecI(k, CallFn(f, NO_PC), NO_PC, o).Next? && Fits(g, ExecI(k, CallFn(f, NO_PC), NO_PC, o))
    ensures var s, t := ExecI(k, CallFn(f, NO_PC), NO_PC, o).st, ExecI(2 * k, CallFn(f, NO_PC), NO_PC, i);
      t.Next? && (Truthful(g.base, t.st.main, s.log) <==> forall e <- s.log :: !Misread(g.funcs, e))
  {
    EnteringNow(g, f, o, i);
    WorldFuncs(g, o, i);
    assert Good(o.funcs, o.fn, o);
    ExecIGood(k, CallFn(f, NO_PC), NO_PC, o);
    hide TracedProgram, Entering, ExecI, Fits, Logged, World, Truthful, Misread, WellLogged, InPlace;
    TracedCall(g, k, f, o, i);
    TruthfulIff(g, ExecI(2 * k, CallFn(f, NO_PC), NO_PC, i).st.main, ExecI(k, CallFn(f, NO_PC), NO_PC, o).st.log);
  }

  /** Where no function begins with a loop, as can be seen before tracing, every traced call leaves a truthful buffer. */
  lemma {:induction false} LooplessTruth(g: Progs, k: nat, f: nat, o: State, i: State)
    requires TracedProgram(g) && f < |g.funcs| && Entering(g, f, o, i) && i.stack == o.stack
    requires InPlace(g.funcs) && WellLogged(g.funcs, o.log) && forall fn <- g.funcs :: !BeginsWithLoop(fn)
    requires ExecI(k, CallFn(f, NO_PC), NO_PC, o).Next? && Fits(g, ExecI(k, CallFn(f, NO_PC), NO_PC, o))
    ensures var s, t := ExecI(k, CallFn(f, NO_PC), NO_PC, o).st, ExecI(2 * k, CallFn(f, NO_PC), NO_PC, i);
      t.Next? && Truthful(g.base, t.st.main, s.log)
  {
    hide *;
    TracedTruth(g, k, f, o, i);
    NoneMisread(g.funcs, ExecI(k, CallFn(f, NO_PC), NO_PC, o).st.log);
  }

  lemma NoneMisread(funcs: seq<WasmFn>, log: seq<Event>)
    requires forall fn <- funcs :: !BeginsWithLoop(fn)
    ensures forall e <- log :: !Misread(funcs, e)
  {
    hide BeginsWithLoop;
  }

  // ----- a function that is misread -----

  /** One loop, left by `br 1`: the branch at 2 leads to the end at 4. */
  const LOOP_FN: WasmFn := WasmFn(FnType([], []), [], [Loop(BT(0, 0), [Do(Br(1), 2)], 1, 3)], 4)

  lemma LoopFnOk()
    ensures TraceableFn(0, 16, LOOP_FN, 0)
  {
    assert Traceable(CtxOf(0, 16, LOOP_FN, 0), [Do(Br(1), 2)], 2);
  }

  function LoopProgs(): (g: Progs)
    ensures TracedProgram(g)
  {
    LoopFnOk();
    Progs(0, 16, [LOOP_FN], [], [TracedFn(0, 16, LOOP_FN, 0)], [])
  }

  function LoopStart(): State {
    State(Nil, [], [], [], [], 0, 0, 0, false, [], [], 0, [LOOP_FN], [])
  }

  function LoopTracedStart(): State {
    LoopStart().(main := Zeros(16), funcs := LoopProgs().tfuncs)
  }

  lemma LoopRun()
    ensures ExecI(1, CallFn(0, NO_PC), NO_PC, LoopStart()) == Next(LoopStart().(log := [Event(0, 2, 4, Exits)]))
  {
    hide *;
    var st := LoopStart();
    CallIs(1, CallFn(0, NO_PC), NO_PC, st);
    LoopCalled();
    LoopTurn();
    LeaveLoop(st);
  }

  lemma LoopCalled()
    ensures var st := LoopStart();
      Dispatched(CallFn(0, NO_PC), st) == Goes(0, st) && st.funcs == [LOOP_FN] && |LOOP_FN.ty.params| == 0 && Size(st.stack) == 0
      && Frame(st, 0) == st && LOOP_FN.end == 4
  {
    assert Args(Nil) + [] == [];
  }

  lemma LoopBody()
    ensures LOOP_FN.body == [Loop(BT(0, 0), [Do(Br(1), 2)], 1, 3)]
    ensures var st := LoopStart(); Take(st.stack, 0) == Nil && st.stack == Nil && Step(Br(1), 2, 3, st) == Jump(1, st, 2)
  {
  }

  lemma LoopTurn()
    ensures Exec(0, LOOP_FN.body, 4, LoopStart()) == Jump(0, LoopStart(), 2)
  {
    hide *;
    var st: State, x := LoopStart(), Loop(BT(0, 0), [Do(Br(1), 2)], 1, 3);
    LoopBody();
    ExecOne(0, x, 4, st);
    LoopIs(0, x, 4, st);
    ExecOne(0, Do(Br(1), 2), 3, st);
    DoIs(0, Do(Br(1), 2), 3, st);
    LoopOnIs(0, x, 4, st, Jump(1, st, 2));
  }

  lemma LeaveLoop(st: State)
    requires st == LoopStart()
    ensures LeaveFn(st, 0, Jump(0, st, 2)) == Next(st.(log := [Event(0, 2, 4, Exits)]))
  {
    assert Append(Nil, Nil) == Nil;
    assert [] + [Event(0, 2, 4, Exits)] == [Event(0, 2, 4, Exits)];
  }

  lemma ZeroCount()
    ensures FromLE(Peek(Zeros(16), 0, 4)) == 0
  {
    var z := Peek(Zeros(16), 0, 4);
    assert z == [0, 0, 0, 0] && z[1..] == [0, 0, 0] && z[1..][1..] == [0, 0] && z[1..][1..][1..] == [0];
    assert FromLE([0]) == 0 by { assert [0][1..] == []; }
    assert FromLE(z[1..][1..]) == 0 && FromLE(z[1..]) == 0;
  }

  lemma LoopEnters()
    ensures Entering(LoopProgs(), 0, LoopStart(), LoopTracedStart())
  {
    ZeroCount();
    LoopFnOk();
    assert ToldAll([LOOP_FN], []) == [];
    hide FromLE, Peek, TraceableFn, TracedFn, ToldAll;
  }

  /**
   * The function above, called with nothing logged: the branch leads to 4, but the word stored says 1,
   * the start of the loop.
   */
  lemma LeadingLoopMisread()
    ensures ExecI(1, CallFn(0, NO_PC), NO_PC, LoopStart()) == Next(LoopStart().(log := [Event(0, 2, 4, Exits)]))
    ensures var t := ExecI(2, CallFn(0, NO_PC), NO_PC, LoopTracedStart());
      t.Next? && |t.st.main| == 16
      && var w := FromLE(Peek(t.st.main, 8, 8)); w / B48 == 0 && w / B24 % B24 == 2 && w % B24 == 1
  {
    LoopRun();
    LoopEnters();
    var g, x := LoopProgs(), CallFn(0, NO_PC);
    TracedCall(g, 1, 0, LoopStart(), LoopTracedStart());
    var t := ExecI(2, x, NO_PC, LoopTracedStart());
    hide ExecI, TracedProgram, World;
    LoopTold();
    LoggedShows(0, 16, t.st.main, [Rec(0, 2, 1)], 0);
    WordRead(t.st.main);
  }

  lemma LoopTold()
    ensures ToldAll([LOOP_FN], [Event(0, 2, 4, Exits)]) == [Rec(0, 2, 1)]
  {
  }

  lemma WordRead(m: seq<byte>)
    requires Shows(0, m, 0, Rec(0, 2, 1))
    ensures var w := FromLE(Peek(m, 8, 8)); w / B48 == 0 && w / B24 % B24 == 2 && w % B24 == 1
  {
    Unpack(Rec(0, 2, 1));
    PowerTable();
    FromToLE(Word(Rec(0, 2, 1)), 8);
    hide FromLE, ToLE, Peek;
  }
}
