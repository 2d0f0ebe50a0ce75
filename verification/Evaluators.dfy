/**
 * The two evaluators agree: code that both have, run on programs that correspond function by function, ends
 * alike in both, with the same operands and locals.
 */
module Evaluators {
  import opened Bytes
  import opened CodecInst
  import opened CodecModule
  import opened ModuleRefs
  import opened IndirectCalls
  import FuncrefWrap
  import Wasm

  /** A program by addresses, the same as a list with one table, the types by address, and the other instructions. */
  datatype Pair = Pair(p: Prog, fs: seq<Wasm.WasmFn>, table: seq<Wasm.Slot>, ty: Addr -> Wasm.FnType, ops: Inst<Addr> -> Wasm.Plain)

  function Instrs(g: Pair, code: seq<Code>): seq<Wasm.Instr>
    decreases code, 1
  {
    if code == [] then [] else [InstrOf(g, code[0])] + Instrs(g, code[1..])
  }

  /** A block type byte as a signed seven-bit number: 0x40 stands for no result, a value type for one. */
  function Results(ty: int): nat { if ty + 0x80 == 0x40 then 0 else 1 }

  lemma SameArity(ty: int)
    ensures Results(ty) == Arity(ty)
  {
  }

  function Op(p: Wasm.Plain): Wasm.Instr { Wasm.Do(p, Wasm.NO_PC) }

  function InstrOf(g: Pair, c: Code): Wasm.Instr
    decreases c, 0
  {
    match c
    case Plain(i) => Op(g.ops(i))
    case Const(v) => Op(Wasm.Const(v))
    case LocalGet(l) => Op(Wasm.LocalGet(l))
    case LocalSet(l) => Op(Wasm.LocalSet(l))
    case LocalTee(l) => Op(Wasm.LocalTee(l))
    case Call(f) => Wasm.CallFn(f, Wasm.NO_PC)
    case CallIndirect(s, _, _) => Wasm.CallTable(g.ty(s), Wasm.NO_PC)
    case Block(ty, body) => Wasm.Block(Wasm.BT(0, Results(ty)), Instrs(g, body), Wasm.NO_PC, Wasm.NO_PC)
    case Loop(ty, body) => Wasm.Loop(Wasm.BT(0, Results(ty)), Instrs(g, body), Wasm.NO_PC, Wasm.NO_PC)
    case If(_, _, _) => Op(Wasm.Nop)
    case Br(l) => Op(Wasm.Br(l))
    case BrIf(l) => Op(Wasm.BrIf(l))
    case BrTable(ls, d) => Op(Wasm.BrTable(ls, d))
    case Return => Wasm.ReturnOp(Wasm.NO_PC)
  }

  /** Both have everything but `if`. */
  predicate Common(g: Pair, code: seq<Code>)
    decreases code, 1
  {
    code == [] || (CommonI(g, code[0]) && Common(g, code[1..]))
  }

  predicate CommonI(g: Pair, c: Code)
    decreases c, 0
  {
    match c
    case If(_, _, _) => false
    case CallIndirect(s, t, _) => s in g.p.sigs && t in g.p.tables && TableSame(g, g.p.tables[t])
    case Block(_, body) => Common(g, body)
    case Loop(_, body) => Common(g, body)
    case _ => true
  }

  predicate TableSame(g: Pair, xs: seq<Option<Addr>>) {
    |xs| == |g.table| && forall i :: 0 <= i < |xs| ==> g.table[i] == if xs[i].None? then Wasm.NoFunc else Wasm.SomeFunc(xs[i].value)
  }

  predicate FnSame(g: Pair, f: nat)
    requires f in g.p.funcs && f < |g.fs|
  {
    var a, b := g.p.funcs[f], g.fs[f];
    && !a.imported && Common(g, a.body) && b.body == Instrs(g, a.body) && b.locals == a.init
    && |b.ty.params| == |a.sig.params| && |b.ty.results| == |a.sig.results|
  }

  /** The engine does what the typed evaluator does, on the operands alone. */
  ghost predicate EngineSame<W(!new)>(g: Pair, env: Engine<W>) {
    forall i: Inst<Addr>, b: Wasm.State, w: W :: Doing(g, env, i, b, w)
  }

  predicate Doing<W>(g: Pair, env: Engine<W>, i: Inst<Addr>, b: Wasm.State, w: W) {
    var o := Wasm.Step(g.ops(i), Wasm.NO_PC, Wasm.NO_PC, b);
    match env.plain(i, b.stack, w)
    case Done(s, _) => o == Wasm.Next(b.(stack := s))
    case Trapped => o == Wasm.Trap
    case Stuck => o == Wasm.Invalid
    case Ended(_) => false
  }

  ghost predicate Same(g: Pair) {
    && (forall f: nat :: f in g.p.funcs <==> f < |g.fs|) && (forall f: nat :: f < |g.fs| ==> FnSame(g, f))
    && (forall s: Addr, f: nat :: s in g.p.sigs && f < |g.fs| ==> (g.fs[f].ty == g.ty(s) <==> g.p.funcs[f].sig == g.p.sigs[s]))
    && (forall s: Addr, t: Addr, k: nat, i: nat :: g.p.off(s, t, k, i) == None)
  }

  predicate At<W(==)>(g: Pair, a: St<W>, b: Wasm.State) {
    a.stack == b.stack && a.locals == b.locals && b.funcs == g.fs && b.table == g.table
  }

  /** Nothing is said of code that is not valid in the typed evaluator. */
  predicate Agree<W(==)>(g: Pair, o: Out<W>, q: Wasm.Outcome) {
    match q
    case Next(b) => o.Next? && At(g, o.s, b)
    case Jump(l, b, _) => o.Jump? && o.l == l && At(g, o.s, b)
    case Leaving(b) => o.Ret? && At(g, o.s, b)
    case Trap => o.Trap?
    case Spin => o.Spin?
    case Invalid => true
    case Exit(_) => false
  }

  // ----- unfolding -----

  lemma FnNow(g: Pair, f: nat)
    requires Same(g)
    ensures f in g.p.funcs <==> f < |g.fs|
    ensures f < |g.fs| ==> FnSame(g, f)
    ensures forall s: Addr :: s in g.p.sigs && f < |g.fs| ==> (g.fs[f].ty == g.ty(s) <==> g.p.funcs[f].sig == g.p.sigs[s])
  {
    hide FnSame;
  }

  lemma RunHead<W>(p: Prog, env: Engine<W>, k: nat, code: seq<Code>, st: St<W>)
    ensures code == [] ==> Run(p, env, k, code, st) == Next(st)
    ensures code != [] ==> var o := RunI(p, env, k, code[0], st);
      Run(p, env, k, code, st) == if o.Next? then Run(p, env, k, code[1..], o.s) else o
  {
    hide RunI;
  }

  lemma CommonHead(g: Pair, code: seq<Code>)
    requires code != [] && Common(g, code)
    ensures CommonI(g, code[0]) && Common(g, code[1..])
    ensures Instrs(g, code)[0] == InstrOf(g, code[0]) && Instrs(g, code)[1..] == Instrs(g, code[1..]) && Instrs(g, code) != []
  {
    hide CommonI, InstrOf;
  }

  lemma AgreeNext<W>(g: Pair, o: Out<W>, q: Wasm.Outcome)
    requires Agree(g, o, q)
    ensures q.Next? ==> o.Next? && At(g, o.s, q.st)
    ensures q.Jump? ==> o.Jump? && o.l == q.l && At(g, o.s, q.st)
    ensures o.Next? ==> q.Next? || q.Invalid?
  {
    hide At;
  }

  lemma AgreeInvalid<W>(g: Pair, o: Out<W>)
    ensures Agree(g, o, Wasm.Invalid)
  {
  }

  // ----- the simulation -----

  /** Lists of instructions, by induction on code and fuel. */
  lemma {:induction false} SameRun<W(!new)>(g: Pair, env: Engine<W>, k: nat, code: seq<Code>, a: St<W>, b: Wasm.State, end: int)
    requires Same(g) && EngineSame(g, env) && Common(g, code) && At(g, a, b)
    ensures Agree(g, Run(g.p, env, k, code, a), Wasm.Exec(k, Instrs(g, code), end, b))
    decreases k, 1, code, 2
  {
    hide *;
    RunHead(g.p, env, k, code, a);
    if code == [] {
      NoInstrs(g);
      Wasm.ExecNone(k, end, b);
      SameNext(g, a, b);
    } else {
      CommonHead(g, code);
      Wasm.ExecHead(k, Instrs(g, code), end, b);
      var next := Wasm.PcAt(Instrs(g, code)[1..], end);
      SameRunI(g, env, k, code[0], a, b, next);
      var o, q := RunI(g.p, env, k, code[0], a), Wasm.ExecI(k, InstrOf(g, code[0]), next, b);
      AgreeNext(g, o, q);
      if q.Next? {
        SameRun(g, env, k, code[1..], o.s, q.st, end);
      } else if o.Next? {
        AgreeInvalid(g, Run(g.p, env, k, code, a));
      }
    }
  }

  lemma NoInstrs(g: Pair)
    ensures Instrs(g, []) == []
  {
  }

  lemma SameNext<W>(g: Pair, a: St<W>, b: Wasm.State)
    requires At(g, a, b)
    ensures Agree(g, Next(a), Wasm.Next(b))
  {
    hide At;
  }

  lemma {:induction false} SameRunI<W(!new)>(g: Pair, env: Engine<W>, k: nat, c: Code, a: St<W>, b: Wasm.State, next: int)
    requires Same(g) && EngineSame(g, env) && CommonI(g, c) && At(g, a, b)
    ensures Agree(g, RunI(g.p, env, k, c, a), Wasm.ExecI(k, InstrOf(g, c), next, b))
    decreases k, 1, c, 1
  {
    hide *;
    CommonNow(g, c);
    if c.Block? {
      SameBlock(g, env, k, c, a, b, next);
    } else if c.Loop? {
      SameLoop(g, env, k, c, a, b, next);
    } else if c.Call? || c.CallIndirect? {
      SameCall(g, env, k, c, a, b, next);
    } else if c.Plain? {
      SamePlain(g, env, k, c, a, b, next);
    } else {
      SameLeaf(g, env, k, c, a, b, next);
    }
  }

  lemma CommonNow(g: Pair, c: Code)
    requires CommonI(g, c)
    ensures !c.If? && (c.Block? || c.Loop? ==> Common(g, c.body))
    ensures c.CallIndirect? ==> c.sig in g.p.sigs && c.table in g.p.tables && TableSame(g, g.p.tables[c.table])
  {
    hide Common, TableSame;
  }

  lemma {:induction false} SamePlain<W(!new)>(g: Pair, env: Engine<W>, k: nat, c: Code, a: St<W>, b: Wasm.State, next: int)
    requires EngineSame(g, env) && c.Plain? && At(g, a, b)
    ensures Agree(g, RunI(g.p, env, k, c, a), Wasm.ExecI(k, InstrOf(g, c), next, b))
  {
    Wasm.DoIs(k, InstrOf(g, c), next, b);
    assert Doing(g, env, c.i, b, a.w);
    Wasm.StepPc(g.ops(c.i), next, b);
    hide Wasm.ExecI, Wasm.Step;
  }

  lemma {:induction false} SameLeaf<W>(g: Pair, env: Engine<W>, k: nat, c: Code, a: St<W>, b: Wasm.State, next: int)
    requires At(g, a, b) && !c.Plain? && !c.If? && !c.Block? && !c.Loop? && !c.Call? && !c.CallIndirect?
    ensures Agree(g, RunI(g.p, env, k, c, a), Wasm.ExecI(k, InstrOf(g, c), next, b))
  {
    Wasm.DoIs(k, InstrOf(g, c), next, b);
    hide Wasm.ExecI;
    match c
    case Return =>
    case _ =>
  }

  lemma {:induction false} LeaveAgrees<W>(g: Pair, r: nat, below: Stack, end: int, o: Out<W>, q: Wasm.Outcome)
    requires Agree(g, o, q)
    ensures Agree(g, Leave(r, below, o), Wasm.Leave(r, below, end, q))
  {
  }

  lemma BothEmpty<W>(g: Pair, a: St<W>, b: Wasm.State)
    requires At(g, a, b)
    ensures At(g, a.(stack := Wasm.Nil), b.(stack := Wasm.Nil)) && a.stack == b.stack
    ensures Wasm.Take(b.stack, 0) == Wasm.Nil && Wasm.Under(b.stack, 0) == b.stack
  {
  }

  lemma NestIs<W>(g: Pair, env: Engine<W>, k: nat, c: Code, a: St<W>)
    requires c.Block?
    ensures RunI(g.p, env, k, c, a) == Leave(Arity(c.ty), a.stack, Run(g.p, env, k, c.body, a.(stack := Wasm.Nil)))
    ensures InstrOf(g, c) == Wasm.Block(Wasm.BT(0, Results(c.ty)), Instrs(g, c.body), Wasm.NO_PC, Wasm.NO_PC)
  {
    hide Run, Leave, Instrs, Arity, Results;
  }

  lemma {:induction false} SameBlock<W(!new)>(g: Pair, env: Engine<W>, k: nat, c: Code, a: St<W>, b: Wasm.State, next: int)
    requires Same(g) && EngineSame(g, env) && c.Block? && Common(g, c.body) && At(g, a, b)
    ensures Agree(g, RunI(g.p, env, k, c, a), Wasm.ExecI(k, InstrOf(g, c), next, b))
    decreases k, 1, c, 0
  {
    hide *;
    BothEmpty(g, a, b);
    SameArity(c.ty);
    NestIs(g, env, k, c, a);
    Wasm.BlockIs(k, InstrOf(g, c), next, b);
    SameRun(g, env, k, c.body, a.(stack := Wasm.Nil), b.(stack := Wasm.Nil), Wasm.NO_PC);
    LeaveAgrees(g, Arity(c.ty), a.stack, Wasm.NO_PC, Run(g.p, env, k, c.body, a.(stack := Wasm.Nil)),
                Wasm.Exec(k, Instrs(g, c.body), Wasm.NO_PC, b.(stack := Wasm.Nil)));
  }

  /** A turn of a loop that starts it over. */
  predicate Again(q: Wasm.Outcome) { q.Jump? && q.l == 0 }

  function Over(q: Wasm.Outcome, st: Wasm.State): Wasm.State
    requires Again(q)
  {
    q.st.(stack := st.stack, log := Wasm.Arrive(q.st, q.src, Wasm.NO_PC, Wasm.Within))
  }

  lemma LoopTurns(g: Pair, k: nat, c: Code, next: int, st: Wasm.State)
    requires c.Loop?
    ensures var q := Wasm.Exec(k, Instrs(g, c.body), Wasm.NO_PC, st.(stack := Wasm.Nil));
      Wasm.ExecI(k, InstrOf(g, c), next, st)
      == if Again(q) then (if k == 0 then Wasm.Spin else Wasm.ExecI(k - 1, InstrOf(g, c), next, Over(q, st)))
         else Wasm.Leave(Results(c.ty), st.stack, Wasm.NO_PC, q)
  {
    hide Wasm.Exec, Instrs, Results, Wasm.Arrive;
    assert Wasm.Take(st.stack, 0) == Wasm.Nil && Wasm.Under(st.stack, 0) == st.stack;
    NilFirst();
  }

  lemma NilFirst()
    ensures forall s: Stack, t: Stack :: Wasm.Append(Wasm.Take(s, 0), t) == t
  {
  }

  lemma {:induction false} SameLoop<W(!new)>(g: Pair, env: Engine<W>, k: nat, c: Code, a: St<W>, b: Wasm.State, next: int)
    requires Same(g) && EngineSame(g, env) && c.Loop? && Common(g, c.body) && At(g, a, b)
    ensures Agree(g, RunI(g.p, env, k, c, a), Wasm.ExecI(k, InstrOf(g, c), next, b))
    decreases k, 1, c, 0
  {
    hide *;
    BothEmpty(g, a, b);
    SameArity(c.ty);
    FuncrefWrap.LoopIs(g.p, env, k, c, a);
    LoopTurns(g, k, c, next, b);
    SameRun(g, env, k, c.body, a.(stack := Wasm.Nil), b.(stack := Wasm.Nil), Wasm.NO_PC);
    var o, q := Run(g.p, env, k, c.body, a.(stack := Wasm.Nil)), Wasm.Exec(k, Instrs(g, c.body), Wasm.NO_PC, b.(stack := Wasm.Nil));
    AgreeNext(g, o, q);
    AgainIs(q);
    if Again(q) {
      if k == 0 {
        BothSpin(g, env);
      } else {
        OverAt(g, o.s, q, a, b);
        SameLoop(g, env, k - 1, c, o.s.(stack := a.stack), Over(q, b), next);
      }
    } else {
      LeaveAgrees(g, Arity(c.ty), a.stack, Wasm.NO_PC, o, q);
      if o.Jump? && o.l == 0 { OnlyInvalid(g, o, q, Arity(c.ty), a.stack, RunI(g.p, env, k, c, a)); }
    }
  }

  lemma AgainIs(q: Wasm.Outcome)
    ensures Again(q) <==> q.Jump? && q.l == 0
  {
  }

  lemma BothSpin<W>(g: Pair, env: Engine<W>)
    ensures Agree<W>(g, Spin, Wasm.Spin)
  {
  }

  lemma OverAt<W>(g: Pair, s: St<W>, q: Wasm.Outcome, a: St<W>, b: Wasm.State)
    requires Again(q) && At(g, s, q.st) && At(g, a, b)
    ensures At(g, s.(stack := a.stack), Over(q, b))
  {
    hide Wasm.Arrive;
  }

  lemma OnlyInvalid<W>(g: Pair, o: Out<W>, q: Wasm.Outcome, r: nat, below: Stack, any: Out<W>)
    requires Agree(g, o, q) && !Again(q) && o.Jump? && o.l == 0
    ensures Agree(g, any, Wasm.Leave(r, below, Wasm.NO_PC, q))
  {
  }

  // ----- calls -----

  lemma {:induction false} SameCall<W(!new)>(g: Pair, env: Engine<W>, k: nat, c: Code, a: St<W>, b: Wasm.State, next: int)
    requires Same(g) && EngineSame(g, env) && CommonI(g, c) && At(g, a, b) && (c.Call? || c.CallIndirect?)
    ensures Agree(g, RunI(g.p, env, k, c, a), Wasm.ExecI(k, InstrOf(g, c), next, b))
    decreases k, 1, c, 0
  {
    hide *;
    var x := InstrOf(g, c);
    CallsAre(g, c);
    Wasm.CallIs(k, x, next, b);
    var d := Wasm.Dispatched(x, b);
    Dispatching(g, env, k, c, a, b);
    if d.Goes? {
      FnNow(g, d.f);
      var a' := if c.Call? then a else a.(stack := a.stack.below);
      SameInvoke(g, env, k, d.f, a', d.s);
    }
  }

  lemma CallsAre(g: Pair, c: Code)
    ensures c.Call? ==> InstrOf(g, c) == Wasm.CallFn(c.f, Wasm.NO_PC)
    ensures c.CallIndirect? ==> InstrOf(g, c) == Wasm.CallTable(g.ty(c.sig), Wasm.NO_PC)
  {
  }

  /** What both evaluators make of a call: the same function, or the same end. */
  lemma {:induction false} Dispatching<W>(g: Pair, env: Engine<W>, k: nat, c: Code, a: St<W>, b: Wasm.State)
    requires Same(g) && CommonI(g, c) && At(g, a, b) && (c.Call? || c.CallIndirect?)
    ensures var x := InstrOf(g, c);
      (x.CallFn? || x.CallTable?) && var d := Wasm.Dispatched(x, b);
      if d.Stops? then Agree(g, RunI(g.p, env, k, c, a), d.o)
      else
        && (c.CallIndirect? ==> a.stack.Push?)
        && var a' := if c.Call? then a else a.(stack := a.stack.below);
        At(g, a', d.s) && RunI(g.p, env, k, c, a) == Invoke(g.p, env, k, d.f, a')
  {
    hide Invoke, FnSame, Wasm.Arrive;
    if c.CallIndirect? {
      if b.stack.Push? {
        FuncrefWrap.IndirectIs(g.p, env, k, c.sig, c.table, c.site, a);
        hide RunI;
        var xs, i := g.p.tables[c.table], a.stack.top.n;
        if i < |xs| && xs[i].Some? {
          assert g.table[i] == Wasm.SomeFunc(xs[i].value);
          FnNow(g, xs[i].value);
        }
      }
    } else {
      FnNow(g, c.f);
    }
  }

  lemma {:induction false} SameInvoke<W(!new)>(g: Pair, env: Engine<W>, k: nat, f: nat, a: St<W>, b: Wasm.State)
    requires Same(g) && EngineSame(g, env) && At(g, a, b) && f < |b.funcs| && |b.funcs[f].ty.params| <= Wasm.Size(b.stack)
    ensures Agree(g, Invoke(g.p, env, k, f, a),
              if k == 0 then Wasm.Spin else Wasm.LeaveFn(b, f, Wasm.Exec(k - 1, b.funcs[f].body, b.funcs[f].end, Wasm.Frame(b, f))))
    decreases k, 0, 0
  {
    hide *;
    AtIs(g, a, b);
    FnNow(g, f);
    FnIs(g, f);
    var n := |g.p.funcs[f].sig.params|;
    var args := Wasm.Take(a.stack, n);
    FuncrefWrap.InvokeIs(g.p, env, k, f, a);
    FuncrefWrap.FunctionIs(g.p, env, k, f, args, a.w);
    if k == 0 {
      SpinsOn(g, Wasm.Under(a.stack, n), a);
    } else {
      var s := St(Wasm.Nil, Wasm.Args(args) + g.p.funcs[f].init, a.w);
      FrameAt(g, f, a, b);
      SameRun(g, env, k - 1, g.p.funcs[f].body, s, Wasm.Frame(b, f), g.fs[f].end);
      FinishAgrees(g, f, a, b, Run(g.p, env, k - 1, g.p.funcs[f].body, s),
                   Wasm.Exec(k - 1, g.fs[f].body, g.fs[f].end, Wasm.Frame(b, f)));
    }
  }

  lemma AtIs<W>(g: Pair, a: St<W>, b: Wasm.State)
    requires At(g, a, b)
    ensures a.stack == b.stack && a.locals == b.locals && b.funcs == g.fs
  {
  }

  lemma FnIs(g: Pair, f: nat)
    requires f in g.p.funcs && f < |g.fs| && FnSame(g, f)
    ensures var fn, b := g.p.funcs[f], g.fs[f];
      && !fn.imported && Common(g, fn.body) && b.body == Instrs(g, fn.body) && b.locals == fn.init
      && |b.ty.params| == |fn.sig.params| && |b.ty.results| == |fn.sig.results|
  {
  }

  lemma SpinsOn<W>(g: Pair, below: Stack, a: St<W>)
    ensures Agree(g, Resume<W>(below, a.locals, Spins), Wasm.Spin)
  {
  }

  lemma FrameAt<W>(g: Pair, f: nat, a: St<W>, b: Wasm.State)
    requires f in g.p.funcs && f < |g.fs| && FnSame(g, f) && At(g, a, b) && |g.fs[f].ty.params| <= Wasm.Size(b.stack)
    ensures At(g, St(Wasm.Nil, Wasm.Args(Wasm.Take(a.stack, |g.p.funcs[f].sig.params|)) + g.p.funcs[f].init, a.w), Wasm.Frame(b, f))
  {
    hide Wasm.Args, Wasm.Take, Common, Instrs;
  }

  lemma {:induction false} FinishAgrees<W>(g: Pair, f: nat, a: St<W>, b: Wasm.State, o: Out<W>, q: Wasm.Outcome)
    requires f in g.p.funcs && f < |g.fs| && FnSame(g, f) && At(g, a, b) && |g.fs[f].ty.params| <= Wasm.Size(b.stack)
    requires Agree(g, o, q)
    ensures Agree(g, Resume(Wasm.Under(a.stack, |g.p.funcs[f].sig.params|), a.locals, Finish(|g.p.funcs[f].sig.results|, o)),
              Wasm.LeaveFn(b, f, q))
  {
    hide Wasm.Take, Wasm.Under, Wasm.Append, Wasm.Size, Wasm.Arrive, Common, Instrs;
  }
}
