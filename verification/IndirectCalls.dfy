/**
 * Whole programs with direct and indirect calls, before and after every function in the tables is
 * replaced by a wrapper that takes extra values and every indirect call pushes them.
 */
module IndirectCalls {
  import opened Bytes
  import opened CodecInst
  import opened CodecModule
  import opened ModuleRefs
  import Wasm

  type Val = Wasm.Val
  type Stack = Wasm.Stack

  /** Structured code; blocks take nothing and leave at most one value.  `Plain` is anything else. */
  datatype Code =
    | Plain(i: Inst<Addr>)
    | Const(v: Val)
    | LocalGet(l: nat)
    | LocalSet(l: nat)
    | LocalTee(l: nat)
    | Call(f: Addr)
    | CallIndirect(sig: Addr, table: Addr, site: nat)
    | Block(ty: int, body: seq<Code>)
    | Loop(ty: int, body: seq<Code>)
    | If(ty: int, then_: seq<Code>, else_: seq<Code>)
    | Br(depth: nat)
    | BrIf(depth: nat)
    | BrTable(labels: seq<nat>, default: nat)
    | Return

  /** A function with the initial values of its declared locals. */
  datatype Fn = Fn(sig: Sig, init: seq<Val>, body: seq<Code>, imported: bool)

  /**
   * `off`: the evaluation can be told to stop at an indirect call, by signature, table, site and index,
   * with a note; programs as they run are never stopped.
   */
  datatype Prog = Prog(funcs: map<Addr, Fn>, sigs: map<Addr, Sig>, tables: map<Addr, seq<Option<Addr>>>, off: Watch)

  type Watch = (Addr, Addr, nat, nat) -> Option<bool>

  function Never(): Watch { (s: Addr, t: Addr, k: nat, i: nat) => None }

  // ----- evaluation; `W` is the rest of the world -----

  datatype Eff<W> = Done(stack: Stack, w: W) | Ended(w: W) | Trapped | Stuck

  /** What instructions that touch neither locals nor control do, and what imported functions do. */
  datatype Engine<!W> = Engine(plain: (Inst<Addr>, Stack, W) -> Eff<W>, host: (Addr, Stack, W) -> Eff<W>)

  datatype St<W> = St(stack: Stack, locals: seq<Val>, w: W)

  datatype Out<W> =
    | Next(s: St<W>) | Jump(l: nat, s: St<W>) | Ret(s: St<W>) | Exit(w: W) | Trap | Spin | Bad
    | Off(note: bool)

  /** What a function does: it gets its operands and leaves its results. */
  datatype Result<W> = Values(vs: Stack, w: W) | Exits(w: W) | Traps | Spins | Wrong | Offs(note: bool)

  /** The empty block type leaves nothing, a value type one value. */
  function Arity(ty: int): nat { if ty == -64 then 0 else 1 }

  function Bools(v: Val): bool { v.n != 0 }

  function Leave<W>(r: nat, below: Stack, o: Out<W>): Out<W> {
    match o
    case Next(s) => if Wasm.Size(s.stack) == r then Next(s.(stack := Wasm.Append(s.stack, below))) else Bad
    case Jump(l, s) =>
      if l > 0 then Jump(l - 1, s)
      else if Wasm.Size(s.stack) < r then Bad
      else Next(s.(stack := Wasm.Append(Wasm.Take(s.stack, r), below)))
    case _ => o
  }

  /** The results of a function body; branches to its outermost label and returns end it. */
  function Finish<W>(r: nat, o: Out<W>): Result<W> {
    match o
    case Next(s) => if Wasm.Size(s.stack) == r then Values(s.stack, s.w) else Wrong
    case Jump(l, s) => if l == 0 && Wasm.Size(s.stack) >= r then Values(Wasm.Take(s.stack, r), s.w) else Wrong
    case Ret(s) => if Wasm.Size(s.stack) >= r then Values(Wasm.Take(s.stack, r), s.w) else Wrong
    case Exit(w) => Exits(w)
    case Trap => Traps
    case Spin => Spins
    case Bad => Wrong
    case Off(b) => Offs(b)
  }

  /** The caller goes on with the results on its stack. */
  function Resume<W>(below: Stack, locals: seq<Val>, r: Result<W>): Out<W> {
    match r
    case Values(vs, w) => Next(St(Wasm.Append(vs, below), locals, w))
    case Exits(w) => Exit(w)
    case Traps => Trap
    case Spins => Spin
    case Wrong => Bad
    case Offs(b) => Off(b)
  }

  function OfHost<W>(r: nat, e: Eff<W>): Result<W> {
    match e
    case Done(vs, w) => if Wasm.Size(vs) == r then Values(vs, w) else Wrong
    case Ended(w) => Exits(w)
    case Trapped => Traps
    case Stuck => Wrong
  }

  function OfPlain<W>(locals: seq<Val>, e: Eff<W>): Out<W> {
    match e
    case Done(s, w) => Next(St(s, locals, w))
    case Ended(w) => Exit(w)
    case Trapped => Trap
    case Stuck => Bad
  }

  /** `fuel` bounds the depth of calls and the number of iterations. */
  function Run<W>(p: Prog, env: Engine<W>, fuel: nat, code: seq<Code>, st: St<W>): Out<W>
    decreases fuel, 1, code, 2
  {
    if code == [] then Next(st)
    else
      match RunI(p, env, fuel, code[0], st)
      case Next(s) => Run(p, env, fuel, code[1..], s)
      case o => o
  }

  function RunI<W>(p: Prog, env: Engine<W>, fuel: nat, c: Code, st: St<W>): Out<W>
    decreases fuel, 1, c, 1
  {
    match c
    case Plain(i) => OfPlain(st.locals, env.plain(i, st.stack, st.w))
    case Const(v) => Next(st.(stack := Wasm.Push(v, st.stack)))
    case LocalGet(l) => if l < |st.locals| then Next(st.(stack := Wasm.Push(st.locals[l], st.stack))) else Bad
    case LocalSet(l) =>
      if l < |st.locals| && st.stack.Push?
      then Next(st.(locals := st.locals[l := st.stack.top], stack := st.stack.below)) else Bad
    case LocalTee(l) =>
      if l < |st.locals| && st.stack.Push? then Next(st.(locals := st.locals[l := st.stack.top])) else Bad
    case Call(f) => Invoke(p, env, fuel, f, st)
    case CallIndirect(sig, table, site) =>
      if !st.stack.Push? then Bad
      else
        (match p.off(sig, table, site, st.stack.top.n)
         case Some(note) => Off(note)
         case None => Indirect(p, env, fuel, sig, table, st.stack.top.n, st.(stack := st.stack.below)))
    case Block(ty, body) => Leave(Arity(ty), st.stack, Run(p, env, fuel, body, st.(stack := Wasm.Nil)))
    case Loop(ty, body) =>
      (match Run(p, env, fuel, body, st.(stack := Wasm.Nil))
       case Jump(l, s) =>
         if l > 0 then Jump(l - 1, s)
         else if fuel == 0 then Spin
         else RunI(p, env, fuel - 1, c, s.(stack := st.stack))
       case o => Leave(Arity(ty), st.stack, o))
    case If(ty, a, b) =>
      if !st.stack.Push? then Bad
      else if Bools(st.stack.top) then Leave(Arity(ty), st.stack.below, Run(p, env, fuel, a, st.(stack := Wasm.Nil)))
      else Leave(Arity(ty), st.stack.below, Run(p, env, fuel, b, st.(stack := Wasm.Nil)))
    case Br(l) => Jump(l, st)
    case BrIf(l) =>
      if !st.stack.Push? then Bad
      else if Bools(st.stack.top) then Jump(l, st.(stack := st.stack.below))
      else Next(st.(stack := st.stack.below))
    case BrTable(ls, d) =>
      if !st.stack.Push? then Bad
      else Jump(if st.stack.top.n < |ls| then ls[st.stack.top.n] else d, st.(stack := st.stack.below))
    case Return => Ret(st)
  }

  /** A call with the operands on the stack. */
  function Invoke<W>(p: Prog, env: Engine<W>, fuel: nat, f: Addr, st: St<W>): Out<W>
    decreases fuel, 0, 1
  {
    if f !in p.funcs || Wasm.Size(st.stack) < |p.funcs[f].sig.params| then Bad
    else
      var n := |p.funcs[f].sig.params|;
      Resume(Wasm.Under(st.stack, n), st.locals, Function(p, env, fuel, f, Wasm.Take(st.stack, n), st.w))
  }

  /** Past the end of the table, an empty slot, or a function of another type: a trap. */
  function Indirect<W>(p: Prog, env: Engine<W>, fuel: nat, sig: Addr, table: Addr, i: nat, st: St<W>): Out<W>
    decreases fuel, 0, 2
  {
    if sig !in p.sigs || table !in p.tables then Bad
    else if i >= |p.tables[table]| || p.tables[table][i].None? then Trap
    else
      var f := p.tables[table][i].value;
      if f !in p.funcs then Bad
      else if p.funcs[f].sig != p.sigs[sig] then Trap
      else Invoke(p, env, fuel, f, st)
  }

  function Function<W>(p: Prog, env: Engine<W>, fuel: nat, f: Addr, args: Stack, w: W): Result<W>
    requires f in p.funcs
    decreases fuel, 0, 0
  {
    var fn := p.funcs[f];
    if fn.imported then OfHost(|fn.sig.results|, env.host(f, args, w))
    else if fuel == 0 then Spins
    else
      Finish(|fn.sig.results|, Run(p, env, fuel - 1, fn.body, St(Wasm.Nil, Wasm.Args(args) + fn.init, w)))
  }
}
