/** The rewriting, and that it preserves what whole programs do. */
module FuncrefWrap {
  import opened Bytes
  import opened CodecInst
  import opened CodecModule
  import opened ModuleRefs
  import opened IndirectCalls
  import Wasm

  /**
   * Types of the values passed along, the values passed at every call site, where the longer
   * signatures are, the local that a function's pool provides for the index, and the functions and
   * the call sites that are left as they are.
   */
  datatype Plan = Plan(tys: seq<byte>, mark: nat -> seq<Val>, ext: Addr -> Addr, pool: seq<Val>, slot: nat,
                       skip: Addr -> bool, kept: nat -> bool)

  function Consts(vs: seq<Val>): seq<Code> { seq(|vs|, i requires 0 <= i < |vs| => Const(vs[i])) }

  /** An indirect call: its index is set aside, the values are pushed, the index put back. */
  function Site(plan: Plan, d: nat, s: Addr, t: Addr, k: nat): seq<Code> {
    if plan.kept(k) then [CallIndirect(s, t, k)]
    else if plan.tys == [] then [CallIndirect(plan.ext(s), t, k)]
    else [LocalSet(d)] + Consts(plan.mark(k)) + [LocalGet(d), CallIndirect(plan.ext(s), t, k)]
  }

  function Rewrite(plan: Plan, d: nat, code: seq<Code>): seq<Code>
    decreases code, 2
  {
    if code == [] then [] else RewriteI(plan, d, code[0]) + Rewrite(plan, d, code[1..])
  }

  function RewriteI(plan: Plan, d: nat, c: Code): seq<Code>
    decreases c, 1
  {
    match c
    case CallIndirect(s, t, k) => Site(plan, d, s, t, k)
    case Block(ty, body) => [Block(ty, Rewrite(plan, d, body))]
    case Loop(ty, body) => [Loop(ty, Rewrite(plan, d, body))]
    case If(ty, a, b) => [If(ty, Rewrite(plan, d, a), Rewrite(plan, d, b))]
    case _ => [c]
  }

  function Gets(n: nat): seq<Code> { if n == 0 then [] else Gets(n - 1) + [LocalGet(n - 1)] }

  /** Takes the operands of `f` and the values passed along, and calls `f` with its operands. */
  function Wrapper(plan: Plan, s: Sig, f: Addr, init: seq<Val>): Fn {
    Fn(Longer(s, plan.tys), init, Gets(|s.params|) + [Call(f)], false)
  }

  /** A wrapper of `f`, whatever locals it has got since. */
  predicate WrapperOf(plan: Plan, fn: Fn, s: Sig, f: Addr) { fn == Wrapper(plan, s, f, fn.init) }

  function PoolAt(plan: Plan, fn: Fn): nat { |fn.sig.params| + |fn.init| + plan.slot }

  function Widened(plan: Plan, a: Addr, fn: Fn): Fn {
    if fn.imported || plan.skip(a) then fn
    else Fn(fn.sig, fn.init + plan.pool, Rewrite(plan, PoolAt(plan, fn), fn.body), false)
  }

  /** Code all of whose indirect calls are left as they are. */
  predicate AllKept(plan: Plan, code: seq<Code>)
    decreases code, 1
  {
    code == [] || (AllKeptI(plan, code[0]) && AllKept(plan, code[1..]))
  }

  predicate AllKeptI(plan: Plan, c: Code)
    decreases c, 0
  {
    match c
    case CallIndirect(_, _, k) => plan.kept(k)
    case Block(_, body) => AllKept(plan, body)
    case Loop(_, body) => AllKept(plan, body)
    case If(_, a, b) => AllKept(plan, a) && AllKept(plan, b)
    case _ => true
  }

  /** The rewritten program has the longer type that a rewritten call names. */
  predicate Lengthened(plan: Plan, p: Prog, q: Prog, s: Addr) {
    s in p.sigs ==> plan.ext(s) in q.sigs && q.sigs[plan.ext(s)] == Longer(p.sigs[s], plan.tys)
  }

  /** Every indirect call is left as it is or has its longer type. */
  predicate AllExtended(plan: Plan, p: Prog, q: Prog, code: seq<Code>)
    decreases code, 1
  {
    code == [] || (AllExtendedI(plan, p, q, code[0]) && AllExtended(plan, p, q, code[1..]))
  }

  predicate AllExtendedI(plan: Plan, p: Prog, q: Prog, c: Code)
    decreases c, 0
  {
    match c
    case CallIndirect(s, _, k) => plan.kept(k) || Lengthened(plan, p, q, s)
    case Block(_, body) => AllExtended(plan, p, q, body)
    case Loop(_, body) => AllExtended(plan, p, q, body)
    case If(_, a, b) => AllExtended(plan, p, q, a) && AllExtended(plan, p, q, b)
    case _ => true
  }

  /** Calls are only rewritten in functions that are not skipped, and to types that are there. */
  predicate Met(plan: Plan, p: Prog, q: Prog, a: Addr)
    requires a in p.funcs
  {
    if plan.skip(a) then AllKept(plan, p.funcs[a].body) else AllExtended(plan, p, q, p.funcs[a].body)
  }

  /** Code that can be simulated: nothing is rewritten, or local `d` is the pool's and all types are there. */
  predicate Fine(plan: Plan, p: Prog, q: Prog, d: nat, n: nat, all: nat, code: seq<Code>) {
    AllKept(plan, code) || (n <= d < all && AllExtended(plan, p, q, code))
  }

  predicate FineI(plan: Plan, p: Prog, q: Prog, d: nat, n: nat, all: nat, c: Code) {
    AllKeptI(plan, c) || (n <= d < all && AllExtendedI(plan, p, q, c))
  }

  predicate PlanOk(plan: Plan) { plan.slot < |plan.pool| }
  ghost predicate MarksOk(plan: Plan) { forall k: nat :: |plan.mark(k)| == |plan.tys| }

  predicate SlotWrapped(plan: Plan, p: Prog, q: Prog, a: Option<Addr>, b: Option<Addr>) {
    match (a, b)
    case (None, None) => true
    case (Some(f), Some(w)) => f in p.funcs && w in q.funcs && WrapperOf(plan, q.funcs[w], p.funcs[f].sig, f)
    case _ => false
  }

  predicate TableWrapped(plan: Plan, p: Prog, q: Prog, xs: seq<Option<Addr>>, ys: seq<Option<Addr>>) {
    |xs| == |ys| && forall i :: 0 <= i < |xs| ==> SlotWrapped(plan, p, q, xs[i], ys[i])
  }

  /** There is a function in this place of the table. */
  predicate Filled(p: Prog, t: Addr, i: nat) {
    t in p.tables && i < |p.tables[t]| && p.tables[t][i].Some? && p.tables[t][i].value in p.funcs
  }

  /** What a call of type `s` through a place in a table comes to: a function, or a trap. */
  function Reached(p: Prog, s: Addr, t: Addr, i: nat): Option<Addr>
    requires s in p.sigs && t in p.tables
  {
    if !Filled(p, t, i) then None
    else if p.funcs[p.tables[t][i].value].sig != p.sigs[s] then None
    else p.tables[t][i]
  }

  /**
   * Where a call site that is left as it is goes wrong: it used to call a function and will find a
   * wrapper of a longer type (true), or it used to trap and will find a wrapper of its type (false).
   */
  function Verdict(plan: Plan, p: Prog, s: Addr, t: Addr, k: nat, i: nat): Option<bool> {
    if !plan.kept(k) || plan.tys == [] || s !in p.sigs || !Filled(p, t, i) then None
    else Broken(plan, p.funcs[p.tables[t][i].value].sig, p.sigs[s])
  }

  /** A call of type `s` that is left as it is, and a function of type `ft` behind a wrapper. */
  function Broken(plan: Plan, ft: Sig, s: Sig): Option<bool> {
    if ft == s then Some(true) else if Longer(ft, plan.tys) == s then Some(false) else None
  }

  /** `p`, to be stopped where a call site that is left as it is goes wrong. */
  function Guard(plan: Plan, p: Prog): Prog {
    p.(off := (s: Addr, t: Addr, k: nat, i: nat) => Verdict(plan, p, s, t, k, i))
  }

  /**
   * `q` is `p` with its functions rewritten and every function in a table wrapped; `p` is stopped where
   * a call site that is left as it is goes wrong.
   */
  ghost predicate Instrumented(plan: Plan, p: Prog, q: Prog) {
    && PlanOk(plan) && MarksOk(plan)
    && (forall a :: a in p.funcs ==> a in q.funcs && q.funcs[a] == Widened(plan, a, p.funcs[a]))
    && (forall a :: a in p.funcs && !p.funcs[a].imported ==> Met(plan, p, q, a))
    && (forall s :: s in p.sigs ==> s in q.sigs && q.sigs[s] == p.sigs[s])
    && Watched(plan, p) && Unwatched(q)
    && (forall t :: t in p.tables ==> t in q.tables && TableWrapped(plan, p, q, p.tables[t], q.tables[t]))
  }

  ghost predicate Watched(plan: Plan, p: Prog) {
    forall s: Addr, t: Addr, k: nat, i: nat :: p.off(s, t, k, i) == Verdict(plan, p, s, t, k, i)
  }

  ghost predicate Unwatched(p: Prog) { forall s: Addr, t: Addr, k: nat, i: nat :: p.off(s, t, k, i) == None }

  // ----- what is the same -----

  /**
   * Forward: unless the original runs out of fuel.  Backward: unless the rewritten program does.  Never
   * mind what the rewritten program does where the original is not valid code.
   */
  ghost predicate Same<W>(forward: bool, a: Result<W>, b: Result<W>) {
    a.Wrong? || (if forward then a.Spins? else b.Spins?) || (if a.Offs? then a.note ==> b.Traps? else a == b)
  }

  /** The original's `n` locals are the first of the rewritten function's `all`. */
  ghost predicate Rel<W>(n: nat, all: nat, a: St<W>, b: St<W>) {
    a.stack == b.stack && a.w == b.w && |a.locals| == n <= all == |b.locals| && b.locals[..n] == a.locals
  }

  ghost predicate Alike<W>(forward: bool, n: nat, all: nat, a: Out<W>, b: Out<W>) {
    a.Bad? || (if forward then a.Spin? else b.Spin?) || (a.Off? && (a.note ==> b.Trap?))
    || match (a, b)
       case (Next(s), Next(t)) => Rel(n, all, s, t)
       case (Jump(l, s), Jump(k, t)) => l == k && Rel(n, all, s, t)
       case (Ret(s), Ret(t)) => Rel(n, all, s, t)
       case (Exit(v), Exit(w)) => v == w
       case (Trap, Trap) => true
       case _ => false
  }

  /** A wrapped call is one call deeper: twice the fuel and one is enough. */
  predicate Fuels(forward: bool, k: nat, m: nat) { if forward then m >= 2 * k + 1 else k >= m }

  // ----- pieces of code -----

  lemma {:induction false} RunCat<W>(p: Prog, env: Engine<W>, fuel: nat, a: seq<Code>, b: seq<Code>, st: St<W>)
    ensures Run(p, env, fuel, a + b, st) == match Run(p, env, fuel, a, st) case Next(s) => Run(p, env, fuel, b, s) case o => o
    decreases |a|
  {
    hide RunI;
    if a == [] {
      assert a + b == b;
    } else {
      assert (a + b)[1..] == a[1..] + b;
      var o := RunI(p, env, fuel, a[0], st);
      if o.Next? { RunCat(p, env, fuel, a[1..], b, o.s); }
    }
  }

  lemma RunOne<W>(p: Prog, env: Engine<W>, fuel: nat, c: Code, st: St<W>)
    ensures Run(p, env, fuel, [c], st) == RunI(p, env, fuel, c, st)
  {
    hide RunI;
    RunStep(p, env, fuel, [c], st);
    if RunI(p, env, fuel, c, st).Next? { RunEnd(p, env, fuel, RunI(p, env, fuel, c, st).s); }
    hide Run;
    assert [c][1..] == [];
  }

  lemma RunStep<W>(p: Prog, env: Engine<W>, fuel: nat, code: seq<Code>, st: St<W>)
    requires code != []
    ensures Run(p, env, fuel, code, st) == match RunI(p, env, fuel, code[0], st)
      case Next(s) => Run(p, env, fuel, code[1..], s)
      case o => o
  {
    hide RunI;
  }

  lemma RunEnd<W>(p: Prog, env: Engine<W>, fuel: nat, st: St<W>)
    ensures Run(p, env, fuel, [], st) == Next(st)
  {
  }

  /** `vs` on top of `s`, the last of them topmost. */
  function PushAll(vs: seq<Val>, s: Stack): Stack
    decreases |vs|
  {
    if vs == [] then s else Wasm.Push(vs[|vs| - 1], PushAll(vs[..|vs| - 1], s))
  }

  lemma {:induction false} RunConsts<W>(p: Prog, env: Engine<W>, fuel: nat, vs: seq<Val>, st: St<W>)
    ensures Run(p, env, fuel, Consts(vs), st) == Next(st.(stack := PushAll(vs, st.stack)))
    decreases |vs|
  {
    hide RunI;
    if vs == [] {
      RunEnd(p, env, fuel, st);
    } else {
      var n := |vs| - 1;
      assert Consts(vs) == Consts(vs[..n]) + [Const(vs[n])];
      RunCat(p, env, fuel, Consts(vs[..n]), [Const(vs[n])], st);
      RunConsts(p, env, fuel, vs[..n], st);
      hide Run;
      var s := st.(stack := PushAll(vs[..n], st.stack));
      RunOne(p, env, fuel, Const(vs[n]), s);
      ConstIs(p, env, fuel, vs[n], s);
    }
  }

  lemma ConstIs<W>(p: Prog, env: Engine<W>, fuel: nat, v: Val, st: St<W>)
    ensures RunI(p, env, fuel, Const(v), st) == Next(st.(stack := Wasm.Push(v, st.stack)))
  {
    hide Run;
  }

  lemma GetIs<W>(p: Prog, env: Engine<W>, fuel: nat, l: nat, st: St<W>)
    requires l < |st.locals|
    ensures RunI(p, env, fuel, LocalGet(l), st) == Next(st.(stack := Wasm.Push(st.locals[l], st.stack)))
  {
    hide Run;
  }

  lemma SetIs<W>(p: Prog, env: Engine<W>, fuel: nat, l: nat, st: St<W>)
    requires l < |st.locals| && st.stack.Push?
    ensures RunI(p, env, fuel, LocalSet(l), st)
         == Next(st.(locals := st.locals[l := st.stack.top], stack := st.stack.below))
  {
    hide Run;
  }

  lemma CallIs<W>(p: Prog, env: Engine<W>, fuel: nat, f: Addr, st: St<W>)
    ensures RunI(p, env, fuel, Call(f), st) == Invoke(p, env, fuel, f, st)
  {
    hide Run, Invoke;
  }

  lemma IndirectIs<W>(p: Prog, env: Engine<W>, fuel: nat, s: Addr, t: Addr, k: nat, st: St<W>)
    requires st.stack.Push?
    ensures var off := p.off(s, t, k, st.stack.top.n);
      RunI(p, env, fuel, CallIndirect(s, t, k), st)
      == if off.Some? then Off(off.value) else Indirect(p, env, fuel, s, t, st.stack.top.n, st.(stack := st.stack.below))
  {
    hide Run, Indirect;
  }

  /** Getting the first `n` locals puts them on the stack in order. */
  lemma {:induction false} RunGets<W>(p: Prog, env: Engine<W>, fuel: nat, n: nat, st: St<W>)
    requires n <= |st.locals|
    ensures Run(p, env, fuel, Gets(n), st) == Next(st.(stack := PushAll(st.locals[..n], st.stack)))
  {
    hide RunI;
    if n == 0 {
      RunEnd(p, env, fuel, st);
    } else {
      RunGets(p, env, fuel, n - 1, st);
      RunCat(p, env, fuel, Gets(n - 1), [LocalGet(n - 1)], st);
      hide Run, Gets;
      var s := st.(stack := PushAll(st.locals[..n - 1], st.stack));
      RunOne(p, env, fuel, LocalGet(n - 1), s);
      GetIs(p, env, fuel, n - 1, s);
      assert st.locals[..n][..n - 1] == st.locals[..n - 1];
    }
  }

  // ----- stacks -----

  lemma {:induction false} ArgsPushed(vs: seq<Val>, s: Stack)
    ensures Wasm.Args(PushAll(vs, s)) == Wasm.Args(s) + vs
    ensures Wasm.Size(PushAll(vs, s)) == Wasm.Size(s) + |vs|
    decreases |vs|
  {
    if vs != [] {
      ArgsPushed(vs[..|vs| - 1], s);
      assert vs[..|vs| - 1] + [vs[|vs| - 1]] == vs;
    }
  }

  lemma {:induction false} PushArgs(s: Stack)
    ensures PushAll(Wasm.Args(s), Wasm.Nil) == s && |Wasm.Args(s)| == Wasm.Size(s)
  {
    match s
    case Nil =>
    case Push(v, b) =>
      PushArgs(b);
      assert (Wasm.Args(b) + [v])[..|Wasm.Args(b)|] == Wasm.Args(b);
  }

  lemma {:induction false} TakePushed(vs: seq<Val>, s: Stack, n: nat)
    requires n <= Wasm.Size(s)
    ensures n + |vs| <= Wasm.Size(PushAll(vs, s))
    ensures Wasm.Under(PushAll(vs, s), n + |vs|) == Wasm.Under(s, n)
    ensures Wasm.Take(PushAll(vs, s), n + |vs|) == PushAll(vs, Wasm.Take(s, n))
    decreases |vs|
  {
    ArgsPushed(vs, s);
    if vs != [] { TakePushed(vs[..|vs| - 1], s, n); }
  }

  // ----- the wrapper -----

  /**
   * A wrapper called with the operands of `f` and the extra values does what `f` does with its operands;
   * the values are its last locals when it calls `f`.
   */
  lemma {:induction false} WrapperCalls<W>(plan: Plan, q: Prog, env: Engine<W>, m: nat, s: Sig, f: Addr, w: Addr, args: Stack, vs: seq<Val>, x: W)
    requires w in q.funcs && WrapperOf(plan, q.funcs[w], s, f) && f in q.funcs && q.funcs[f].sig == s
    requires Wasm.Size(args) == |s.params| && |vs| == |plan.tys| && m > 0
    ensures Function(q, env, m, w, PushAll(vs, args), x) == Checked(|s.results|, Function(q, env, m - 1, f, args, x))
    ensures var locals := Wasm.Args(PushAll(vs, args));
      |locals| == |s.params| + |plan.tys| && locals[..|s.params|] == Wasm.Args(args) && locals[|s.params|..] == vs
  {
    hide *;
    var n := |s.params|;
    var mine := Wasm.Args(PushAll(vs, args));
    var frame := St(Wasm.Nil, mine + q.funcs[w].init, x);
    ArgsPushed(vs, args);
    PushArgs(args);
    WrapperFunction(plan, q, env, m, s, f, w, PushAll(vs, args), x);
    assert mine[..n] == Wasm.Args(args) && mine[n..] == vs;
    assert frame.locals[..n] == Wasm.Args(args);
    RunGets(q, env, m - 1, n, frame);
    var st := frame.(stack := args);
    RunCat(q, env, m - 1, Gets(n), [Call(f)], frame);
    RunOne(q, env, m - 1, Call(f), st);
    CallIs(q, env, m - 1, f, st);
    InvokeAll(q, env, m - 1, f, st);
    FinishCall(|s.results|, frame.locals, Function(q, env, m - 1, f, args, x));
  }

  /** A function that leaves a number of results that is not its type's is not valid. */
  function Checked<W>(r: nat, a: Result<W>): Result<W> {
    if a.Values? && Wasm.Size(a.vs) != r then Wrong else a
  }

  lemma WrapperFunction<W>(plan: Plan, q: Prog, env: Engine<W>, m: nat, s: Sig, f: Addr, w: Addr, args: Stack, x: W)
    requires w in q.funcs && WrapperOf(plan, q.funcs[w], s, f) && m > 0
    ensures Function(q, env, m, w, args, x)
         == Finish(|s.results|,
                   Run(q, env, m - 1, Gets(|s.params|) + [Call(f)], St(Wasm.Nil, Wasm.Args(args) + q.funcs[w].init, x)))
  {
    hide Run, Finish, Gets;
  }

  lemma InvokeAll<W>(q: Prog, env: Engine<W>, m: nat, f: Addr, st: St<W>)
    requires f in q.funcs && Wasm.Size(st.stack) == |q.funcs[f].sig.params|
    ensures Invoke(q, env, m, f, st) == Resume(Wasm.Nil, st.locals, Function(q, env, m, f, st.stack, st.w))
  {
    hide Function, Resume;
    Wasm.TakeAll(st.stack);
  }

  lemma FinishCall<W>(r: nat, locals: seq<Val>, a: Result<W>)
    ensures Finish(r, Resume(Wasm.Nil, locals, a)) == Checked(r, a)
  {
    if a.Values? { Wasm.AppendNil(a.vs); }
  }

  lemma {:induction false} FunctionChecked<W>(p: Prog, env: Engine<W>, fuel: nat, f: Addr, args: Stack, w: W)
    requires f in p.funcs
    ensures Checked(|p.funcs[f].sig.results|, Function(p, env, fuel, f, args, w)) == Function(p, env, fuel, f, args, w)
  {
    hide Run;
  }

  // ----- one instruction -----

  lemma RelNow<W>(n: nat, all: nat, a: St<W>, b: St<W>)
    requires Rel(n, all, a, b)
    ensures a.stack == b.stack && a.w == b.w && |a.locals| == n <= all == |b.locals|
    ensures forall l :: 0 <= l < n ==> b.locals[l] == a.locals[l]
  {
    forall l | 0 <= l < n ensures b.locals[l] == a.locals[l] { assert b.locals[..n][l] == a.locals[l]; }
  }

  lemma RelIf<W>(n: nat, all: nat, a: St<W>, b: St<W>)
    requires a.stack == b.stack && a.w == b.w && |a.locals| == n <= all == |b.locals|
    requires forall l :: 0 <= l < n ==> b.locals[l] == a.locals[l]
    ensures Rel(n, all, a, b)
  {
  }

  predicate Simple(c: Code) {
    c.Plain? || c.Const? || c.LocalGet? || c.LocalSet? || c.LocalTee? || c.Br? || c.BrIf? || c.BrTable? || c.Return?
  }

  /** Instructions that are neither calls nor nests. */
  lemma SimpleSim<W>(forward: bool, p: Prog, q: Prog, env: Engine<W>, k: nat, m: nat, c: Code, n: nat, all: nat, a: St<W>, b: St<W>)
    requires Simple(c) && Rel(n, all, a, b)
    ensures Alike(forward, n, all, RunI(p, env, k, c, a), RunI(q, env, m, c, b))
  {
    RelNow(n, all, a, b);
    hide Run, Leave;
    match c
    case LocalSet(l) =>
      if l < n && a.stack.Push? {
        SetRel(n, all, a.(stack := a.stack.below), b.(stack := b.stack.below), l, a.stack.top);
      }
    case LocalTee(l) =>
      if l < n && a.stack.Push? { SetRel(n, all, a, b, l, a.stack.top); }
    case _ =>
  }

  lemma SetRel<W>(n: nat, all: nat, a: St<W>, b: St<W>, l: nat, v: Val)
    requires Rel(n, all, a, b) && l < n
    ensures Rel(n, all, a.(locals := a.locals[l := v]), b.(locals := b.locals[l := v]))
  {
    RelNow(n, all, a, b);
    hide Rel;
    RelIf(n, all, a.(locals := a.locals[l := v]), b.(locals := b.locals[l := v]));
  }

  /** The pool's local is not one of the original's. */
  lemma PoolRel<W>(n: nat, all: nat, a: St<W>, b: St<W>, d: nat, v: Val)
    requires Rel(n, all, a, b) && n <= d < all
    ensures Rel(n, all, a, b.(locals := b.locals[d := v]))
  {
    RelNow(n, all, a, b);
    hide Rel;
    RelIf(n, all, a, b.(locals := b.locals[d := v]));
  }

  lemma StackRel<W>(n: nat, all: nat, a: St<W>, b: St<W>, s: Stack)
    requires Rel(n, all, a, b)
    ensures Rel(n, all, a.(stack := s), b.(stack := s))
  {
  }

  lemma LeaveSim<W>(forward: bool, n: nat, all: nat, r: nat, below: Stack, a: Out<W>, b: Out<W>)
    requires Alike(forward, n, all, a, b)
    ensures Alike(forward, n, all, Leave(r, below, a), Leave(r, below, b))
  {
  }

  lemma FinishSim<W>(forward: bool, n: nat, all: nat, r: nat, a: Out<W>, b: Out<W>)
    requires Alike(forward, n, all, a, b)
    ensures Same(forward, Finish(r, a), Finish(r, b))
  {
  }

  lemma ResumeSim<W>(forward: bool, n: nat, all: nat, below: Stack, s: St<W>, t: St<W>, a: Result<W>, b: Result<W>)
    requires Same(forward, a, b) && Rel(n, all, s, t)
    ensures Alike(forward, n, all, Resume(below, s.locals, a), Resume(below, t.locals, b))
  {
  }

  // ----- calls -----

  lemma InvokeIs<W>(p: Prog, env: Engine<W>, k: nat, f: Addr, st: St<W>)
    ensures Invoke(p, env, k, f, st)
         == if f !in p.funcs || Wasm.Size(st.stack) < |p.funcs[f].sig.params| then Bad
            else Resume(Wasm.Under(st.stack, |p.funcs[f].sig.params|), st.locals,
                        Function(p, env, k, f, Wasm.Take(st.stack, |p.funcs[f].sig.params|), st.w))
  {
    hide Function, Resume;
  }

  lemma SameSig(plan: Plan, p: Prog, q: Prog, f: Addr)
    requires Instrumented(plan, p, q) && f in p.funcs
    ensures f in q.funcs && q.funcs[f] == Widened(plan, f, p.funcs[f]) && q.funcs[f].sig == p.funcs[f].sig
  {
    hide Rewrite, TableWrapped, Longer, MarksOk;
  }

  lemma BadAlike<W>(forward: bool, n: nat, all: nat, b: Out<W>)
    ensures Alike(forward, n, all, Bad, b)
  {
  }

  /** The function with this address does the same in both programs. */
  ghost predicate FunctionsSame<W>(forward: bool, p: Prog, q: Prog, env: Engine<W>, k: nat, m: nat, f: Addr, args: Stack, w: W)
    requires f in p.funcs
  {
    f in q.funcs && Same(forward, Function(p, env, k, f, args, w), Function(q, env, m, f, args, w))
  }

  ghost predicate AllSame<W>(forward: bool, p: Prog, q: Prog, env: Engine<W>, k: nat, m: nat, w: W) {
    forall f: Addr, args: Stack ::
      f in p.funcs && Wasm.Size(args) == |p.funcs[f].sig.params| ==> FunctionsSame(forward, p, q, env, k, m, f, args, w)
  }

  lemma FunctionsNow<W>(forward: bool, p: Prog, q: Prog, env: Engine<W>, k: nat, m: nat, f: Addr, args: Stack, w: W)
    requires f in p.funcs && AllSame(forward, p, q, env, k, m, w) && Wasm.Size(args) == |p.funcs[f].sig.params|
    ensures f in q.funcs && Same(forward, Function(p, env, k, f, args, w), Function(q, env, m, f, args, w))
  {
    assert FunctionsSame(forward, p, q, env, k, m, f, args, w);
    hide Function, Same;
  }

  /** A direct call. */
  lemma InvokeSim<W>(forward: bool, plan: Plan, p: Prog, q: Prog, env: Engine<W>, k: nat, m: nat, f: Addr, n: nat, all: nat, a: St<W>, b: St<W>)
    requires Instrumented(plan, p, q) && Rel(n, all, a, b)
    requires AllSame(forward, p, q, env, k, m, a.w)
    ensures Alike(forward, n, all, Invoke(p, env, k, f, a), Invoke(q, env, m, f, b))
  {
    hide *;
    RelNow(n, all, a, b);
    InvokeIs(p, env, k, f, a);
    InvokeIs(q, env, m, f, b);
    if f in p.funcs && Wasm.Size(a.stack) >= |p.funcs[f].sig.params| {
      SameSig(plan, p, q, f);
      var np := |p.funcs[f].sig.params|;
      FunctionsNow(forward, p, q, env, k, m, f, Wasm.Take(a.stack, np), a.w);
      ResumeSim(forward, n, all, Wasm.Under(a.stack, np), a, b,
                Function(p, env, k, f, Wasm.Take(a.stack, np), a.w), Function(q, env, m, f, Wasm.Take(a.stack, np), a.w));
    } else {
      BadAlike(forward, n, all, Invoke(q, env, m, f, b));
    }
  }

  /** What a call site does: the values are pushed under the index. */
  lemma SiteRuns<W>(plan: Plan, q: Prog, env: Engine<W>, m: nat, d: nat, s: Addr, t: Addr, k: nat, b: St<W>)
    requires b.stack.Push? && d < |b.locals| && plan.tys != [] && !plan.kept(k)
    requires Unwatched(q)
    ensures Run(q, env, m, Site(plan, d, s, t, k), b)
         == Indirect(q, env, m, plan.ext(s), t, b.stack.top.n,
                     St(PushAll(plan.mark(k), b.stack.below), b.locals[d := b.stack.top], b.w))
  {
    hide *;
    var b1 := St(b.stack.below, b.locals[d := b.stack.top], b.w);
    var b2 := b1.(stack := PushAll(plan.mark(k), b1.stack));
    var b3 := b2.(stack := Wasm.Push(b.stack.top, b2.stack));
    var consts, c := Consts(plan.mark(k)), CallIndirect(plan.ext(s), t, k);
    SiteIs(plan, d, s, t, k);
    RunCat(q, env, m, [LocalSet(d)], consts + ([LocalGet(d)] + [c]), b);
    RunOne(q, env, m, LocalSet(d), b);
    SetIs(q, env, m, d, b);
    RunCat(q, env, m, consts, [LocalGet(d)] + [c], b1);
    RunConsts(q, env, m, plan.mark(k), b1);
    RunCat(q, env, m, [LocalGet(d)], [c], b2);
    RunOne(q, env, m, LocalGet(d), b2);
    GetIs(q, env, m, d, b2);
    RunOne(q, env, m, c, b3);
    UnwatchedNow(q, plan.ext(s), t, k, b.stack.top.n);
    IndirectIs(q, env, m, plan.ext(s), t, k, b3);
  }

  lemma SiteIs(plan: Plan, d: nat, s: Addr, t: Addr, k: nat)
    requires plan.tys != [] && !plan.kept(k)
    ensures Site(plan, d, s, t, k)
         == [LocalSet(d)] + (Consts(plan.mark(k)) + ([LocalGet(d)] + [CallIndirect(plan.ext(s), t, k)]))
  {
    hide Consts;
  }

  // ----- indirect calls -----

  lemma LongerSame(plan: Plan, s: Sig, t: Sig)
    ensures Longer(s, plan.tys) == Longer(t, plan.tys) <==> s == t
  {
    var u, v := s.params + plan.tys, t.params + plan.tys;
    if u == v {
      assert |s.params| == |t.params|;
      assert u[..|s.params|] == s.params && v[..|t.params|] == t.params;
    }
  }

  lemma IndirectNow<W>(p: Prog, env: Engine<W>, k: nat, s: Addr, t: Addr, i: nat, st: St<W>)
    ensures Indirect(p, env, k, s, t, i, st)
         == if s !in p.sigs || t !in p.tables then Bad
            else if i >= |p.tables[t]| || p.tables[t][i].None? then Trap
            else if p.tables[t][i].value !in p.funcs then Bad
            else if p.funcs[p.tables[t][i].value].sig != p.sigs[s] then Trap
            else Invoke(p, env, k, p.tables[t][i].value, st)
  {
    hide Invoke;
  }

  /** Table and signature of the rewritten call. */
  lemma TableNow(plan: Plan, p: Prog, q: Prog, s: Addr, t: Addr, i: nat)
    requires Instrumented(plan, p, q) && s in p.sigs && t in p.tables
    ensures t in q.tables
    ensures |q.tables[t]| == |p.tables[t]|
    ensures i < |p.tables[t]| ==> SlotWrapped(plan, p, q, p.tables[t][i], q.tables[t][i])
  {
    hide Longer, Widened, SlotWrapped;
  }

  lemma SlotNow(plan: Plan, p: Prog, q: Prog, a: Option<Addr>, b: Option<Addr>)
    requires SlotWrapped(plan, p, q, a, b)
    ensures a.None? <==> b.None?
    ensures a.Some? ==> a.value in p.funcs && b.value in q.funcs
    ensures a.Some? ==> WrapperOf(plan, q.funcs[b.value], p.funcs[a.value].sig, a.value)
    ensures a.Some? ==> q.funcs[b.value].sig == Longer(p.funcs[a.value].sig, plan.tys)
  {
    hide Longer, Gets;
  }

  /** The call that gets through: the wrapper calls the function that was called before. */
  lemma {:induction false} ThroughSim<W>(forward: bool, plan: Plan, p: Prog, q: Prog, env: Engine<W>, k: nat, m: nat, f: Addr, w: Addr, vs: seq<Val>,
                                         n: nat, all: nat, a: St<W>, b: St<W>)
    requires Instrumented(plan, p, q) && Rel(n, all, a, b.(stack := a.stack)) && b.stack == PushAll(vs, a.stack)
    requires f in p.funcs && w in q.funcs && WrapperOf(plan, q.funcs[w], p.funcs[f].sig, f) && |vs| == |plan.tys|
    requires m > 0 && AllSame(forward, p, q, env, k, m - 1, a.w)
    ensures Alike(forward, n, all, Invoke(p, env, k, f, a), Invoke(q, env, m, w, b))
  {
    hide *;
    var sig := p.funcs[f].sig;
    var np := |sig.params|;
    SameSig(plan, p, q, f);
    WrapperSig(plan, q.funcs[w], sig, f);
    RelNow(n, all, a, b.(stack := a.stack));
    InvokeIs(p, env, k, f, a);
    InvokeIs(q, env, m, w, b);
    if Wasm.Size(a.stack) < np {
      BadAlike(forward, n, all, Invoke(q, env, m, w, b));
    } else {
      TakePushed(vs, a.stack, np);
      var args := Wasm.Take(a.stack, np);
      WrapperCalls(plan, q, env, m, sig, f, w, args, vs, a.w);
      FunctionChecked(q, env, m - 1, f, args, a.w);
      FunctionsNow(forward, p, q, env, k, m - 1, f, args, a.w);
      ResumeSim(forward, n, all, Wasm.Under(a.stack, np), a, b.(stack := a.stack),
                Function(p, env, k, f, args, a.w), Function(q, env, m - 1, f, args, a.w));
    }
  }

  lemma WrapperSig(plan: Plan, fn: Fn, s: Sig, f: Addr)
    requires WrapperOf(plan, fn, s, f)
    ensures fn.sig == Longer(s, plan.tys) && !fn.imported
    ensures |Longer(s, plan.tys).params| == |s.params| + |plan.tys| && Longer(s, plan.tys).results == s.results
  {
    hide Gets;
  }

  /** Without fuel the wrapper does not run. */
  lemma ThroughSpins<W>(plan: Plan, p: Prog, q: Prog, env: Engine<W>, k: nat, f: Addr, w: Addr, n: nat, all: nat, a: St<W>, b: St<W>)
    requires f in p.funcs && w in q.funcs && WrapperOf(plan, q.funcs[w], p.funcs[f].sig, f)
    requires exists vs: seq<Val> :: |vs| == |plan.tys| && b.stack == PushAll(vs, a.stack)
    ensures Alike(false, n, all, Invoke(p, env, k, f, a), Invoke(q, env, 0, w, b))
  {
    var vs: seq<Val> :| |vs| == |plan.tys| && b.stack == PushAll(vs, a.stack);
    WrapperSig(plan, q.funcs[w], p.funcs[f].sig, f);
    InvokeIs(p, env, k, f, a);
    InvokeIs(q, env, 0, w, b);
    var np := |p.funcs[f].sig.params|;
    if Wasm.Size(a.stack) >= np { TakePushed(vs, a.stack, np); }
    hide Invoke, WrapperOf, PushAll, Longer, Run;
  }

  /**
   * An indirect call traps exactly when it did, on the index, the empty slot or the type; otherwise it
   * reaches the same function.
   */
  lemma {:induction false} IndirectSim<W>(forward: bool, plan: Plan, p: Prog, q: Prog, env: Engine<W>, k: nat, m: nat, s: Addr, s': Addr, t: Addr, i: nat,
                                          vs: seq<Val>, n: nat, all: nat, a: St<W>, b: St<W>)
    requires Instrumented(plan, p, q) && Rel(n, all, a, b.(stack := a.stack)) && b.stack == PushAll(vs, a.stack)
    requires s in p.sigs ==> s' in q.sigs && q.sigs[s'] == Longer(p.sigs[s], plan.tys)
    requires |vs| == |plan.tys| && (forward ==> m > 0)
    requires m > 0 ==> AllSame(forward, p, q, env, k, m - 1, a.w)
    ensures Alike(forward, n, all, Indirect(p, env, k, s, t, i, a), Indirect(q, env, m, s', t, i, b))
  {
    hide *;
    IndirectNow(p, env, k, s, t, i, a);
    IndirectNow(q, env, m, s', t, i, b);
    if s !in p.sigs || t !in p.tables {
      BadAlike(forward, n, all, Indirect(q, env, m, s', t, i, b));
    } else {
      TableNow(plan, p, q, s, t, i);
      if i >= |p.tables[t]| {
        TrapAlike<W>(forward, n, all);
      } else {
        SlotNow(plan, p, q, p.tables[t][i], q.tables[t][i]);
        if p.tables[t][i].None? {
          TrapAlike<W>(forward, n, all);
        } else {
          var f, w := p.tables[t][i].value, q.tables[t][i].value;
          LongerSame(plan, p.funcs[f].sig, p.sigs[s]);
          if p.funcs[f].sig != p.sigs[s] {
            TrapAlike<W>(forward, n, all);
          } else if m > 0 {
            ThroughSim(forward, plan, p, q, env, k, m, f, w, vs, n, all, a, b);
          } else {
            ThroughSpins(plan, p, q, env, k, f, w, n, all, a, b);
          }
        }
      }
    }
  }

  lemma TrapAlike<W>(forward: bool, n: nat, all: nat)
    ensures Alike<W>(forward, n, all, Trap, Trap)
  {
  }

  // ----- whole programs -----

  lemma RewriteIs(plan: Plan, d: nat, code: seq<Code>)
    ensures Rewrite(plan, d, code) == if code == [] then [] else RewriteI(plan, d, code[0]) + Rewrite(plan, d, code[1..])
  {
    hide RewriteI;
  }

  lemma NextAlike<W>(forward: bool, n: nat, all: nat, a: Out<W>, b: Out<W>)
    requires Alike(forward, n, all, a, b) && a.Next?
    ensures (b.Next? && Rel(n, all, a.s, b.s)) || (!forward && b.Spin?)
  {
    hide Rel;
  }

  lemma SpinAlike<W>(n: nat, all: nat, a: Out<W>)
    ensures Alike(false, n, all, a, Spin)
  {
  }

  lemma StopAlike<W>(forward: bool, n: nat, all: nat, a: Out<W>, b: Out<W>)
    requires Alike(forward, n, all, a, b) && !a.Next? && b.Next?
    ensures a.Bad? || (forward && a.Spin?) || a == Off(false)
  {
    hide Rel;
  }

  lemma EitherAlike<W>(forward: bool, n: nat, all: nat, a: Out<W>, b: Out<W>)
    requires a.Bad? || (if forward then a.Spin? else b.Spin?) || a == Off(false)
    ensures Alike(forward, n, all, a, b)
  {
    hide Rel;
  }

  /** Code of one function, rewritten with local `d` of its pool. */
  lemma {:induction false} RunSim<W(!new)>(forward: bool, plan: Plan, p: Prog, q: Prog, env: Engine<W>, k: nat, m: nat, d: nat, code: seq<Code>,
                                     n: nat, all: nat, a: St<W>, b: St<W>)
    requires Instrumented(plan, p, q) && Fuels(forward, k, m) && Rel(n, all, a, b) && Fine(plan, p, q, d, n, all, code)
    ensures Alike(forward, n, all, Run(p, env, k, code, a), Run(q, env, m, Rewrite(plan, d, code), b))
    decreases k, 1, code, 2
  {
    hide *;
    RewriteIs(plan, d, code);
    if code == [] {
      RunEnd(p, env, k, a);
      RunEnd(q, env, m, b);
      NextsAlike(forward, n, all, a, b);
    } else {
      var c := code[0];
      FineParts(plan, p, q, d, n, all, code);
      StepSim(forward, plan, p, q, env, k, m, d, c, n, all, a, b);
      RunStep(p, env, k, code, a);
      RunCat(q, env, m, RewriteI(plan, d, c), Rewrite(plan, d, code[1..]), b);
      var o, r := RunI(p, env, k, c, a), Run(q, env, m, RewriteI(plan, d, c), b);
      if o.Next? {
        NextAlike(forward, n, all, o, r);
        if r.Next? {
          RunSim(forward, plan, p, q, env, k, m, d, code[1..], n, all, o.s, r.s);
        } else {
          SpinAlike(n, all, Run(p, env, k, code[1..], o.s));
        }
      } else if r.Next? {
        StopAlike(forward, n, all, o, r);
        EitherAlike(forward, n, all, o, Run(q, env, m, Rewrite(plan, d, code[1..]), r.s));
      }
    }
  }

  lemma KeptParts(plan: Plan, code: seq<Code>)
    requires code != []
    ensures AllKept(plan, code) ==> AllKeptI(plan, code[0]) && AllKept(plan, code[1..])
  {
    hide AllKeptI;
  }

  lemma FineParts(plan: Plan, p: Prog, q: Prog, d: nat, n: nat, all: nat, code: seq<Code>)
    requires code != [] && Fine(plan, p, q, d, n, all, code)
    ensures FineI(plan, p, q, d, n, all, code[0]) && Fine(plan, p, q, d, n, all, code[1..])
  {
    hide AllKeptI, AllExtendedI;
  }

  lemma FineInside(plan: Plan, p: Prog, q: Prog, d: nat, n: nat, all: nat, c: Code)
    requires FineI(plan, p, q, d, n, all, c)
    ensures c.CallIndirect? ==> plan.kept(c.site) || (n <= d < all && Lengthened(plan, p, q, c.sig))
    ensures c.Block? || c.Loop? ==> Fine(plan, p, q, d, n, all, c.body)
    ensures c.If? ==> Fine(plan, p, q, d, n, all, c.then_) && Fine(plan, p, q, d, n, all, c.else_)
  {
    hide AllKept, AllExtended, Lengthened;
  }

  lemma FineIf(plan: Plan, p: Prog, q: Prog, d: nat, n: nat, all: nat, code: seq<Code>)
    requires AllKept(plan, code) || (n <= d < all && AllExtended(plan, p, q, code))
    ensures Fine(plan, p, q, d, n, all, code)
  {
    hide AllKept, AllExtended;
  }

  lemma KeptInside(plan: Plan, c: Code)
    requires AllKeptI(plan, c)
    ensures (c.CallIndirect? ==> plan.kept(c.site)) && (c.Block? || c.Loop? ==> AllKept(plan, c.body))
    ensures c.If? ==> AllKept(plan, c.then_) && AllKept(plan, c.else_)
  {
    hide AllKept;
  }

  lemma NextsAlike<W>(forward: bool, n: nat, all: nat, a: St<W>, b: St<W>)
    requires Rel(n, all, a, b)
    ensures Alike(forward, n, all, Next(a), Next(b))
  {
  }

  lemma {:induction false} DeeperSame<W(!new)>(forward: bool, plan: Plan, p: Prog, q: Prog, env: Engine<W>, k: nat, m: nat, w: W)
    requires Instrumented(plan, p, q) && (if forward then m >= 2 * k else k >= m)
    ensures AllSame(forward, p, q, env, k, m, w)
    decreases k, 0, 1
  {
    hide *;
    forall f: Addr, args: Stack | f in p.funcs && Wasm.Size(args) == |p.funcs[f].sig.params|
      ensures FunctionsSame(forward, p, q, env, k, m, f, args, w)
    {
      FunctionSim(forward, plan, p, q, env, k, m, f, args, w);
    }
    AllSameIf(forward, p, q, env, k, m, w);
  }

  lemma AllSameIf<W(!new)>(forward: bool, p: Prog, q: Prog, env: Engine<W>, k: nat, m: nat, w: W)
    requires forall f: Addr, args: Stack ::
      f in p.funcs && Wasm.Size(args) == |p.funcs[f].sig.params| ==> FunctionsSame(forward, p, q, env, k, m, f, args, w)
    ensures AllSame(forward, p, q, env, k, m, w)
  {
    hide FunctionsSame;
  }

  lemma FunctionIs<W>(p: Prog, env: Engine<W>, k: nat, f: Addr, args: Stack, w: W)
    requires f in p.funcs
    ensures Function(p, env, k, f, args, w)
         == if p.funcs[f].imported then OfHost(|p.funcs[f].sig.results|, env.host(f, args, w))
            else if k == 0 then Spins
            else Finish(|p.funcs[f].sig.results|,
                        Run(p, env, k - 1, p.funcs[f].body, St(Wasm.Nil, Wasm.Args(args) + p.funcs[f].init, w)))
    ensures p.funcs[f].imported || k == 0 ==> !Function(p, env, k, f, args, w).Offs?
  {
    hide Run, Finish;
  }

  lemma WidenedIs(plan: Plan, a: Addr, fn: Fn)
    ensures Widened(plan, a, fn).sig == fn.sig && Widened(plan, a, fn).imported == fn.imported
    ensures !fn.imported && !plan.skip(a) ==> Widened(plan, a, fn).init == fn.init + plan.pool
    ensures !fn.imported && !plan.skip(a) ==> Widened(plan, a, fn).body == Rewrite(plan, PoolAt(plan, fn), fn.body)
    ensures plan.skip(a) ==> Widened(plan, a, fn) == fn
  {
    hide Rewrite;
  }

  /** Code all of whose indirect calls are kept is not changed. */
  lemma {:induction false} RewriteNothing(plan: Plan, d: nat, code: seq<Code>)
    requires AllKept(plan, code)
    ensures Rewrite(plan, d, code) == code
    decreases code, 1
  {
    hide *;
    RewriteIs(plan, d, code);
    if code != [] {
      KeptParts(plan, code);
      RewriteNothingI(plan, d, code[0]);
      RewriteNothing(plan, d, code[1..]);
    }
  }

  lemma {:induction false} RewriteNothingI(plan: Plan, d: nat, c: Code)
    requires AllKeptI(plan, c)
    ensures RewriteI(plan, d, c) == [c]
    decreases c, 0
  {
    hide *;
    KeptInside(plan, c);
    RewriteOne(plan, d, c);
    if c.CallIndirect? { SitePlain(plan, d, c.sig, c.table, c.site); }
    if c.Block? || c.Loop? { RewriteNothing(plan, d, c.body); }
    if c.If? {
      RewriteNothing(plan, d, c.then_);
      RewriteNothing(plan, d, c.else_);
    }
  }

  lemma FrameSame<W>(fn: Fn, args: Stack, w: W)
    requires Wasm.Size(args) == |fn.sig.params|
    ensures var n := |fn.sig.params| + |fn.init|; var s := St(Wasm.Nil, Wasm.Args(args) + fn.init, w); Rel(n, n, s, s)
  {
    PushArgs(args);
    var all := Wasm.Args(args) + fn.init;
    assert all[..|fn.sig.params| + |fn.init|] == all;
    hide PushAll;
  }

  lemma MetNow(plan: Plan, p: Prog, q: Prog, f: Addr)
    requires Instrumented(plan, p, q) && f in p.funcs && !p.funcs[f].imported
    ensures if plan.skip(f) then AllKept(plan, p.funcs[f].body) else AllExtended(plan, p, q, p.funcs[f].body)
  {
    hide AllKept, AllExtended, Longer, Widened, TableWrapped, Watched, Unwatched;
  }

  /** The frames of a function and of the same function with its pool. */
  lemma FrameRel<W>(plan: Plan, fn: Fn, args: Stack, w: W)
    requires Wasm.Size(args) == |fn.sig.params| && PlanOk(plan)
    ensures var n := |fn.sig.params| + |fn.init|;
      Rel(n, n + |plan.pool|, St(Wasm.Nil, Wasm.Args(args) + fn.init, w),
          St(Wasm.Nil, Wasm.Args(args) + (fn.init + plan.pool), w))
      && n <= PoolAt(plan, fn) < n + |plan.pool|
  {
    PushArgs(args);
    var all := Wasm.Args(args) + (fn.init + plan.pool);
    assert all[..|fn.sig.params| + |fn.init|] == Wasm.Args(args) + fn.init;
    hide PushAll;
  }

  lemma SameIf<W>(forward: bool, p: Prog, q: Prog, env: Engine<W>, k: nat, m: nat, f: Addr, args: Stack, w: W)
    requires f in p.funcs && f in q.funcs
    requires Same(forward, Function(p, env, k, f, args, w), Function(q, env, m, f, args, w))
    ensures FunctionsSame(forward, p, q, env, k, m, f, args, w)
  {
    hide Function, Same;
  }

  lemma SpinSame<W>(forward: bool, a: Result<W>, b: Result<W>)
    requires (a == b && !a.Offs?) || (forward && a.Spins?) || (!forward && b.Spins?)
    ensures Same(forward, a, b)
  {
  }

  lemma PlanIs(plan: Plan, p: Prog, q: Prog)
    requires Instrumented(plan, p, q)
    ensures PlanOk(plan) && MarksOk(plan)
  {
    hide PlanOk, MarksOk, Longer, Widened, TableWrapped;
  }

  lemma FuelsIf(forward: bool, k: nat, m: nat)
    requires if forward then m >= 2 * k + 1 else k >= m
    ensures Fuels(forward, k, m)
  {
  }

  /** A function called with the same operands gives the same results. */
  lemma {:induction false} FunctionSim<W(!new)>(forward: bool, plan: Plan, p: Prog, q: Prog, env: Engine<W>, k: nat, m: nat, f: Addr, args: Stack, w: W)
    requires Instrumented(plan, p, q) && (if forward then m >= 2 * k else k >= m)
    requires f in p.funcs && Wasm.Size(args) == |p.funcs[f].sig.params|
    ensures FunctionsSame(forward, p, q, env, k, m, f, args, w)
    decreases k, 0, 0
  {
    hide *;
    SameSig(plan, p, q, f);
    FunctionIs(p, env, k, f, args, w);
    FunctionIs(q, env, m, f, args, w);
    var fn := p.funcs[f];
    WidenedIs(plan, f, fn);
    var r := |fn.sig.results|;
    if !fn.imported && k > 0 && m > 0 {
      var n := |fn.sig.params| + |fn.init|;
      PlanIs(plan, p, q);
      FuelsIf(forward, k - 1, m - 1);
      var d := PoolAt(plan, fn);
      var a := St(Wasm.Nil, Wasm.Args(args) + fn.init, w);
      var b, all := a, n;
      MetNow(plan, p, q, f);
      if plan.skip(f) {
        RewriteNothing(plan, d, fn.body);
        FrameSame(fn, args, w);
      } else {
        b, all := St(Wasm.Nil, Wasm.Args(args) + (fn.init + plan.pool), w), n + |plan.pool|;
        FrameRel(plan, fn, args, w);
      }
      FineIf(plan, p, q, d, n, all, fn.body);
      RunSim(forward, plan, p, q, env, k - 1, m - 1, d, fn.body, n, all, a, b);
      FinishSim(forward, n, all, r, Run(p, env, k - 1, fn.body, a), Run(q, env, m - 1, Rewrite(plan, d, fn.body), b));
    } else {
      SpinSame(forward, Function(p, env, k, f, args, w), Function(q, env, m, f, args, w));
    }
    SameIf(forward, p, q, env, k, m, f, args, w);
  }

  lemma RewriteOne(plan: Plan, d: nat, c: Code)
    ensures Simple(c) || c.Call? ==> RewriteI(plan, d, c) == [c]
    ensures c.CallIndirect? ==> RewriteI(plan, d, c) == Site(plan, d, c.sig, c.table, c.site)
    ensures c.Block? ==> RewriteI(plan, d, c) == [Block(c.ty, Rewrite(plan, d, c.body))]
    ensures c.Loop? ==> RewriteI(plan, d, c) == [Loop(c.ty, Rewrite(plan, d, c.body))]
    ensures c.If? ==> RewriteI(plan, d, c) == [If(c.ty, Rewrite(plan, d, c.then_), Rewrite(plan, d, c.else_))]
    ensures Simple(c) || c.Call? || c.CallIndirect? || c.Block? || c.Loop? || c.If?
  {
    hide Rewrite, Site;
  }

  lemma BlockIs<W>(p: Prog, env: Engine<W>, k: nat, c: Code, st: St<W>)
    requires c.Block?
    ensures RunI(p, env, k, c, st) == Leave(Arity(c.ty), st.stack, Run(p, env, k, c.body, st.(stack := Wasm.Nil)))
  {
    hide Run, Leave;
  }

  lemma IfIs<W>(p: Prog, env: Engine<W>, k: nat, c: Code, st: St<W>)
    requires c.If?
    ensures RunI(p, env, k, c, st) == if !st.stack.Push? then Bad else
      Leave(Arity(c.ty), st.stack.below,
            Run(p, env, k, if Bools(st.stack.top) then c.then_ else c.else_, st.(stack := Wasm.Nil)))
  {
    hide Run, Leave, Bools;
  }

  lemma LoopIs<W>(p: Prog, env: Engine<W>, k: nat, c: Code, st: St<W>)
    requires c.Loop?
    ensures var o := Run(p, env, k, c.body, st.(stack := Wasm.Nil));
      RunI(p, env, k, c, st) == if o.Jump? && o.l == 0 then
        (if k == 0 then Spin else RunI(p, env, k - 1, c, o.s.(stack := st.stack))) else Leave(Arity(c.ty), st.stack, o)
  {
    hide Run;
  }

  lemma IndirectBad<W>(p: Prog, env: Engine<W>, k: nat, c: Code, st: St<W>)
    requires c.CallIndirect? && !st.stack.Push?
    ensures RunI(p, env, k, c, st) == Bad
  {
    hide Run, Indirect;
  }

  /** A call site, with or without values to pass along. */
  lemma {:induction false} SiteSim<W(!new)>(forward: bool, plan: Plan, p: Prog, q: Prog, env: Engine<W>, k: nat, m: nat, d: nat, c: Code,
                                      n: nat, all: nat, a: St<W>, b: St<W>)
    requires c.CallIndirect? && Instrumented(plan, p, q) && Rel(n, all, a, b)
    requires plan.kept(c.site) || (n <= d < all && Lengthened(plan, p, q, c.sig))
    requires (forward ==> m > 0) && (m > 0 ==> AllSame(forward, p, q, env, k, m - 1, a.w))
    ensures Alike(forward, n, all, RunI(p, env, k, c, a), Run(q, env, m, Site(plan, d, c.sig, c.table, c.site), b))
  {
    hide *;
    var r := Run(q, env, m, Site(plan, d, c.sig, c.table, c.site), b);
    if !a.stack.Push? {
      IndirectBad(p, env, k, c, a);
      BadAlike(forward, n, all, r);
    } else if plan.kept(c.site) {
      KeptSiteSim(forward, plan, p, q, env, k, m, d, c, n, all, a, b);
    } else {
      RelNow(n, all, a, b);
      IndirectIs(p, env, k, c.sig, c.table, c.site, a);
      WatchedNow(plan, p, q, c.sig, c.table, c.site, a.stack.top.n);
      VerdictIs(plan, p, c.sig, c.table, c.site, a.stack.top.n);
      ExtNow(plan, p, q, c.sig);
      var vs := plan.mark(c.site);
      PlanIs(plan, p, q);
      MarkLength(plan, c.site);
      var rest := a.stack.below;
      var b' := St(PushAll(vs, rest), if plan.tys == [] then b.locals else b.locals[d := a.stack.top], b.w);
      if plan.tys == [] {
        SitePlain(plan, d, c.sig, c.table, c.site);
        RunOne(q, env, m, CallIndirect(plan.ext(c.sig), c.table, c.site), b);
        UnwatchedNow(q, plan.ext(c.sig), c.table, c.site, b.stack.top.n);
        IndirectIs(q, env, m, plan.ext(c.sig), c.table, c.site, b);
        PushNone(rest);
        StackRel(n, all, a, b, rest);
      } else {
        SiteRuns(plan, q, env, m, d, c.sig, c.table, c.site, b);
        PoolRel(n, all, a, b, d, a.stack.top);
        StackRel(n, all, a, b.(locals := b.locals[d := a.stack.top]), rest);
      }
      IndirectSim(forward, plan, p, q, env, k, m, c.sig, plan.ext(c.sig), c.table, a.stack.top.n, vs, n, all, a.(stack := rest), b');
    }
  }

  /** A call site that is left as it is. */
  lemma {:induction false} KeptSiteSim<W(!new)>(forward: bool, plan: Plan, p: Prog, q: Prog, env: Engine<W>, k: nat, m: nat, d: nat, c: Code,
                                          n: nat, all: nat, a: St<W>, b: St<W>)
    requires c.CallIndirect? && Instrumented(plan, p, q) && Rel(n, all, a, b) && plan.kept(c.site) && a.stack.Push?
    requires (forward ==> m > 0) && (m > 0 ==> AllSame(forward, p, q, env, k, m - 1, a.w))
    ensures Alike(forward, n, all, RunI(p, env, k, c, a), Run(q, env, m, Site(plan, d, c.sig, c.table, c.site), b))
  {
    hide *;
    var i := a.stack.top.n;
    RelNow(n, all, a, b);
    IndirectIs(p, env, k, c.sig, c.table, c.site, a);
    WatchedNow(plan, p, q, c.sig, c.table, c.site, i);
    SitePlain(plan, d, c.sig, c.table, c.site);
    RunOne(q, env, m, CallIndirect(c.sig, c.table, c.site), b);
    UnwatchedNow(q, c.sig, c.table, c.site, i);
    IndirectIs(q, env, m, c.sig, c.table, c.site, b);
    var a', b' := a.(stack := a.stack.below), b.(stack := a.stack.below);
    StackRel(n, all, a, b, a.stack.below);
    if plan.tys == [] {
      VerdictIs(plan, p, c.sig, c.table, c.site, i);
      if c.sig in p.sigs { SameSigs(plan, p, q, c.sig); }
      PushNone(a.stack.below);
      IndirectSim(forward, plan, p, q, env, k, m, c.sig, c.sig, c.table, i, [], n, all, a', b');
    } else {
      KeptSim(forward, plan, p, q, env, k, m, c.sig, c.table, c.site, i, n, all, a', b');
    }
  }

  /** It used to call and now traps, used to trap and now gets through, or traps in both programs. */
  lemma {:induction false} KeptSim<W>(forward: bool, plan: Plan, p: Prog, q: Prog, env: Engine<W>, k: nat, m: nat, s: Addr, t: Addr, x: nat, i: nat,
                                n: nat, all: nat, a: St<W>, b: St<W>)
    requires Instrumented(plan, p, q) && plan.kept(x) && plan.tys != []
    ensures var v := Verdict(plan, p, s, t, x, i);
      Alike(forward, n, all, if v.Some? then Off(v.value) else Indirect(p, env, k, s, t, i, a), Indirect(q, env, m, s, t, i, b))
  {
    hide *;
    VerdictIs(plan, p, s, t, x, i);
    FilledIs(p, t, i);
    IndirectNow(p, env, k, s, t, i, a);
    IndirectNow(q, env, m, s, t, i, b);
    var r := Indirect(q, env, m, s, t, i, b);
    if s !in p.sigs || t !in p.tables {
      BadAlike(forward, n, all, r);
    } else {
      TableNow(plan, p, q, s, t, i);
      SameSigs(plan, p, q, s);
      TrapAlike<W>(forward, n, all);
      if i < |p.tables[t]| {
        SlotNow(plan, p, q, p.tables[t][i], q.tables[t][i]);
        if p.tables[t][i].Some? {
          WrapperSig(plan, q.funcs[q.tables[t][i].value], p.funcs[p.tables[t][i].value].sig, p.tables[t][i].value);
          BrokenIs(plan, p.funcs[p.tables[t][i].value].sig, p.sigs[s]);
          OffAlike(forward, n, all, r);
        }
      }
    }
  }

  lemma FilledIs(p: Prog, t: Addr, i: nat)
    ensures Filled(p, t, i) <==> t in p.tables && i < |p.tables[t]| && p.tables[t][i].Some? && p.tables[t][i].value in p.funcs
  {
  }

  lemma BrokenIs(plan: Plan, ft: Sig, s: Sig)
    ensures Broken(plan, ft, s) == if ft == s then Some(true) else if Longer(ft, plan.tys) == s then Some(false) else None
  {
    hide Longer;
  }

  lemma GuardIs(plan: Plan, p: Prog)
    ensures var g := Guard(plan, p); g.funcs == p.funcs && g.sigs == p.sigs && g.tables == p.tables
    ensures Watched(plan, Guard(plan, p))
  {
    hide Broken;
  }

  lemma InstrumentedIf(plan: Plan, p: Prog, q: Prog)
    requires PlanOk(plan) && MarksOk(plan)
    requires forall a :: a in p.funcs ==> a in q.funcs && q.funcs[a] == Widened(plan, a, p.funcs[a])
    requires forall a :: a in p.funcs && !p.funcs[a].imported ==> Met(plan, p, q, a)
    requires forall s :: s in p.sigs ==> s in q.sigs && q.sigs[s] == p.sigs[s]
    requires forall t :: t in p.tables ==> t in q.tables && TableWrapped(plan, p, q, p.tables[t], q.tables[t])
    requires Unwatched(q)
    ensures Instrumented(plan, Guard(plan, p), q)
  {
    GuardIs(plan, p);
    hide Guard, Watched, Unwatched, PlanOk, MarksOk, Widened, Longer, Met, TableWrapped;
    forall a | a in p.funcs && !p.funcs[a].imported ensures Met(plan, Guard(plan, p), q, a) { GuardMet(plan, p, q, a); }
    forall t | t in p.tables ensures t in q.tables && TableWrapped(plan, Guard(plan, p), q, p.tables[t], q.tables[t]) {
      GuardTable(plan, p, q, p.tables[t], q.tables[t]);
    }
  }

  lemma {:induction false} GuardMet(plan: Plan, p: Prog, q: Prog, a: Addr)
    requires a in p.funcs && Met(plan, p, q, a)
    ensures a in Guard(plan, p).funcs && Met(plan, Guard(plan, p), q, a)
  {
    GuardIs(plan, p);
    hide Guard, Watched, AllKept, AllExtended;
    if !plan.skip(a) { GuardExtended(plan, p, q, p.funcs[a].body); }
  }

  lemma {:induction false} GuardExtended(plan: Plan, p: Prog, q: Prog, code: seq<Code>)
    requires AllExtended(plan, p, q, code)
    ensures AllExtended(plan, Guard(plan, p), q, code)
    decreases code, 1
  {
    hide AllExtendedI;
    if code != [] {
      GuardExtendedI(plan, p, q, code[0]);
      GuardExtended(plan, p, q, code[1..]);
    }
  }

  lemma {:induction false} GuardExtendedI(plan: Plan, p: Prog, q: Prog, c: Code)
    requires AllExtendedI(plan, p, q, c)
    ensures AllExtendedI(plan, Guard(plan, p), q, c)
    decreases c, 0
  {
    GuardIs(plan, p);
    hide Guard, Watched, AllExtended, Longer;
    if c.Block? || c.Loop? { GuardExtended(plan, p, q, c.body); }
    if c.If? {
      GuardExtended(plan, p, q, c.then_);
      GuardExtended(plan, p, q, c.else_);
    }
  }

  lemma GuardTable(plan: Plan, p: Prog, q: Prog, xs: seq<Option<Addr>>, ys: seq<Option<Addr>>)
    requires TableWrapped(plan, p, q, xs, ys)
    ensures TableWrapped(plan, Guard(plan, p), q, xs, ys)
  {
    GuardIs(plan, p);
    hide Guard, Watched, WrapperOf;
  }
  lemma OffAlike<W>(forward: bool, n: nat, all: nat, b: Out<W>)
    ensures Alike(forward, n, all, Off(false), b)
    ensures Alike<W>(forward, n, all, Off(true), Trap)
  {
    hide Rel;
  }

  lemma ExtNow(plan: Plan, p: Prog, q: Prog, s: Addr)
    requires Lengthened(plan, p, q, s)
    ensures s in p.sigs ==> plan.ext(s) in q.sigs && q.sigs[plan.ext(s)] == Longer(p.sigs[s], plan.tys)
  {
    hide Longer;
  }

  lemma SameSigs(plan: Plan, p: Prog, q: Prog, s: Addr)
    requires Instrumented(plan, p, q) && s in p.sigs
    ensures s in q.sigs && q.sigs[s] == p.sigs[s] && (plan.tys == [] ==> Longer(p.sigs[s], plan.tys) == p.sigs[s])
  {
    assert p.sigs[s].params + [] == p.sigs[s].params;
    hide Verdict, PlanOk, MarksOk, Widened, Met, TableWrapped, Unwatched, Watched;
  }

  lemma MarkLength(plan: Plan, k: nat)
    requires MarksOk(plan)
    ensures |plan.mark(k)| == |plan.tys|
  {
  }

  lemma PushNone(s: Stack)
    ensures PushAll([], s) == s
  {
  }

  lemma SitePlain(plan: Plan, d: nat, s: Addr, t: Addr, k: nat)
    ensures plan.kept(k) ==> Site(plan, d, s, t, k) == [CallIndirect(s, t, k)]
    ensures plan.tys == [] && !plan.kept(k) ==> Site(plan, d, s, t, k) == [CallIndirect(plan.ext(s), t, k)]
  {
    hide Consts;
  }

  lemma UnwatchedNow(q: Prog, s: Addr, t: Addr, k: nat, i: nat)
    requires Unwatched(q)
    ensures q.off(s, t, k, i) == None
  {
  }

  lemma WatchedNow(plan: Plan, p: Prog, q: Prog, s: Addr, t: Addr, k: nat, i: nat)
    requires Instrumented(plan, p, q)
    ensures p.off(s, t, k, i) == Verdict(plan, p, s, t, k, i) && Unwatched(q)
  {
    hide Verdict, PlanOk, MarksOk, Widened, Met, Longer, TableWrapped, Unwatched;
  }

  lemma VerdictIs(plan: Plan, p: Prog, s: Addr, t: Addr, k: nat, i: nat)
    ensures !plan.kept(k) || plan.tys == [] ==> Verdict(plan, p, s, t, k, i) == None
    ensures s !in p.sigs || t !in p.tables ==> Verdict(plan, p, s, t, k, i) == None
    ensures t in p.tables && (i >= |p.tables[t]| || p.tables[t][i].None? || p.tables[t][i].value !in p.funcs) ==>
      Verdict(plan, p, s, t, k, i) == None
    ensures plan.kept(k) && plan.tys != [] && s in p.sigs && Filled(p, t, i) ==>
      Verdict(plan, p, s, t, k, i) == Broken(plan, p.funcs[p.tables[t][i].value].sig, p.sigs[s])
  {
    hide Broken;
  }

  lemma FuelsNow(forward: bool, k: nat, m: nat)
    requires Fuels(forward, k, m)
    ensures if forward then m >= 2 * k + 1 else k >= m
  {
  }

  /** One instruction against what it is rewritten to. */
  lemma {:induction false} StepSim<W(!new)>(forward: bool, plan: Plan, p: Prog, q: Prog, env: Engine<W>, k: nat, m: nat, d: nat, c: Code,
                                      n: nat, all: nat, a: St<W>, b: St<W>)
    requires Instrumented(plan, p, q) && Fuels(forward, k, m) && Rel(n, all, a, b) && FineI(plan, p, q, d, n, all, c)
    ensures Alike(forward, n, all, RunI(p, env, k, c, a), Run(q, env, m, RewriteI(plan, d, c), b))
    decreases k, 1, c, 1
  {
    hide *;
    FuelsNow(forward, k, m);
    FineInside(plan, p, q, d, n, all, c);
    RelNow(n, all, a, b);
    RewriteOne(plan, d, c);
    StackRel(n, all, a, b, Wasm.Nil);
    var a0, b0 := a.(stack := Wasm.Nil), b.(stack := Wasm.Nil);
    if c.CallIndirect? {
      if m > 0 { DeeperSame(forward, plan, p, q, env, k, m - 1, a.w); }
      SiteSim(forward, plan, p, q, env, k, m, d, c, n, all, a, b);
    } else {
      var c' := RewriteI(plan, d, c)[0];
      RunOne(q, env, m, c', b);
      if c.Call? {
        DeeperSame(forward, plan, p, q, env, k, m, a.w);
        CallIs(p, env, k, c.f, a);
        CallIs(q, env, m, c.f, b);
        InvokeSim(forward, plan, p, q, env, k, m, c.f, n, all, a, b);
      } else if c.Block? {
        RunSim(forward, plan, p, q, env, k, m, d, c.body, n, all, a0, b0);
        BlockIs(p, env, k, c, a);
        BlockIs(q, env, m, c', b);
        LeaveSim(forward, n, all, Arity(c.ty), a.stack, Run(p, env, k, c.body, a0), Run(q, env, m, c'.body, b0));
      } else if c.If? {
        IfIs(p, env, k, c, a);
        IfIs(q, env, m, c', b);
        if a.stack.Push? {
          var arm := if Bools(a.stack.top) then c.then_ else c.else_;
          RunSim(forward, plan, p, q, env, k, m, d, arm, n, all, a0, b0);
          LeaveSim(forward, n, all, Arity(c.ty), a.stack.below, Run(p, env, k, arm, a0), Run(q, env, m, Rewrite(plan, d, arm), b0));
        } else {
          BadAlike(forward, n, all, RunI(q, env, m, c', b));
        }
      } else if c.Loop? {
        LoopSim(forward, plan, p, q, env, k, m, d, c, n, all, a, b);
      } else {
        SimpleSim(forward, p, q, env, k, m, c, n, all, a, b);
      }
    }
  }

  lemma JumpAlike<W>(forward: bool, n: nat, all: nat, a: Out<W>, b: Out<W>)
    requires Alike(forward, n, all, a, b)
    ensures a.Jump? ==> (b.Jump? && b.l == a.l && Rel(n, all, a.s, b.s)) || (!forward && b.Spin?)
    ensures b.Jump? && !a.Jump? ==> a.Bad? || (forward && a.Spin?) || a == Off(false)
  {
    hide Rel;
  }

  lemma LeaveStops<W>(r: nat, below: Stack, o: Out<W>)
    ensures o.Bad? || o.Spin? || o.Off? ==> Leave(r, below, o) == o
  {
  }

  lemma {:induction false} LoopSim<W(!new)>(forward: bool, plan: Plan, p: Prog, q: Prog, env: Engine<W>, k: nat, m: nat, d: nat, c: Code,
                                      n: nat, all: nat, a: St<W>, b: St<W>)
    requires Instrumented(plan, p, q) && Fuels(forward, k, m) && Rel(n, all, a, b) && FineI(plan, p, q, d, n, all, c) && c.Loop?
    ensures Alike(forward, n, all, RunI(p, env, k, c, a), RunI(q, env, m, Loop(c.ty, Rewrite(plan, d, c.body)), b))
    decreases k, 1, c, 0
  {
    hide *;
    FuelsNow(forward, k, m);
    FineInside(plan, p, q, d, n, all, c);
    RelNow(n, all, a, b);
    StackRel(n, all, a, b, Wasm.Nil);
    var a0, b0 := a.(stack := Wasm.Nil), b.(stack := Wasm.Nil);
    var c' := Loop(c.ty, Rewrite(plan, d, c.body));
    RunSim(forward, plan, p, q, env, k, m, d, c.body, n, all, a0, b0);
    LoopIs(p, env, k, c, a);
    LoopIs(q, env, m, c', b);
    var o, r := Run(p, env, k, c.body, a0), Run(q, env, m, c'.body, b0);
    JumpAlike(forward, n, all, o, r);
    LeaveStops(Arity(c.ty), a.stack, o);
    LeaveStops(Arity(c.ty), a.stack, r);
    if o.Jump? && o.l == 0 && r.Jump? {
      if k > 0 && m > 0 {
        FuelsIf(forward, k - 1, m - 1);
        StackRel(n, all, o.s, r.s, a.stack);
        RewriteOne(plan, d, c);
        StepSim(forward, plan, p, q, env, k - 1, m - 1, d, c, n, all, o.s.(stack := a.stack), r.s.(stack := a.stack));
        RunOne(q, env, m - 1, c', r.s.(stack := a.stack));
      } else {
        EitherAlike(forward, n, all, RunI(p, env, k, c, a), RunI(q, env, m, c', b));
      }
    } else if r.Jump? && r.l == 0 {
      EitherAlike(forward, n, all, RunI(p, env, k, c, a), RunI(q, env, m, c', b));
    } else if o.Jump? && o.l == 0 {
      EitherAlike(forward, n, all, RunI(p, env, k, c, a), RunI(q, env, m, c', b));
    } else {
      LeaveSim(forward, n, all, Arity(c.ty), a.stack, o, r);
    }
  }

  // ----- the theorem -----

  /**
   * Every function of the rewritten program, called as before, returns the same results in the same
   * world, traps, or ends the program exactly as it did: forward for every terminating run of the
   * original, backward for every terminating run of the rewritten program.  A run of the original that
   * is stopped at a call site left as it is, where it would have called, ends in a trap.
   */
  lemma {:induction false} WrappingPreserves<W(!new)>(plan: Plan, p: Prog, q: Prog, env: Engine<W>, k: nat, f: Addr, args: Stack, w: W)
    requires Instrumented(plan, p, q) && f in p.funcs && Wasm.Size(args) == |p.funcs[f].sig.params|
    ensures f in q.funcs
    ensures var o := Function(p, env, k, f, args, w);
      !o.Wrong? && !o.Spins? && !o.Offs? ==> Function(q, env, 2 * k, f, args, w) == o
    ensures var o, r := Function(p, env, k, f, args, w), Function(q, env, k, f, args, w);
      !o.Wrong? && !r.Spins? && !o.Offs? ==> r == o
    ensures Function(p, env, k, f, args, w) == Offs(true) ==> Function(q, env, 2 * k, f, args, w).Traps?
  {
    hide *;
    FunctionSim(true, plan, p, q, env, k, 2 * k, f, args, w);
    FunctionSim(false, plan, p, q, env, k, k, f, args, w);
    SameNow(true, p, q, env, k, 2 * k, f, args, w);
    SameNow(false, p, q, env, k, k, f, args, w);
  }

  lemma SameNow<W>(forward: bool, p: Prog, q: Prog, env: Engine<W>, k: nat, m: nat, f: Addr, args: Stack, w: W)
    requires f in p.funcs && FunctionsSame(forward, p, q, env, k, m, f, args, w)
    ensures f in q.funcs
    ensures var o, r := Function(p, env, k, f, args, w), Function(q, env, m, f, args, w);
      !o.Wrong? && !(if forward then o.Spins? else r.Spins?) ==> if o.Offs? then o.note ==> r.Traps? else r == o
  {
    hide Function;
  }
}
