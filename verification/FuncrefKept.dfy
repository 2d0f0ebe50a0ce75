/**
 * Call sites that the rewriter leaves as they are, in functions it skips, while the functions in the
 * tables are wrapped: what becomes of each of them, and of the runs that come to one.
 */
module FuncrefKept {
  import opened Bytes
  import opened CodecInst
  import opened CodecModule
  import opened ModuleRefs
  import opened IndirectCalls
  import opened FuncrefWrap
  import Wasm

  // ----- one call site -----

  /** The wrapper would be called where the function was, or both calls trap. */
  predicate Agree(plan: Plan, p: Prog, q: Prog, s: Addr, t: Addr, i: nat)
    requires s in p.sigs && t in p.tables && s in q.sigs && t in q.tables
  {
    match (Reached(p, s, t, i), Reached(q, s, t, i))
    case (None, None) => true
    case (Some(f), Some(w)) => f in p.funcs && w in q.funcs && WrapperOf(plan, q.funcs[w], p.funcs[f].sig, f)
    case _ => false
  }

  /**
   * A call site that is left as it is behaves as it did if and only if no values are passed along, the
   * place is empty or past the end, or the function there is neither of the type called nor of a type
   * that the passed values lengthen to it.
   */
  lemma {:induction false} KeptSiteIff(plan: Plan, p: Prog, q: Prog, s: Addr, t: Addr, i: nat)
    requires Instrumented(plan, p, q) && s in p.sigs && t in p.tables
    ensures s in q.sigs && t in q.tables
    ensures Agree(plan, p, q, s, t, i) <==>
      plan.tys == [] || !Filled(p, t, i) || Broken(plan, p.funcs[p.tables[t][i].value].sig, p.sigs[s]).None?
    ensures plan.tys != [] && Filled(p, t, i) ==>
      var b := Broken(plan, p.funcs[p.tables[t][i].value].sig, p.sigs[s]);
      (b == Some(true) <==> Reached(p, s, t, i).Some? && Reached(q, s, t, i).None?)
      && (b == Some(false) <==> Reached(p, s, t, i).None? && Reached(q, s, t, i).Some?)
  {
    hide *;
    SameSigs(plan, p, q, s);
    TableNow(plan, p, q, s, t, i);
    ReachedIs(p, s, t, i);
    ReachedIs(q, s, t, i);
    AgreeIs(plan, p, q, s, t, i);
    if i < |p.tables[t]| {
      SlotNow(plan, p, q, p.tables[t][i], q.tables[t][i]);
      FilledIs(p, t, i);
      FilledIs(q, t, i);
      if p.tables[t][i].Some? {
        var ft := p.funcs[p.tables[t][i].value].sig;
        WrapperSig(plan, q.funcs[q.tables[t][i].value], ft, p.tables[t][i].value);
        BrokenIs(plan, ft, p.sigs[s]);
        LongerNone(plan, ft);
      }
    } else {
      FilledIs(p, t, i);
      FilledIs(q, t, i);
    }
  }

  lemma LongerNone(plan: Plan, s: Sig)
    ensures plan.tys == [] ==> Longer(s, plan.tys) == s
  {
    assert s.params + [] == s.params;
  }

  lemma ReachedIs(p: Prog, s: Addr, t: Addr, i: nat)
    requires s in p.sigs && t in p.tables
    ensures !Filled(p, t, i) ==> Reached(p, s, t, i) == None
    ensures Filled(p, t, i) && p.funcs[p.tables[t][i].value].sig == p.sigs[s] ==> Reached(p, s, t, i) == p.tables[t][i]
    ensures Filled(p, t, i) && p.funcs[p.tables[t][i].value].sig != p.sigs[s] ==> Reached(p, s, t, i) == None
  {
  }

  lemma AgreeIs(plan: Plan, p: Prog, q: Prog, s: Addr, t: Addr, i: nat)
    requires s in p.sigs && t in p.tables && s in q.sigs && t in q.tables
    ensures var a, b := Reached(p, s, t, i), Reached(q, s, t, i);
      Agree(plan, p, q, s, t, i) <==> (a.None? && b.None?) || (a.Some? && b.Some? && a.value in p.funcs && b.value in q.funcs
                                                            && WrapperOf(plan, q.funcs[b.value], p.funcs[a.value].sig, a.value))
  {
    hide Reached, WrapperOf;
  }

  /** A call comes to what is reached. */
  lemma {:induction false} IndirectReaches<W>(p: Prog, env: Engine<W>, k: nat, s: Addr, t: Addr, i: nat, st: St<W>)
    requires s in p.sigs && t in p.tables
    requires i < |p.tables[t]| && p.tables[t][i].Some? ==> p.tables[t][i].value in p.funcs
    ensures var f := Reached(p, s, t, i);
      Indirect(p, env, k, s, t, i, st) == if f.None? then Trap else Invoke(p, env, k, f.value, st)
  {
    hide *;
    IndirectNow(p, env, k, s, t, i, st);
    ReachedIs(p, s, t, i);
    FilledIs(p, t, i);
  }

  // ----- the original, stopped at such a call site and not -----

  /** Some call site that is left as it is goes wrong in this way. */
  ghost predicate Breaks(plan: Plan, p: Prog, note: bool) {
    exists s: Addr, t: Addr, k: nat, i: nat :: Verdict(plan, p, s, t, k, i) == Some(note)
  }

  /** A run that is stopped and the run that goes on: one stopped where it used to trap goes on to trap. */
  ghost predicate Runs<W>(plan: Plan, p: Prog, a: Out<W>, b: Out<W>) {
    if a.Off? then Breaks(plan, p, a.note) && (a.note || b.Trap?) else a == b
  }

  ghost predicate Gives<W>(plan: Plan, p: Prog, a: Result<W>, b: Result<W>) {
    if a.Offs? then Breaks(plan, p, a.note) && (a.note || b.Traps?) else a == b
  }

  lemma RunsLeave<W>(plan: Plan, p: Prog, r: nat, below: Stack, a: Out<W>, b: Out<W>)
    requires Runs(plan, p, a, b)
    ensures Runs(plan, p, Leave(r, below, a), Leave(r, below, b))
  {
    hide Breaks;
  }

  lemma GivesFinish<W>(plan: Plan, p: Prog, r: nat, a: Out<W>, b: Out<W>)
    requires Runs(plan, p, a, b)
    ensures Gives(plan, p, Finish(r, a), Finish(r, b))
  {
    hide Breaks;
  }

  lemma RunsResume<W>(plan: Plan, p: Prog, below: Stack, locals: seq<Val>, a: Result<W>, b: Result<W>)
    requires Gives(plan, p, a, b)
    ensures Runs(plan, p, Resume(below, locals, a), Resume(below, locals, b))
  {
    hide Breaks;
  }

  lemma RunsStop<W>(plan: Plan, p: Prog, a: Out<W>, b: Out<W>)
    requires Runs(plan, p, a, b)
    ensures a == b || a.Off?
  {
    hide Breaks;
  }

  lemma RunsSame<W>(plan: Plan, p: Prog, a: Out<W>)
    requires !a.Off?
    ensures Runs(plan, p, a, a)
  {
    hide Breaks;
  }

  lemma RunsOff<W>(plan: Plan, p: Prog, a: Out<W>, b: Out<W>, c: Out<W>)
    requires Runs(plan, p, a, b) && a.Off? && (b.Trap? ==> c.Trap?)
    ensures Runs(plan, p, a, c)
  {
    hide Breaks;
  }

  lemma GivesSame<W>(plan: Plan, p: Prog, a: Result<W>)
    requires !a.Offs?
    ensures Gives(plan, p, a, a)
  {
    hide Breaks;
  }

  lemma OffNow(plan: Plan, p: Prog, s: Addr, t: Addr, k: nat, i: nat)
    ensures Guard(plan, p).off(s, t, k, i) == Verdict(plan, p, s, t, k, i)
  {
    hide Verdict;
  }

  lemma SimpleRuns<W>(p: Prog, q: Prog, env: Engine<W>, k: nat, c: Code, st: St<W>)
    requires Simple(c)
    ensures RunI(p, env, k, c, st) == RunI(q, env, k, c, st) && !RunI(p, env, k, c, st).Off?
  {
    hide Run, Leave;
  }

  lemma {:induction false} RunGuarded<W>(plan: Plan, p: Prog, env: Engine<W>, k: nat, code: seq<Code>, st: St<W>)
    requires Unwatched(p)
    ensures Runs(plan, p, Run(Guard(plan, p), env, k, code, st), Run(p, env, k, code, st))
    decreases k, 1, code, 2
  {
    hide *;
    var g := Guard(plan, p);
    if code == [] {
      RunEnd(g, env, k, st);
      RunEnd(p, env, k, st);
      RunsSame(plan, p, Next(st));
    } else {
      RunStep(g, env, k, code, st);
      RunStep(p, env, k, code, st);
      StepGuarded(plan, p, env, k, code[0], st);
      var o, r := RunI(g, env, k, code[0], st), RunI(p, env, k, code[0], st);
      RunsStop(plan, p, o, r);
      if o.Next? {
        RunGuarded(plan, p, env, k, code[1..], o.s);
      } else if o.Off? {
        RunsOff(plan, p, o, r, Run(p, env, k, code, st));
      } else {
        RunsSame(plan, p, o);
      }
    }
  }

  lemma {:induction false} StepGuarded<W>(plan: Plan, p: Prog, env: Engine<W>, k: nat, c: Code, st: St<W>)
    requires Unwatched(p)
    ensures Runs(plan, p, RunI(Guard(plan, p), env, k, c, st), RunI(p, env, k, c, st))
    decreases k, 1, c, 1
  {
    hide *;
    var g := Guard(plan, p);
    Kinds(c);
    var st0 := st.(stack := Wasm.Nil);
    if c.Call? {
      CallIs(g, env, k, c.f, st);
      CallIs(p, env, k, c.f, st);
      InvokeGuarded(plan, p, env, k, c.f, st);
    } else if c.CallIndirect? {
      SiteGuarded(plan, p, env, k, c, st);
    } else if c.Block? {
      BlockIs(g, env, k, c, st);
      BlockIs(p, env, k, c, st);
      RunGuarded(plan, p, env, k, c.body, st0);
      RunsLeave(plan, p, Arity(c.ty), st.stack, Run(g, env, k, c.body, st0), Run(p, env, k, c.body, st0));
    } else if c.If? {
      IfIs(g, env, k, c, st);
      IfIs(p, env, k, c, st);
      if st.stack.Push? {
        var arm := if Bools(st.stack.top) then c.then_ else c.else_;
        RunGuarded(plan, p, env, k, arm, st0);
        RunsLeave(plan, p, Arity(c.ty), st.stack.below, Run(g, env, k, arm, st0), Run(p, env, k, arm, st0));
      } else {
        RunsSame<W>(plan, p, Bad);
      }
    } else if c.Loop? {
      LoopGuarded(plan, p, env, k, c, st);
    } else {
      SimpleRuns(g, p, env, k, c, st);
      RunsSame(plan, p, RunI(p, env, k, c, st));
    }
  }

  lemma Kinds(c: Code)
    ensures Simple(c) || c.Call? || c.CallIndirect? || c.Block? || c.Loop? || c.If?
  {
  }

  lemma {:induction false} LoopGuarded<W>(plan: Plan, p: Prog, env: Engine<W>, k: nat, c: Code, st: St<W>)
    requires Unwatched(p) && c.Loop?
    ensures Runs(plan, p, RunI(Guard(plan, p), env, k, c, st), RunI(p, env, k, c, st))
    decreases k, 1, c, 0
  {
    hide *;
    var g, st0 := Guard(plan, p), st.(stack := Wasm.Nil);
    LoopIs(g, env, k, c, st);
    LoopIs(p, env, k, c, st);
    RunGuarded(plan, p, env, k, c.body, st0);
    var o, r := Run(g, env, k, c.body, st0), Run(p, env, k, c.body, st0);
    RunsStop(plan, p, o, r);
    if o.Jump? && o.l == 0 {
      if k == 0 {
        RunsSame<W>(plan, p, Spin);
      } else {
        StepGuarded(plan, p, env, k - 1, c, o.s.(stack := st.stack));
      }
    } else {
      LeaveStops(Arity(c.ty), st.stack, o);
      if o.Off? {
        TrapLeaves(Arity(c.ty), st.stack, r);
        RunsOff(plan, p, o, r, RunI(p, env, k, c, st));
      } else {
        RunsLeave(plan, p, Arity(c.ty), st.stack, o, r);
      }
    }
  }

  lemma TrapLeaves<W>(r: nat, below: Stack, o: Out<W>)
    ensures o.Trap? ==> Leave(r, below, o) == o
  {
  }

  lemma {:induction false} InvokeGuarded<W>(plan: Plan, p: Prog, env: Engine<W>, k: nat, f: Addr, st: St<W>)
    requires Unwatched(p)
    ensures Runs(plan, p, Invoke(Guard(plan, p), env, k, f, st), Invoke(p, env, k, f, st))
    decreases k, 0, 1
  {
    hide *;
    var g := Guard(plan, p);
    GuardIs(plan, p);
    InvokeIs(g, env, k, f, st);
    InvokeIs(p, env, k, f, st);
    if f in p.funcs && Wasm.Size(st.stack) >= |p.funcs[f].sig.params| {
      var n: nat := |p.funcs[f].sig.params|;
      var args := Wasm.Take(st.stack, n);
      FunctionGuarded(plan, p, env, k, f, args, st.w);
      RunsResume(plan, p, Wasm.Under(st.stack, n), st.locals, Function(g, env, k, f, args, st.w), Function(p, env, k, f, args, st.w));
    } else {
      RunsSame<W>(plan, p, Bad);
    }
  }

  lemma {:induction false} IndirectGuarded<W>(plan: Plan, p: Prog, env: Engine<W>, k: nat, s: Addr, t: Addr, i: nat, st: St<W>)
    requires Unwatched(p)
    ensures Runs(plan, p, Indirect(Guard(plan, p), env, k, s, t, i, st), Indirect(p, env, k, s, t, i, st))
    decreases k, 0, 2
  {
    hide *;
    var g := Guard(plan, p);
    GuardIs(plan, p);
    IndirectNow(g, env, k, s, t, i, st);
    IndirectNow(p, env, k, s, t, i, st);
    RunsSame<W>(plan, p, Bad);
    RunsSame<W>(plan, p, Trap);
    if s in p.sigs && t in p.tables && i < |p.tables[t]| && p.tables[t][i].Some? {
      InvokeGuarded(plan, p, env, k, p.tables[t][i].value, st);
    }
  }

  lemma {:induction false} SiteGuarded<W>(plan: Plan, p: Prog, env: Engine<W>, k: nat, c: Code, st: St<W>)
    requires Unwatched(p) && c.CallIndirect?
    ensures Runs(plan, p, RunI(Guard(plan, p), env, k, c, st), RunI(p, env, k, c, st))
    decreases k, 1, c, 0
  {
    hide *;
    var g := Guard(plan, p);
    if !st.stack.Push? {
      IndirectBad(g, env, k, c, st);
      IndirectBad(p, env, k, c, st);
      RunsSame<W>(plan, p, Bad);
    } else {
      var i := st.stack.top.n;
      IndirectIs(g, env, k, c.sig, c.table, c.site, st);
      IndirectIs(p, env, k, c.sig, c.table, c.site, st);
      OffNow(plan, p, c.sig, c.table, c.site, i);
      UnwatchedNow(p, c.sig, c.table, c.site, i);
      if Verdict(plan, p, c.sig, c.table, c.site, i).Some? {
        StoppedAt(plan, p, env, k, c.sig, c.table, c.site, i, st.(stack := st.stack.below));
      } else {
        IndirectGuarded(plan, p, env, k, c.sig, c.table, i, st.(stack := st.stack.below));
      }
    }
  }

  /** Where the wrapper would be let through, the original traps on the type. */
  lemma {:induction false} StoppedAt<W>(plan: Plan, p: Prog, env: Engine<W>, k: nat, s: Addr, t: Addr, x: nat, i: nat, st: St<W>)
    requires Verdict(plan, p, s, t, x, i).Some?
    ensures Runs(plan, p, Off(Verdict(plan, p, s, t, x, i).value), Indirect(p, env, k, s, t, i, st))
  {
    hide *;
    VerdictIs(plan, p, s, t, x, i);
    FilledIs(p, t, i);
    var ft := p.funcs[p.tables[t][i].value].sig;
    BrokenIs(plan, ft, p.sigs[s]);
    LongerDiffers(plan, ft);
    IndirectNow(p, env, k, s, t, i, st);
    RunsIf(plan, p, s, t, x, i, Indirect(p, env, k, s, t, i, st));
  }

  lemma LongerDiffers(plan: Plan, s: Sig)
    ensures plan.tys != [] ==> Longer(s, plan.tys) != s
  {
    assert |Longer(s, plan.tys).params| == |s.params| + |plan.tys|;
  }

  lemma RunsIf<W>(plan: Plan, p: Prog, s: Addr, t: Addr, x: nat, i: nat, b: Out<W>)
    requires Verdict(plan, p, s, t, x, i).Some? && (Verdict(plan, p, s, t, x, i).value || b.Trap?)
    ensures Runs(plan, p, Off(Verdict(plan, p, s, t, x, i).value), b)
  {
    hide Verdict;
  }

  lemma {:induction false} FunctionGuarded<W>(plan: Plan, p: Prog, env: Engine<W>, k: nat, f: Addr, args: Stack, w: W)
    requires Unwatched(p) && f in p.funcs
    ensures f in Guard(plan, p).funcs
    ensures Gives(plan, p, Function(Guard(plan, p), env, k, f, args, w), Function(p, env, k, f, args, w))
    decreases k, 0, 0
  {
    hide *;
    var g := Guard(plan, p);
    GuardIs(plan, p);
    FunctionIs(g, env, k, f, args, w);
    FunctionIs(p, env, k, f, args, w);
    var fn := p.funcs[f];
    if fn.imported || k == 0 {
      GivesSame(plan, p, Function(p, env, k, f, args, w));
    } else {
      var st := St(Wasm.Nil, Wasm.Args(args) + fn.init, w);
      RunGuarded(plan, p, env, k - 1, fn.body, st);
      GivesFinish(plan, p, |fn.sig.results|, Run(g, env, k - 1, fn.body, st), Run(p, env, k - 1, fn.body, st));
    }
  }

  // ----- runs -----

  /**
   * A run that comes to no call site that goes wrong ends the same in both programs.  One that comes to
   * such a site traps in the rewritten program where the original goes on to call, or traps in the
   * original where the rewritten program goes on to call.
   */
  ghost predicate AlikeUpToSites<W(!new)>(plan: Plan, p: Prog, q: Prog, env: Engine<W>, k: nat, f: Addr, args: Stack, w: W)
    requires f in p.funcs && f in q.funcs
  {
    && f in Guard(plan, p).funcs
    && var g, o := Function(Guard(plan, p), env, k, f, args, w), Function(p, env, k, f, args, w);
    && (!g.Offs? && !o.Wrong? && !o.Spins? ==> Function(q, env, 2 * k, f, args, w) == o)
    && (!g.Offs? && !o.Wrong? && !Function(q, env, k, f, args, w).Spins? ==> Function(q, env, k, f, args, w) == o)
    && (g == Offs(true) ==> Function(q, env, 2 * k, f, args, w).Traps?)
    && (g == Offs(false) ==> o.Traps?)
    && (g.Offs? ==> Breaks(plan, p, g.note))
  }

  /** The original against the rewritten program. */
  lemma {:induction false} KeptRuns<W(!new)>(plan: Plan, p: Prog, q: Prog, env: Engine<W>, k: nat, f: Addr, args: Stack, w: W)
    requires Unwatched(p) && Instrumented(plan, Guard(plan, p), q)
    requires f in p.funcs && Wasm.Size(args) == |p.funcs[f].sig.params|
    ensures f in q.funcs && AlikeUpToSites(plan, p, q, env, k, f, args, w)
  {
    hide *;
    GuardIs(plan, p);
    FunctionGuarded(plan, p, env, k, f, args, w);
    WrappingPreserves(plan, Guard(plan, p), q, env, k, f, args, w);
    GivesNow(plan, p, Function(Guard(plan, p), env, k, f, args, w), Function(p, env, k, f, args, w));
    AlikeIf(plan, p, q, env, k, f, args, w);
  }

  lemma AlikeIf<W(!new)>(plan: Plan, p: Prog, q: Prog, env: Engine<W>, k: nat, f: Addr, args: Stack, w: W)
    requires f in p.funcs && f in q.funcs && f in Guard(plan, p).funcs
    requires var g, o := Function(Guard(plan, p), env, k, f, args, w), Function(p, env, k, f, args, w);
      && (!g.Offs? && !o.Wrong? && !o.Spins? ==> Function(q, env, 2 * k, f, args, w) == o)
      && (!g.Offs? && !o.Wrong? && !Function(q, env, k, f, args, w).Spins? ==> Function(q, env, k, f, args, w) == o)
      && (g == Offs(true) ==> Function(q, env, 2 * k, f, args, w).Traps?)
      && (g == Offs(false) ==> o.Traps?)
      && (g.Offs? ==> Breaks(plan, p, g.note))
    ensures AlikeUpToSites(plan, p, q, env, k, f, args, w)
  {
    hide Function, Breaks, Guard;
  }

  lemma AlikeNow<W(!new)>(plan: Plan, p: Prog, q: Prog, env: Engine<W>, k: nat, f: Addr, args: Stack, w: W)
    requires f in p.funcs && f in q.funcs && AlikeUpToSites(plan, p, q, env, k, f, args, w)
    requires !Breaks(plan, p, true) && !Breaks(plan, p, false)
    ensures var o := Function(p, env, k, f, args, w);
      && (!o.Wrong? && !o.Spins? ==> Function(q, env, 2 * k, f, args, w) == o)
      && (!o.Wrong? && !Function(q, env, k, f, args, w).Spins? ==> Function(q, env, k, f, args, w) == o)
  {
    hide Function, Breaks, Guard;
  }

  lemma GivesNow<W>(plan: Plan, p: Prog, a: Result<W>, b: Result<W>)
    requires Gives(plan, p, a, b)
    ensures if a.Offs? then Breaks(plan, p, a.note) && (a.note || b.Traps?) else a == b
  {
    hide Breaks;
  }

  /** With every call site rewritten, or no values to pass along, both programs agree on every run. */
  lemma {:induction false} NothingBreaks<W(!new)>(plan: Plan, p: Prog, q: Prog, env: Engine<W>, k: nat, f: Addr, args: Stack, w: W)
    requires Unwatched(p) && Instrumented(plan, Guard(plan, p), q)
    requires plan.tys == [] || forall x: nat :: !plan.kept(x)
    requires f in p.funcs && Wasm.Size(args) == |p.funcs[f].sig.params|
    ensures f in q.funcs
    ensures var o := Function(p, env, k, f, args, w);
      && (!o.Wrong? && !o.Spins? ==> Function(q, env, 2 * k, f, args, w) == o)
      && (!o.Wrong? && !Function(q, env, k, f, args, w).Spins? ==> Function(q, env, k, f, args, w) == o)
  {
    hide *;
    KeptRuns(plan, p, q, env, k, f, args, w);
    NeverBreaks(plan, p, true);
    NeverBreaks(plan, p, false);
    AlikeNow(plan, p, q, env, k, f, args, w);
  }

  lemma NeverBreaks(plan: Plan, p: Prog, note: bool)
    requires plan.tys == [] || forall x: nat :: !plan.kept(x)
    ensures !Breaks(plan, p, note)
  {
    hide Broken, Filled;
  }

  // ----- two programs -----

  const NO_ARGS: Sig := Sig([], [])
  const ONE_ARG: Sig := Sig([0x7F], [])

  /** One `i32` is passed along, and the function with the call site is left as it is. */
  const ONE_VALUE: Plan :=
    Plan([0x7F], (k: nat) => [Wasm.I32(9)], (s: Addr) => s + 1, [Wasm.I32(0)], 0, (a: Addr) => true, (k: nat) => true)

  function Called(deep: bool): Sig { if deep then ONE_ARG else NO_ARGS }

  function Operands(deep: bool): seq<Val> { if deep then [Wasm.I32(5), Wasm.I32(0)] else [Wasm.I32(0)] }

  function Caller(deep: bool): Fn { Fn(NO_ARGS, [], Consts(Operands(deep)) + [CallIndirect(1, 1, 0)], false) }

  /** Function 2, without parameters, is in the table; function 1 calls it, with an operand if `deep`. */
  function Before(deep: bool): Prog {
    Prog(map[1 := Caller(deep), 2 := Fn(NO_ARGS, [], [], false)], map[1 := Called(deep)], map[1 := [Some(2)]], Never())
  }

  function After(deep: bool): Prog {
    Prog(map[1 := Caller(deep), 2 := Fn(NO_ARGS, [], [], false), 3 := Wrapper(ONE_VALUE, NO_ARGS, 2, [])],
         map[1 := Called(deep), 2 := Longer(Called(deep), [0x7F])], map[1 := [Some(3)]], Never())
  }

  lemma {:induction false} AfterIsInstrumented(deep: bool)
    ensures Unwatched(Before(deep)) && Instrumented(ONE_VALUE, Guard(ONE_VALUE, Before(deep)), After(deep))
  {
    hide *;
    var p, q := Before(deep), After(deep);
    ProgramsAre(deep);
    OneValueOk();
    CallerKept(deep);
    CalleeKept();
    forall a | a in p.funcs
      ensures a in q.funcs && q.funcs[a] == Widened(ONE_VALUE, a, p.funcs[a]) && Met(ONE_VALUE, p, q, a)
    {
      LeftAlone(p, q, a);
    }
    CalleeWrapped(deep);
    InstrumentedIf(ONE_VALUE, p, q);
  }

  lemma OneValueOk()
    ensures PlanOk(ONE_VALUE) && MarksOk(ONE_VALUE)
  {
  }

  lemma CalleeKept()
    ensures AllKept(ONE_VALUE, Fn(NO_ARGS, [], [], false).body)
  {
  }

  /** Both functions are skipped. */
  lemma LeftAlone(p: Prog, q: Prog, a: Addr)
    requires a in p.funcs && AllKept(ONE_VALUE, p.funcs[a].body)
    ensures Widened(ONE_VALUE, a, p.funcs[a]) == p.funcs[a] && Met(ONE_VALUE, p, q, a)
  {
    hide AllKept, AllExtended, Rewrite;
  }

  lemma CalleeWrapped(deep: bool)
    ensures TableWrapped(ONE_VALUE, Before(deep), After(deep), [Some(2)], [Some(3)])
  {
    hide *;
    var p, q := Before(deep), After(deep);
    ProgramsAre(deep);
    ThirdWraps(q);
    SlotIs(ONE_VALUE, p, q, 2, 3);
  }

  lemma SlotIs(plan: Plan, p: Prog, q: Prog, f: Addr, w: Addr)
    requires f in p.funcs && w in q.funcs && WrapperOf(plan, q.funcs[w], p.funcs[f].sig, f)
    ensures TableWrapped(plan, p, q, [Some(f)], [Some(w)])
  {
    hide WrapperOf;
  }

  lemma CallerKept(deep: bool)
    ensures !Caller(deep).imported && AllKept(ONE_VALUE, Caller(deep).body)
  {
    var c := CallIndirect(1, 1, 0);
    var body := Caller(deep).body;
    assert body == if deep then [Const(Wasm.I32(5)), Const(Wasm.I32(0)), c] else [Const(Wasm.I32(0)), c];
    assert body[1..] == if deep then [Const(Wasm.I32(0)), c] else [c];
    assert [Const(Wasm.I32(0)), c][1..] == [c];
    assert [c][1..] == [] && AllKept(ONE_VALUE, []);
    assert AllKeptI(ONE_VALUE, c) && AllKept(ONE_VALUE, [c]);
    assert AllKeptI(ONE_VALUE, Const(Wasm.I32(0))) && AllKeptI(ONE_VALUE, body[0]);
    assert AllKept(ONE_VALUE, [Const(Wasm.I32(0)), c]);
  }

  /** What function 1 does. */
  lemma {:induction false} CallerRuns<W>(p: Prog, deep: bool, env: Engine<W>, k: nat, w: W)
    requires 1 in p.funcs && p.funcs[1] == Caller(deep) && Unwatched(p) && k > 0
    ensures Function(p, env, k, 1, Wasm.Nil, w)
         == Finish(0, Indirect(p, env, k - 1, 1, 1, 0, St(PushAll(Called5(deep), Wasm.Nil), [], w)))
  {
    hide *;
    CallerIs(deep);
    FunctionIs(p, env, k, 1, Wasm.Nil, w);
    var st: St<W> := St(Wasm.Nil, [], w);
    var vs, c := Operands(deep), CallIndirect(1, 1, 0);
    NoFrame();
    RunCat(p, env, k - 1, Consts(vs), [c], st);
    RunConsts(p, env, k - 1, vs, st);
    var s := st.(stack := PushAll(vs, Wasm.Nil));
    RunOne(p, env, k - 1, c, s);
    OperandsPushed(deep);
    UnwatchedNow(p, 1, 1, 0, 0);
    IndirectIs(p, env, k - 1, 1, 1, 0, s);
  }

  function Called5(deep: bool): seq<Val> { if deep then [Wasm.I32(5)] else [] }

  lemma NoFrame()
    ensures Wasm.Args(Wasm.Nil) + [] == []
  {
  }

  lemma CallerIs(deep: bool)
    ensures Caller(deep) == Fn(NO_ARGS, [], Consts(Operands(deep)) + [CallIndirect(1, 1, 0)], false) && NO_ARGS == Sig([], [])
  {
    hide Consts, Operands;
  }

  lemma OperandsPushed(deep: bool)
    ensures PushAll(Operands(deep), Wasm.Nil) == Wasm.Push(Wasm.I32(0), PushAll(Called5(deep), Wasm.Nil))
  {
    assert Operands(deep)[..|Operands(deep)| - 1] == Called5(deep);
  }

  lemma {:induction false} CalleeRuns<W>(p: Prog, env: Engine<W>, k: nat, w: W)
    requires 2 in p.funcs && p.funcs[2] == Fn(NO_ARGS, [], [], false) && k > 0
    ensures Function(p, env, k, 2, Wasm.Nil, w) == Values(Wasm.Nil, w)
  {
    hide *;
    var st: St<W> := St(Wasm.Nil, [], w);
    FunctionIs(p, env, k, 2, Wasm.Nil, w);
    NoFrame();
    CallerIs(false);
    RunEnd(p, env, k - 1, st);
    FinishNone(w);
  }

  lemma FinishNone<W>(w: W)
    ensures Finish(0, Next(St(Wasm.Nil, [], w))) == Values(Wasm.Nil, w) && Finish<W>(0, Trap) == Traps
    ensures Checked(0, Values(Wasm.Nil, w)) == Values(Wasm.Nil, w)
  {
  }

  lemma ProgramsAre(deep: bool)
    ensures var p, q := Before(deep), After(deep);
      && p.funcs == map[1 := Caller(deep), 2 := Fn(NO_ARGS, [], [], false)]
      && q.funcs == map[1 := Caller(deep), 2 := Fn(NO_ARGS, [], [], false), 3 := Wrapper(ONE_VALUE, NO_ARGS, 2, [])]
      && p.sigs == map[1 := Called(deep)] && q.sigs == map[1 := Called(deep), 2 := Longer(Called(deep), [0x7F])]
      && p.tables == map[1 := [Some(2)]] && q.tables == map[1 := [Some(3)]] && Unwatched(p) && Unwatched(q)
  {
    hide Caller, Called, Wrapper, Longer;
  }

  lemma ThirdWraps(q: Prog)
    requires 3 in q.funcs && q.funcs[3] == Wrapper(ONE_VALUE, NO_ARGS, 2, [])
    ensures WrapperOf(ONE_VALUE, q.funcs[3], NO_ARGS, 2)
    ensures q.funcs[3].sig == Longer(NO_ARGS, ONE_VALUE.tys) && !q.funcs[3].imported
  {
    hide Gets, Longer;
  }

  lemma TypesAre()
    ensures Called(false) == NO_ARGS && Called(true) == ONE_ARG && NO_ARGS != ONE_ARG && Longer(NO_ARGS, [0x7F]) == ONE_ARG
    ensures |NO_ARGS.params| == |NO_ARGS.results| == 0 && |ONE_ARG.params| == 1 && ONE_VALUE.tys == [0x7F]
    ensures Called5(false) == [] && Called5(true) == [Wasm.I32(5)] && PushAll([], Wasm.Nil) == Wasm.Nil
    ensures PushAll([Wasm.I32(5)], Wasm.Nil) == Wasm.Push(Wasm.I32(5), Wasm.Nil)
    ensures Wasm.Size(Wasm.Nil) == 0 && Wasm.Size(Wasm.Push(Wasm.I32(5), Wasm.Nil)) == 1
  {
    assert [Wasm.I32(5)][..0] == [];
  }

  /** A call that worked traps once the function in the table is wrapped and the call site is not. */
  lemma {:induction false} CallNowTraps<W>(env: Engine<W>, k: nat, w: W)
    requires k >= 2
    ensures Function(Before(false), env, k, 1, Wasm.Nil, w) == Values(Wasm.Nil, w)
    ensures Function(After(false), env, k, 1, Wasm.Nil, w) == Traps
  {
    hide *;
    var p, q := Before(false), After(false);
    var st: St<W> := St(Wasm.Nil, [], w);
    ProgramsAre(false);
    TypesAre();
    ThirdWraps(q);
    CallerRuns(p, false, env, k, w);
    CallerRuns(q, false, env, k, w);
    IndirectNow(p, env, k - 1, 1, 1, 0, st);
    IndirectNow(q, env, k - 1, 1, 1, 0, st);
    InvokeAll(p, env, k - 1, 2, st);
    CalleeRuns(p, env, k - 1, w);
    FinishCall(0, [], Values(Wasm.Nil, w));
    FinishNone(w);
  }

  /** A call that trapped on its type now gets through, and its operand is taken for the value passed. */
  lemma {:induction false} TrapNowCalls<W>(env: Engine<W>, k: nat, w: W)
    requires k >= 3
    ensures Function(Before(true), env, k, 1, Wasm.Nil, w) == Traps
    ensures Function(After(true), env, k, 1, Wasm.Nil, w) == Values(Wasm.Nil, w)
  {
    hide *;
    var p, q := Before(true), After(true);
    var five := Wasm.Push(Wasm.I32(5), Wasm.Nil);
    var st: St<W> := St(five, [], w);
    ProgramsAre(true);
    TypesAre();
    ThirdWraps(q);
    CallerRuns(p, true, env, k, w);
    CallerRuns(q, true, env, k, w);
    IndirectNow(p, env, k - 1, 1, 1, 0, st);
    IndirectNow(q, env, k - 1, 1, 1, 0, st);
    InvokeAll(q, env, k - 1, 3, st);
    WrapperCalls(ONE_VALUE, q, env, k - 1, NO_ARGS, 2, 3, Wasm.Nil, [Wasm.I32(5)], w);
    CalleeRuns(q, env, k - 2, w);
    FinishCall(0, [], Values(Wasm.Nil, w));
    FinishNone(w);
  }
}
