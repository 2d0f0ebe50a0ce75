/** Calls under the tracer: frames, the end of a function, and the wrappers of indirect calls. */
module TracerCalls {
  import opened Bytes
  import opened Wasm
  import opened Flat
  import opened Ladder
  import opened Tracer
  import opened TracerSteps
  import opened TracerProof

  // ----- entering and leaving a function -----

  function Params(g: Progs, f: nat): nat
    requires f < |g.funcs|
  {
    |g.funcs[f].ty.params|
  }

  function FnCtx(g: Progs, f: nat): Ctx
    requires f < |g.funcs|
  {
    CtxOf(g.base, g.size, g.funcs[f], f)
  }

  /** Both sides hand function `f` the same operands, the events so far being in the buffer. */
  ghost predicate Entering(g: Progs, f: nat, s: State, t: State) {
    && f < |g.funcs| <= |g.tfuncs| && FnTraced(g, f) && World(g, s, t) && g.base + 8 <= g.size <= TWO32
    && Params(g, f) <= Size(s.stack) && Params(g, f) <= Size(t.stack)
    && Take(s.stack, Params(g, f)) == Take(t.stack, Params(g, f))
    && Logged(g.base, g.size, t.main, ToldAll(g.funcs, s.log))
  }

  /** What the label of function `f` itself is taken to lead to. */
  function MainLabel(g: Progs, f: nat): (m: nat)
    requires f < |g.funcs| <= |g.tfuncs| && FnTraced(g, f)
    ensures m == MainTarget(g.funcs[f].body, g.funcs[f].end)
  {
    MainTargetOk(g.base, g.size, g.funcs[f], f);
    MainTarget(g.funcs[f].body, g.funcs[f].end)
  }

  lemma FnIs(g: Progs, f: nat)
    requires f < |g.funcs| <= |g.tfuncs| && FnTraced(g, f)
    ensures TraceableFn(g.base, g.size, g.funcs[f], f) && Pc(MainLabel(g, f))
    ensures var t := g.tfuncs[f]; var o := g.funcs[f];
      t.ty == o.ty && t.end == o.end && t.locals == o.locals + SCRATCH_LOCALS
      && t.body == Traced(FnCtx(g, f), [MainLabel(g, f)], o.body, o.end)
  {
    MainTargetOk(g.base, g.size, g.funcs[f], f);
    hide Traceable, Traced, MainTarget;
  }

  lemma {:induction false} ArgsSize(s: Stack)
    ensures |Args(s)| == Size(s)
  {
    if s.Push? { ArgsSize(s.below); }
  }

  /** The first states of a function and its traced form. */
  lemma {:induction false} FrameSim(g: Progs, f: nat, s: State, t: State)
    requires Entering(g, f, s, t)
    ensures f < |s.funcs| && f < |t.funcs| && |s.funcs[f].ty.params| <= Size(s.stack) && |t.funcs[f].ty.params| <= Size(t.stack)
    ensures Sim(g, FnCtx(g, f), Frame(s, f), Frame(t, f)) && ValidCtx(FnCtx(g, f))
  {
    FnIs(g, f);
    var n := Params(g, f);
    var args := Args(Take(s.stack, n));
    ArgsSize(Take(s.stack, n));
    assert (args + (g.funcs[f].locals + SCRATCH_LOCALS))[..|args + g.funcs[f].locals|] == args + g.funcs[f].locals;
    hide Args, Take, Logged, ToldAll, FnTraced, TraceableFn, Traced, MainTarget;
  }

  /** What a function leaves: its results on both stacks, the callers otherwise as they were. */
  ghost predicate Done(g: Progs, f: nat, res: Stack, s: State, t: State, os: State, it: State) {
    && f < |g.funcs| && Params(g, f) <= Size(s.stack) && Params(g, f) <= Size(t.stack)
    && World(g, os, it) && Size(res) == |g.funcs[f].ty.results|
    && os.stack == Append(res, Under(s.stack, Params(g, f))) && os.locals == s.locals && os.fn == s.fn
    && it.stack == Append(res, Under(t.stack, Params(g, f))) && it.locals == t.locals && it.fn == t.fn
    && Logged(g.base, g.size, it.main, ToldAll(g.funcs, os.log))
  }

  lemma RelatedNow(g: Progs, c: Ctx, labels: seq<nat>, oo: Outcome, oi: Outcome)
    requires Related(g, c, labels, oo, oi) && Ends(oo)
    ensures match oo
      case Next(s) => oi.Next? && Sim(g, c, s, oi.st)
      case Leaving(s) => oi.Leaving? && Sim(g, c, s, oi.st)
      case Jump(l, s, src) => oi == Jump(l, oi.st, src) && l < |labels| && Pc(src)
        && Agree(g, c, s, oi.st) && Ready(c, ToldAll(g.funcs, s.log) + [Rec(c.fn, src, labels[l])], oi.st)
      case _ => true
  {
    hide Sim, Agree, Ready;
  }

  lemma AgreeNow(g: Progs, c: Ctx, o: State, i: State, recs: seq<Rec>)
    requires Agree(g, c, o, i) && Ready(c, recs, i)
    ensures World(g, o, i) && i.stack == o.stack && o.fn == c.fn && Logged(g.base, g.size, i.main, recs)
  {
    hide World, Logged;
  }

  /** The program data do not depend on whose stack and locals are in place. */
  lemma WorldBack(g: Progs, f: nat, s: State, t: State, o: State, i: State, res: Stack, l1: seq<Event>, l2: seq<Event>)
    requires World(g, o, i) && f < |s.funcs| && |s.funcs[f].ty.params| <= Size(s.stack)
    requires f < |t.funcs| && |t.funcs[f].ty.params| <= Size(t.stack)
    ensures World(g, Back(s, f, o, res, l1), Back(t, f, i, res, l2))
  {
    hide Append, Under, Size;
  }

  /** The ends of both functions; a branch out of the function is recorded with the main target. */
  lemma {:induction false} LeaveFnSim(g: Progs, f: nat, s: State, t: State, oo: Outcome, oi: Outcome) returns (res: Stack)
    requires Entering(g, f, s, t) && f < |s.funcs| && f < |t.funcs|
    requires |s.funcs[f].ty.params| <= Size(s.stack) && |t.funcs[f].ty.params| <= Size(t.stack)
    requires Related(g, FnCtx(g, f), [MainLabel(g, f)], oo, oi) && LeaveFn(s, f, oo).Next?
    ensures LeaveFn(t, f, oi).Next? && Done(g, f, res, s, t, LeaveFn(s, f, oo).st, LeaveFn(t, f, oi).st)
  {
    var c, main := FnCtx(g, f), MainLabel(g, f);
    FnIs(g, f);
    WorldFuncs(g, s, t);
    LeaveFnEnds(s, f, oo);
    RelatedNow(g, c, [main], oo, oi);
    var r := |g.funcs[f].ty.results|;
    hide Related, Ready, Agree, World, FnTraced, Traced, Logged, ToldAll, Append, Under, Take, Told, MainTarget;
    match oo
    case Next(o) =>
      res := o.stack;
      AgreeNow(g, c, o, oi.st, ToldAll(g.funcs, o.log));
      WorldBack(g, f, s, t, o, oi.st, res, o.log, oi.st.log);
    case Leaving(o) =>
      res := Take(o.stack, r);
      AgreeNow(g, c, o, oi.st, ToldAll(g.funcs, o.log));
      WorldBack(g, f, s, t, o, oi.st, res, o.log, oi.st.log);
    case Jump(l, o, src) =>
      res := Take(o.stack, r);
      AgreeNow(g, c, o, oi.st, ToldAll(g.funcs, o.log) + [Rec(c.fn, src, main)]);
      var end := g.funcs[f].end;
      WorldBack(g, f, s, t, o, oi.st, res, Arrive(o, src, end, Exits), Arrive(oi.st, src, end, Exits));
      ExitTold(g, f, o, src);
  }

  lemma ExitTold(g: Progs, f: nat, o: State, src: int)
    requires f < |g.funcs| && o.fn == f && src >= 0
    ensures ToldAll(g.funcs, Arrive(o, src, g.funcs[f].end, Exits))
         == ToldAll(g.funcs, o.log) + [Rec(f, src, MainTarget(g.funcs[f].body, g.funcs[f].end))]
  {
    ToldOne(g.funcs, o.log, Event(f, src, g.funcs[f].end, Exits));
    hide ToldAll, MainTarget;
  }

  lemma WorldFuncs(g: Progs, s: State, t: State)
    requires World(g, s, t)
    ensures s.funcs == g.funcs && s.table == g.table && t.funcs == g.tfuncs && t.table == g.ttable
  {
  }

  lemma LeaveFnEnds(s: State, f: nat, oo: Outcome)
    requires f < |s.funcs| && |s.funcs[f].ty.params| <= Size(s.stack) && LeaveFn(s, f, oo).Next?
    ensures Ends(oo)
  {
    hide Back;
  }

  /** What the function does fits the buffer if what its caller sees does. */
  lemma {:induction false} LeaveFnFits(g: Progs, s: State, f: nat, oo: Outcome)
    requires f < |s.funcs| && |s.funcs[f].ty.params| <= Size(s.stack) && LeaveFn(s, f, oo).Next?
    requires Fits(g, LeaveFn(s, f, oo)) && (oo.Jump? ==> oo.src >= 0)
    ensures Fits(g, oo)
  {
    hide Append, Take, Under;
  }

  // ----- a wrapper's own instructions -----

  lemma {:induction false} RunGets(n: nat, st: State)
    requires n <= |st.locals|
    ensures RunAll(GetOps(n), st) == Next(st.(stack := Gotten(st.locals[..n], st.stack)))
  {
    if n == 0 {
      assert GetOps(0) == [];
    } else {
      RunGets(n - 1, st);
      assert GetOps(n) == GetOps(n - 1) + [LocalGet(n - 1)];
      RunAppend(GetOps(n - 1), [LocalGet(n - 1)], st);
      var s := st.(stack := Gotten(st.locals[..n - 1], st.stack));
      assert RunAll([LocalGet(n - 1)], s) == Run([LocalGet(n - 1)], 1, s);
      assert st.locals[..n][..n - 1] == st.locals[..n - 1];
    }
  }

  /** Values on top of a stack, the last of them topmost. */
  function Gotten(vs: seq<Val>, s: Stack): Stack
    decreases |vs|
  {
    if vs == [] then s else Push(vs[|vs| - 1], Gotten(vs[..|vs| - 1], s))
  }

  lemma {:induction false} GottenArgs(s: Stack)
    ensures Gotten(Args(s), Nil) == s
  {
    if s.Push? {
      GottenArgs(s.below);
      assert (Args(s.below) + [s.top])[..|Args(s.below)|] == Args(s.below);
    }
  }

  /** The wrapper appends the event and has the operands on its stack again. */
  lemma {:induction false} WrapperRuns(c: Ctx, f: nat, n: nat, e: Rec, recs: seq<Rec>, args: Stack, st: State)
    requires Ready(c, recs, st) && InRange(e) && e.dst == f && c.n == n + 1 && st.stack == Nil
    requires c.base + 8 + ENTRY * (|recs| + 1) <= c.size
    requires Size(args) == n && st.locals[..n] == Args(args) && st.locals[n] == I64(SrcShift(e.fn, e.src))
    ensures var o := RunAll(WrapperOps(c, n, f), st);
      o.Next? && o.st.stack == args && Untouched(c, st, o.st.(stack := Nil)) && Logged(c.base, c.size, o.st.main, recs + [e])
  {
    var s1 := st.(stack := Push(I64(f), Nil));
    var head, rec, gets := [Const(I64(f))], RecordOps(c, LocalGet(n)), GetOps(n);
    assert RunAll(head, st) == Run(head, 1, st) == Next(s1);
    hide RecordOps, Logged, SrcShift, RunAll, GetOps, Args;
    assert Pushes(c, LocalGet(n), SrcShift(e.fn, e.src), st.locals);
    RunAppend(head + rec, gets, st);
    RunAppend(head, rec, st);
    RecordEvent(c, LocalGet(n), e, recs, Nil, s1);
    var u := RunAll(rec, s1).st;
    RunGets(n, u);
    UntouchedLocals(c, st, u, n);
    GottenArgs(args);
  }

  lemma UntouchedLocals(c: Ctx, s: State, u: State, n: nat)
    requires Untouched(c, s.(stack := Nil), u) && n <= c.n
    ensures n <= |u.locals| && u.locals[..n] == s.locals[..n]
  {
    assert u.locals[..n] == u.locals[..c.n][..n] && s.locals[..n] == s.locals[..c.n][..n];
  }

  lemma {:induction false} WorldUntouched(g: Progs, c: Ctx, o: State, i: State, u: State)
    requires World(g, o, i) && Untouched(c, i, u) && c.base == g.base
    ensures World(g, o, u)
  {
  }

  lemma WorldStack(g: Progs, o: State, i: State, stack: Stack, locals: seq<Val>, log: seq<Event>, fn: nat)
    requires World(g, o, i)
    ensures World(g, o, i.(stack := stack, locals := locals, log := log, fn := fn))
  {
  }
}
