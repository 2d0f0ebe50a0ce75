/** Whole programs under the tracer: any code of any function, with its calls. */
module TracerSim {
  import opened Bytes
  import opened Wasm
  import opened Flat
  import opened Ladder
  import opened Tracer
  import opened TracerSteps
  import opened TracerProof
  import opened TracerCalls

  lemma AgainSim(
      g: Progs, c: Ctx, labels: seq<nat>, bt: BlockType, pc: int, o: State, i: State, s: State, t: State, src: int)
    requires Pc(pc) && bt.params <= Size(o.stack) && i.stack == o.stack && bt.params <= Size(s.stack)
    requires Related(g, c, [pc] + labels, Jump(0, s, src), Jump(0, t, src))
    ensures t.stack == s.stack && Sim(g, c, Again(bt, o, s, src, pc), Again(bt, i, t, src, pc))
  {
    ToldOne(g.funcs, s.log, Event(s.fn, src, pc, Within));
    hide Logged, ToldAll;
    assert ([pc] + labels)[0] == pc;
  }

  lemma {:induction false} JumpOutSim(g: Progs, c: Ctx, labels: seq<nat>, x: nat, l: nat, s: State, src: int, oi: Outcome)
    requires l > 0 && Related(g, c, [x] + labels, Jump(l, s, src), oi)
    ensures Related(g, c, labels, Jump(l - 1, s, src), Jump(l - 1, oi.st, src)) && oi == Jump(l, oi.st, src)
  {
    hide Logged, ToldAll;
    LabelsOut(l, x, labels);
  }

  lemma {:induction false} LeaveNextSim(g: Progs, c: Ctx, r: nat, below: Stack, end: int, labels: seq<nat>, x: nat, s: State, oi: Outcome)
    requires Related(g, c, [x] + labels, Next(s), oi)
    ensures Related(g, c, labels, Leave(r, below, end, Next(s)), Leave(r, below, end, oi))
  {
    hide Logged, ToldAll;
  }

  lemma LeaveLeaving(g: Progs, c: Ctx, r: nat, below: Stack, end: int, labels: seq<nat>, x: nat, s: State, oi: Outcome)
    requires Related(g, c, [x] + labels, Leaving(s), oi)
    ensures Related(g, c, labels, Leave(r, below, end, Leaving(s)), Leave(r, below, end, oi)) && oi.Leaving?
  {
    hide Logged, ToldAll;
  }

  lemma NextBoth(g: Progs, c: Ctx, labels: seq<nat>, s: State, oi: Outcome)
    requires Related(g, c, labels, Next(s), oi)
    ensures oi.Next? && Sim(g, c, s, oi.st)
  {
    hide Sim;
  }

  lemma JumpBoth(g: Progs, c: Ctx, labels: seq<nat>, l: nat, s: State, src: int, oi: Outcome)
    requires Related(g, c, labels, Jump(l, s, src), oi)
    ensures oi.Jump? && oi == Jump(l, oi.st, src)
  {
    hide Agree, Ready;
  }

  lemma Silent(g: Progs, c: Ctx, labels: seq<nat>, oo: Outcome, oi: Outcome)
    requires !Ends(oo)
    ensures Related(g, c, labels, oo, oi)
  {
  }

  lemma SimStacks(g: Progs, c: Ctx, o: State, i: State)
    requires Sim(g, c, o, i)
    ensures i.stack == o.stack
  {
  }

  // ----- code -----

  lemma TracedHead(c: Ctx, labels: seq<nat>, code: seq<Instr>, end: int)
    requires code != [] && Traceable(c, code, |labels|) && Pc(end)
    ensures TraceableI(c, code[0], |labels|) && Traceable(c, code[1..], |labels|) && Pc(PcAt(code[1..], end))
    ensures Traced(c, labels, code, end)
         == TracedI(c, labels, code[0], PcAt(code[1..], end)) + Traced(c, labels, code[1..], end)
  {
    PcAtOk(c, code[1..], |labels|, end);
    hide TraceableI, TracedI;
  }

  lemma NothingTraced(g: Progs, m: nat, c: Ctx, labels: seq<nat>, end: int, end2: int, o: State, i: State)
    requires Pc(end) && Sim(g, c, o, i)
    ensures Exec(m, Traced(c, labels, [], end), end2, i) == Next(i) && Related(g, c, labels, Next(o), Next(i))
  {
    hide Sim;
  }

  lemma FitsLess(g: Progs, a: Outcome, b: Outcome)
    requires Fits(g, b) && Ends(b) && a.Next? && LogSize(b, |a.st.log|) >= |a.st.log|
    ensures Fits(g, a)
  {
  }

  lemma {:induction false} SimExec(
      g: Progs, k: nat, m: nat, c: Ctx, labels: seq<nat>, code: seq<Instr>, end: int, end2: int, o: State, i: State)
    requires TracedProgram(g) && m >= 2 * k
    requires ValidCtx(c) && Traceable(c, code, |labels|) && Pc(end) && Labels(labels) && Sim(g, c, o, i)
    requires Fits(g, Exec(k, code, end, o))
    ensures Related(g, c, labels, Exec(k, code, end, o), Exec(m, Traced(c, labels, code, end), end2, i))
    decreases k, code, 2
  {
    hide *;
    if !Ends(Exec(k, code, end, o)) {
      Silent(g, c, labels, Exec(k, code, end, o), Exec(m, Traced(c, labels, code, end), end2, i));
    } else if code == [] {
      ExecNone(k, end, o);
      NothingTraced(g, m, c, labels, end, end2, o, i);
    } else {
      var next := PcAt(code[1..], end);
      TracedHead(c, labels, code, end);
      var head, tail := TracedI(c, labels, code[0], next), Traced(c, labels, code[1..], end);
      var oo, next2 := ExecI(k, code[0], next, o), PcAt(tail, end2);
      ExecHead(k, code, end, o);
      if oo.Next? {
        ExecLog(k, code[1..], end, oo.st);
        FitsLess(g, oo, Exec(k, code, end, o));
      }
      SimExecI(g, k, m, c, labels, code[0], next, next2, o, i);
      ExecAppend(m, head, tail, end2, i);
      var oi := Exec(m, head, next2, i);
      if oo.Next? {
        NextBoth(g, c, labels, oo.st, oi);
        SimExec(g, k, m, c, labels, code[1..], end, end2, oo.st, oi.st);
      } else {
        EndsBoth(g, c, labels, oo, oi);
      }
    }
  }

  lemma EndsBoth(g: Progs, c: Ctx, labels: seq<nat>, oo: Outcome, oi: Outcome)
    requires Related(g, c, labels, oo, oi) && Ends(oo) && !oo.Next?
    ensures !oi.Next?
  {
    hide Sim, Agree, Ready;
  }

  lemma TracedIIs(c: Ctx, labels: seq<nat>, x: Instr, next: int)
    requires TraceableI(c, x, |labels|) && Pc(next)
    ensures Pc(x.pc) && !x.Call?
    ensures x.Do? ==> TracedPlain(c, x.p, |labels|) && TracedI(c, labels, x, next) == Inserted(c, labels, x.p, x.pc, next) + [x]
    ensures x.Block? || x.Loop? ==> Pc(x.end) && Traceable(c, x.body, |labels| + 1)
    ensures x.Block? ==> TracedI(c, labels, x, next) == [Block(x.bt, Traced(c, [x.end] + labels, x.body, x.end), x.pc, x.end)]
    ensures x.Loop? ==> TracedI(c, labels, x, next) == [Loop(x.bt, Traced(c, [x.pc] + labels, x.body, x.end), x.pc, x.end)]
    ensures x.CallTable? ==> TracedI(c, labels, x, next) == Lift(SiteOps(c, x.pc)) + [CallTable(Longer(x.ty), x.pc)]
    ensures x.CallFn? || x.ReturnOp? ==> TracedI(c, labels, x, next) == [x]
  {
    hide Inserted, Traced, Lift, SiteOps, TracedPlain;
  }

  lemma LeavingBoth(g: Progs, c: Ctx, labels: seq<nat>, o: State, i: State)
    requires Sim(g, c, o, i)
    ensures Related(g, c, labels, Leaving(o), Leaving(i))
  {
    hide Sim;
  }

  lemma {:induction false} SimExecI(
      g: Progs, k: nat, m: nat, c: Ctx, labels: seq<nat>, x: Instr, next: int, end2: int, o: State, i: State)
    requires TracedProgram(g) && m >= 2 * k
    requires ValidCtx(c) && TraceableI(c, x, |labels|) && Pc(next) && Labels(labels) && Sim(g, c, o, i)
    requires Fits(g, ExecI(k, x, next, o))
    ensures Related(g, c, labels, ExecI(k, x, next, o), Exec(m, TracedI(c, labels, x, next), end2, i))
    decreases k, x, 1
  {
    hide *;
    TracedIIs(c, labels, x, next);
    SimStacks(g, c, o, i);
    if !Ends(ExecI(k, x, next, o)) {
      Silent(g, c, labels, ExecI(k, x, next, o), Exec(m, TracedI(c, labels, x, next), end2, i));
    } else if x.Do? {
      DoIs(k, x, next, o);
      PlainSim(m, g, c, labels, x.p, x.pc, next, end2, o, i);
    } else if x.CallTable? {
      CallTableSim(g, k, m, c, labels, x, next, end2, o, i);
    } else {
      var x2 := TracedI(c, labels, x, next)[0];
      ExecOne(m, x2, end2, i);
      if x.Block? {
        BlockSim(g, k, m, c, labels, x, next, end2, o, i);
      } else if x.Loop? {
        LoopSim(g, k, m, c, labels, x, next, end2, o, i);
      } else if x.ReturnOp? {
        DoIs(k, x, next, o);
        DoIs(m, x, end2, i);
        LeavingBoth(g, c, labels, o, i);
      } else {
        CallFnSim(g, k, m, c, labels, x, next, end2, o, i);
      }
    }
  }

  lemma LabelsMore(labels: seq<nat>, l: nat)
    requires Labels(labels) && Pc(l)
    ensures Labels([l] + labels)
  {
  }

  lemma NotInvalid(o: Outcome)
    requires Ends(o)
    ensures o != Invalid
  {
  }

  lemma {:induction false} BlockSim(
      g: Progs, k: nat, m: nat, c: Ctx, labels: seq<nat>, x: Instr, next: int, next2: int, o: State, i: State)
    requires TracedProgram(g) && m >= 2 * k && x.Block? && i.stack == o.stack
    requires ValidCtx(c) && TraceableI(c, x, |labels|) && Pc(next) && Labels(labels) && Sim(g, c, o, i)
    requires Fits(g, ExecI(k, x, next, o)) && Ends(ExecI(k, x, next, o)) && TracedI(c, labels, x, next) != []
    ensures Related(g, c, labels, ExecI(k, x, next, o), ExecI(m, TracedI(c, labels, x, next)[0], next2, i))
    decreases k, x, 0
  {
    hide *;
    TracedIIs(c, labels, x, next);
    NotInvalid(ExecI(k, x, next, o));
    var x2 := TracedI(c, labels, x, next)[0];
    BlockIs(k, x, next, o);
    BlockIs(m, x2, next2, i);
    var o1, i1 := o.(stack := Take(o.stack, x.bt.params)), i.(stack := Take(i.stack, x.bt.params));
    var below := Under(o.stack, x.bt.params);
    var oo := Exec(k, x.body, x.end, o1);
    EnterSim(g, c, o, i, x.bt.params);
    JumpSource(k, c, x.body, |labels| + 1, x.end, o1);
    LeaveFits(g, c, x.bt.results, below, x.end, oo);
    PcNat(x.end);
    LabelsMore(labels, x.end);
    SimExec(g, k, m, c, [x.end] + labels, x.body, x.end, x.end, o1, i1);
    LeaveSim(g, c, x.bt.results, below, x.end, labels, oo, Exec(m, x2.body, x.end, i1));
  }

  lemma LoopOnIs(k: nat, x: Instr, next: int, st: State, o: Outcome)
    requires x.Loop? && x.bt.params <= Size(st.stack)
    ensures o.Jump? && o.l > 0 ==> LoopOn(k, x, next, st, o) == Jump(o.l - 1, o.st, o.src)
    ensures o.Jump? && o.l == 0 && Size(o.st.stack) < x.bt.params ==> LoopOn(k, x, next, st, o) == Invalid
    ensures o.Jump? && o.l == 0 && Size(o.st.stack) >= x.bt.params && k == 0 ==> LoopOn(k, x, next, st, o) == Spin
    ensures o.Jump? && o.l == 0 && Size(o.st.stack) >= x.bt.params && k > 0 ==>
      LoopOn(k, x, next, st, o) == ExecI(k - 1, x, next, Again(x.bt, st, o.st, o.src, x.pc))
    ensures !o.Jump? ==> LoopOn(k, x, next, st, o) == Leave(x.bt.results, Under(st.stack, x.bt.params), x.end, o)
  {
    hide ExecI, Leave, Again;
  }

  lemma {:induction false} LoopFits(g: Progs, k: nat, c: Ctx, x: Instr, next: int, labels: seq<nat>, o: State)
    requires x.Loop? && x.bt.params <= Size(o.stack) && TraceableI(c, x, |labels|)
    requires Fits(g, ExecI(k, x, next, o)) && Ends(ExecI(k, x, next, o))
    ensures var oo := Exec(k, x.body, x.end, o.(stack := Take(o.stack, x.bt.params)));
      Fits(g, oo) && Ends(oo) && (oo.Jump? && oo.l == 0 ==> x.bt.params <= Size(oo.st.stack) && k > 0)
  {
    var o1 := o.(stack := Take(o.stack, x.bt.params));
    var oo := Exec(k, x.body, x.end, o1);
    JumpSource(k, c, x.body, |labels| + 1, x.end, o1);
    LoopIs(k, x, next, o);
    LoopOnIs(k, x, next, o, oo);
    hide Exec, ExecI, TraceableI, LoopOn;
    if oo.Jump? && oo.l == 0 && x.bt.params <= Size(oo.st.stack) && k > 0 {
      ExecILog(k - 1, x, next, Again(x.bt, o, oo.st, oo.src, x.pc));
    }
  }

  lemma {:induction false} LoopSim(
      g: Progs, k: nat, m: nat, c: Ctx, labels: seq<nat>, x: Instr, next: int, next2: int, o: State, i: State)
    requires TracedProgram(g) && m >= 2 * k && x.Loop? && i.stack == o.stack
    requires ValidCtx(c) && TraceableI(c, x, |labels|) && Pc(next) && Labels(labels) && Sim(g, c, o, i)
    requires Fits(g, ExecI(k, x, next, o)) && Ends(ExecI(k, x, next, o)) && TracedI(c, labels, x, next) != []
    ensures Related(g, c, labels, ExecI(k, x, next, o), ExecI(m, TracedI(c, labels, x, next)[0], next2, i))
    decreases k, x, 0
  {
    hide *;
    TracedIIs(c, labels, x, next);
    var bt, pc := x.bt, x.pc;
    if Size(o.stack) < bt.params { LoopInvalid(k, x, next, o); }
    NotInvalid(ExecI(k, x, next, o));
    var x2 := TracedI(c, labels, x, next)[0];
    var o1, i1 := o.(stack := Take(o.stack, bt.params)), i.(stack := Take(i.stack, bt.params));
    var oo, oi := Exec(k, x.body, x.end, o1), Exec(m, x2.body, x.end, i1);
    LoopIs(k, x, next, o);
    LoopIs(m, x2, next2, i);
    LoopOnIs(k, x, next, o, oo);
    LoopOnIs(m, x2, next2, i, oi);
    EnterSim(g, c, o, i, bt.params);
    LoopFits(g, k, c, x, next, labels, o);
    PcNat(pc);
    LabelsMore(labels, pc);
    SimExec(g, k, m, c, [pc] + labels, x.body, x.end, x.end, o1, i1);
    if oo.Next? {
      NextBoth(g, c, [pc] + labels, oo.st, oi);
      LeaveNextSim(g, c, bt.results, Under(o.stack, bt.params), x.end, labels, pc, oo.st, oi);
    } else if oo.Jump? {
      JumpBoth(g, c, [pc] + labels, oo.l, oo.st, oo.src, oi);
      if oo.l > 0 {
        JumpOutSim(g, c, labels, pc, oo.l, oo.st, oo.src, oi);
      } else {
        AgainSim(g, c, labels, bt, pc, o, i, oo.st, oi.st, oo.src);
        var o2, i2 := Again(bt, o, oo.st, oo.src, pc), Again(bt, i, oi.st, oo.src, pc);
        SimExecI(g, k - 1, m - 1, c, labels, x, next, next2, o2, i2);
        ExecOne(m - 1, x2, next2, i2);
      }
    } else {
      EndsLeaving(oo);
      LeaveLeaving(g, c, bt.results, Under(o.stack, bt.params), x.end, labels, pc, oo.st, oi);
    }
  }

  lemma EndsLeaving(o: Outcome)
    requires Ends(o) && !o.Next? && !o.Jump?
    ensures o.Leaving?
  {
  }

  // ----- calls -----

  lemma StopsEnds(x: Instr, st: State)
    requires x.CallFn? || x.CallTable?
    ensures Dispatched(x, st).Stops? ==> !Ends(Dispatched(x, st).o)
  {
  }

  lemma OnlyNext(s: State, f: nat, o: Outcome)
    requires f < |s.funcs| && |s.funcs[f].ty.params| <= Size(s.stack) && Ends(LeaveFn(s, f, o))
    ensures LeaveFn(s, f, o).Next?
  {
    hide Back;
  }

  lemma TracedNow(g: Progs, f: nat)
    requires TracedProgram(g) && f < |g.funcs|
    ensures f < |g.funcs| <= |g.tfuncs| && FnTraced(g, f) && g.base + 8 <= g.size <= TWO32
  {
    hide FnTraced, SlotTraced;
  }

  lemma LabelsMain(l: nat)
    requires Pc(l)
    ensures Labels([l]) && |[l]| == 1
  {
  }

  /** A function called with the same operands: the same results, and its events in the buffer. */
  lemma {:induction false} FnSim(g: Progs, k: nat, m: nat, f: nat, s: State, t: State) returns (res: Stack)
    requires TracedProgram(g) && m >= 2 * k && Entering(g, f, s, t)
    requires f < |s.funcs| && s.funcs == g.funcs && |s.funcs[f].ty.params| <= Size(s.stack)
    requires f < |t.funcs| && t.funcs == g.tfuncs && |t.funcs[f].ty.params| <= Size(t.stack)
    requires var oo := LeaveFn(s, f, Exec(k, s.funcs[f].body, s.funcs[f].end, Frame(s, f))); oo.Next? && Fits(g, oo)
    ensures var oi := LeaveFn(t, f, Exec(m, t.funcs[f].body, t.funcs[f].end, Frame(t, f)));
      oi.Next? && Done(g, f, res, s, t, LeaveFn(s, f, Exec(k, s.funcs[f].body, s.funcs[f].end, Frame(s, f))).st, oi.st)
    decreases k, g.funcs[f].body, 3
  {
    hide *;
    TracedNow(g, f);
    FnIs(g, f);
    FnCode(g, f);
    FrameSim(g, f, s, t);
    var c, main := FnCtx(g, f), MainLabel(g, f);
    var body, end := g.funcs[f].body, g.funcs[f].end;
    var oo, oi := Exec(k, body, end, Frame(s, f)), Exec(m, g.tfuncs[f].body, end, Frame(t, f));
    LabelsMain(main);
    JumpSource(k, c, body, 1, end, Frame(s, f));
    LeaveFnFits(g, s, f, oo);
    SimExec(g, k, m, c, [main], body, end, end, Frame(s, f), Frame(t, f));
    res := LeaveFnSim(g, f, s, t, oo, oi);
  }

  lemma FnCode(g: Progs, f: nat)
    requires f < |g.funcs| && TraceableFn(g.base, g.size, g.funcs[f], f)
    ensures Pc(g.funcs[f].end) && Traceable(FnCtx(g, f), g.funcs[f].body, 1)
  {
    hide Traceable;
  }

  lemma SimEntering(g: Progs, c: Ctx, f: nat, o: State, i: State)
    requires TracedProgram(g) && Sim(g, c, o, i) && f < |o.funcs| && |o.funcs[f].ty.params| <= Size(o.stack)
    ensures Entering(g, f, o, i) && o.funcs == g.funcs && i.funcs == g.tfuncs
    ensures f < |i.funcs| && i.funcs[f].ty == o.funcs[f].ty
  {
    TracedNow(g, f);
    FnIs(g, f);
    hide TracedProgram, FnTraced, Logged, ToldAll, Traced, MainTarget;
  }

  lemma CallFnGoes(x: Instr, st: State)
    requires x.CallFn?
    ensures if x.f < |st.funcs| && |st.funcs[x.f].ty.params| <= Size(st.stack)
      then Dispatched(x, st) == Goes(x.f, st) else Dispatched(x, st).Stops?
  {
  }

  lemma DoneSim(g: Progs, c: Ctx, labels: seq<nat>, f: nat, res: Stack, o: State, i: State, os: State, it: State)
    requires Sim(g, c, o, i) && Done(g, f, res, o, i, os, it)
    ensures Related(g, c, labels, Next(os), Next(it))
  {
    hide World, Logged, ToldAll, Append, Under;
  }

  lemma {:induction false} CallFnSim(
      g: Progs, k: nat, m: nat, c: Ctx, labels: seq<nat>, x: Instr, next: int, next2: int, o: State, i: State)
    requires TracedProgram(g) && m >= 2 * k && x.CallFn? && Sim(g, c, o, i) && i.stack == o.stack
    requires Fits(g, ExecI(k, x, next, o)) && Ends(ExecI(k, x, next, o))
    ensures Related(g, c, labels, ExecI(k, x, next, o), ExecI(m, x, next2, i))
    decreases k, x, 0
  {
    hide *;
    CallIs(k, x, next, o);
    CallIs(m, x, next2, i);
    StopsEnds(x, o);
    CallFnGoes(x, o);
    CallFnGoes(x, i);
    EndsSpin(ExecI(k, x, next, o));
    SimEntering(g, c, x.f, o, i);
    OnlyNext(o, x.f, Exec(k - 1, o.funcs[x.f].body, o.funcs[x.f].end, Frame(o, x.f)));
    var res := FnSim(g, k - 1, m - 1, x.f, o, i);
    DoneSim(g, c, labels, x.f, res, o, i, ExecI(k, x, next, o).st, ExecI(m, x, next2, i).st);
  }

  lemma EndsSpin(o: Outcome)
    requires Ends(o)
    ensures o != Spin
  {
  }

  // ----- indirect calls -----

  /** The place, the function there, and the state it is called in. */
  lemma TableGoes(x: Instr, st: State)
    requires x.CallTable? && Dispatched(x, st).Goes?
    ensures st.stack.Push? && st.stack.top.I32? && st.stack.top.n < |st.table|
    ensures Dispatched(x, st).f < |st.funcs| && st.funcs[Dispatched(x, st).f].ty == x.ty
    ensures var f := Dispatched(x, st).f;
      st.table[st.stack.top.n] == SomeFunc(f) && |x.ty.params| <= Size(st.stack.below)
      && Dispatched(x, st).s == st.(stack := st.stack.below, log := Arrive(st, x.pc, f, Calls))
  {
  }

  lemma TableReaches(x: Instr, st: State, k: nat, f: nat)
    requires x.CallTable? && st.stack.Push? && st.stack.top == I32(k) && k < |st.table| && st.table[k] == SomeFunc(f)
    requires f < |st.funcs| && st.funcs[f].ty == x.ty && |x.ty.params| <= Size(st.stack.below)
    ensures Dispatched(x, st) == Goes(f, st.(stack := st.stack.below, log := Arrive(st, x.pc, f, Calls)))
  {
  }

  lemma {:induction false} SiteRuns(c: Ctx, pc: nat, k: nat, rest: Stack, i: State)
    requires i.stack == Push(I32(k), rest) && |i.locals| == c.n + SCRATCH
    ensures RunAll(SiteOps(c, pc), i)
         == Next(i.(stack := Push(I32(k), Push(I64(SrcShift(c.fn, pc)), rest)), locals := i.locals[Cond(c) := I32(k)]))
  {
    hide SrcShift;
    var ops := SiteOps(c, pc);
    assert RunAll(ops, i) == Run(ops, 3, i);
    var s1 := i.(stack := rest, locals := i.locals[Cond(c) := I32(k)]);
    assert Run(ops, 1, i) == Next(s1);
    assert Run(ops, 2, i) == Next(PushVal(s1, I64(SrcShift(c.fn, pc))));
  }

  lemma CondFits(c: Ctx)
    ensures Cond(c) < c.n + SCRATCH
  {
  }

  lemma {:induction false} SiteExec(m: nat, c: Ctx, x: Instr, k: nat, rest: Stack, end2: int, i: State)
    requires x.CallTable? && x.pc >= 0 && i.stack == Push(I32(k), rest) && |i.locals| == c.n + SCRATCH
    ensures Exec(m, Lift(SiteOps(c, x.pc)) + [CallTable(Longer(x.ty), x.pc)], end2, i)
         == ExecI(m, CallTable(Longer(x.ty), x.pc), end2,
                  i.(stack := Push(I32(k), Push(I64(SrcShift(c.fn, x.pc)), rest)), locals := i.locals[Cond(c) := I32(k)]))
  {
    CondFits(c);
    hide *;
    var call := CallTable(Longer(x.ty), x.pc);
    ExecAppend(m, Lift(SiteOps(c, x.pc)), [call], end2, i);
    ExecRun(m, SiteOps(c, x.pc), PcAt([call], end2), i);
    SiteRuns(c, x.pc, k, rest, i);
    ExecOne(m, call, end2, i.(stack := Push(I32(k), Push(I64(SrcShift(c.fn, x.pc)), rest)), locals := i.locals[Cond(c) := I32(k)]));
  }

  lemma SlotNow(g: Progs, k: nat)
    requires TracedProgram(g) && k < |g.table|
    ensures k < |g.ttable| && SlotTraced(g, g.table[k], g.ttable[k])
  {
    hide FnTraced, SlotTraced;
  }

  lemma WrapperNow(g: Progs, a: Slot, b: Slot, f: nat)
    requires SlotTraced(g, a, b) && a == SomeFunc(f)
    ensures f < |g.funcs| && b.SomeFunc? && b.f < |g.tfuncs| && g.tfuncs[b.f] == WrapperFn(g.base, g.size, g.funcs[f].ty, f)
  {
    hide WrapperFn;
  }

  lemma WrapperIs(base: nat, size: nat, ty: FnType, f: nat)
    ensures var w := WrapperFn(base, size, ty, f); var c := WrapperCtx(base, size, ty);
      w.ty == Longer(ty) && |w.ty.params| == |ty.params| + 1 && w.ty.results == ty.results && w.end == NO_PC
      && w.locals == SCRATCH_LOCALS && |SCRATCH_LOCALS| == SCRATCH
      && w.body == Lift(WrapperOps(c, |ty.params|, f)) + [CallFn(f, NO_PC)]
      && c.n == |ty.params| + 1 && c.base == base && c.size == size && c.fn == 0
  {
    hide WrapperOps, Lift;
  }

  /** Inside a wrapper, before it calls: the event is in the buffer, the operands are on the stack. */
  lemma {:induction false} WrapperHead(
      g: Progs, m: nat, f: nat, w: nat, e: Rec, s: State, t: State) returns (u: State)
    requires TracedProgram(g) && f < |g.funcs| && w < |g.tfuncs| && g.tfuncs[w] == WrapperFn(g.base, g.size, g.funcs[f].ty, f)
    requires World(g, s, t) && w < |t.funcs| && |t.funcs[w].ty.params| <= Size(t.stack) && e.src >= 0
    requires t.stack == Push(I64(SrcShift(e.fn, e.src)), s.stack) && Params(g, f) <= Size(s.stack)
    requires InRange(e) && e.dst == f && Room(g, |s.log|) && s.log != []
    requires Logged(g.base, g.size, t.main, ToldAll(g.funcs, s.log[..|s.log| - 1]))
    requires ToldAll(g.funcs, s.log) == ToldAll(g.funcs, s.log[..|s.log| - 1]) + [e]
    ensures Exec(m, t.funcs[w].body, NO_PC, Frame(t, w)) == ExecI(m, CallFn(f, NO_PC), NO_PC, u)
    ensures Entering(g, f, s, u) && u.stack == Take(s.stack, Params(g, f)) && World(g, s, u)
  {
    hide *;
    var n := Params(g, f);
    var c := WrapperCtx(g.base, g.size, g.funcs[f].ty);
    var recs := ToldAll(g.funcs, s.log[..|s.log| - 1]);
    ParamsIs(g, f);
    WorldFuncs(g, s, t);
    WrapperIs(g.base, g.size, g.funcs[f].ty, f);
    WrapperFrame(t, w, s.stack, n, SrcShift(e.fn, e.src));
    var fr := Frame(t, w);
    var args := Take(s.stack, n);
    ProgramSize(g);
    WrapperReady(g, c, recs, fr);
    RoomNow(g, |s.log|);
    SizesAdd(s.log);
    WrapperRuns(c, f, n, e, recs, args, fr);
    u := RunAll(WrapperOps(c, n, f), fr).st;
    ExecAppend(m, Lift(WrapperOps(c, n, f)), [CallFn(f, NO_PC)], NO_PC, fr);
    ExecRun(m, WrapperOps(c, n, f), PcAt([CallFn(f, NO_PC)], NO_PC), fr);
    ExecOne(m, CallFn(f, NO_PC), NO_PC, u);
    WorldStack(g, s, t, fr.stack, fr.locals, fr.log, fr.fn);
    WorldUntouched(g, c, s, fr, u.(stack := Nil));
    WorldStack(g, s, u.(stack := Nil), args, u.locals, u.log, u.fn);
    TakeTaken(s.stack, n);
    TracedNow(g, f);
    EnteringIf(g, f, s, u);
  }

  lemma ParamsIs(g: Progs, f: nat)
    requires f < |g.funcs|
    ensures Params(g, f) == |g.funcs[f].ty.params|
  {
  }

  lemma SizesAdd(log: seq<Event>)
    requires log != []
    ensures |log[..|log| - 1]| + 1 == |log|
  {
  }

  lemma RoomNow(g: Progs, n: nat)
    requires Room(g, n)
    ensures g.base + 8 + ENTRY * n <= g.size
  {
  }

  lemma ProgramSize(g: Progs)
    requires TracedProgram(g)
    ensures g.base + 8 <= g.size <= TWO32
  {
    hide FnTraced, SlotTraced;
  }

  lemma WrapperReady(g: Progs, c: Ctx, recs: seq<Rec>, st: State)
    requires g.base + 8 <= g.size <= TWO32 && c.base == g.base && c.size == g.size && c.fn == 0
    requires |st.locals| == c.n + SCRATCH && Logged(g.base, g.size, st.main, recs)
    ensures Ready(c, recs, st)
  {
    hide Logged;
  }

  lemma TakeTaken(s: Stack, n: nat)
    requires n <= Size(s)
    ensures Size(Take(s, n)) == n && Take(Take(s, n), n) == Take(s, n)
  {
    TakeAll(Take(s, n));
  }

  lemma EnteringIf(g: Progs, f: nat, s: State, t: State)
    requires f < |g.funcs| <= |g.tfuncs| && FnTraced(g, f) && World(g, s, t) && g.base + 8 <= g.size <= TWO32
    requires Params(g, f) <= Size(s.stack) && Params(g, f) <= Size(t.stack)
    requires Take(s.stack, Params(g, f)) == Take(t.stack, Params(g, f))
    requires Logged(g.base, g.size, t.main, ToldAll(g.funcs, s.log))
    ensures Entering(g, f, s, t)
  {
    hide FnTraced, World, Logged, ToldAll, Take;
  }

  lemma WrapperFrame(t: State, w: nat, rest: Stack, n: nat, shift: nat)
    requires w < |t.funcs| && |t.funcs[w].ty.params| == n + 1 <= Size(t.stack) && t.stack == Push(I64(shift), rest)
    requires |t.funcs[w].locals| == SCRATCH && n <= Size(rest)
    ensures var fr := Frame(t, w);
      fr == t.(stack := Nil, locals := fr.locals, fn := w) && |fr.locals| == n + 1 + SCRATCH
      && fr.locals[..n] == Args(Take(rest, n)) && fr.locals[n] == I64(shift) && fr.stack == Nil
  {
    ArgsSize(Take(rest, n));
    var args := Args(Take(rest, n));
    assert Take(t.stack, n + 1) == Push(I64(shift), Take(rest, n));
    assert Args(Push(I64(shift), Take(rest, n))) == args + [I64(shift)];
    var all := args + [I64(shift)] + t.funcs[w].locals;
    assert all[..n] == args && all[n] == I64(shift);
    hide Args, Take, Size;
  }

  /** What the wrapper hands back to the caller of the indirect call. */
  lemma WrapperLeaves(g: Progs, f: nat, w: nat, res: Stack, s: State, t: State, u: State, os: State, v: State, it: State)
    requires f < |g.funcs| && w < |t.funcs| && t.funcs[w].ty == Longer(g.funcs[f].ty) && |t.funcs[w].ty.params| <= Size(t.stack)
    requires t.stack.Push? && t.stack.below == s.stack && Params(g, f) <= Size(s.stack) && Size(u.stack) == Params(g, f)
    requires Done(g, f, res, s, u, os, v)
    ensures LeaveFn(t, w, Next(v)).Next? && Done(g, f, res, s, t.(stack := s.stack), os, LeaveFn(t, w, Next(v)).st)
  {
    hide Logged, ToldAll, World;
    TakeAll(u.stack);
    AppendNil(res);
    assert Under(t.stack, |t.funcs[w].ty.params|) == Under(s.stack, Params(g, f));
    var v' := LeaveFn(t, w, Next(v)).st;
    WorldStack(g, os, v, v'.stack, v'.locals, v'.log, v'.fn);
    hide Append, Under, Take, Size;
  }

  lemma CallRec(g: Progs, c: Ctx, f: nat, pc: int, o: State)
    requires TracedProgram(g) && f < |g.funcs| && o.fn == c.fn && ValidCtx(c) && Pc(pc)
    ensures var log := Arrive(o, pc, f, Calls); var e := Rec(c.fn, pc, f);
      log != [] && log[..|log| - 1] == o.log && ToldAll(g.funcs, log) == ToldAll(g.funcs, o.log) + [e] && InRange(e)
  {
    ToldOne(g.funcs, o.log, Event(o.fn, pc, f, Calls));
    TracedNow(g, f);
    FnIs(g, f);
    IndexFits(g, f);
    hide ToldAll, TracedProgram, FnTraced;
  }

  lemma IndexFits(g: Progs, f: nat)
    requires f < |g.funcs| && TraceableFn(g.base, g.size, g.funcs[f], f)
    ensures f < 65536
  {
  }

  lemma SimParts(g: Progs, c: Ctx, o: State, i: State)
    requires Sim(g, c, o, i)
    ensures World(g, o, i) && i.stack == o.stack && o.fn == c.fn == i.fn && |i.locals| == c.n + SCRATCH
    ensures Logged(g.base, g.size, i.main, ToldAll(g.funcs, o.log)) && ValidCtx(c)
  {
    hide World, Logged, ToldAll;
  }

  lemma {:induction false} CallTableSim(
      g: Progs, k: nat, m: nat, c: Ctx, labels: seq<nat>, x: Instr, next: int, end2: int, o: State, i: State)
    requires TracedProgram(g) && m >= 2 * k && x.CallTable? && Sim(g, c, o, i) && Pc(x.pc) && ValidCtx(c)
    requires Fits(g, ExecI(k, x, next, o)) && Ends(ExecI(k, x, next, o))
    requires TraceableI(c, x, |labels|) && Pc(next)
    ensures Related(g, c, labels, ExecI(k, x, next, o), Exec(m, TracedI(c, labels, x, next), end2, i))
    decreases k, x, 0
  {
    hide *;
    TracedIIs(c, labels, x, next);
    CallIs(k, x, next, o);
    StopsEnds(x, o);
    EndsSpin(ExecI(k, x, next, o));
    TableGoes(x, o);
    SimParts(g, c, o, i);
    WorldFuncs(g, o, i);
    var place, rest, f := o.stack.top.n, o.stack.below, Dispatched(x, o).f;
    var s := Dispatched(x, o).s;
    SlotNow(g, place);
    WrapperNow(g, g.table[place], g.ttable[place], f);
    var w := g.ttable[place].f;
    WrapperIs(g.base, g.size, g.funcs[f].ty, f);
    PcNat(x.pc);
    CondFits(c);
    SiteExec(m, c, x, place, rest, end2, i);
    var shift := SrcShift(c.fn, x.pc);
    var i1 := i.(stack := Push(I32(place), Push(I64(shift), rest)), locals := i.locals[Cond(c) := I32(place)]);
    var call := CallTable(Longer(x.ty), x.pc);
    SizePush(I64(shift), rest);
    TableReaches(call, i1, place, w);
    CallIs(m, call, end2, i1);
    var t := i1.(stack := Push(I64(shift), rest), log := Arrive(i1, x.pc, w, Calls));
    WorldLog(g, o, i, rest, t.locals, s.log, t);
    CallRec(g, c, f, x.pc, o);
    OnlyNext(s, f, Exec(k - 1, s.funcs[f].body, s.funcs[f].end, Frame(s, f)));
    RoomBefore(g, k - 1, s, f);
    ParamsIs(g, f);
    var u := WrapperHead(g, m - 1, f, w, Rec(c.fn, x.pc, f), s, t);
    WorldFuncs(g, s, u);
    CallIs(m - 1, CallFn(f, NO_PC), NO_PC, u);
    TracedNow(g, f);
    FnIs(g, f);
    TakeTaken(rest, Params(g, f));
    CallFnGoes(CallFn(f, NO_PC), u);
    var res := FnSim(g, k - 1, m - 2, f, s, u);
    var v := ExecI(m - 1, CallFn(f, NO_PC), NO_PC, u).st;
    WrapperLeaves(g, f, w, res, s, t, u, ExecI(k, x, next, o).st, v, v);
    SiteDone(g, c, labels, f, res, o, i, s, t, ExecI(k, x, next, o).st, LeaveFn(t, w, Next(v)).st, I32(place));
  }

  lemma PcNat(x: int)
    requires Pc(x)
    ensures x >= 0
  {
  }

  lemma SizePush(v: Val, s: Stack)
    ensures Size(Push(v, s)) == 1 + Size(s)
  {
  }

  lemma WorldLog(g: Progs, o: State, i: State, rest: Stack, locals: seq<Val>, log: seq<Event>, t: State)
    requires World(g, o, i) && t == i.(stack := t.stack, locals := locals, log := t.log)
    ensures World(g, o.(stack := rest, log := log), t)
  {
  }

  /** The events of a call fit, so those before it do. */
  lemma {:induction false} RoomBefore(g: Progs, k: nat, s: State, f: nat)
    requires f < |s.funcs| && |s.funcs[f].ty.params| <= Size(s.stack)
    requires var oo := LeaveFn(s, f, Exec(k, s.funcs[f].body, s.funcs[f].end, Frame(s, f))); oo.Next? && Fits(g, oo)
    ensures Room(g, |s.log|)
  {
    var o := Exec(k, s.funcs[f].body, s.funcs[f].end, Frame(s, f));
    ExecLog(k, s.funcs[f].body, s.funcs[f].end, Frame(s, f));
    LeaveFnLog(s, f, o, |s.log|);
    hide Exec, LeaveFn;
  }

  lemma SiteDone(g: Progs, c: Ctx, labels: seq<nat>, f: nat, res: Stack, o: State, i: State, s: State, t: State, os: State, it: State, v: Val)
    requires Sim(g, c, o, i) && o.stack.Push? && s.stack == o.stack.below && Cond(c) < |i.locals| && s == o.(stack := s.stack, log := s.log)
    requires t == i.(stack := t.stack, locals := i.locals[Cond(c) := v], log := t.log)
    requires Done(g, f, res, s, t.(stack := s.stack), os, it)
    ensures Related(g, c, labels, Next(os), Next(it))
  {
    assert i.locals[Cond(c) := v][..c.n] == i.locals[..c.n];
    hide World, Logged, ToldAll, Append, Under;
  }

  // ----- the theorem -----

  /**
   * Tracing preserves programs.  Whenever a call of a function of the original program returns, the
   * same call of the traced program returns the same values with the same memory and globals, and the
   * buffer holds one word for each branch and indirect call made, by whatever function, in order.
   */
  lemma {:induction false} TracedCall(g: Progs, k: nat, f: nat, o: State, i: State)
    requires TracedProgram(g) && f < |g.funcs| && Entering(g, f, o, i) && i.stack == o.stack
    requires ExecI(k, CallFn(f, NO_PC), NO_PC, o).Next? && Fits(g, ExecI(k, CallFn(f, NO_PC), NO_PC, o))
    ensures var s, t := ExecI(k, CallFn(f, NO_PC), NO_PC, o).st, ExecI(2 * k, CallFn(f, NO_PC), NO_PC, i);
      && t.Next? && t.st.stack == s.stack && World(g, s, t.st)
      && Logged(g.base, g.size, t.st.main, ToldAll(g.funcs, s.log))
  {
    hide *;
    var x := CallFn(f, NO_PC);
    EnteringNow(g, f, o, i);
    WorldFuncs(g, o, i);
    CallIs(k, x, NO_PC, o);
    CallIs(2 * k, x, NO_PC, i);
    FnIs(g, f);
    ParamsIs(g, f);
    CallFnGoes(x, o);
    CallFnGoes(x, i);
    NextEnds(ExecI(k, x, NO_PC, o));
    EndsSpin(ExecI(k, x, NO_PC, o));
    var res := FnSim(g, k - 1, 2 * k - 1, f, o, i);
    DoneNow(g, f, res, o, i, ExecI(k, x, NO_PC, o).st, ExecI(2 * k, x, NO_PC, i).st);
  }

  lemma NextEnds(o: Outcome)
    requires o.Next?
    ensures Ends(o)
  {
  }

  lemma EnteringNow(g: Progs, f: nat, s: State, t: State)
    requires Entering(g, f, s, t)
    ensures f < |g.funcs| <= |g.tfuncs| && FnTraced(g, f) && World(g, s, t)
    ensures Params(g, f) <= Size(s.stack) && Params(g, f) <= Size(t.stack)
  {
    hide FnTraced, World, Logged, ToldAll, Take;
  }

  lemma DoneNow(g: Progs, f: nat, res: Stack, s: State, t: State, os: State, it: State)
    requires Done(g, f, res, s, t, os, it) && s.stack == t.stack
    ensures os.stack == it.stack && World(g, os, it) && Logged(g.base, g.size, it.main, ToldAll(g.funcs, os.log))
  {
    hide World, Logged, ToldAll, Append, Under;
  }
}
