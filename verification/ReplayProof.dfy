/** Replay functions as a whole: each call of each thread re-enacts exactly that thread's next prop. */
module ReplayProof {
  import opened Bytes
  import opened Wasm
  import opened Flat
  import opened Ladder
  import opened Replay
  import opened ReplayArms

  /** The recorded value survives the arm's last branch: nothing is returned, or nothing lies above it. */
  predicate Delivers(site: Site, p: Prop) {
    Supported(p) && (site.ret.NoRet? || Neutral(site, p))
  }

  /** With a result, it is delivered just when the arm leaves it alone on the caller's operands. */
  lemma {:induction false} DeliversIff(site: Site, p: Prop, st: State)
    ensures Delivers(site, p) <==> Supported(p) && (site.ret.Ret? ==> Size(Left(site, p, st)) == Size(st.stack) + 1)
  {
    hide Supported;
    AppendSize(Junk(site, p, st), Append(Returned(site.ret, p), st.stack));
    AppendSize(Returned(site.ret, p), st.stack);
    NeutralIff(site, p, st);
    if site.ret.Ret? { assert Size(Push(AtType(site.ret.ty, p.returnVal), Nil)) == 1; }
    hide Junk, Append, AtType, Neutral;
  }

  lemma NeutralIff(site: Site, p: Prop, st: State)
    ensures Neutral(site, p) <==> Size(Junk(site, p, st)) == 0
  {
  }

  lemma {:induction false} TakeReturned(site: Site, p: Prop, st: State)
    requires Delivers(site, p)
    ensures Arity(site.ret) <= Size(Left(site, p, st))
    ensures Take(Left(site, p, st), Arity(site.ret)) == Returned(site.ret, p)
    ensures Size(Returned(site.ret, p)) == Arity(site.ret)
  {
    if site.ret.Ret? {
      var v := AtType(site.ret.ty, p.returnVal);
      assert Append(Nil, st.stack) == st.stack;
      assert Left(site, p, st) == Push(v, st.stack);
      assert Take(Push(v, st.stack), 1) == Push(v, Nil);
    }
  }

  /** Otherwise the branch hands the caller the topmost value the call id's code left behind. */
  lemma {:induction false} TakeJunk(site: Site, p: Prop, st: State)
    requires site.ret.Ret? && !Neutral(site, p)
    ensures Junk(site, p, st).Push? && Left(site, p, st).Push?
    ensures Take(Left(site, p, st), 1) == Push(Junk(site, p, st).top, Nil)
  {
    var j := Junk(site, p, st);
    assert Left(site, p, st) == Push(j.top, Append(j.below, Append(Returned(site.ret, p), st.stack)));
  }

  lemma {:induction false} EffectFrame(site: Site, tid: nat, arm: nat, p: Prop, st: State)
    ensures var o := Effect(site, tid, arm, p, st);
      o.Next? ==> o.st == st.(main := o.st.main, host := o.st.host)
    ensures var o := Effect(site, tid, arm, p, st); !o.Jump?
  {
    var s0 := Logged(site, tid, arm, p, st);
    assert s0 == st.(host := s0.host);
    if !IncFirst(p) {
      CallEffectFrame(site, p, s0);
    }
  }

  lemma {:induction false} CallEffectFrame(site: Site, p: Prop, st: State)
    ensures var s := CallEffect(site, p, st); s == st.(main := s.main, host := s.host)
  {
  }

  /** What lies on the stack plays no part in a prop's effect. */
  lemma {:induction false} EffectStack(site: Site, tid: nat, arm: nat, p: Prop, st: State, x: Stack)
    ensures Effect(site, tid, arm, p, st.(stack := x))
         == match Effect(site, tid, arm, p, st) case Next(s) => Next(s.(stack := x)) case o => o
  {
    var s0, t := Logged(site, tid, arm, p, st), st.(stack := x);
    assert Logged(site, tid, arm, p, t) == s0.(stack := x);
    if IncFirst(p) && CounterAt(s0.main, site.syncAddr) {
      CallEffectStack(site, p, s0.(main := Bump(s0.main, site.syncAddr)), x);
    } else {
      CallEffectStack(site, p, s0, x);
      SettleStack(site, p, CallEffect(site, p, s0), x);
    }
  }

  lemma {:induction false} SettleStack(site: Site, p: Prop, st: State, x: Stack)
    ensures Settle(site, p, st.(stack := x))
         == match Settle(site, p, st) case Next(s) => Next(s.(stack := x)) case o => o
  {
  }

  // ----- one thread's switch -----

  function Dummy(ret: Ret): Stack {
    if ret.NoRet? then Nil else Push(AtType(ret.ty, DUMMY), Nil)
  }

  lemma {:induction false} TakeDummy(ret: Ret)
    ensures Size(Dummy(ret)) == Arity(ret) && Take(Dummy(ret), Arity(ret)) == Dummy(ret)
  {
    TakeAll(Dummy(ret));
  }

  /** A switch on a selector `k` that `pick` pushes jumps to label `k`, or to the default. */
  lemma {:induction false} RunSwitch(ret: Ret, pick: Plain, n: nat, k: nat, st: State)
    requires st.stack == Nil
    requires Step(pick, NO_PC, NO_PC, st.(stack := Dummy(ret))) == Next(st.(stack := Push(I32(k), Dummy(ret))))
    ensures RunAll(ReturnValue(ret, DUMMY) + [pick, BrTable(Iota(n), n)], st)
         == Jump(if k < n then k else n, st.(stack := Dummy(ret)), NO_PC)
  {
    var head, tail := ReturnValue(ret, DUMMY), [pick, BrTable(Iota(n), n)];
    RunAppend(head, tail, st);
    RunReturn(ret, DUMMY, st);
    var s1 := st.(stack := Dummy(ret));
    assert RunAll(head, st) == Next(s1);
    RunPick(pick, n, k, s1);
  }

  lemma {:induction false} RunPick(pick: Plain, n: nat, k: nat, s1: State)
    requires Step(pick, NO_PC, NO_PC, s1) == Next(s1.(stack := Push(I32(k), s1.stack)))
    ensures RunAll([pick, BrTable(Iota(n), n)], s1) == Jump(if k < n then k else n, s1, NO_PC)
  {
    var tail := [pick, BrTable(Iota(n), n)];
    var s2 := s1.(stack := Push(I32(k), s1.stack));
    RunInit(tail, s1);
    assert tail[..1] == [pick];
    RunInit([pick], s1);
    assert [pick][..0] == [] && RunAll([], s1) == Next(s1);
    assert Step(BrTable(Iota(n), n), NO_PC, NO_PC, s2) == Jump(if k < n then k else n, s1, NO_PC);
  }

  lemma {:induction false} ExecPropSwitch(fuel: nat, site: Site, g: nat, n: nat, k: nat, st: State)
    requires g < |st.globals| && st.globals[g] == I32(k) && st.stack == Nil
    ensures Exec(fuel, PropSwitch(site, g, n), NO_PC, st)
         == Jump(if k < n then k else n, st.(stack := Dummy(site.ret)), NO_PC)
  {
    hide ReturnValue, AtType, Iota;
    ExecRun(fuel, ReturnValue(site.ret, DUMMY) + [GlobalGet(g), BrTable(Iota(n), n)], NO_PC, st);
    RunSwitch(site.ret, GlobalGet(g), n, k, st);
  }

  lemma {:induction false} ExecTrap(fuel: nat, st: State)
    ensures Exec(fuel, Lift([Unreachable]), NO_PC, st) == Trap
  {
    ExecRun(fuel, [Unreachable], NO_PC, st);
    assert RunAll([Unreachable], st) == Run([Unreachable], 1, st) == Trap;
  }

  lemma {:induction false} ExecTracker(fuel: nat, g: nat, k: nat, st: State)
    requires g < |st.globals| && st.globals[g] == I32(k)
    ensures Exec(fuel, TrackerInc(g), NO_PC, st)
         == Next(st.(globals := st.globals[g := I32(Wrap32(k + 1))]))
  {
    hide *;
    var r4 := [GlobalSet(g)];
    var r3 := [I32Add] + r4;
    var r2 := [Const(I32(1))] + r3;
    TrackerIs(g);
    ExecRun(fuel, [GlobalGet(g)] + r2, NO_PC, st);
    var s1 := st.(stack := Push(I32(k), st.stack));
    StepGlobals(g, st);
    Pushed(st, I32(k));
    RunCons(GlobalGet(g), r2, st);
    var s2 := st.(stack := Push(I32(1), s1.stack));
    StepConst(I32(1), s1);
    Pushed(s1, I32(1));
    RunCons(Const(I32(1)), r3, s1);
    var s3 := st.(stack := Push(I32(Wrap32(k + 1)), st.stack));
    StepAdd(k, 1, st.stack, s2);
    RunCons(I32Add, r4, s2);
    StepGlobals(g, s3);
    RunOne(GlobalSet(g), s3);
  }

  lemma TrackerIs(g: nat)
    ensures TrackerInc(g) == Lift([GlobalGet(g)] + ([Const(I32(1))] + ([I32Add] + [GlobalSet(g)])))
  {
    assert [GlobalGet(g), I32C(1), I32Add, GlobalSet(g)] == [GlobalGet(g)] + ([Const(I32(1))] + ([I32Add] + [GlobalSet(g)]));
  }

  lemma PropArmIs(site: Site, tid: nat, props: seq<Prop>, k: nat)
    requires k < |props|
    ensures PropArm(site, tid, props, k) == PropCode(site, tid, |props| - k - 1, props[k]) + Lift([Br(|props| - k)])
  {
    hide PropCode, Lift;
  }

  lemma DeliversSupported(site: Site, p: Prop)
    requires Delivers(site, p)
    ensures Supported(p)
  {
    hide Supported;
  }

  /** An effect, then a branch to `d` with `left` on the stack. */
  function Past(o: Outcome, left: Stack, d: nat): Outcome {
    match o
    case Next(s) => Jump(d, s.(stack := left), NO_PC)
    case _ => o
  }

  lemma PastArm(o: Outcome, left: Stack, d: nat, armed: Outcome)
    requires armed == match o case Next(s) => Next(s.(stack := left)) case _ => o
    ensures Past(o, left, d) == match armed case Next(s) => Jump(d, s, NO_PC) case _ => armed
  {
  }

  lemma {:induction false} ExecAnyArm(fuel: nat, site: Site, tid: nat, arm: nat, p: Prop, d: nat, st: State)
    requires Delivers(site, p)
    ensures Exec(fuel, PropCode(site, tid, arm, p) + Lift([Br(d)]), NO_PC, st)
         == Past(Effect(site, tid, arm, p, st), Left(site, p, st), d)
  {
    hide *;
    DeliversSupported(site, p);
    var code := PropCode(site, tid, arm, p);
    ExecArm(fuel, code, d, NO_PC, st);
    ArmExec(fuel, site, tid, arm, p, NO_PC, st);
    PastArm(Effect(site, tid, arm, p, st), Left(site, p, st), d, Exec(fuel, code, NO_PC, st));
  }

  /** An arm applies its prop and branches past the other arms. */
  lemma {:induction false} ExecPropArm(fuel: nat, site: Site, tid: nat, props: seq<Prop>, k: nat, st: State)
    requires k < |props| && Delivers(site, props[k])
    ensures Exec(fuel, PropArm(site, tid, props, k), NO_PC, st)
         == Past(Effect(site, tid, |props| - k - 1, props[k], st), Left(site, props[k], st), |props| - k)
  {
    hide *;
    PropArmIs(site, tid, props, k);
    ExecAnyArm(fuel, site, tid, |props| - k - 1, props[k], |props| - k, st);
  }

  /** What one thread's switch does when `k` of its props have been replayed. */
  function UnitMeaning(site: Site, tid: nat, g: nat, props: seq<Prop>, k: nat, st: State): Outcome
    requires g < |st.globals|
  {
    if k >= |props| then Trap
    else
      match Effect(site, tid, |props| - k - 1, props[k], st)
      case Next(s) =>
        Next(s.(stack := Append(Returned(site.ret, props[k]), st.stack),
                globals := st.globals[g := I32(Wrap32(k + 1))]))
      case o => o
  }

  lemma {:induction false} UnitExhausted(fuel: nat, site: Site, tid: nat, g: nat, props: seq<Prop>, k: nat, st: State)
    requires g < |st.globals| && st.globals[g] == I32(k) && st.stack == Nil && k >= |props|
    ensures After(fuel, Arity(site.ret), PropSegs(site, tid, g, props), 0, st) == Trap
  {
    var r, n, segs := Arity(site.ret), |props|, PropSegs(site, tid, g, props);
    assert segs[0] == PropSwitch(site, g, n);
    ExecPropSwitch(fuel, site, g, n, k, st);
    TakeDummy(site.ret);
    var s1 := st.(stack := Dummy(site.ret));
    assert After(fuel, r, segs, 0, st) == Resume(fuel, r, segs, 0, Jump(n, s1, NO_PC));
    assert Resume(fuel, r, segs, 0, Jump(n, s1, NO_PC)) == After(fuel, r, segs, n + 1, s1);
    assert segs[n + 1] == Lift([Unreachable]);
    ExecTrap(fuel, s1);
    assert After(fuel, r, segs, n + 1, s1) == Resume(fuel, r, segs, n + 1, Trap);
  }

  lemma {:induction false} UnitLast(fuel: nat, site: Site, tid: nat, g: nat, props: seq<Prop>, k: nat, st: State)
    requires g < |st.globals| && st.globals[g] == I32(k) && Size(st.stack) == Arity(site.ret)
    ensures After(fuel, Arity(site.ret), PropSegs(site, tid, g, props), |props| + 2, st)
         == Next(st.(globals := st.globals[g := I32(Wrap32(k + 1))]))
  {
    var r, n, segs := Arity(site.ret), |props|, PropSegs(site, tid, g, props);
    assert segs[n + 2] == TrackerInc(g);
    ExecTracker(fuel, g, k, st);
    var s := st.(globals := st.globals[g := I32(Wrap32(k + 1))]);
    assert After(fuel, r, segs, n + 3, s) == Next(s);
  }

  lemma {:induction false} UnitArm(fuel: nat, site: Site, tid: nat, g: nat, props: seq<Prop>, k: nat, st: State)
    requires g < |st.globals| && st.globals[g] == I32(k) && k < |props| && Delivers(site, props[k])
    ensures After(fuel, Arity(site.ret), PropSegs(site, tid, g, props), k + 1, st)
         == match Effect(site, tid, |props| - k - 1, props[k], st)
            case Next(s) => Next(s.(stack := Returned(site.ret, props[k]),
                                    globals := st.globals[g := I32(Wrap32(k + 1))]))
            case o => o
  {
    hide Effect, PropArm, AtType, PropSwitch, TrackerInc;
    var r, n, segs, p := Arity(site.ret), |props|, PropSegs(site, tid, g, props), props[k];
    assert segs[k + 1] == PropArm(site, tid, props, k);
    ExecPropArm(fuel, site, tid, props, k, st);
    EffectFrame(site, tid, n - k - 1, p, st);
    var o := Effect(site, tid, n - k - 1, p, st);
    if o.Next? {
      TakeReturned(site, p, st);
      var s := o.st.(stack := Left(site, p, st));
      var s2 := o.st.(stack := Returned(site.ret, p));
      assert Resume(fuel, r, segs, k + 1, Jump(n - k, s, NO_PC)) == After(fuel, r, segs, n + 2, s2);
      UnitLast(fuel, site, tid, g, props, k, s2);
    }
  }

  /** One thread's switch, entered with its tracker at `k`, replays prop `k` and moves the tracker on. */
  lemma {:induction false} UnitExec(
      fuel: nat, site: Site, tid: nat, g: nat, props: seq<Prop>, k: nat, next: int, st: State)
    requires g < |st.globals| && st.globals[g] == I32(k)
    requires forall p <- props :: Delivers(site, p)
    ensures ExecI(fuel, ThreadUnit(site, tid, g, props), next, st) == UnitMeaning(site, tid, g, props, k, st)
  {
    hide Effect, PropArm, PropSwitch, Delivers, AtType, TrackerInc;
    var r, segs := Arity(site.ret), PropSegs(site, tid, g, props);
    var st0 := st.(stack := Nil);
    NestExec(fuel, r, segs, next, st);
    if k >= |props| {
      UnitExhausted(fuel, site, tid, g, props, k, st0);
    } else {
      ExecPropSwitch(fuel, site, g, |props|, k, st0);
      TakeDummy(site.ret);
      var s1 := st.(stack := Dummy(site.ret));
      assert Resume(fuel, r, segs, 0, Jump(k, s1, NO_PC)) == After(fuel, r, segs, k + 1, s1);
      UnitArm(fuel, site, tid, g, props, k, s1);
      EffectStack(site, tid, |props| - k - 1, props[k], st, s1.stack);
    }
  }
}
