/** Calls to a replay function, one after the other, by any threads in any order. */
module ReplayRun {
  import opened Bytes
  import opened Wasm
  import opened Flat
  import opened Ladder
  import opened Replay
  import opened ReplayArms
  import opened ReplayProof

  /** A whole generated function: a call site with its props and the first tracker global. */
  datatype Unit = Unit(site: Site, props: seq<Prop>, g0: nat, maxTid: nat, multi: bool)

  function Code(u: Unit): seq<Instr> {
    ReplayBody(u.site, u.g0, u.props, u.maxTid, u.multi)
  }

  /** The props a caller works through: its own, or all of them when there is one thread. */
  function Mine(u: Unit, t: nat): seq<Prop> {
    if u.multi then PropsOf(u.props, t) else u.props
  }

  function Lane(u: Unit, t: nat): nat {
    if u.multi then t else 0
  }

  /** A thread for which the switch has no arm. */
  predicate Outside(u: Unit, t: nat) {
    u.multi && t > u.maxTid
  }

  /** Some prop was recorded, and every prop's value reaches the caller. */
  predicate Usable(u: Unit) {
    && u.props != [] && |u.props| < TWO32
    && forall p <- u.props :: Delivers(u.site, p)
  }

  lemma {:induction false} PropsOfMember(props: seq<Prop>, t: nat)
    ensures forall p <- PropsOf(props, t) :: p in props && p.tid == t
    ensures |PropsOf(props, t)| <= |props|
    decreases |props|
  {
    if props != [] {
      var init := props[..|props| - 1];
      PropsOfMember(init, t);
      assert forall p <- init :: p in props;
    }
  }

  // ----- the switch on the thread id -----

  lemma {:induction false} ExecTidSwitch(fuel: nat, site: Site, n: nat, st: State)
    requires st.stack == Nil
    ensures Exec(fuel, TidSwitch(site, n), NO_PC, st)
         == Jump(if st.tid < n then st.tid else n, st.(stack := Dummy(site.ret)), NO_PC)
  {
    hide ReturnValue, AtType, Iota, Exec;
    ExecRun(fuel, ReturnValue(site.ret, DUMMY) + [CallHost(GetTid), BrTable(Iota(n), n)], NO_PC, st);
    var s := st.(stack := Dummy(site.ret));
    assert Step(CallHost(GetTid), NO_PC, NO_PC, s) == DoHost(GetTid, s);
    assert Under(s.stack, 0) == s.stack;
    RunSwitch(site.ret, CallHost(GetTid), n, st.tid, st);
  }

  lemma {:induction false} ExecTidArm(fuel: nat, u: Unit, t: nat, k: nat, st: State)
    requires Usable(u) && u.multi && t <= u.maxTid
    requires u.g0 + t < |st.globals| && st.globals[u.g0 + t] == I32(k)
    ensures Exec(fuel, TidArm(u.site, u.g0, u.props, u.maxTid + 1, t), NO_PC, st)
         == ThenJump(u.maxTid + 1 - t, UnitMeaning(u.site, t, u.g0 + t, Mine(u, t), k, st))
  {
    hide *;
    ArmDelivers(u, t);
    ArmIs(u, t);
    ArmRuns(fuel, u.site, t, u.g0 + t, Mine(u, t), k, u.maxTid + 1 - t, st);
  }

  lemma {:induction false} ArmRuns(fuel: nat, site: Site, t: nat, g: nat, props: seq<Prop>, k: nat, l: nat, st: State)
    requires g < |st.globals| && st.globals[g] == I32(k) && forall p <- props :: Delivers(site, p)
    ensures Exec(fuel, [ThreadUnit(site, t, g, props)] + Lift([Br(l)]), NO_PC, st)
         == ThenJump(l, UnitMeaning(site, t, g, props, k, st))
  {
    hide *;
    OneArm(fuel, ThreadUnit(site, t, g, props), l, st);
    UnitExec(fuel, site, t, g, props, k, NO_PC, st);
  }

  function ThenJump(l: nat, o: Outcome): Outcome {
    match o case Next(s) => Jump(l, s, NO_PC) case _ => o
  }

  lemma {:induction false} OneArm(fuel: nat, unit: Instr, l: nat, st: State)
    ensures Exec(fuel, [unit] + Lift([Br(l)]), NO_PC, st) == ThenJump(l, ExecI(fuel, unit, NO_PC, st))
  {
    hide Exec, ExecI, Lift;
    ExecArm(fuel, [unit], l, NO_PC, st);
    ExecOne(fuel, unit, NO_PC, st);
  }

  lemma ArmDelivers(u: Unit, t: nat)
    requires Usable(u)
    ensures forall p <- Mine(u, t) :: Delivers(u.site, p)
  {
    PropsOfMember(u.props, t);
    hide Delivers, PropsOf;
  }

  lemma ArmIs(u: Unit, t: nat)
    requires u.multi && t <= u.maxTid
    ensures TidArm(u.site, u.g0, u.props, u.maxTid + 1, t)
         == [ThreadUnit(u.site, t, u.g0 + t, Mine(u, t))] + Lift([Br(u.maxTid + 1 - t)])
  {
    hide ThreadUnit, PropsOf, Lift;
  }

  /** What a call by `st.tid` means when `k` of the caller's props have been replayed. */
  function CallMeaning(u: Unit, k: nat, st: State): Outcome {
    var ps := Mine(u, st.tid);
    if Outside(u, st.tid) || k >= |ps| then Trap
    else
      match Effect(u.site, Lane(u, st.tid), |ps| - k - 1, ps[k], st)
      case Next(s) => Next(s.(stack := Returned(u.site.ret, ps[k])))
      case o => o
  }

  /** The tracker of thread `t` is there and holds `k`. */
  predicate TrackerIs(u: Unit, t: nat, k: nat, st: State) {
    u.g0 + Lane(u, t) < |st.globals| && st.globals[u.g0 + Lane(u, t)] == I32(k)
  }

  /** The outcome with the caller's tracker moved on. */
  function Tracked(u: Unit, k: nat, st: State, o: Outcome): Outcome
    requires u.g0 + Lane(u, st.tid) < |st.globals|
  {
    match o
    case Next(s) => Next(s.(globals := st.globals[u.g0 + Lane(u, st.tid) := I32(Wrap32(k + 1))]))
    case _ => o
  }

  lemma {:induction false} MeaningTracked(u: Unit, k: nat, st: State, below: Stack)
    requires Usable(u) && TrackerIs(u, st.tid, k, st) && !Outside(u, st.tid)
    ensures UnitMeaning(u.site, Lane(u, st.tid), u.g0 + Lane(u, st.tid), Mine(u, st.tid), k, st.(stack := below))
         == match Tracked(u, k, st, CallMeaning(u, k, st))
            case Next(s) => Next(s.(stack := Append(s.stack, below)))
            case o => o
  {
    hide Effect, Returned;
    var ps := Mine(u, st.tid);
    if k < |ps| {
      EffectStack(u.site, Lane(u, st.tid), |ps| - k - 1, ps[k], st, below);
      EffectFrame(u.site, Lane(u, st.tid), |ps| - k - 1, ps[k], st);
    }
  }

  lemma {:induction false} MultiAfter(fuel: nat, u: Unit, k: nat, st: State)
    requires Usable(u) && u.multi && st.stack == Nil && st.tid <= u.maxTid && TrackerIs(u, st.tid, k, st)
    ensures After(fuel, Arity(u.site.ret), TidSegs(u.site, u.g0, u.props, u.maxTid + 1), 0, st)
         == Tracked(u, k, st, CallMeaning(u, k, st))
  {
    hide UnitMeaning, Delivers, TidArm, TidSwitch, CallMeaning, Tracked, Exec;
    var r, n, t := Arity(u.site.ret), u.maxTid + 1, st.tid;
    var segs := TidSegs(u.site, u.g0, u.props, n);
    var dummy := Dummy(u.site.ret);
    var s1 := st.(stack := dummy);
    assert segs[0] == TidSwitch(u.site, n);
    ExecTidSwitch(fuel, u.site, n, st);
    TakeDummy(u.site.ret);
    assert After(fuel, r, segs, 0, st) == Resume(fuel, r, segs, 0, Jump(t, s1, NO_PC)) == After(fuel, r, segs, t + 1, s1);
    assert segs[t + 1] == TidArm(u.site, u.g0, u.props, n, t);
    ExecTidArm(fuel, u, t, k, s1);
    MeaningTracked(u, k, st, dummy);
    LeaveArm(fuel, u, segs, k, st, dummy);
  }

  /** The arm's last branch leaves the ladder with the returned value alone. */
  lemma {:induction false} LeaveArm(fuel: nat, u: Unit, segs: seq<seq<Instr>>, k: nat, st: State, dummy: Stack)
    requires Usable(u) && u.multi && st.tid <= u.maxTid && TrackerIs(u, st.tid, k, st)
    requires |segs| == u.maxTid + 3
    ensures Resume(fuel, Arity(u.site.ret), segs, st.tid + 1,
              match Tracked(u, k, st, CallMeaning(u, k, st))
              case Next(s) => Jump(u.maxTid + 1 - st.tid, s.(stack := Append(s.stack, dummy)), NO_PC)
              case o => o)
         == Tracked(u, k, st, CallMeaning(u, k, st))
  {
    hide Effect;
    var ps := Mine(u, st.tid);
    var o := CallMeaning(u, k, st);
    if k < |ps| {
      EffectFrame(u.site, Lane(u, st.tid), |ps| - k - 1, ps[k], st);
      PropsOfMember(u.props, st.tid);
      assert ps[k] in u.props;
      TakeReturned(u.site, ps[k], st);
      TakeAppend(Returned(u.site.ret, ps[k]), dummy);
    }
  }

  lemma {:induction false} MultiOutside(fuel: nat, u: Unit, st: State)
    requires u.multi && st.stack == Nil && st.tid > u.maxTid
    ensures After(fuel, Arity(u.site.ret), TidSegs(u.site, u.g0, u.props, u.maxTid + 1), 0, st) == Trap
  {
    hide TidArm, TidSwitch, Exec;
    var r, n := Arity(u.site.ret), u.maxTid + 1;
    var segs := TidSegs(u.site, u.g0, u.props, n);
    var s1 := st.(stack := Dummy(u.site.ret));
    assert segs[0] == TidSwitch(u.site, n);
    ExecTidSwitch(fuel, u.site, n, st);
    TakeDummy(u.site.ret);
    assert After(fuel, r, segs, 0, st) == Resume(fuel, r, segs, 0, Jump(n, s1, NO_PC)) == After(fuel, r, segs, n + 1, s1);
    assert segs[n + 1] == Lift([Unreachable]);
    ExecTrap(fuel, s1);
    assert After(fuel, r, segs, n + 1, s1) == Resume(fuel, r, segs, n + 1, Trap);
  }

  /** The function's body, run on an empty stack, is one call of `CallMeaning`. */
  lemma {:induction false} BodyMeaning(fuel: nat, u: Unit, k: nat, st: State)
    requires Usable(u) && st.stack == Nil
    requires Outside(u, st.tid) || TrackerIs(u, st.tid, k, st)
    ensures Exec(fuel, Code(u), NO_PC, st)
         == if Outside(u, st.tid) then Trap else Tracked(u, k, st, CallMeaning(u, k, st))
  {
    hide CallMeaning, Tracked, TidSegs, PropSegs, UnitMeaning, Delivers;
    if u.multi {
      var nest := Nest(Arity(u.site.ret), TidSegs(u.site, u.g0, u.props, u.maxTid + 1));
      ExecOne(fuel, nest, NO_PC, st);
      NestExec(fuel, Arity(u.site.ret), TidSegs(u.site, u.g0, u.props, u.maxTid + 1), NO_PC, st);
      if st.tid > u.maxTid {
        MultiOutside(fuel, u, st);
      } else {
        MultiAfter(fuel, u, k, st);
        LowerNil(Tracked(u, k, st, CallMeaning(u, k, st)));
      }
    } else {
      ExecOne(fuel, ThreadUnit(u.site, 0, u.g0, u.props), NO_PC, st);
      UnitExec(fuel, u.site, 0, u.g0, u.props, k, NO_PC, st);
      MeaningTracked(u, k, st, Nil);
      LowerNil(Tracked(u, k, st, CallMeaning(u, k, st)));
    }
  }

  lemma {:induction false} LowerNil(o: Outcome)
    ensures Lower(Nil, o) == o
    ensures o == match o case Next(s) => Next(s.(stack := Append(s.stack, Nil))) case _ => o
  {
    if o.Next? { AppendNil(o.st.stack); }
  }

  /** The stored function: its tokens and the `end` that closes them. */
  function Stored(u: Unit): seq<Tok> {
    Flatten(Code(u)) + [EndT(NO_PC)]
  }

  /**
   * One call of the stored function with its caller's tracker at `k`: the caller's k-th prop is
   * applied and its value returned; without such a prop, or outside the thread range, it traps.
   */
  lemma {:induction false} CallStored(fuel: nat, u: Unit, k: nat, st: State)
    requires Usable(u)
    requires Outside(u, st.tid) || TrackerIs(u, st.tid, k, st)
    ensures CallFlat(fuel, Arity(u.site.ret), Stored(u), st)
         == if Outside(u, st.tid) then Trap
            else Tracked(u, k, st, CallMeaning(u, k, st.(stack := Nil)))
  {
    hide Flatten, Parse, ReplayBody;
    ParseFlatten(Code(u), NO_PC, []);
    assert Stored(u) == Flatten(Code(u)) + [EndT(NO_PC)] + [];
    var st0 := st.(stack := Nil);
    BodyMeaning(fuel, u, k, st0);
    LeaveCall(fuel, u, k, st0);
  }

  lemma {:induction false} LeaveCall(fuel: nat, u: Unit, k: nat, st: State)
    requires Usable(u) && (Outside(u, st.tid) || TrackerIs(u, st.tid, k, st))
    ensures Outside(u, st.tid) ==> Leave(Arity(u.site.ret), Nil, NO_PC, Trap) == Trap
    ensures !Outside(u, st.tid) ==>
      Leave(Arity(u.site.ret), Nil, NO_PC, Tracked(u, k, st, CallMeaning(u, k, st)))
      == Tracked(u, k, st, CallMeaning(u, k, st))
  {
    hide Effect;
    var ps := Mine(u, st.tid);
    if !Outside(u, st.tid) && k < |ps| {
      EffectFrame(u.site, Lane(u, st.tid), |ps| - k - 1, ps[k], st);
      PropsOfMember(u.props, st.tid);
      TakeReturned(u.site, ps[k], st);
      AppendNil(Returned(u.site.ret, ps[k]));
    }
  }

  // ----- runs -----

  /** How many calls of `calls` count against the tracker that thread `t` uses. */
  function Done(u: Unit, calls: seq<nat>, t: nat): (k: nat)
    ensures k <= |calls|
  {
    if calls == [] then 0
    else
      var last := calls[|calls| - 1];
      Done(u, calls[..|calls| - 1], t) + (if Lane(u, last) == Lane(u, t) then 1 else 0)
  }

  /** The calls, each by the given thread, against the stored function. */
  function RunCalls(fuel: nat, u: Unit, calls: seq<nat>, st: State): Outcome {
    if calls == [] then Next(st)
    else
      match RunCalls(fuel, u, calls[..|calls| - 1], st)
      case Next(s) => CallFlat(fuel, Arity(u.site.ret), Stored(u), s.(tid := calls[|calls| - 1]))
      case o => o
  }

  /** The same calls as the recording has them: no code, no trackers. */
  function RunRecorded(u: Unit, calls: seq<nat>, st: State): Outcome {
    if calls == [] then Next(st)
    else
      var init, t := calls[..|calls| - 1], calls[|calls| - 1];
      match RunRecorded(u, init, st)
      case Next(s) => CallMeaning(u, Done(u, init, t), s.(tid := t, stack := Nil))
      case o => o
  }

  /** Everything but the globals, in which the trackers live. */
  function Visible(o: Outcome): Outcome {
    match o
    case Next(s) => Next(s.(globals := []))
    case Exit(s) => Exit(s.(globals := []))
    case _ => o
  }

  lemma {:induction false} EffectGlobals(site: Site, tid: nat, arm: nat, p: Prop, st: State, gs: seq<Val>)
    ensures Effect(site, tid, arm, p, st.(globals := gs))
         == match Effect(site, tid, arm, p, st)
            case Next(s) => Next(s.(globals := gs))
            case Exit(s) => Exit(s.(globals := gs))
            case o => o
  {
    var s0, t := Logged(site, tid, arm, p, st), st.(globals := gs);
    assert Logged(site, tid, arm, p, t) == s0.(globals := gs);
    if IncFirst(p) && CounterAt(s0.main, site.syncAddr) {
      CallEffectGlobals(site, p, s0.(main := Bump(s0.main, site.syncAddr)), gs);
    } else {
      CallEffectGlobals(site, p, s0, gs);
      SettleGlobals(site, p, CallEffect(site, p, s0), gs);
    }
  }

  lemma {:induction false} SettleGlobals(site: Site, p: Prop, st: State, gs: seq<Val>)
    ensures Settle(site, p, st.(globals := gs))
         == match Settle(site, p, st) case Next(s) => Next(s.(globals := gs)) case o => o
  {
  }

  lemma {:induction false} CallEffectGlobals(site: Site, p: Prop, st: State, gs: seq<Val>)
    ensures CallEffect(site, p, st.(globals := gs)) == CallEffect(site, p, st).(globals := gs)
  {
    var t := st.(globals := gs);
    match p.callId
    case Mmap => assert Grown(t, Wrap32(p.args.0)) == Grown(st, Wrap32(p.args.0));
    case WritevId => assert Called(t, Writev, Args3(p)) == Called(st, Writev, Args3(p)).(globals := gs);
    case SpawnId =>
    case Futex => assert Called(t, FutexLog, Args3(p)) == Called(st, FutexLog, Args3(p)).(globals := gs);
    case ThreadExitId =>
    case ProcExitId =>
    case Generic =>
    case OtherId(_) =>
  }

  lemma {:induction false} MeaningGlobals(u: Unit, k: nat, st: State, gs: seq<Val>)
    ensures Visible(CallMeaning(u, k, st.(globals := gs))) == Visible(CallMeaning(u, k, st))
  {
    hide Effect;
    var ps := Mine(u, st.tid);
    if k < |ps| {
      EffectGlobals(u.site, Lane(u, st.tid), |ps| - k - 1, ps[k], st, gs);
    }
  }

  /** The tracker globals hold what their threads have used up. */
  ghost predicate TrackersAt(u: Unit, calls: seq<nat>, st: State) {
    forall t: nat :: !Outside(u, t) ==> TrackerIs(u, t, Done(u, calls, t), st)
  }

  /**
   * Replay refines the recording.  From fresh trackers, any sequence of calls by any threads has
   * the outcome of the recorded calls in that order: the k-th call by a thread applies exactly
   * that thread's k-th prop, and it traps when there is none.
   */
  lemma {:induction false} ReplayRefines(fuel: nat, u: Unit, calls: seq<nat>, st: State)
    requires Usable(u) && TrackersAt(u, [], st)
    ensures Visible(RunCalls(fuel, u, calls, st)) == Visible(RunRecorded(u, calls, st))
    ensures RunCalls(fuel, u, calls, st).Next? ==> TrackersAt(u, calls, RunCalls(fuel, u, calls, st).st)
    decreases |calls|
  {
    hide *;
    if calls == [] {
      NoCalls(fuel, u, st);
    } else {
      var init, t := calls[..|calls| - 1], calls[|calls| - 1];
      ReplayRefines(fuel, u, init, st);
      CallsNext(fuel, u, calls, st);
      var a, b := RunCalls(fuel, u, init, st), RunRecorded(u, init, st);
      SeenAlike(a, b);
      if a.Next? {
        OneMore(fuel, u, init, t, a.st, b.st);
        assert init + [t] == calls;
      }
    }
  }

  lemma NoCalls(fuel: nat, u: Unit, st: State)
    ensures RunCalls(fuel, u, [], st) == RunRecorded(u, [], st) == Next(st)
  {
  }

  lemma CallsNext(fuel: nat, u: Unit, calls: seq<nat>, st: State)
    requires calls != []
    ensures var init, t := calls[..|calls| - 1], calls[|calls| - 1];
      var a, b := RunCalls(fuel, u, init, st), RunRecorded(u, init, st);
      && RunCalls(fuel, u, calls, st) == (if a.Next? then CallFlat(fuel, Arity(u.site.ret), Stored(u), a.st.(tid := t)) else a)
      && RunRecorded(u, calls, st) == (if b.Next? then CallMeaning(u, Done(u, init, t), b.st.(tid := t, stack := Nil)) else b)
  {
    hide CallFlat, Stored, CallMeaning, Done;
  }

  lemma SeenAlike(a: Outcome, b: Outcome)
    requires Visible(a) == Visible(b)
    ensures a.Next? <==> b.Next?
    ensures a.Next? ==> a.st.(globals := []) == b.st.(globals := [])
  {
  }

  lemma {:induction false} OneMore(fuel: nat, u: Unit, init: seq<nat>, t: nat, a: State, b: State)
    requires Usable(u) && TrackersAt(u, init, a) && a.(globals := []) == b.(globals := [])
    ensures var o := CallFlat(fuel, Arity(u.site.ret), Stored(u), a.(tid := t));
      && Visible(o) == Visible(CallMeaning(u, Done(u, init, t), b.(tid := t, stack := Nil)))
      && (o.Next? ==> TrackersAt(u, init + [t], o.st))
  {
    hide CallFlat, Stored, Delivers, Mine;
    var a', b' := a.(tid := t), b.(tid := t, stack := Nil);
    var k := Done(u, init, t);
    CallStored(fuel, u, k, a');
    assert a'.(stack := Nil) == b'.(globals := a.globals);
    MeaningGlobals(u, k, b', a.globals);
    var o := CallMeaning(u, k, a'.(stack := Nil));
    if !Outside(u, t) && o.Next? {
      NextTrackers(u, init, t, a', o.st);
    }
  }

  lemma {:induction false} NextTrackers(u: Unit, init: seq<nat>, t: nat, a: State, s: State)
    requires TrackersAt(u, init, a) && a.tid == t && !Outside(u, t) && |u.props| < TWO32
    requires Done(u, init, t) < |Mine(u, t)|
    ensures TrackersAt(u, init + [t],
              s.(globals := a.globals[u.g0 + Lane(u, t) := I32(Wrap32(Done(u, init, t) + 1))]))
  {
    var calls := init + [t];
    assert calls[..|calls| - 1] == init;
    PropsOfMember(u.props, t);
    var s' := s.(globals := a.globals[u.g0 + Lane(u, t) := I32(Wrap32(Done(u, init, t) + 1))]);
    forall x: nat | !Outside(u, x)
      ensures TrackerIs(u, x, Done(u, calls, x), s')
    {
      assert TrackerIs(u, x, Done(u, init, x), a) && TrackerIs(u, t, Done(u, init, t), a);
      SameLane(u, init, x, t);
    }
  }

  lemma {:induction false} SameLane(u: Unit, calls: seq<nat>, x: nat, t: nat)
    ensures Lane(u, x) == Lane(u, t) ==> Done(u, calls, x) == Done(u, calls, t)
  {
    if calls != [] { SameLane(u, calls[..|calls| - 1], x, t); }
  }

  /**
   * What a caller gets: the k-th call by a thread that comes back leaves the value recorded with that
   * thread's k-th prop, and nothing else: all 64 bits for the 64-bit types, the low 32 for the others.
   */
  lemma {:induction false} RunReturns(fuel: nat, u: Unit, calls: seq<nat>, t: nat, st: State)
    requires Usable(u) && TrackersAt(u, [], st) && u.site.ret.Ret?
    ensures var o, k := RunCalls(fuel, u, calls + [t], st), Done(u, calls, t);
      o.Next? ==>
        && !Outside(u, t) && k < |Mine(u, t)| && o.st.stack.Push? && o.st.stack.below.Nil?
        && TypeOf(o.st.stack.top) == u.site.ret.ty
        && o.st.stack.top.n == Mine(u, t)[k].returnVal % Pow2(if u.site.ret.ty == TI32 || u.site.ret.ty == TF32 then 32 else 64)
  {
    hide *;
    assert (calls + [t])[..|calls|] == calls;
    ReplayRefines(fuel, u, calls + [t], st);
    CallsNext(fuel, u, calls + [t], st);
    var a, b := RunCalls(fuel, u, calls + [t], st), RunRecorded(u, calls + [t], st);
    SeenAlike(a, b);
    ReplayRefines(fuel, u, calls, st);
    SeenAlike(RunCalls(fuel, u, calls, st), RunRecorded(u, calls, st));
    if a.Next? { MeaningReturns(u, Done(u, calls, t), RunRecorded(u, calls, st).st.(tid := t, stack := Nil)); }
  }

  lemma MeaningReturns(u: Unit, k: nat, st: State)
    requires u.site.ret.Ret?
    ensures var o := CallMeaning(u, k, st);
      o.Next? ==>
        && !Outside(u, st.tid) && k < |Mine(u, st.tid)| && o.st.stack.Push? && o.st.stack.below.Nil?
        && TypeOf(o.st.stack.top) == u.site.ret.ty
        && o.st.stack.top.n == Mine(u, st.tid)[k].returnVal % Pow2(if u.site.ret.ty == TI32 || u.site.ret.ty == TF32 then 32 else 64)
  {
    hide Effect, Mine, Outside, Pow2;
  }

  // ----- an operation that was never executed -----

  function ZeroResult(ret: Ret): Stack {
    if ret.NoRet? then Nil else Push(MakeVal(ret.ty, 0), Nil)
  }

  lemma {:induction false} RunZero(fuel: nat, ret: Ret, st: State)
    requires st.stack == Nil
    ensures Exec(fuel, Lift(ReturnValue(ret, 0)), NO_PC, st) == Next(st.(stack := ZeroResult(ret)))
    ensures Leave(Arity(ret), Nil, NO_PC, Next(st.(stack := ZeroResult(ret)))) == Next(st.(stack := ZeroResult(ret)))
  {
    var ops := ReturnValue(ret, 0);
    ExecRun(fuel, ops, NO_PC, st);
    RunReturn(ret, 0, st);
    AppendNil(ZeroResult(ret));
    hide Exec, Lift;
  }

  /** With no props recorded a call returns a zero of the result type and does nothing else. */
  lemma {:induction false} CallUnrecorded(fuel: nat, u: Unit, st: State)
    requires u.props == []
    ensures CallFlat(fuel, Arity(u.site.ret), Stored(u), st) == Next(st.(stack := ZeroResult(u.site.ret)))
  {
    hide Flatten, Parse, ReturnValue, Lift, Leave, Exec;
    ParseFlatten(Code(u), NO_PC, []);
    assert Stored(u) == Flatten(Code(u)) + [EndT(NO_PC)] + [];
    RunZero(fuel, u.site.ret, st.(stack := Nil));
  }
}
