/** The builders that emit replay functions, token by token. */
module ReplayGen {
  import opened Bytes
  import opened Wasm
  import opened Flat
  import opened Ladder
  import opened Replay
  import ReplayArms
  import opened ReplayProof
  import opened ReplayRun

  // ----- one prop -----

  lemma {:induction false} FlattenProp(site: Site, tid: nat, arm: nat, p: Prop)
    ensures Flatten(PropCode(site, tid, arm, p))
         == Toks([I64C(Wrap64(p.syncId - 1))]) + [InsT(WaitCall(site.syncAddr))] + Toks(LogOps(site, tid, arm, p))
            + (if IncFirst(p) then Toks(IncOps(site.syncAddr)) + Toks(SideOps(site, p))
               else Toks(SideOps(site, p)) + Toks(IncOps(site.syncAddr)))
  {
    hide SideOps, IncOps, LogOps, Toks, Lift;
    var inc, side, log := IncOps(site.syncAddr), SideOps(site, p), LogOps(site, tid, arm, p);
    var a, w, l := Lift([I64C(Wrap64(p.syncId - 1))]), [WaitCall(site.syncAddr)], Lift(log);
    var rest := if IncFirst(p) then inc + side else side + inc;
    FlattenAppend(a + w + l, Lift(rest));
    FlattenAppend(a + w, l);
    FlattenAppend(a, w);
    FlattenOne(WaitCall(site.syncAddr));
    FlattenLift([I64C(Wrap64(p.syncId - 1))]);
    FlattenLift(log);
    FlattenLift(rest);
    if IncFirst(p) { ToksAppend(inc, side); } else { ToksAppend(side, inc); }
  }

  /** The side effects a call id adds, and whether the counter must move on before them. */
  method CallSideEffects(site: Site, p: Prop) returns (ops: seq<Plain>, preInsertSyncInc: bool)
    ensures ops == CallOps(site, p) && preInsertSyncInc == IncFirst(p)
  {
    ops, preInsertSyncInc := [], false;
    match p.callId {
      case Mmap =>
        var growValue := Wrap32(p.args.0);
        if growValue > 0 {
          ops := ops + [I32C(growValue), MemoryGrow(Main), Drop];
        }
      case WritevId =>
        ops := ops + [I32C(p.args.0), I32C(p.args.1), I32C(p.args.2), DebugCall(site, Writev)];
      case ProcExitId =>
        ops := ops + [I32C(p.args.0), CallHost(ProcExit)];
        preInsertSyncInc := true;
      case ThreadExitId =>
        ops := ops + [I32C(p.args.0), CallHost(ThreadExit)];
        preInsertSyncInc := true;
      case SpawnId =>
        ops := ops + [I32C(p.args.0), I32C(p.args.1), CallHost(ThreadSpawn)];
      case Futex =>
        if FutexOpKnown(p) {
          ops := ops + [I32C(p.args.0), I32C(p.args.1), I32C(p.args.2), DebugCall(site, FutexLog)];
        }
      case Generic =>
      case OtherId(_) =>
    }
  }

  /** The recorded stores, in order; a size without an instruction leaves its operands behind. */
  method StoreSideEffects(stores: seq<MemStore>) returns (ops: seq<Plain>)
    ensures ops == AllStoreOps(stores)
  {
    ops := [];
    for i := 0 to |stores|
      invariant ops == AllStoreOps(stores[..i])
    {
      var store := stores[i];
      assert stores[..i + 1][..i] == stores[..i];
      ghost var was := ops;
      ops := ops + [I32C(store.addr), I64C(store.value)];
      match store.size {
        case 1 => ops := ops + [Store(TI64, 1, Main, 0)];
        case 2 => ops := ops + [Store(TI64, 2, Main, 0)];
        case 4 => ops := ops + [Store(TI64, 4, Main, 0)];
        case 8 => ops := ops + [Store(TI64, 8, Main, 0)];
        case _ =>
      }
      assert ops == was + StoreOps(store);
    }
    assert stores[..|stores|] == stores;
  }

  /** The arm for one prop: wait, log, side effects with the stores in order, counter. */
  method ConstructSingleReplayProp(site: Site, tid: nat, armIdx: nat, p: Prop) returns (builder: seq<Tok>)
    ensures builder == Flatten(PropCode(site, tid, armIdx, p))
  {
    FlattenProp(site, tid, armIdx, p);
    hide PropCode, Flatten, Toks;
    builder := Toks([I64C(Wrap64(p.syncId - 1))]) + [InsT(WaitCall(site.syncAddr))];
    var log := [];
    if site.debug {
      log := Consts(LogVals(site, tid, armIdx, p)) + [CallHost(LogCall)];
    }
    builder := builder + Toks(log);
    var call, preInsertSyncInc := CallSideEffects(site, p);
    var stores := StoreSideEffects(p.stores);
    var sideEffects := ReturnValue(site.ret, p.returnVal) + call + stores;
    if !preInsertSyncInc {
      builder := builder + Toks(sideEffects) + Toks(IncOps(site.syncAddr));
    } else {
      builder := builder + Toks(IncOps(site.syncAddr)) + Toks(sideEffects);
    }
  }

  // ----- one thread -----

  lemma {:induction false} ClosedStep(segs: seq<seq<Instr>>, i: nat)
    requires i < |segs|
    ensures Closed(segs[..i + 1]) == Closed(segs[..i]) + Flatten(segs[i]) + [EndT(NO_PC)]
  {
    assert segs[..i + 1][..i] == segs[..i];
  }

  lemma {:induction false} FlattenArm(code: seq<Instr>, br: Plain)
    ensures Flatten(code + Lift([br])) == Flatten(code) + [InsT(Do(br, NO_PC))]
  {
    FlattenAppend(code, Lift([br]));
    FlattenLift([br]);
    assert Toks([br]) == [InsT(Do(br, NO_PC))];
  }

  /** Blocks opened one by one, then the dummy value and the table in the innermost block. */
  method OpenSwitch(ret: Ret, n: nat, select: seq<Plain>) returns (builder: seq<Tok>)
    ensures builder == Opens(Arity(ret), n + 1) + Toks(ReturnValue(ret, DUMMY)) + Toks(select) + [EndT(NO_PC)]
  {
    var open := BlockT(BT(0, Arity(ret)), NO_PC);
    builder := [];
    for i := 0 to n
      invariant builder == Opens(Arity(ret), i)
    {
      builder := builder + [open];
    }
    builder := builder + [open];
    assert builder == Opens(Arity(ret), n + 1);
    builder := builder + Toks(ReturnValue(ret, DUMMY)) + Toks(select) + [EndT(NO_PC)];
  }

  /**
   * The switch over one thread's props: arm `i` ends with a branch past the arms that follow;
   * the error arm and the tracker's increment come last.
   */
  method ConstructThreadReplayProps(site: Site, tid: nat, g: nat, props: seq<Prop>) returns (builder: seq<Tok>)
    ensures builder == FlattenI(ThreadUnit(site, tid, g, props))
  {
    hide PropArm, Closed, Flatten, FlattenI, Nest, Opens, Toks, PropCode, Iota, ReturnValue;
    var numProps := |props|;
    builder := OpenSwitch(site.ret, numProps + 2, [GlobalGet(g), BrTable(Iota(numProps), numProps)]);
    ghost var segs := PropSegs(site, tid, g, props);
    ghost var blocks := Opens(Arity(site.ret), numProps + 3);
    SwitchClosed(site, [GlobalGet(g), BrTable(Iota(numProps), numProps)], segs);
    for i := 0 to numProps
      invariant builder == blocks + Closed(segs[..i + 1])
    {
      var arm := ConstructSingleReplayProp(site, tid, numProps - i - 1, props[i]);
      builder := builder + arm + [InsT(Do(Br(numProps - i), NO_PC)), EndT(NO_PC)];
      ArmClosed(site, tid, g, props, i);
    }
    assert builder == blocks + Closed(segs[..numProps + 1]);
    builder := builder + [InsT(Do(Unreachable, NO_PC)), EndT(NO_PC)];
    var inc := [GlobalGet(g), I32C(1), I32Add, GlobalSet(g)];
    builder := builder + Toks(inc) + [EndT(NO_PC)];
    UnitClosed(site, tid, g, props);
    FlattenNest(Arity(site.ret), segs);
  }

  lemma {:induction false} SwitchClosed(site: Site, select: seq<Plain>, segs: seq<seq<Instr>>)
    requires segs != [] && segs[0] == Lift(ReturnValue(site.ret, DUMMY) + select)
    ensures Closed(segs[..1]) == Toks(ReturnValue(site.ret, DUMMY)) + Toks(select) + [EndT(NO_PC)]
  {
    SwitchTokens(site, select);
    ClosedStep(segs, 0);
    assert Closed(segs[..0]) == [];
  }

  lemma {:induction false} ArmClosed(site: Site, tid: nat, g: nat, props: seq<Prop>, i: nat)
    requires i < |props|
    ensures var segs := PropSegs(site, tid, g, props);
      Closed(segs[..i + 2]) == Closed(segs[..i + 1]) + Flatten(PropCode(site, tid, |props| - i - 1, props[i]))
        + [InsT(Do(Br(|props| - i), NO_PC)), EndT(NO_PC)]
  {
    hide PropCode, Flatten;
    var segs := PropSegs(site, tid, g, props);
    assert segs[i + 1] == PropArm(site, tid, props, i);
    FlattenArm(PropCode(site, tid, |props| - i - 1, props[i]), Br(|props| - i));
    ClosedStep(segs, i + 1);
  }

  lemma {:induction false} TrapClosed(segs: seq<seq<Instr>>, i: nat)
    requires i < |segs| && segs[i] == Lift([Unreachable])
    ensures Closed(segs[..i + 1]) == Closed(segs[..i]) + [InsT(Do(Unreachable, NO_PC)), EndT(NO_PC)]
  {
    assert [] + Lift([Unreachable]) == Lift([Unreachable]);
    FlattenArm([], Unreachable);
    ClosedStep(segs, i);
  }

  lemma {:induction false} UnitClosed(site: Site, tid: nat, g: nat, props: seq<Prop>)
    ensures var segs := PropSegs(site, tid, g, props);
      Closed(segs) == Closed(segs[..|props| + 1]) + [InsT(Do(Unreachable, NO_PC)), EndT(NO_PC)]
        + Toks([GlobalGet(g), I32C(1), I32Add, GlobalSet(g)]) + [EndT(NO_PC)]
  {
    hide PropArm, PropSwitch;
    var segs, n := PropSegs(site, tid, g, props), |props|;
    assert segs[n + 1] == Lift([Unreachable]) && segs[n + 2] == TrackerInc(g);
    TrapClosed(segs, n + 1);
    FlattenLift([GlobalGet(g), I32C(1), I32Add, GlobalSet(g)]);
    ClosedStep(segs, n + 2);
    assert segs[..n + 3] == segs;
  }

  lemma {:induction false} SwitchTokens(site: Site, tail: seq<Plain>)
    ensures Flatten(Lift(ReturnValue(site.ret, DUMMY) + tail)) == Toks(ReturnValue(site.ret, DUMMY)) + Toks(tail)
  {
    FlattenLift(ReturnValue(site.ret, DUMMY) + tail);
    ToksAppend(ReturnValue(site.ret, DUMMY), tail);
  }

  // ----- all threads -----

  ghost predicate SortedByTid(props: seq<Prop>) {
    forall i, j :: 0 <= i < j < |props| ==> props[i].tid <= props[j].tid
  }

  /** Where the run of props of thread `t` that starts at `i` ends. */
  function SkipTid(props: seq<Prop>, i: nat, t: nat): (j: nat)
    requires i <= |props|
    ensures i <= j <= |props|
    ensures forall k :: i <= k < j ==> props[k].tid == t
    ensures j < |props| ==> props[j].tid != t
    decreases |props| - i
  {
    if i < |props| && props[i].tid == t then SkipTid(props, i + 1, t) else i
  }

  /** How many props the first `n` thread arms have taken. */
  function Consumed(props: seq<Prop>, n: nat): (i: nat)
    ensures i <= |props|
  {
    if n == 0 then 0 else SkipTid(props, Consumed(props, n - 1), n - 1)
  }

  lemma {:induction false} ConsumedSorted(props: seq<Prop>, n: nat)
    ensures SortedByTid(props[..Consumed(props, n)])
    ensures forall k :: 0 <= k < Consumed(props, n) ==> props[k].tid < n
  {
    if n > 0 {
      ConsumedSorted(props, n - 1);
      var i, j := Consumed(props, n - 1), Consumed(props, n);
      forall a, b | 0 <= a < b < j
        ensures props[a].tid <= props[b].tid
      {
        if b < i { assert props[..i][a].tid <= props[..i][b].tid; }
      }
    }
  }

  lemma {:induction false} ConsumedAll(props: seq<Prop>, n: nat)
    requires SortedByTid(props)
    ensures forall k :: Consumed(props, n) <= k < |props| ==> props[k].tid >= n
  {
    if n > 0 {
      ConsumedAll(props, n - 1);
      var j := Consumed(props, n);
      if j < |props| { assert props[j].tid > n - 1; }
    }
  }

  /** The loop that splits the props by thread comes to an end just when they are sorted by thread id. */
  lemma {:induction false} SplitEndsIffSorted(props: seq<Prop>)
    ensures (exists n: nat :: Consumed(props, n) == |props|) <==> SortedByTid(props)
  {
    if n: nat :| Consumed(props, n) == |props| {
      ConsumedSorted(props, n);
      assert props[..|props|] == props;
    }
    if SortedByTid(props) {
      var n := if props == [] then 0 else props[|props| - 1].tid + 1;
      ConsumedAll(props, n);
      assert Consumed(props, n) == |props|;
    }
  }

  /** A call of thread 1 recorded in front of one of thread 0. */
  const UNSORTED: seq<Prop> := [Prop(1, 0, Generic, (0, 0, 0), [], 1), Prop(0, 0, Generic, (0, 0, 0), [], 2)]

  /** The second call is never taken, however many arms are made. */
  lemma {:induction false} UnsortedNeverEnds(n: nat)
    ensures Consumed(UNSORTED, n) == if n < 2 then 0 else 1
  {
    if n > 0 { UnsortedNeverEnds(n - 1); }
    if n > 2 { assert SkipTid(UNSORTED, 1, n - 1) == 1; }
    if n == 2 { assert SkipTid(UNSORTED, 1, 1) == 1; }
  }

  lemma {:induction false} PropsOfNone(props: seq<Prop>, t: nat)
    requires forall p <- props :: p.tid != t
    ensures PropsOf(props, t) == []
    decreases |props|
  {
    if props != [] {
      assert props[|props| - 1] in props;
      PropsOfNone(props[..|props| - 1], t);
    }
  }

  lemma {:induction false} PropsOfAll(props: seq<Prop>, t: nat)
    requires forall p <- props :: p.tid == t
    ensures PropsOf(props, t) == props
    decreases |props|
  {
    if props != [] {
      assert props[|props| - 1] in props;
      PropsOfAll(props[..|props| - 1], t);
    }
  }

  lemma {:induction false} PropsOfAppend(a: seq<Prop>, b: seq<Prop>, t: nat)
    ensures PropsOf(a + b, t) == PropsOf(a, t) + PropsOf(b, t)
    decreases |b|
  {
    if b == [] {
      assert a + b == a;
    } else {
      assert (a + b)[..|a + b| - 1] == a + b[..|b| - 1];
      PropsOfAppend(a, b[..|b| - 1], t);
    }
  }

  /** The run the loop cuts out is all of the thread's props. */
  lemma {:induction false} SliceIsPropsOf(props: seq<Prop>, i: nat, j: nat, t: nat)
    requires i <= j <= |props|
    requires forall k :: 0 <= k < i ==> props[k].tid < t
    requires forall k :: i <= k < j ==> props[k].tid == t
    requires forall k :: j <= k < |props| ==> props[k].tid > t
    ensures props[i..j] == PropsOf(props, t)
  {
    hide *;
    var a, b, c := props[..i], props[i..j], props[j..];
    assert props == a + b + c;
    PropsOfAppend(a + b, c, t);
    PropsOfAppend(a, b, t);
    PropsOfNone(a, t);
    PropsOfAll(b, t);
    PropsOfNone(c, t);
  }

  /** What the recording must look like for the thread switch to have an arm per thread. */
  ghost predicate WellSplit(u: Unit) {
    u.multi && u.props != [] ==> SortedByTid(u.props) && u.props[|u.props| - 1].tid == u.maxTid
  }

  lemma {:induction false} TidArmClosed(u: Unit, t: nat)
    requires t <= u.maxTid
    ensures var segs := TidSegs(u.site, u.g0, u.props, u.maxTid + 1);
      Closed(segs[..t + 2]) == Closed(segs[..t + 1])
        + FlattenI(ThreadUnit(u.site, t, u.g0 + t, PropsOf(u.props, t)))
        + [InsT(Do(Br(u.maxTid + 1 - t), NO_PC)), EndT(NO_PC)]
  {
    hide ThreadUnit, Flatten, FlattenI, PropsOf;
    var segs := TidSegs(u.site, u.g0, u.props, u.maxTid + 1);
    var unit := ThreadUnit(u.site, t, u.g0 + t, PropsOf(u.props, t));
    assert segs[t + 1] == [unit] + Lift([Br(u.maxTid + 1 - t)]);
    FlattenArm([unit], Br(u.maxTid + 1 - t));
    FlattenOne(unit);
    ClosedStep(segs, t + 1);
  }

  /**
   * The body of the replay function.  With several threads the props are split by a scan that
   * takes, for each thread id in turn, the props that carry it.
   */
  method InsertReplayOp(u: Unit) returns (builder: seq<Tok>)
    requires WellSplit(u)
    ensures builder == Stored(u)
  {
    if u.props == [] {
      builder := Toks(ReturnValue(u.site.ret, 0)) + [EndT(NO_PC)];
      FlattenLift(ReturnValue(u.site.ret, 0));
    } else if u.multi {
      builder := ConstructTidSwitch(u);
      builder := builder + [EndT(NO_PC)];
      FlattenOne(Nest(Arity(u.site.ret), TidSegs(u.site, u.g0, u.props, u.maxTid + 1)));
    } else {
      builder := ConstructThreadReplayProps(u.site, 0, u.g0, u.props);
      builder := builder + [EndT(NO_PC)];
      FlattenOne(ThreadUnit(u.site, 0, u.g0, u.props));
    }
  }

  method ConstructTidSwitch(u: Unit) returns (builder: seq<Tok>)
    requires WellSplit(u) && u.multi && u.props != []
    ensures builder == FlattenI(Nest(Arity(u.site.ret), TidSegs(u.site, u.g0, u.props, u.maxTid + 1)))
  {
    hide Closed, Flatten, FlattenI, Nest, Opens, Toks, TidArm, TidSwitch, ThreadUnit, PropsOf, Iota, ReturnValue;
    var n := u.maxTid + 1;
    builder := OpenSwitch(u.site.ret, n + 1, [CallHost(GetTid), BrTable(Iota(n), n)]);
    ghost var segs := TidSegs(u.site, u.g0, u.props, n);
    ghost var blocks := Opens(Arity(u.site.ret), n + 2);
    TidSwitchClosed(u);
    var curTid, i := 0, 0;
    while i < |u.props|
      invariant i <= |u.props| && curTid <= n
      invariant forall k :: 0 <= k < i ==> u.props[k].tid < curTid
      invariant forall k :: i <= k < |u.props| ==> curTid <= u.props[k].tid <= u.maxTid
      invariant i == |u.props| ==> curTid == n
      invariant builder == blocks + Closed(segs[..curTid + 1])
      decreases n - curTid
    {
      var begin := i;
      while i < |u.props| && u.props[i].tid == curTid
        invariant begin <= i <= |u.props|
        invariant forall k :: begin <= k < i ==> u.props[k].tid == curTid
      {
        i := i + 1;
      }
      var arm := ConstructThreadReplayProps(u.site, curTid, u.g0 + curTid, u.props[begin..i]);
      NextTidLarger(u, i, curTid);
      SliceIsPropsOf(u.props, begin, i, curTid);
      builder := builder + arm + [InsT(Do(Br(n - curTid), NO_PC)), EndT(NO_PC)];
      TidArmClosed(u, curTid);
      curTid := curTid + 1;
    }
    builder := builder + [InsT(Do(Unreachable, NO_PC)), EndT(NO_PC)];
    TidClosed(u);
    FlattenNest(Arity(u.site.ret), segs);
  }

  lemma NextTidLarger(u: Unit, i: nat, t: nat)
    requires WellSplit(u) && u.multi && u.props != [] && i <= |u.props|
    requires forall k :: i <= k < |u.props| ==> t <= u.props[k].tid
    requires i < |u.props| ==> u.props[i].tid != t
    ensures forall k :: i <= k < |u.props| ==> t < u.props[k].tid
  {
  }

  lemma {:induction false} TidSwitchClosed(u: Unit)
    ensures var segs := TidSegs(u.site, u.g0, u.props, u.maxTid + 1);
      Closed(segs[..1]) == Toks(ReturnValue(u.site.ret, DUMMY))
        + Toks([CallHost(GetTid), BrTable(Iota(u.maxTid + 1), u.maxTid + 1)]) + [EndT(NO_PC)]
  {
    hide TidArm, ReturnValue;
    SwitchClosed(u.site, [CallHost(GetTid), BrTable(Iota(u.maxTid + 1), u.maxTid + 1)],
                 TidSegs(u.site, u.g0, u.props, u.maxTid + 1));
  }

  lemma {:induction false} TidClosed(u: Unit)
    ensures var segs := TidSegs(u.site, u.g0, u.props, u.maxTid + 1);
      Closed(segs) == Closed(segs[..u.maxTid + 2]) + [InsT(Do(Unreachable, NO_PC)), EndT(NO_PC)]
  {
    hide TidArm, TidSwitch;
    var segs := TidSegs(u.site, u.g0, u.props, u.maxTid + 1);
    assert segs[u.maxTid + 2] == Lift([Unreachable]);
    TrapClosed(segs, u.maxTid + 2);
    assert segs[..u.maxTid + 3] == segs;
  }

  /** The function the arms call to wait for their turn. */
  method CreateWaitSyncIdFunc(addr: nat) returns (insts: seq<Tok>)
    ensures insts == Flatten(WaitBody(addr)) + [EndT(NO_PC)]
  {
    insts := [LoopT(BT(0, 0), NO_PC)] + Toks([I32C(addr), AtomicLoad64(0), LocalGet(0), I64Ne, BrIf(0)])
             + [EndT(NO_PC), EndT(NO_PC)];
    FlattenLift(WaitOps(addr));
    FlattenOne(WaitBody(addr)[0]);
    assert WaitBody(addr) == [WaitBody(addr)[0]];
  }

  // ----- where the recorded value does not come back -----

  /**
   * A `writev` recorded without debug handlers: the three operands stay above the return value,
   * and the caller is handed an i32 in place of the recorded i64.
   */
  lemma WritevReturnsOperand(st: State)
    ensures var site := Site(1, 0, Ret(TI64), 8, false);
      var p := Prop(0, 42, WritevId, (1, 2, 3), [], 1);
      && Returned(site.ret, p) == Push(I64(42), Nil)
      && Take(ReplayArms.Left(site, p, st), 1) == Push(I32(3), Nil)
  {
    var site := Site(1, 0, Ret(TI64), 8, false);
    var p := Prop(0, 42, WritevId, (1, 2, 3), [], 1);
    TakeJunk(site, p, st);
    Pow2Consts();
    hide Pow2;
  }
}
