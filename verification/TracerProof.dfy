/**
 * The traced function behaves as the original one, and its buffer ends up holding exactly the
 * transfers of control the original run made, in order.
 */
module TracerProof {
  import opened Bytes
  import opened Wasm
  import opened Flat
  import opened Ladder
  import opened Tracer
  import opened TracerSteps

  // ----- the event log only grows -----

  function LogSize(o: Outcome, least: nat): nat {
    match o case Next(s) => |s.log| case Jump(_, s, _) => |s.log| case Leaving(s) => |s.log| case _ => least
  }

  lemma {:induction false} StepLog(p: Plain, pc: int, next: int, st: State)
    ensures LogSize(Step(p, pc, next, st), |st.log|) >= |st.log|
  {
    match p
    case Load(ty, w, s, m, off) =>
    case Store(ty, w, m, off) =>
    case AtomicLoad64(_) =>
    case AtomicAdd64(_) =>
    case MemoryGrow(m) =>
    case CallHost(f) =>
    case _ =>
  }

  lemma {:induction false} ExecLog(fuel: nat, code: seq<Instr>, end: int, st: State)
    ensures LogSize(Exec(fuel, code, end, st), |st.log|) >= |st.log|
    decreases fuel, code, 1
  {
    if code != [] {
      ExecILog(fuel, code[0], PcAt(code[1..], end), st);
      var o := ExecI(fuel, code[0], PcAt(code[1..], end), st);
      if o.Next? { ExecLog(fuel, code[1..], end, o.st); }
    }
  }

  lemma {:induction false} ExecILog(fuel: nat, i: Instr, next: int, st: State)
    ensures LogSize(ExecI(fuel, i, next, st), |st.log|) >= |st.log|
    decreases fuel, i, 0
  {
    hide *;
    var n: nat := |st.log|;
    LogOfHalts(n);
    AllKinds(i);
    if i.Do? {
      DoIs(fuel, i, next, st);
      StepLog(i.p, i.pc, next, st);
    } else if i.ReturnOp? {
      DoIs(fuel, i, next, st);
      LogOf(st, n);
    } else if i.Block? {
      BlockIs(fuel, i, next, st);
      if i.bt.params <= Size(st.stack) {
        var s := st.(stack := Take(st.stack, i.bt.params));
        ExecLog(fuel, i.body, i.end, s);
        LeaveLog(i.bt.results, Under(st.stack, i.bt.params), i.end, Exec(fuel, i.body, i.end, s), n);
      }
    } else if i.Loop? {
      if i.bt.params <= Size(st.stack) {
        var s := st.(stack := Take(st.stack, i.bt.params));
        var o := Exec(fuel, i.body, i.end, s);
        ExecLog(fuel, i.body, i.end, s);
        LoopIs(fuel, i, next, st);
        if o.Jump? && o.l == 0 && i.bt.params <= Size(o.st.stack) && fuel > 0 {
          ExecILog(fuel - 1, i, next, Again(i.bt, st, o.st, o.src, i.pc));
        }
        LoopLog(fuel, i, next, st, o, n);
      } else {
        LoopInvalid(fuel, i, next, st);
      }
    } else if i.Call? {
      HelperIs(fuel, i, next, st);
      if i.bt.params <= Size(st.stack) {
        var s := st.(stack := Nil, locals := Args(Take(st.stack, i.bt.params)));
        ExecLog(fuel, i.body, NO_PC, s);
        LeaveLog(i.bt.results, Under(st.stack, i.bt.params), NO_PC, Exec(fuel, i.body, NO_PC, s), n);
        ReturnLog(st, Leave(i.bt.results, Under(st.stack, i.bt.params), NO_PC, Exec(fuel, i.body, NO_PC, s)), n);
      }
    } else {
      CallIs(fuel, i, next, st);
      var d := Dispatched(i, st);
      DispatchLog(i, st);
      if d.Stops? {
        StopsLog(d.o, n);
      } else if fuel > 0 {
        ExecLog(fuel - 1, d.s.funcs[d.f].body, d.s.funcs[d.f].end, Frame(d.s, d.f));
        FrameLog(d.s, d.f);
        var o := Exec(fuel - 1, d.s.funcs[d.f].body, d.s.funcs[d.f].end, Frame(d.s, d.f));
        LogLess(o, n, |Frame(d.s, d.f).log|);
        LeaveFnLog(d.s, d.f, o, n);
      }
    }
  }

  lemma AllKinds(i: Instr)
    ensures i.Do? || i.Block? || i.Loop? || i.Call? || i.CallFn? || i.CallTable? || i.ReturnOp?
  {
  }

  lemma LogOfHalts(n: nat)
    ensures LogSize(Invalid, n) == LogSize(Trap, n) == LogSize(Spin, n) == n
  {
  }

  lemma LogOf(st: State, n: nat)
    ensures LogSize(Leaving(st), n) == |st.log|
  {
  }

  lemma StopsLog(o: Outcome, n: nat)
    requires !Ends(o)
    ensures LogSize(o, n) == n
  {
  }

  lemma FrameLog(s: State, f: nat)
    requires f < |s.funcs| && |s.funcs[f].ty.params| <= Size(s.stack)
    ensures Frame(s, f).log == s.log
  {
    hide Args, Take, Size;
  }

  lemma LogLess(o: Outcome, n: nat, m: nat)
    requires LogSize(o, m) >= m >= n
    ensures LogSize(o, n) >= n
  {
  }

  lemma LoopLog(fuel: nat, x: Instr, next: int, st: State, o: Outcome, n: nat)
    requires x.Loop? && x.bt.params <= Size(st.stack) && LogSize(o, n) >= n && n == |st.log|
    requires o.Jump? && o.l == 0 && x.bt.params <= Size(o.st.stack) && fuel > 0 ==>
      var s := Again(x.bt, st, o.st, o.src, x.pc); LogSize(ExecI(fuel - 1, x, next, s), |s.log|) >= |s.log|
    ensures LogSize(LoopOn(fuel, x, next, st, o), n) >= n
  {
    LeaveLog(x.bt.results, Under(st.stack, x.bt.params), x.end, o, n);
    hide ExecI, Leave, Append, Take, Under, Size;
  }

  lemma HelperIs(fuel: nat, x: Instr, next: int, st: State)
    requires x.Call?
    ensures Size(st.stack) < x.bt.params ==> ExecI(fuel, x, next, st) == Invalid
    ensures Size(st.stack) >= x.bt.params ==>
      ExecI(fuel, x, next, st)
      == Return(st, Leave(x.bt.results, Under(st.stack, x.bt.params), NO_PC,
                          Exec(fuel, x.body, NO_PC, st.(stack := Nil, locals := Args(Take(st.stack, x.bt.params))))))
  {
    hide Exec, Leave, Return, Args;
  }

  lemma ReturnLog(caller: State, o: Outcome, n: nat)
    requires LogSize(o, n) >= n
    ensures LogSize(Return(caller, o), n) >= n
  {
  }

  lemma LoopInvalid(fuel: nat, x: Instr, next: int, st: State)
    requires x.Loop? && x.bt.params > Size(st.stack)
    ensures ExecI(fuel, x, next, st) == Invalid
  {
  }

  lemma LeaveLog(r: nat, below: Stack, dst: int, o: Outcome, n: nat)
    requires LogSize(o, n) >= n
    ensures LogSize(Leave(r, below, dst, o), n) >= n
  {
  }

  lemma LeaveFnLog(caller: State, f: nat, o: Outcome, n: nat)
    requires f < |caller.funcs| && |caller.funcs[f].ty.params| <= Size(caller.stack) && LogSize(o, n) >= n
    ensures LogSize(LeaveFn(caller, f, o), n) >= n
  {
  }

  lemma DispatchLog(i: Instr, st: State)
    requires i.CallFn? || i.CallTable?
    ensures match Dispatched(i, st) case Goes(f, s) => |s.log| >= |st.log| case Stops(o) => !Ends(o)
  {
  }

  /** The state in which a loop starts over. */
  function Again(bt: BlockType, st: State, s: State, src: int, pc: int): State
    requires bt.params <= Size(st.stack) && bt.params <= Size(s.stack)
  {
    s.(stack := Append(Take(s.stack, bt.params), Under(st.stack, bt.params)), log := Arrive(s, src, pc, Within))
  }

  /** The outcome of a loop's body, for the loop: a branch to it starts over. */
  function LoopOn(fuel: nat, x: Instr, next: int, st: State, o: Outcome): Outcome
    requires x.Loop? && x.bt.params <= Size(st.stack)
  {
    match o
    case Jump(l, s, src) =>
      if l > 0 then Jump(l - 1, s, src)
      else if Size(s.stack) < x.bt.params then Invalid
      else if fuel == 0 then Spin
      else ExecI(fuel - 1, x, next, Again(x.bt, st, s, src, x.pc))
    case _ => Leave(x.bt.results, Under(st.stack, x.bt.params), x.end, o)
  }

  lemma {:induction false} LoopIs(fuel: nat, x: Instr, next: int, st: State)
    requires x.Loop? && x.bt.params <= Size(st.stack)
    ensures ExecI(fuel, x, next, st)
         == LoopOn(fuel, x, next, st, Exec(fuel, x.body, x.end, st.(stack := Take(st.stack, x.bt.params))))
  {
  }

  // ----- the simulation -----

  /**
   * Original and traced run agree on everything the program has, but for stack, locals and the
   * function they are in.
   */
  ghost predicate World(g: Progs, o: State, i: State) {
    && |o.main| == g.base && |i.main| == g.size && g.base <= g.size && i.main[..g.base] == o.main
    && o.funcs == g.funcs && o.table == g.table && i.funcs == g.tfuncs && i.table == g.ttable
    && i == o.(stack := i.stack, locals := i.locals, main := i.main, log := i.log, fn := i.fn,
               funcs := i.funcs, table := i.table)
  }

  /** ... and they are at the same place of a function and its traced form. */
  ghost predicate Agree(g: Progs, c: Ctx, o: State, i: State) {
    && World(g, o, i) && c.base == g.base && c.size == g.size && i.stack == o.stack && i.fn == o.fn == c.fn
    && |o.locals| == c.n && |i.locals| == c.n + SCRATCH && i.locals[..c.n] == o.locals
  }

  /** ... and the buffer holds what it is told of the original's events. */
  ghost predicate Sim(g: Progs, c: Ctx, o: State, i: State) {
    Agree(g, c, o, i) && Ready(c, ToldAll(g.funcs, o.log), i)
  }

  predicate Labels(labels: seq<nat>) {
    forall l <- labels :: Pc(l)
  }

  /** Outcomes that correspond; nothing is said of runs that end in a trap or do not end. */
  ghost predicate Related(g: Progs, c: Ctx, labels: seq<nat>, oo: Outcome, oi: Outcome) {
    match oo
    case Next(s) => oi.Next? && Sim(g, c, s, oi.st)
    case Leaving(s) => oi.Leaving? && Sim(g, c, s, oi.st)
    case Jump(l, s, src) =>
      && oi.Jump? && oi.l == l && oi.src == src && l < |labels| && Pc(src)
      && Agree(g, c, s, oi.st) && Ready(c, ToldAll(g.funcs, s.log) + [Rec(c.fn, src, labels[l])], oi.st)
    case _ => true
  }

  /** The buffer has room for what the run records. */
  predicate Fits(g: Progs, o: Outcome) {
    match o
    case Next(s) => Room(g, |s.log|)
    case Leaving(s) => Room(g, |s.log|)
    case Jump(_, s, _) => Room(g, |s.log| + 1)
    case _ => true
  }

  predicate Room(g: Progs, n: nat) { g.base + 8 + ENTRY * n <= g.size }

  predicate Ends(o: Outcome) {
    o.Next? || o.Jump? || o.Leaving?
  }

  lemma {:induction false} AgreeUntouched(g: Progs, c: Ctx, o: State, i: State, t: State)
    requires Agree(g, c, o, i) && Untouched(c, i, t)
    ensures Agree(g, c, o, t)
  {
  }

  /** A branch: its event first, then the branch itself. */
  lemma {:induction false} BranchSim(
      fuel: nat, g: Progs, c: Ctx, labels: seq<nat>, p: Plain, pc: int, next: int, end: int, o: State, i: State)
    requires ValidCtx(c) && TracedPlain(c, p, |labels|) && IsBranch(p) && Pc(pc) && Pc(next) && Labels(labels)
    requires Sim(g, c, o, i) && Fits(g, Step(p, pc, next, o))
    ensures Related(g, c, labels, Step(p, pc, next, o), Exec(fuel, Inserted(c, labels, p, pc, next) + [Do(p, pc)], end, i))
  {
    hide Ready, Inserted, Untouched;
    var br := [Do(p, pc)];
    if Selects(p, o) {
      DestInRange(c, labels, p, next, o);
      RoomForOne(g, c, labels, p, pc, next, o);
      ExecAppend(fuel, Inserted(c, labels, p, pc, next), br, end, i);
      InsertedRuns(fuel, c, labels, p, pc, next, PcAt(br, end), ToldAll(g.funcs, o.log), i);
      var t := Exec(fuel, Inserted(c, labels, p, pc, next), PcAt(br, end), i).st;
      AgreeUntouched(g, c, o, i, t);
      ExecOne(fuel, br[0], end, t);
      BranchSteps(g, c, labels, p, pc, next, end, o, t);
    }
  }

  lemma {:induction false} DestInRange(c: Ctx, labels: seq<nat>, p: Plain, next: int, o: State)
    requires TracedPlain(c, p, |labels|) && IsBranch(p) && Selects(p, o) && Labels(labels) && Pc(next)
    ensures Pc(Dest(labels, p, next, o))
  {
    assert Dest(labels, p, next, o) == next || Dest(labels, p, next, o) in labels;
  }

  lemma {:induction false} RoomForOne(g: Progs, c: Ctx, labels: seq<nat>, p: Plain, pc: int, next: int, o: State)
    requires IsBranch(p) && Selects(p, o) && pc >= 0 && Fits(g, Step(p, pc, next, o))
    ensures Room(g, |o.log| + 1)
  {
  }

  lemma {:induction false} BranchSteps(
      g: Progs, c: Ctx, labels: seq<nat>, p: Plain, pc: int, next: int, end: int, o: State, t: State)
    requires TracedPlain(c, p, |labels|) && IsBranch(p) && Selects(p, o) && Pc(pc) && Pc(next)
    requires Agree(g, c, o, t) && Ready(c, ToldAll(g.funcs, o.log) + [Rec(c.fn, pc, Dest(labels, p, next, o))], t)
    ensures Related(g, c, labels, Step(p, pc, next, o), Step(p, pc, end, t))
  {
    ToldOne(g.funcs, o.log, Event(o.fn, pc, Dest(labels, p, next, o), Within));
    hide Logged, ToldAll;
  }

  lemma {:induction false} LoadSim(g: Progs, c: Ctx, p: Plain, pc: int, next: int, end: int, o: State, i: State)
    requires p.Load? && p.mem.Main? && Sim(g, c, o, i)
    ensures Related(g, c, [], Step(p, pc, next, o), Step(p, pc, end, i))
  {
    hide Extend, Logged, FromLE;
    if o.stack.Push? && o.stack.top.I32? {
      var ea := o.stack.top.n + p.offset;
      if ea + p.width <= c.base {
        assert Peek(i.main, ea, p.width) == Peek(i.main[..c.base], ea, p.width);
      }
    }
  }

  lemma {:induction false} PokeBoth(m: seq<byte>, base: nat, ea: nat, bs: seq<byte>)
    requires ea + |bs| <= base <= |m|
    ensures Poke(m, ea, bs)[..base] == Poke(m[..base], ea, bs)
  {
  }

  /** Writing to the program's memory leaves the buffer as it is. */
  lemma {:induction false} LoggedBelow(c: Ctx, m: seq<byte>, events: seq<Rec>, ea: nat, bs: seq<byte>)
    requires Logged(c.base, c.size, m, events) && ea + |bs| <= c.base
    ensures Logged(c.base, c.size, Poke(m, ea, bs), events)
  {
    hide Peek, Poke, ToLE, FromLE, Word;
    PokeOther(m, ea, bs, c.base, 4);
    forall k | 0 <= k < |events|
      ensures InRange(events[k]) && Peek(Poke(m, ea, bs), c.base + 8 + ENTRY * k, 8) == ToLE(Word(events[k]), 8)
    {
      PokeOther(m, ea, bs, c.base + 8 + ENTRY * k, 8);
    }
  }

  lemma {:induction false} StoreSim(g: Progs, c: Ctx, p: Plain, pc: int, next: int, end: int, o: State, i: State)
    requires p.Store? && p.mem.Main? && Sim(g, c, o, i)
    ensures Related(g, c, [], Step(p, pc, next, o), Step(p, pc, end, i))
  {
    hide Poke, ToLE, Logged;
    match o.stack
    case Push(v, Push(I32(a), rest)) =>
      var ea := a + p.offset;
      if TypeOf(v) == p.ty && ea + p.width <= c.base {
        PokeBoth(i.main, c.base, ea, ToLE(v.n, p.width));
        LoggedBelow(c, i.main, ToldAll(g.funcs, o.log), ea, ToLE(v.n, p.width));
      }
    case _ =>
  }

  lemma {:induction false} OwnSim(g: Progs, c: Ctx, p: Plain, pc: int, next: int, end: int, o: State, i: State)
    requires Own(p, c.n) && Sim(g, c, o, i)
    ensures Related(g, c, [], Step(p, pc, next, o), Step(p, pc, end, i))
  {
    OwnNext(p, pc, next, end, i);
    hide Step, Own, Logged;
    OwnFrame(c.n, p, pc, next, o, i);
  }

  lemma {:induction false} OwnNext(p: Plain, pc: int, a: int, b: int, st: State)
    requires !p.BrIf?
    ensures Step(p, pc, a, st) == Step(p, pc, b, st)
  {
  }

  lemma {:induction false} PlainSim(
      fuel: nat, g: Progs, c: Ctx, labels: seq<nat>, p: Plain, pc: int, next: int, end: int, o: State, i: State)
    requires ValidCtx(c) && TracedPlain(c, p, |labels|) && Pc(pc) && Pc(next) && Labels(labels)
    requires Sim(g, c, o, i) && Fits(g, Step(p, pc, next, o))
    ensures Related(g, c, labels, Step(p, pc, next, o), Exec(fuel, Inserted(c, labels, p, pc, next) + [Do(p, pc)], end, i))
  {
    hide Sim, Agree, Ready, Step, Own;
    if IsBranch(p) {
      BranchSim(fuel, g, c, labels, p, pc, next, end, o, i);
    } else {
      assert [] + [Do(p, pc)] == [Do(p, pc)];
      ExecOne(fuel, Do(p, pc), end, i);
      NotJump(p, pc, next, o);
      if p.Load? {
        LoadSim(g, c, p, pc, next, end, o, i);
      } else if p.Store? {
        StoreSim(g, c, p, pc, next, end, o, i);
      } else if p.Unreachable? {
        Unreached(pc, next, o);
      } else if p.CallHost? {
        HostSim(g, c, p, pc, next, end, o, i);
      } else {
        OwnSim(g, c, p, pc, next, end, o, i);
      }
    }
  }

  /** The host sees operands only. */
  lemma {:induction false} HostSim(g: Progs, c: Ctx, p: Plain, pc: int, next: int, end: int, o: State, i: State)
    requires p.CallHost? && Sim(g, c, o, i)
    ensures Related(g, c, [], Step(p, pc, next, o), Step(p, pc, end, i))
  {
    HostStep(p, pc, next, o);
    HostStep(p, pc, end, i);
    hide *;
    SimParts(g, c, o, i);
    HostFrame(p.f, o, i);
    var a := DoHost(p.f, o);
    if a.Next? {
      HostKeeps(g, c, o, i, a.st.stack, a.st.host, a.st.locked);
    } else {
      HostStops(g, c, p.f, o, DoHost(p.f, i));
    }
  }

  lemma HostStep(p: Plain, pc: int, next: int, st: State)
    requires p.CallHost?
    ensures Step(p, pc, next, st) == DoHost(p.f, st)
  {
    hide DoHost;
  }

  lemma SimParts(g: Progs, c: Ctx, o: State, i: State)
    requires Sim(g, c, o, i)
    ensures i.stack == o.stack && i.host == o.host && i.locked == o.locked && i.tid == o.tid && i.answer == o.answer
  {
    hide Ready;
  }

  /** A host function looks at the operands, the lock and what the host knows. */
  lemma HostFrame(f: HostFn, o: State, i: State)
    requires i.stack == o.stack && i.host == o.host && i.locked == o.locked && i.tid == o.tid && i.answer == o.answer
    ensures var a := DoHost(f, o);
      a.Next? ==>
        && a.st == o.(stack := a.st.stack, host := a.st.host, locked := a.st.locked)
        && DoHost(f, i) == Next(i.(stack := a.st.stack, host := a.st.host, locked := a.st.locked))
  {
    hide Take, Under, Size, Wrap32;
  }

  lemma HostKeeps(g: Progs, c: Ctx, o: State, i: State, s: Stack, h: seq<HostCall>, l: bool)
    requires Sim(g, c, o, i)
    ensures Related(g, c, [], Next(o.(stack := s, host := h, locked := l)), Next(i.(stack := s, host := h, locked := l)))
  {
    hide Logged, ToldAll;
  }

  lemma HostStops(g: Progs, c: Ctx, f: HostFn, o: State, oi: Outcome)
    requires !DoHost(f, o).Next?
    ensures Related(g, c, [], DoHost(f, o), oi)
  {
    hide Take, Under, Size, Sim, Agree, Ready;
  }

  lemma {:induction false} Unreached(pc: int, next: int, o: State)
    ensures Step(Unreachable, pc, next, o) == Trap
  {
  }

  lemma {:induction false} NotJump(p: Plain, pc: int, next: int, o: State)
    requires !IsBranch(p)
    ensures !Step(p, pc, next, o).Jump?
  {
  }

  /** Entering a block: the same operands on both sides. */
  lemma {:induction false} EnterSim(g: Progs, c: Ctx, o: State, i: State, k: nat)
    requires Sim(g, c, o, i) && k <= Size(o.stack)
    ensures Sim(g, c, o.(stack := Take(o.stack, k)), i.(stack := Take(i.stack, k)))
  {
  }

  lemma {:induction false} LabelsOut(l: nat, x: nat, labels: seq<nat>)
    requires 0 < l < |[x] + labels|
    ensures l - 1 < |labels| && ([x] + labels)[l] == labels[l - 1]
  {
  }

  /** Leaving a block whose end is where its label leads. */
  lemma {:induction false} LeaveSim(g: Progs, c: Ctx, r: nat, below: Stack, end: int, labels: seq<nat>, oo: Outcome, oi: Outcome)
    requires Pc(end) && Related(g, c, [end] + labels, oo, oi)
    ensures Related(g, c, labels, Leave(r, below, end, oo), Leave(r, below, end, oi))
  {
    hide Logged, ToldAll;
    match oo
    case Next(s) =>
    case Jump(l, s, src) =>
      if l > 0 {
        LabelsOut(l, end, labels);
      } else {
        assert ([end] + labels)[0] == end;
        ToldOne(g.funcs, s.log, Event(s.fn, src, end, Within));
      }
    case _ =>
  }

  lemma {:induction false} LeaveFits(g: Progs, c: Ctx, r: nat, below: Stack, end: int, o: Outcome)
    requires Fits(g, Leave(r, below, end, o)) && Ends(Leave(r, below, end, o))
    requires o.Jump? ==> o.src >= 0
    ensures Fits(g, o) && Ends(o)
  {
  }

  /** Branches in traced code come from decoded instructions. */
  lemma {:induction false} JumpSource(fuel: nat, c: Ctx, code: seq<Instr>, depth: nat, end: int, st: State)
    requires Traceable(c, code, depth)
    ensures var o := Exec(fuel, code, end, st); o.Jump? ==> o.src >= 0
    decreases fuel, code, 1
  {
    if code != [] {
      JumpSourceI(fuel, c, code[0], depth, PcAt(code[1..], end), st);
      var o := ExecI(fuel, code[0], PcAt(code[1..], end), st);
      if o.Next? { JumpSource(fuel, c, code[1..], depth, end, o.st); }
    }
  }

  lemma {:induction false} JumpSourceI(fuel: nat, c: Ctx, i: Instr, depth: nat, next: int, st: State)
    requires TraceableI(c, i, depth)
    ensures var o := ExecI(fuel, i, next, st); o.Jump? ==> o.src >= 0
    decreases fuel, i, 0
  {
    match i
    case Do(p, pc) => StepSource(p, pc, next, st);
    case Block(bt, body, _, end) =>
      if bt.params <= Size(st.stack) {
        JumpSource(fuel, c, body, depth + 1, end, st.(stack := Take(st.stack, bt.params)));
      }
    case Loop(bt, body, pc, end) =>
      if bt.params <= Size(st.stack) {
        JumpSource(fuel, c, body, depth + 1, end, st.(stack := Take(st.stack, bt.params)));
        var o := Exec(fuel, body, end, st.(stack := Take(st.stack, bt.params)));
        if o.Jump? && o.l == 0 && bt.params <= Size(o.st.stack) && fuel > 0 {
          JumpSourceI(fuel - 1, c, i, depth, next, Again(bt, st, o.st, o.src, pc));
        }
      }
    case ReturnOp(_) =>
    case _ => CallNoJump(fuel, i, next, st);
  }

  lemma CallNoJump(fuel: nat, i: Instr, next: int, st: State)
    requires i.CallFn? || i.CallTable?
    ensures !ExecI(fuel, i, next, st).Jump?
  {
    hide Exec;
  }

  lemma {:induction false} StepSource(p: Plain, pc: int, next: int, st: State)
    ensures var o := Step(p, pc, next, st); o.Jump? ==> o.src == pc
  {
    match p
    case Load(ty, w, s, m, off) =>
    case Store(ty, w, m, off) =>
    case AtomicLoad64(_) =>
    case AtomicAdd64(_) =>
    case MemoryGrow(m) =>
    case CallHost(f) =>
    case _ =>
  }
}
