/**
 * Whole programs beside a host that writes to their memory: recording is invisible, and what was reported
 * is enough to run the program again without the host, whatever its control flow and calls.
 */
module RecorderHost {
  import opened Bytes
  import opened Wasm
  import opened Flat
  import opened Recorder
  import opened RecorderAccess
  import opened RecorderRun
  import opened RecorderGen
  import opened RecorderFlow

  // ----- running beside a host -----

  datatype Write = Write(addr: nat, data: seq<byte>)

  /**
   * What else is written to the program's memory before its access number `n`, counted from 0 in the order
   * of the run.  Between two accesses nobody looks at the memory, so this is all that anybody may write.
   */
  type Tape = nat -> seq<Write>

  function Land(m: seq<byte>, ws: seq<Write>): (r: seq<byte>)
    ensures |r| == |m|
    decreases |ws|
  {
    if ws == [] then m else HostWrite(Land(m, ws[..|ws| - 1]), ws[|ws| - 1].addr, ws[|ws| - 1].data)
  }

  function Landed(st: State, ws: seq<Write>): State { st.(main := Land(st.main, ws)) }

  /** An outcome, and the number of the access that comes next. */
  datatype Ran = Ran(o: Outcome, at: nat)

  function Hosted(k: nat, code: seq<Instr>, end: int, st: State, tape: Tape, at: nat): Ran
    decreases k, 1, code, 1
  {
    if code == [] then Ran(Next(st), at)
    else
      var a := HostedI(k, code[0], PcAt(code[1..], end), st, tape, at);
      if a.o.Next? then Hosted(k, code[1..], end, a.o.st, tape, a.at) else a
  }

  function HostedI(k: nat, x: Instr, next: int, st: State, tape: Tape, at: nat): Ran
    decreases k, 1, x, 0
  {
    if IsAccess(InsT(x)) then Ran(ExecI(k, x, next, Landed(st, tape(at))), at + 1)
    else
      match x
      case Block(bt, body, _, end) =>
        if Size(st.stack) < bt.params then Ran(Invalid, at)
        else
          var a := Hosted(k, body, end, st.(stack := Take(st.stack, bt.params)), tape, at);
          Ran(Leave(bt.results, Under(st.stack, bt.params), end, a.o), a.at)
      case Loop(bt, body, _, end) =>
        if Size(st.stack) < bt.params then Ran(Invalid, at)
        else
          var a := Hosted(k, body, end, st.(stack := Take(st.stack, bt.params)), tape, at);
          if !Restarts(x, a.o) then Ran(Turned(x, st, a.o), a.at)
          else if k == 0 then Ran(Spin, a.at)
          else HostedI(k - 1, x, next, Restart(x, st, a.o), tape, a.at)
      case CallFn(_, _) => HostedCall(k, Dispatched(x, st), tape, at)
      case CallTable(_, _) => HostedCall(k, Dispatched(x, st), tape, at)
      case _ => Ran(ExecI(k, x, next, st), at)
  }

  function HostedCall(k: nat, d: Dispatch, tape: Tape, at: nat): Ran
    requires d.Goes? ==> d.f < |d.s.funcs| && |d.s.funcs[d.f].ty.params| <= Size(d.s.stack)
    decreases k, 0
  {
    if d.Stops? then Ran(d.o, at)
    else if k == 0 then Ran(Spin, at)
    else
      var a := Hosted(k - 1, d.s.funcs[d.f].body, d.s.funcs[d.f].end, Frame(d.s, d.f), tape, at);
      Ran(LeaveFn(d.s, d.f, a.o), a.at)
  }

  /** One turn of a loop ended with a branch back to its start. */
  predicate Restarts(x: Instr, o: Outcome)
    requires x.Loop?
  {
    o.Jump? && o.l == 0 && x.bt.params <= Size(o.st.stack)
  }

  function Restart(x: Instr, st: State, o: Outcome): State
    requires x.Loop? && x.bt.params <= Size(st.stack) && Restarts(x, o)
  {
    o.st.(stack := Append(Take(o.st.stack, x.bt.params), Under(st.stack, x.bt.params)), log := Arrive(o.st, o.src, x.pc, Within))
  }

  /** What a loop does after a turn that does not start it over. */
  function Turned(x: Instr, st: State, o: Outcome): Outcome
    requires x.Loop? && x.bt.params <= Size(st.stack)
  {
    if o.Jump? then (if o.l > 0 then Jump(o.l - 1, o.st, o.src) else Invalid)
    else Leave(x.bt.results, Under(st.stack, x.bt.params), x.end, o)
  }

  // ----- unfolding -----

  lemma HostedNone(k: nat, end: int, st: State, tape: Tape, at: nat)
    ensures Hosted(k, [], end, st, tape, at) == Ran(Next(st), at)
  {
  }

  lemma HostedHead(k: nat, code: seq<Instr>, end: int, st: State, tape: Tape, at: nat)
    requires code != []
    ensures var a := HostedI(k, code[0], PcAt(code[1..], end), st, tape, at);
      Hosted(k, code, end, st, tape, at) == if a.o.Next? then Hosted(k, code[1..], end, a.o.st, tape, a.at) else a
  {
    hide HostedI;
  }

  lemma HostedAccess(k: nat, x: Instr, next: int, st: State, tape: Tape, at: nat)
    requires IsAccess(InsT(x))
    ensures HostedI(k, x, next, st, tape, at) == Ran(ExecI(k, x, next, Landed(st, tape(at))), at + 1)
  {
    hide ExecI, Hosted, Landed;
  }

  lemma HostedPlain(k: nat, x: Instr, next: int, st: State, tape: Tape, at: nat)
    requires !IsAccess(InsT(x)) && (x.Do? || x.ReturnOp? || x.Call?)
    ensures HostedI(k, x, next, st, tape, at) == Ran(ExecI(k, x, next, st), at)
  {
    hide ExecI, Hosted, IsAccess;
  }

  lemma HostedBlock(k: nat, x: Instr, next: int, st: State, tape: Tape, at: nat)
    requires x.Block?
    ensures Size(st.stack) < x.bt.params ==> HostedI(k, x, next, st, tape, at) == Ran(Invalid, at)
    ensures Size(st.stack) >= x.bt.params ==>
      var a := Hosted(k, x.body, x.end, st.(stack := Take(st.stack, x.bt.params)), tape, at);
      HostedI(k, x, next, st, tape, at) == Ran(Leave(x.bt.results, Under(st.stack, x.bt.params), x.end, a.o), a.at)
  {
    hide Hosted, Leave;
  }

  lemma HostedLoop(k: nat, x: Instr, next: int, st: State, tape: Tape, at: nat)
    requires x.Loop?
    ensures Size(st.stack) < x.bt.params ==> HostedI(k, x, next, st, tape, at) == Ran(Invalid, at)
    ensures Size(st.stack) >= x.bt.params ==>
      var a := Hosted(k, x.body, x.end, st.(stack := Take(st.stack, x.bt.params)), tape, at);
      HostedI(k, x, next, st, tape, at)
      == if !Restarts(x, a.o) then Ran(Turned(x, st, a.o), a.at) else if k == 0 then Ran(Spin, a.at)
         else HostedI(k - 1, x, next, Restart(x, st, a.o), tape, a.at)
  {
    hide Hosted, Restarts, Turned, Restart;
  }

  lemma HostedCalls(k: nat, x: Instr, next: int, st: State, tape: Tape, at: nat)
    requires x.CallFn? || x.CallTable?
    ensures HostedI(k, x, next, st, tape, at) == HostedCall(k, Dispatched(x, st), tape, at)
  {
    hide Dispatched, HostedCall;
  }

  lemma HostedCallIs(k: nat, d: Dispatch, tape: Tape, at: nat)
    requires d.Goes? && d.f < |d.s.funcs| && |d.s.funcs[d.f].ty.params| <= Size(d.s.stack)
    ensures k == 0 ==> HostedCall(k, d, tape, at) == Ran(Spin, at)
    ensures k > 0 ==> var a := Hosted(k - 1, d.s.funcs[d.f].body, d.s.funcs[d.f].end, Frame(d.s, d.f), tape, at);
      HostedCall(k, d, tape, at) == Ran(LeaveFn(d.s, d.f, a.o), a.at)
  {
    hide Hosted, Frame, LeaveFn;
  }

  lemma HostedStops(k: nat, o: Outcome, tape: Tape, at: nat)
    ensures HostedCall(k, Stops(o), tape, at) == Ran(o, at)
  {
  }

  lemma {:induction false} HostedCat(k: nat, a: seq<Instr>, b: seq<Instr>, end: int, st: State, tape: Tape, at: nat)
    ensures var r := Hosted(k, a, PcAt(b, end), st, tape, at);
      Hosted(k, a + b, end, st, tape, at) == if r.o.Next? then Hosted(k, b, end, r.o.st, tape, r.at) else r
    decreases |a|
  {
    hide *;
    if a == [] {
      assert a + b == b;
      HostedNone(k, PcAt(b, end), st, tape, at);
    } else {
      assert (a + b)[1..] == a[1..] + b && (a + b)[0] == a[0];
      HostedHead(k, a + b, end, st, tape, at);
      HostedHead(k, a, PcAt(b, end), st, tape, at);
      PcTail(a[1..], b, end);
      var r := HostedI(k, a[0], PcAt(a[1..] + b, end), st, tape, at);
      if r.o.Next? { HostedCat(k, a[1..], b, end, r.o.st, tape, r.at); }
    }
  }

  lemma PcTail(a: seq<Instr>, b: seq<Instr>, end: int)
    ensures PcAt(a + b, end) == PcAt(a, PcAt(b, end))
  {
  }

  lemma HostedOne(k: nat, x: Instr, end: int, st: State, tape: Tape, at: nat)
    ensures Hosted(k, [x], end, st, tape, at) == HostedI(k, x, end, st, tape, at)
  {
    hide *;
    HostedHead(k, [x], end, st, tape, at);
    assert [x][1..] == [];
    NoPc(end);
    var a := HostedI(k, x, end, st, tape, at);
    if a.o.Next? { HostedNone(k, end, a.o.st, tape, a.at); }
  }

  lemma NoPc(end: int)
    ensures PcAt([], end) == end
  {
  }

  // ----- without a host -----

  lemma LoopIs(k: nat, x: Instr, next: int, st: State)
    requires x.Loop?
    ensures Size(st.stack) < x.bt.params ==> ExecI(k, x, next, st) == Invalid
    ensures Size(st.stack) >= x.bt.params ==>
      var o := Exec(k, x.body, x.end, st.(stack := Take(st.stack, x.bt.params)));
      ExecI(k, x, next, st) == if !Restarts(x, o) then Turned(x, st, o) else if k == 0 then Spin else ExecI(k - 1, x, next, Restart(x, st, o))
  {
    hide Exec, Leave;
  }

  function Nobody(): Tape { (n: nat) => [] }

  lemma LandedNothing(st: State, at: nat)
    ensures Landed(st, Nobody()(at)) == st
  {
  }

  lemma Kinds(x: Instr)
    ensures x.Do? || x.Block? || x.Loop? || x.Call? || x.CallFn? || x.CallTable? || x.ReturnOp?
  {
  }

  /** A host that writes nothing makes no difference. */
  lemma {:induction false} HostedAlone(k: nat, code: seq<Instr>, end: int, st: State, at: nat)
    ensures Hosted(k, code, end, st, Nobody(), at).o == Exec(k, code, end, st)
    decreases k, code, 1
  {
    hide *;
    if code == [] {
      HostedNone(k, end, st, Nobody(), at);
      ExecNone(k, end, st);
    } else {
      HostedHead(k, code, end, st, Nobody(), at);
      ExecHead(k, code, end, st);
      HostedAloneI(k, code[0], PcAt(code[1..], end), st, at);
      var a := HostedI(k, code[0], PcAt(code[1..], end), st, Nobody(), at);
      if a.o.Next? { HostedAlone(k, code[1..], end, a.o.st, a.at); }
    }
  }

  lemma {:induction false} HostedAloneI(k: nat, x: Instr, next: int, st: State, at: nat)
    ensures HostedI(k, x, next, st, Nobody(), at).o == ExecI(k, x, next, st)
    decreases k, x, 0
  {
    hide *;
    Kinds(x);
    if IsAccess(InsT(x)) {
      HostedAccess(k, x, next, st, Nobody(), at);
      LandedNothing(st, at);
    } else if x.Block? {
      HostedBlock(k, x, next, st, Nobody(), at);
      BlockIs(k, x, next, st);
      if Size(st.stack) >= x.bt.params { HostedAlone(k, x.body, x.end, st.(stack := Take(st.stack, x.bt.params)), at); }
    } else if x.Loop? {
      HostedLoop(k, x, next, st, Nobody(), at);
      LoopIs(k, x, next, st);
      if Size(st.stack) >= x.bt.params {
        var st' := st.(stack := Take(st.stack, x.bt.params));
        HostedAlone(k, x.body, x.end, st', at);
        var a := Hosted(k, x.body, x.end, st', Nobody(), at);
        if Restarts(x, a.o) && k > 0 { HostedAloneI(k - 1, x, next, Restart(x, st, a.o), a.at); }
      }
    } else if x.CallFn? || x.CallTable? {
      HostedCalls(k, x, next, st, Nobody(), at);
      CallIs(k, x, next, st);
      var d := Dispatched(x, st);
      if d.Stops? {
        HostedStops(k, d.o, Nobody(), at);
      } else {
        HostedCallIs(k, d, Nobody(), at);
        if k > 0 { HostedAlone(k - 1, d.s.funcs[d.f].body, d.s.funcs[d.f].end, Frame(d.s, d.f), at); }
      }
    } else {
      HostedPlain(k, x, next, st, Nobody(), at);
    }
  }

  // ----- inserted code makes no access of the program's -----

  predicate Quiet(code: seq<Instr>)
    decreases code, 1
  {
    code == [] || (QuietI(code[0]) && Quiet(code[1..]))
  }

  predicate QuietI(x: Instr)
    decreases x, 0
  {
    match x case Do(_, _) => !IsAccess(InsT(x)) case Block(_, body, _, _) => Quiet(body) case _ => false
  }

  lemma QuietParts(code: seq<Instr>)
    requires code != [] && Quiet(code)
    ensures QuietI(code[0]) && Quiet(code[1..])
  {
    hide QuietI;
  }

  lemma QuietIs(x: Instr)
    requires QuietI(x)
    ensures (x.Do? && !IsAccess(InsT(x))) || (x.Block? && Quiet(x.body))
  {
    hide Quiet, IsAccess;
  }

  lemma {:induction false} QuietRuns(k: nat, code: seq<Instr>, end: int, st: State, tape: Tape, at: nat)
    requires Quiet(code)
    ensures Hosted(k, code, end, st, tape, at) == Ran(Exec(k, code, end, st), at)
    decreases code, 1
  {
    hide *;
    if code == [] {
      HostedNone(k, end, st, tape, at);
      ExecNone(k, end, st);
    } else {
      QuietParts(code);
      HostedHead(k, code, end, st, tape, at);
      ExecHead(k, code, end, st);
      QuietRunsI(k, code[0], PcAt(code[1..], end), st, tape, at);
      var a := ExecI(k, code[0], PcAt(code[1..], end), st);
      if a.Next? { QuietRuns(k, code[1..], end, a.st, tape, at); }
    }
  }

  lemma {:induction false} QuietRunsI(k: nat, x: Instr, next: int, st: State, tape: Tape, at: nat)
    requires QuietI(x)
    ensures HostedI(k, x, next, st, tape, at) == Ran(ExecI(k, x, next, st), at)
    decreases x, 0
  {
    hide *;
    QuietIs(x);
    if x.Block? {
      HostedBlock(k, x, next, st, tape, at);
      BlockIs(k, x, next, st);
      if Size(st.stack) >= x.bt.params { QuietRuns(k, x.body, x.end, st.(stack := Take(st.stack, x.bt.params)), tape, at); }
    } else {
      HostedPlain(k, x, next, st, tape, at);
    }
  }

  lemma {:induction false} QuietCat(a: seq<Instr>, b: seq<Instr>)
    requires Quiet(a) && Quiet(b)
    ensures Quiet(a + b)
    decreases |a|
  {
    hide QuietI;
    if a == [] {
      assert a + b == b;
    } else {
      assert (a + b)[1..] == a[1..] + b;
      QuietCat(a[1..], b);
    }
  }

  predicate Silent(p: Plain) { !IsAccess(InsT(Do(p, NO_PC))) }

  lemma {:induction false} QuietLift(ps: seq<Plain>)
    requires forall p <- ps :: Silent(p)
    ensures Quiet(Lift(ps))
    decreases |ps|
  {
    if ps != [] {
      assert Lift(ps)[1..] == Lift(ps[1..]) && Lift(ps)[0] == Do(ps[0], NO_PC);
      assert forall p <- ps[1..] :: p in ps;
      hide IsAccess;
      assert Silent(ps[0]);
      QuietLift(ps[1..]);
    }
    hide IsAccess;
  }

  lemma QuietBlock(bt: BlockType, ps: seq<Plain>)
    requires forall p <- ps :: Silent(p)
    ensures Quiet([Block(bt, Lift(ps), NO_PC, NO_PC)])
  {
    QuietLift(ps);
    hide Lift, Silent;
    var x := Block(bt, Lift(ps), NO_PC, NO_PC);
    assert QuietI(x) && [x][1..] == [] && Quiet([]);
  }

  function Front(s: Slots, x: Access): seq<Instr> { Lift([CallHost(Lock)]) + [ShadowBlock(s, x)] }

  lemma FrontQuiet(s: Slots, x: Access)
    ensures Quiet(Front(s, x))
  {
    QuietLift([CallHost(Lock)]);
    QuietBlock(BT(1, 1), [LocalTee(s.base), LocalGet(s.base), OnShadow(x), LocalSet(s.ret)]);
    QuietBlock(BT(2, 2), [LocalSet(s.value), LocalTee(s.base), LocalGet(s.value), LocalGet(s.base), LocalGet(s.value), OnShadow(x)]);
    hide Lift, Quiet;
    QuietCat(Lift([CallHost(Lock)]), [ShadowBlock(s, x)]);
  }

  lemma SilentOps(s: Slots, x: Access)
    ensures forall p <- CompareOps(s, x) + ReportOps(s, x) :: Silent(p)
    ensures forall p <- WriteBackOps(s, x) :: Silent(p)
    ensures forall p <- LastOps(s, x)[..4] :: Silent(p)
  {
  }

  lemma {:induction false} BehindQuiet(s: Slots, x: Access)
    ensures Quiet(Behind(s, x))
  {
    SilentOps(s, x);
    QuietLift(CompareOps(s, x) + ReportOps(s, x));
    QuietBlock(BT(0, 0), WriteBackOps(s, x));
    QuietLift(LastOps(s, x)[..4]);
    QuietLift([CallHost(Unlock)]);
    hide CompareOps, ReportOps, WriteBackOps, LastOps, Lift, Quiet, Silent;
    var mid := if x.kind.LoadK? then [WriteBack(s, x)] else [];
    NothingQuiet();
    QuietCat(Lift(CompareOps(s, x) + ReportOps(s, x)), mid);
    QuietCat(Lift(CompareOps(s, x) + ReportOps(s, x)) + mid, Lift(LastOps(s, x)[..4]));
    QuietCat(AfterOps(s, x), Lift([CallHost(Unlock)]));
  }

  lemma NothingQuiet()
    ensures Quiet([])
  {
  }

  // ----- the code in front of an access does not look at the program's memory -----

  function WithMain(o: Outcome, m: seq<byte>): Outcome {
    match o
    case Next(s) => Next(s.(main := m))
    case Jump(l, s, src) => Jump(l, s.(main := m), src)
    case Leaving(s) => Leaving(s.(main := m))
    case Exit(s) => Exit(s.(main := m))
    case _ => o
  }

  predicate Aside(p: Plain) {
    p.LocalTee? || p.LocalGet? || p.LocalSet? || (p.Load? && p.mem.Shadow?) || (p.Store? && p.mem.Shadow?) || p == CallHost(Lock)
  }

  lemma StepAside(p: Plain, st: State, m: seq<byte>)
    requires Aside(p)
    ensures Step(p, NO_PC, NO_PC, st.(main := m)) == WithMain(Step(p, NO_PC, NO_PC, st), m)
  {
    hide *;
    AsideIs(p);
    match p
    case Load(ty, w, sg, mem, off) => LoadAside(ty, w, sg, off, st, m);
    case Store(ty, w, mem, off) => StoreAside(ty, w, off, st, m);
    case _ => LocalAside(p, st, m);
  }

  lemma AsideIs(p: Plain)
    requires Aside(p)
    ensures p.LocalTee? || p.LocalGet? || p.LocalSet? || (p.Load? && p.mem == Shadow) || (p.Store? && p.mem == Shadow) || p == CallHost(Lock)
  {
  }

  lemma LoadAside(ty: ValType, w: nat, sg: bool, off: nat, st: State, m: seq<byte>)
    ensures var p := Load(ty, w, sg, Shadow, off);
      Step(p, NO_PC, NO_PC, st.(main := m)) == WithMain(Step(p, NO_PC, NO_PC, st), m)
  {
    StepLoad(ty, w, sg, Shadow, off, st);
    StepLoad(ty, w, sg, Shadow, off, st.(main := m));
    hide Step, Extend, Peek, MakeVal;
  }

  lemma StoreAside(ty: ValType, w: nat, off: nat, st: State, m: seq<byte>)
    ensures var p := Store(ty, w, Shadow, off);
      Step(p, NO_PC, NO_PC, st.(main := m)) == WithMain(Step(p, NO_PC, NO_PC, st), m)
  {
    StepStore(ty, w, Shadow, off, st);
    StepStore(ty, w, Shadow, off, st.(main := m));
    hide Step, Poke, ToLE, TypeOf;
  }

  lemma LocalAside(p: Plain, st: State, m: seq<byte>)
    requires p.LocalTee? || p.LocalGet? || p.LocalSet? || p == CallHost(Lock)
    ensures Step(p, NO_PC, NO_PC, st.(main := m)) == WithMain(Step(p, NO_PC, NO_PC, st), m)
  {
  }

  lemma {:induction false} RunAside(ps: seq<Plain>, n: nat, st: State, m: seq<byte>)
    requires n <= |ps| && forall p <- ps :: Aside(p)
    ensures Run(ps, n, st.(main := m)) == WithMain(Run(ps, n, st), m)
  {
    hide Step, Aside;
    if n > 0 {
      RunAside(ps, n - 1, st, m);
      var o := Run(ps, n - 1, st);
      if o.Next? { StepAside(ps[n - 1], o.st, m); }
    }
  }

  lemma LeaveAside(r: nat, below: Stack, o: Outcome, m: seq<byte>)
    ensures Leave(r, below, NO_PC, WithMain(o, m)) == WithMain(Leave(r, below, NO_PC, o), m)
  {
  }

  lemma {:induction false} BlockAside(k: nat, bt: BlockType, ps: seq<Plain>, next: int, st: State, m: seq<byte>)
    requires forall p <- ps :: Aside(p)
    ensures var x := Block(bt, Lift(ps), NO_PC, NO_PC);
      ExecI(k, x, next, st.(main := m)) == WithMain(ExecI(k, x, next, st), m)
  {
    hide *;
    var x, t := Block(bt, Lift(ps), NO_PC, NO_PC), st.(main := m);
    BlockIs(k, x, next, st);
    BlockIs(k, x, next, t);
    InvalidAside(m);
    if Size(st.stack) >= bt.params {
      var s := st.(stack := Take(st.stack, bt.params));
      ExecRun(k, ps, NO_PC, s);
      ExecRun(k, ps, NO_PC, s.(main := m));
      RunAllAside(ps, s, m);
      LeaveAside(bt.results, Under(st.stack, bt.params), RunAll(ps, s), m);
    }
  }

  lemma RunAllAside(ps: seq<Plain>, st: State, m: seq<byte>)
    requires forall p <- ps :: Aside(p)
    ensures RunAll(ps, st.(main := m)) == WithMain(RunAll(ps, st), m)
  {
    hide Run, WithMain, Aside;
    RunAside(ps, |ps|, st, m);
  }

  lemma InvalidAside(m: seq<byte>)
    ensures WithMain(Invalid, m) == Invalid
  {
  }

  lemma ShadowAside(k: nat, s: Slots, x: Access, next: int, st: State, m: seq<byte>)
    ensures ExecI(k, ShadowBlock(s, x), next, st.(main := m)) == WithMain(ExecI(k, ShadowBlock(s, x), next, st), m)
  {
    BlockAside(k, BT(1, 1), [LocalTee(s.base), LocalGet(s.base), OnShadow(x), LocalSet(s.ret)], next, st, m);
    BlockAside(k, BT(2, 2), [LocalSet(s.value), LocalTee(s.base), LocalGet(s.value), LocalGet(s.base), LocalGet(s.value), OnShadow(x)], next, st, m);
    hide ExecI, Lift, WithMain;
  }

  lemma NextAside(o: Outcome, m: seq<byte>)
    ensures o.Next? ==> WithMain(o, m) == Next(o.st.(main := m))
    ensures WithMain(o, m).Next? <==> o.Next?
  {
  }

  lemma {:induction false} FrontAside(k: nat, s: Slots, x: Access, end: int, st: State, m: seq<byte>)
    ensures Exec(k, Front(s, x), end, st.(main := m)) == WithMain(Exec(k, Front(s, x), end, st), m)
  {
    hide *;
    FrontIs(s, x);
    LiftNone();
    var a := Lift([CallHost(Lock)]) + [ShadowBlock(s, x)];
    assert a + Lift([]) == a;
    var t := st.(main := m);
    ExecThree(k, [CallHost(Lock)], ShadowBlock(s, x), [], end, st);
    ExecThree(k, [CallHost(Lock)], ShadowBlock(s, x), [], end, t);
    LockAside(st, m);
    var o := RunAll([CallHost(Lock)], st);
    NextAside(o, m);
    if o.Next? {
      ShadowAside(k, s, x, PcAt(Lift([]), end), o.st, m);
      var o2 := ExecI(k, ShadowBlock(s, x), PcAt(Lift([]), end), o.st);
      NextAside(o2, m);
      if o2.Next? {
        RunNone(o2.st);
        RunNone(o2.st.(main := m));
      }
    }
  }

  lemma FrontIs(s: Slots, x: Access)
    ensures Front(s, x) == Lift([CallHost(Lock)]) + [ShadowBlock(s, x)]
  {
    hide ShadowBlock, Lift;
  }

  lemma LockAside(st: State, m: seq<byte>)
    ensures RunAll([CallHost(Lock)], st.(main := m)) == WithMain(RunAll([CallHost(Lock)], st), m)
  {
    RunAllAside([CallHost(Lock)], st, m);
    hide RunAll;
  }

  // ----- one access beside the host -----

  lemma SameMain(st: State)
    ensures st.(main := st.main) == st
  {
  }

  lemma LandedIs(st: State, ws: seq<Write>)
    ensures Landed(st, ws) == st.(main := Land(st.main, ws))
  {
    hide Land;
  }

  /** Writes that come at the access in the middle might as well come before everything around it. */
  lemma {:induction false} AroundHosted(k: nat, n: nat, x: Instr, idx: nat, end: int, st: State, tape: Tape, at: nat)
    requires IsAccess(InsT(x))
    ensures var b := Hosted(k, Around(n, x, idx), end, st, tape, at);
      b.o == Exec(k, Around(n, x, idx), end, Landed(st, tape(at))) && (b.o.Next? ==> b.at == at + 1)
  {
    AroundIs(n, x, idx);
    hide *;
    var y := AccessOf(InsT(x), idx);
    var s := SlotsOf(n, y);
    var a, c := Front(s, y), Behind(s, y);
    FrontIs(s, y);
    FrontQuiet(s, y);
    BehindQuiet(s, y);
    var m := Land(st.main, tape(at));
    LandedIs(st, tape(at));
    var e := PcAt(c, end);
    HostedCat(k, a + [x], c, end, st, tape, at);
    HostedCat(k, a, [x], e, st, tape, at);
    XPc(x, e);
    QuietRuns(k, a, x.pc, st, tape, at);
    MiddleIs(k, a, x, c, end, st.(main := m));
    FrontAside(k, s, y, x.pc, st, m);
    FrontAside(k, s, y, x.pc, st, st.main);
    SameMain(st);
    var o := Exec(k, a, x.pc, st);
    NextAside(o, m);
    NextAside(o, st.main);
    if o.Next? {
      HostedOne(k, x, e, o.st, tape, at);
      HostedAccess(k, x, e, o.st, tape, at);
      LandedIs(o.st, tape(at));
      var o2 := ExecI(k, x, e, o.st.(main := m));
      if o2.Next? { QuietRuns(k, c, end, o2.st, tape, at + 1); }
    } else {
      StopAside(o, m);
      NoJump(k, s, y, x.pc, st);
    }
  }

  lemma XPc(x: Instr, e: int)
    ensures PcAt([x], e) == x.pc
  {
  }

  /** The inserted front ends by running through, a trap, waiting for the lock, or not being valid. */
  predicate Halts(o: Outcome) { o.Trap? || o.Spin? || o.Invalid? }

  lemma StopAside(o: Outcome, m: seq<byte>)
    ensures Halts(o) ==> WithMain(o, m) == o
  {
  }

  lemma {:induction false} NoJump(k: nat, s: Slots, x: Access, end: int, st: State)
    ensures var o := Exec(k, Front(s, x), end, st); o.Next? || Halts(o)
  {
    hide *;
    FrontIs(s, x);
    LiftNone();
    var a := Lift([CallHost(Lock)]) + [ShadowBlock(s, x)];
    assert a + Lift([]) == a;
    ExecThree(k, [CallHost(Lock)], ShadowBlock(s, x), [], end, st);
    LockHalts(st);
    var o := RunAll([CallHost(Lock)], st);
    HaltsIs(o);
    if o.Next? {
      ShadowHalts(k, s, x, PcAt(Lift([]), end), o.st);
      var o2 := ExecI(k, ShadowBlock(s, x), PcAt(Lift([]), end), o.st);
      HaltsIs(o2);
      if o2.Next? { RunNone(o2.st); }
    }
  }

  lemma HaltsIs(o: Outcome)
    ensures Halts(o) <==> o.Trap? || o.Spin? || o.Invalid?
  {
  }

  lemma LockHalts(st: State)
    ensures var o := RunAll([CallHost(Lock)], st); o.Next? || Halts(o)
  {
    RunAllHalts([CallHost(Lock)], st);
    hide RunAll;
  }

  lemma {:induction false} RunHalts(ps: seq<Plain>, n: nat, st: State)
    requires n <= |ps| && forall p <- ps :: Aside(p)
    ensures Run(ps, n, st).Next? || Halts(Run(ps, n, st))
  {
    hide Aside;
    if n > 0 {
      RunHalts(ps, n - 1, st);
      var o := Run(ps, n - 1, st);
      if o.Next? { StepHalts(ps[n - 1], o.st); }
    }
    hide Step;
  }

  lemma StepHalts(p: Plain, st: State)
    requires Aside(p)
    ensures var o := Step(p, NO_PC, NO_PC, st); o.Next? || Halts(o)
  {
    hide Extend, Peek, Poke, ToLE;
  }

  lemma RunAllHalts(ps: seq<Plain>, st: State)
    requires forall p <- ps :: Aside(p)
    ensures RunAll(ps, st).Next? || Halts(RunAll(ps, st))
  {
    hide Run, Aside;
    RunHalts(ps, |ps|, st);
  }

  lemma {:induction false} BlockHalts(k: nat, bt: BlockType, ps: seq<Plain>, next: int, st: State)
    requires forall p <- ps :: Aside(p)
    ensures var o := ExecI(k, Block(bt, Lift(ps), NO_PC, NO_PC), next, st); o.Next? || Halts(o)
  {
    hide *;
    BlockIs(k, Block(bt, Lift(ps), NO_PC, NO_PC), next, st);
    HaltsIs(Invalid);
    if Size(st.stack) >= bt.params {
      var s := st.(stack := Take(st.stack, bt.params));
      ExecRun(k, ps, NO_PC, s);
      RunAllHalts(ps, s);
      LeaveHalts(bt.results, Under(st.stack, bt.params), RunAll(ps, s));
    }
  }

  lemma LeaveHalts(r: nat, below: Stack, o: Outcome)
    requires o.Next? || Halts(o)
    ensures var p := Leave(r, below, NO_PC, o); p.Next? || Halts(p)
  {
  }

  lemma ShadowHalts(k: nat, s: Slots, x: Access, next: int, st: State)
    ensures var o := ExecI(k, ShadowBlock(s, x), next, st); o.Next? || Halts(o)
  {
    BlockHalts(k, BT(1, 1), [LocalTee(s.base), LocalGet(s.base), OnShadow(x), LocalSet(s.ret)], next, st);
    BlockHalts(k, BT(2, 2), [LocalSet(s.value), LocalTee(s.base), LocalGet(s.value), LocalGet(s.base), LocalGet(s.value), OnShadow(x)], next, st);
    hide ExecI, Lift, Halts;
  }

  // ----- running again from the reports -----

  /** The run from the reports agrees with the program, and its memory is the recorded run's shadow. */
  ghost predicate Again(o: State, i: State, r: State) {
    r == o.(main := i.shadow, shadow := r.shadow, host := r.host, log := r.log)
  }

  /** What a report says was written. */
  function WritesOf(h: HostCall): seq<Write> {
    match ReadEntry(h)
    case NoEntry => []
    case Entry(differ, addr, width, value) => if differ then [Write(addr, ToLE(value, width))] else []
  }

  /** From number `at` on, the tape has the reports made between `h0` and `h`. */
  ghost predicate Tells(tape: Tape, at: nat, h0: seq<HostCall>, h: seq<HostCall>) {
    |h0| <= |h| && forall j: nat :: |h0| <= j < |h| ==> TellsOne(tape, at + j - |h0|, h[j])
  }

  predicate TellsOne(tape: Tape, at: nat, h: HostCall) { tape(at) == WritesOf(h) }

  lemma LandOne(m: seq<byte>, w: Write)
    ensures Land(m, [w]) == HostWrite(m, w.addr, w.data) && Land(m, []) == m
  {
    assert [w][..0] == [];
  }

  lemma ReplayedIs(x: Access, h: HostCall, st: State)
    requires ReplayedAccess(x, h, st).Next?
    ensures Step(Original(x), NO_PC, NO_PC, Landed(st, WritesOf(h))) == ReplayedAccess(x, h, st)
  {
    var e := ReadEntry(h);
    if e.Entry? { LandOne(st.main, Write(e.addr, ToLE(e.value, e.width))); }
    hide Step, ReadEntry, ToLE, Poke;
  }

  /** An access neither looks at nor changes the functions and the noted positions. */
  lemma StepFuncs(x: Access, st: State, fs: seq<WasmFn>, l: seq<Event>)
    ensures Step(Original(x), NO_PC, NO_PC, st.(funcs := fs, log := l)).Next? <==> Step(Original(x), NO_PC, NO_PC, st).Next?
    ensures Step(Original(x), NO_PC, NO_PC, st.(funcs := fs, log := l)).Invalid? <==> Step(Original(x), NO_PC, NO_PC, st).Invalid?
    ensures Step(Original(x), NO_PC, NO_PC, st).Next? ==>
      Step(Original(x), NO_PC, NO_PC, st.(funcs := fs, log := l)) == Next(Step(Original(x), NO_PC, NO_PC, st).st.(funcs := fs, log := l))
    ensures Step(Original(x), NO_PC, NO_PC, st).Next? ==>
      Step(Original(x), NO_PC, NO_PC, st).st.funcs == st.funcs && Step(Original(x), NO_PC, NO_PC, st).st.log == st.log
  {
    hide Extend, Peek, Poke, ToLE;
  }

  lemma {:induction false} FromReport(k: nat, n: nat, x: Access, end: int, o: State, i: State, r: State)
    requires ValidAccess(x) && Sim(n, o, i) && FromShadow(o, i, r)
    requires Step(Original(x), NO_PC, NO_PC, o).Next? && Exec(k, Recorded(n, x), end, i).Next?
    ensures var o1, i1 := Step(Original(x), NO_PC, NO_PC, o).st, Exec(k, Recorded(n, x), end, i).st;
      && |i1.host| == |i.host| + 1 && i1.host[..|i.host|] == i.host
      && ReplayedAccess(x, i1.host[|i.host|], r) == Next(r.(stack := o1.stack, main := i1.shadow))
  {
    hide *;
    AccessOperands(x, o);
    LoadOrStore(x);
    var i1 := Exec(k, Recorded(n, x), end, i).st;
    if x.kind.LoadK? {
      OriginalLoad(x, o.stack.top.n, o.stack.below, o);
      LoadFromReport(k, n, x, o.stack.top.n, o.stack.below, end, o, i, i1, r);
    } else {
      OriginalStore(x, o.stack.below.top.n, o.stack.top, o.stack.below.below, o);
      StoreFromReport(k, n, x, o.stack.below.top.n, o.stack.top, o.stack.below.below, end, o, i, i1, r);
    }
  }

  lemma SimIf(g: Recs, n: nat, o: State, i: State, r: State)
    requires Beside(g, n, o, i) && Again(o, i, r)
    ensures Sim(n, o.(funcs := i.funcs, log := i.log), i)
    ensures FromShadow(o.(funcs := i.funcs, log := i.log), i, r.(funcs := i.funcs, log := i.log))
  {
  }

  lemma AgainAfter(o: State, i: State, r: State, o1: State, i1: State, r1: State)
    requires Again(o, i, r) && r1 == r.(stack := o1.stack, main := i1.shadow)
    requires o1 == o.(stack := o1.stack, main := o1.main)
    ensures Again(o1, i1, r1)
  {
  }

  lemma StepStays(x: Access, st: State)
    requires Step(Original(x), NO_PC, NO_PC, st).Next?
    ensures var t := Step(Original(x), NO_PC, NO_PC, st).st; t == st.(stack := t.stack, main := t.main)
  {
    hide Extend, Peek, Poke, ToLE;
  }

  lemma ReplayedFuncs(x: Access, h: HostCall, r: State, fs: seq<WasmFn>, l: seq<Event>, t: Stack, m: seq<byte>)
    requires ReplayedAccess(x, h, r.(funcs := fs, log := l)) == Next(r.(funcs := fs, log := l, stack := t, main := m))
    ensures Step(Original(x), NO_PC, NO_PC, Landed(r, WritesOf(h))) == Next(r.(stack := t, main := m))
  {
    var r' := r.(funcs := fs, log := l);
    ReplayedIs(x, h, r');
    LandedIs(r, WritesOf(h));
    LandedIs(r', WritesOf(h));
    StepFuncs(x, Landed(r, WritesOf(h)), fs, l);
    hide Step, ReplayedAccess, WritesOf, Land, Landed;
  }

  /** One access: its report is enough to run it again. */
  lemma {:induction false} AccessAgain(g: Recs, n: nat, k: nat, x: Access, end: int, o: State, i: State, r: State)
    requires ValidAccess(x) && Beside(g, n, o, i) && Again(o, i, r)
    requires Step(Original(x), NO_PC, NO_PC, o).Next? && Exec(k, Recorded(n, x), end, i).Next?
    ensures var o1, i1 := Step(Original(x), NO_PC, NO_PC, o).st, Exec(k, Recorded(n, x), end, i).st;
      && |i1.host| == |i.host| + 1 && i1.host[..|i.host|] == i.host
      && var c := Step(Original(x), NO_PC, NO_PC, Landed(r, WritesOf(i1.host[|i.host|]))); c.Next? && Again(o1, i1, c.st)
  {
    hide *;
    var o', r' := o.(funcs := i.funcs, log := i.log), r.(funcs := i.funcs, log := i.log);
    SimIf(g, n, o, i, r);
    StepFuncs(x, o, i.funcs, i.log);
    FromReport(k, n, x, end, o', i, r');
    var o1, i1 := Step(Original(x), NO_PC, NO_PC, o).st, Exec(k, Recorded(n, x), end, i).st;
    ReplayedFuncs(x, i1.host[|i.host|], r, i.funcs, i.log, o1.stack, i1.shadow);
    StepStays(x, o);
    AgainAfter(o, i, r, o1, i1, r.(stack := o1.stack, main := i1.shadow));
  }

  // ----- the three runs -----

  /** The third run ended as the first, in the state the other two call for. */
  ghost predicate AgainOut(a: Outcome, b: Outcome, c: Outcome) {
    || (a.Next? && b.Next? && c.Next? && Again(a.st, b.st, c.st))
    || (a.Jump? && b.Jump? && c.Jump? && c.l == a.l && Again(a.st, b.st, c.st))
    || (a.Leaving? && b.Leaving? && c.Leaving? && Again(a.st, b.st, c.st))
  }

  predicate Stands(o: Outcome) { o.Next? || o.Jump? || o.Leaving? }

  /**
   * The program beside the host, the recorded program beside the host, and the program run again: the first
   * two match; reports are only added; and with what they say on its tape the third agrees, too.
   */
  ghost predicate Three(g: Recs, n: nat, h0: seq<HostCall>, re: Tape, ar: nat, a: Ran, b: Ran, c: Ran) {
    && Matched(g, n, a.o, b.o)
    && (Stands(a.o) ==>
          && Stands(b.o) && a.at == b.at && h0 <= b.o.st.host
          && (Tells(re, ar, h0, b.o.st.host) ==> AgainOut(a.o, b.o, c.o) && c.at == ar + |b.o.st.host| - |h0|))
  }

  lemma ThreeHalts(g: Recs, n: nat, h0: seq<HostCall>, re: Tape, ar: nat, a: Ran, b: Ran, c: Ran)
    requires a.o.Invalid? || (a.o.Trap? && b.o.Trap?) || (a.o.Spin? && b.o.Spin?)
    ensures Three(g, n, h0, re, ar, a, b, c)
  {
    hide Beside, Tells, Again;
  }

  lemma ThreeNow(g: Recs, n: nat, h0: seq<HostCall>, re: Tape, ar: nat, a: Ran, b: Ran, c: Ran)
    requires Three(g, n, h0, re, ar, a, b, c)
    ensures Matched(g, n, a.o, b.o)
    ensures Stands(a.o) ==> Stands(b.o) && a.at == b.at && h0 <= b.o.st.host
    ensures Stands(a.o) && Tells(re, ar, h0, b.o.st.host) ==> AgainOut(a.o, b.o, c.o) && c.at == ar + |b.o.st.host| - |h0|
  {
    hide Matched, Tells, AgainOut;
  }

  lemma ThreeIf(g: Recs, n: nat, h0: seq<HostCall>, re: Tape, ar: nat, a: Ran, b: Ran, c: Ran)
    requires Matched(g, n, a.o, b.o) && Stands(b.o) && a.at == b.at && h0 <= b.o.st.host
    requires Tells(re, ar, h0, b.o.st.host) ==> AgainOut(a.o, b.o, c.o) && c.at == ar + |b.o.st.host| - |h0|
    ensures Three(g, n, h0, re, ar, a, b, c)
  {
    hide Matched, Tells, AgainOut;
  }

  lemma StandsIs(o: Outcome)
    ensures Stands(o) <==> o.Next? || o.Jump? || o.Leaving?
  {
  }

  /** Nothing reported. */
  lemma {:induction false} ThreeSame(g: Recs, n: nat, re: Tape, at: nat, ar: nat, a: Outcome, b: Outcome, c: Outcome, h0: seq<HostCall>)
    requires Matched(g, n, a, b) && (Stands(a) ==> Stands(b) && b.st.host == h0 && AgainOut(a, b, c))
    ensures Three(g, n, h0, re, ar, Ran(a, at), Ran(b, at), Ran(c, ar))
  {
    hide Matched, Tells, AgainOut;
  }

  lemma TellsCat(re: Tape, ar: nat, h0: seq<HostCall>, h1: seq<HostCall>, h2: seq<HostCall>)
    requires h0 <= h1 <= h2
    ensures Tells(re, ar, h0, h2) ==> Tells(re, ar, h0, h1) && Tells(re, ar + |h1| - |h0|, h1, h2)
  {
    hide TellsOne;
    if Tells(re, ar, h0, h2) {
      forall j: nat | |h0| <= j < |h1| ensures TellsOne(re, ar + j - |h0|, h1[j]) { assert TellsOne(re, ar + j - |h0|, h2[j]); }
      forall j: nat | |h1| <= j < |h2| ensures TellsOne(re, ar + |h1| - |h0| + j - |h1|, h2[j]) {
        assert TellsOne(re, ar + j - |h0|, h2[j]);
      }
    }
  }

  /** The third run's state if it is the one called for, or else that one. */
  ghost function Pick(a: State, b: State, c: Outcome): State {
    if Stands(c) && Again(a, b, c.st) then c.st else a.(main := b.shadow)
  }

  lemma PickIs(a: State, b: State, c: Outcome)
    ensures Again(a, b, Pick(a, b, c))
    ensures Stands(c) && Again(a, b, c.st) ==> Pick(a, b, c) == c.st
  {
  }

  lemma AgainOutNow(a: Outcome, b: Outcome, c: Outcome)
    requires AgainOut(a, b, c)
    ensures Stands(a) && Stands(b) && Stands(c) && Again(a.st, b.st, c.st)
    ensures (a.Next? <==> c.Next?) && (a.Jump? <==> c.Jump?) && (a.Leaving? <==> c.Leaving?)
    ensures a.Jump? ==> c.l == a.l
  {
    hide Again;
  }

  /**
   * One run after another: the parts fit together if the second part starts where the first one ended.
   */
  lemma {:induction false} ThreeCat(g: Recs, n: nat, h0: seq<HostCall>, re: Tape, ar: nat, a1: Ran, b1: Ran, c1: Ran,
                                    a2: Ran, b2: Ran, c2: Ran, c: Ran)
    requires Three(g, n, h0, re, ar, a1, b1, c1) && Stands(a1.o) && Stands(b1.o)
    requires h0 <= b1.o.st.host && Three(g, n, b1.o.st.host, re, ar + |b1.o.st.host| - |h0|, a2, b2, c2)
    requires AgainOut(a1.o, b1.o, c1.o) && c1.at == ar + |b1.o.st.host| - |h0| ==> c == c2
    ensures Three(g, n, h0, re, ar, a2, b2, c)
  {
    hide *;
    StandsIs(b1.o);
    var h1, ar1 := b1.o.st.host, ar + |b1.o.st.host| - |h0|;
    ThreeNow(g, n, h0, re, ar, a1, b1, c1);
    ThreeNow(g, n, h1, re, ar1, a2, b2, c2);
    StandsIs(b2.o);
    if Stands(a2.o) {
      TellsCat(re, ar, h0, h1, b2.o.st.host);
      ThreeIf(g, n, h0, re, ar, a2, b2, c);
    } else {
      NotStanding(g, n, a2.o, b2.o);
      ThreeHalts(g, n, h0, re, ar, a2, b2, c);
    }
  }

  lemma NotStanding(g: Recs, n: nat, a: Outcome, b: Outcome)
    requires Matched(g, n, a, b) && !Stands(a)
    ensures a.Invalid? || (a.Trap? && b.Trap?) || (a.Spin? && b.Spin?)
  {
    hide Beside;
  }

  /** What is done with all three outcomes. */
  lemma {:induction false} ThreeMap(g: Recs, n: nat, n': nat, h0: seq<HostCall>, re: Tape, ar: nat, a: Ran, b: Ran, c: Ran, a': Ran, b': Ran, c': Ran)
    requires Three(g, n, h0, re, ar, a, b, c) && Matched(g, n', a'.o, b'.o)
    requires Stands(a'.o) ==> Stands(a.o) && Stands(b.o) && Stands(b'.o) && a'.at == a.at && b'.at == b.at && b'.o.st.host == b.o.st.host
    requires Stands(a'.o) && AgainOut(a.o, b.o, c.o) ==> AgainOut(a'.o, b'.o, c'.o) && c'.at == c.at
    ensures Three(g, n', h0, re, ar, a', b', c')
  {
    hide *;
    ThreeNow(g, n, h0, re, ar, a, b, c);
    if Stands(a'.o) {
      StandsIs(b.o);
      StandsIs(b'.o);
      ThreeIf(g, n', h0, re, ar, a', b', c');
    } else {
      NotStanding(g, n', a'.o, b'.o);
      ThreeHalts(g, n', h0, re, ar, a', b', c');
    }
  }

  // ----- one instruction -----

  lemma LandBeside(g: Recs, n: nat, o: State, i: State, r: State, ws: seq<Write>)
    requires Beside(g, n, o, i) && Again(o, i, r)
    ensures Beside(g, n, Landed(o, ws), Landed(i, ws)) && Again(Landed(o, ws), Landed(i, ws), r) && Landed(i, ws).host == i.host
  {
    hide Land;
  }

  lemma AccessEnds(x: Access, st: State)
    ensures var o := Step(Original(x), NO_PC, NO_PC, st); o.Next? || o.Trap? || o.Invalid?
  {
    hide Extend, Peek, Poke, ToLE;
  }

  lemma TellsFirst(re: Tape, ar: nat, h0: seq<HostCall>, h: seq<HostCall>)
    requires |h| == |h0| + 1 && Tells(re, ar, h0, h)
    ensures re(ar) == WritesOf(h[|h0|])
  {
    hide WritesOf;
    assert TellsOne(re, ar + |h0| - |h0|, h[|h0|]);
  }

  lemma NextAgain(a: State, b: Outcome, c: Outcome)
    requires b.Next? && c.Next? && Again(a, b.st, c.st)
    ensures AgainOut(Next(a), b, c)
  {
    hide Again;
  }

  lemma {:induction false} AccessThree(g: Recs, n: nat, k: nat, x: Instr, idx: nat, next: int, end: int, o: State, i: State, r: State,
                                       tape: Tape, at: nat, re: Tape, ar: nat)
    requires IsAccess(InsT(x)) && Beside(g, n, o, i) && Again(o, i, r)
    ensures Three(g, n, i.host, re, ar, HostedI(k, x, next, o, tape, at), Hosted(k, Around(n, x, idx), end, i, tape, at), HostedI(k, x, next, r, re, ar))
  {
    hide *;
    var y := AccessOf(InsT(x), idx);
    var o', i' := Landed(o, tape(at)), Landed(i, tape(at));
    HostedAccess(k, x, next, o, tape, at);
    HostedAccess(k, x, next, r, re, ar);
    AroundHosted(k, n, x, idx, end, i, tape, at);
    LandBeside(g, n, o, i, r, tape(at));
    AccessMatched(g, n, k, x, idx, next, end, o', i');
    AroundRuns(k, n, x, idx, end, i');
    StepAny(x, idx, next, next, k, o');
    StepAny(x, idx, next, next, k, Landed(r, re(ar)));
    AccessEnds(y, o');
    var a, b, c := HostedI(k, x, next, o, tape, at), Hosted(k, Around(n, x, idx), end, i, tape, at), HostedI(k, x, next, r, re, ar);
    MatchedNext(g, n, a.o, b.o);
    StandsIs(a.o);
    StandsIs(b.o);
    if a.o.Next? {
      ValidIs(x, idx);
      AccessAgain(g, n, k, y, end, o', i', r);
      if Tells(re, ar, i.host, b.o.st.host) {
        TellsFirst(re, ar, i.host, b.o.st.host);
        NextAgain(a.o.st, b.o, c.o);
      }
      PrefixIs(i.host, b.o.st.host);
      ThreeIf(g, n, i.host, re, ar, a, b, c);
    } else {
      NotStanding(g, n, a.o, b.o);
      ThreeHalts(g, n, i.host, re, ar, a, b, c);
    }
  }

  lemma PrefixIs(h0: seq<HostCall>, h: seq<HostCall>)
    requires |h| == |h0| + 1 && h[..|h0|] == h0
    ensures h0 <= h
  {
  }

  lemma ValidIs(x: Instr, idx: nat)
    requires IsAccess(InsT(x))
    ensures ValidAccess(AccessOf(InsT(x), idx))
  {
  }

  /** Steps on a function's own data, in all three runs. */
  lemma {:induction false} OwnAgain(g: Recs, n: nat, p: Plain, pc: int, next: int, next2: int, o: State, i: State, r: State)
    requires Own(p, n) && Beside(g, n, o, i) && Again(o, i, r) && Step(p, pc, next, o).Next?
    ensures var a, b, c := Step(p, pc, next, o), Step(p, pc, next2, i), Step(p, pc, next, r);
      b.Next? && b.st.host == i.host && AgainOut(a, b, c)
  {
    hide Step, Own;
    StepPlace(p, n, pc, next, next2, i);
    OwnFrame(n, p, pc, next, o, i);
    assert r.locals[..n] == r.locals;
    OwnFrame(n, p, pc, next, o, r);
    var a := Step(p, pc, next, o);
    assert a.st.locals + r.locals[n..] == a.st.locals;
  }

  lemma OwnEnds(p: Plain, n: nat, pc: int, next: int, o: State)
    requires Own(p, n)
    ensures var a := Step(p, pc, next, o); a.Next? || a.Invalid?
  {
  }

  lemma BranchAgain(g: Recs, n: nat, p: Plain, pc: int, next: int, next2: int, o: State, i: State, r: State)
    requires (p.Unreachable? || p.Br? || p.BrIf? || p.BrTable?) && Beside(g, n, o, i) && Again(o, i, r)
    requires Stands(Step(p, pc, next, o))
    ensures var a, b, c := Step(p, pc, next, o), Step(p, pc, next2, i), Step(p, pc, next, r);
      Stands(b) && b.st.host == i.host && AgainOut(a, b, c)
  {
    hide Arrive;
  }

  lemma {:induction false} PlainThree(g: Recs, n: nat, k: nat, x: Instr, next: int, end: int, o: State, i: State, r: State,
                                      tape: Tape, at: nat, re: Tape, ar: nat)
    requires x.Do? && RecordableI(n, x) && !IsAccess(InsT(x)) && Beside(g, n, o, i) && Again(o, i, r)
    ensures Three(g, n, i.host, re, ar, HostedI(k, x, next, o, tape, at), HostedI(k, x, end, i, tape, at), HostedI(k, x, next, r, re, ar))
  {
    hide *;
    RecordableIs(n, x);
    HostedPlain(k, x, next, o, tape, at);
    HostedPlain(k, x, end, i, tape, at);
    HostedPlain(k, x, next, r, re, ar);
    DoIs(k, x, next, o);
    DoIs(k, x, end, i);
    DoIs(k, x, next, r);
    var a, b, c := Step(x.p, x.pc, next, o), Step(x.p, x.pc, end, i), Step(x.p, x.pc, next, r);
    StandsIs(a);
    StandsIs(b);
    if Own(x.p, n) {
      OwnEnds(x.p, n, x.pc, next, o);
      OwnMatched(g, n, x.p, x.pc, next, end, o, i);
      if a.Next? { OwnAgain(g, n, x.p, x.pc, next, end, o, i, r); }
    } else {
      BranchMatched(g, n, x.p, x.pc, next, end, o, i);
      if Stands(a) { BranchAgain(g, n, x.p, x.pc, next, end, o, i, r); }
    }
    ThreeSame(g, n, re, at, ar, a, b, c, i.host);
  }

  lemma RecordableParts(n: nat, code: seq<Instr>)
    requires code != [] && Recordable(n, code)
    ensures RecordableI(n, code[0]) && Recordable(n, code[1..])
  {
    hide RecordableI;
  }

  lemma RecordableIs(n: nat, i: Instr)
    requires RecordableI(n, i)
    ensures !i.Call? && (i.Block? || i.Loop? ==> Recordable(n, i.body))
    ensures i.Do? ==> IsAccess(InsT(i)) || Own(i.p, n) || i.p.Unreachable? || i.p.Br? || i.p.BrIf? || i.p.BrTable?
    ensures IsAccess(InsT(i)) ==> i.Do?
  {
    hide Recordable, Own;
  }

  lemma LeavingThree(g: Recs, n: nat, o: State, i: State, r: State, re: Tape, at: nat, ar: nat)
    requires Beside(g, n, o, i) && Again(o, i, r)
    ensures Three(g, n, i.host, re, ar, Ran(Leaving(o), at), Ran(Leaving(i), at), Ran(Leaving(r), ar))
  {
    hide Beside, Again, Tells;
    ThreeSame(g, n, re, at, ar, Leaving(o), Leaving(i), Leaving(r), i.host);
  }

  lemma NextThree(g: Recs, n: nat, o: State, i: State, r: State, re: Tape, at: nat, ar: nat)
    requires Beside(g, n, o, i) && Again(o, i, r)
    ensures Three(g, n, i.host, re, ar, Ran(Next(o), at), Ran(Next(i), at), Ran(Next(r), ar))
  {
    hide Beside, Again, Tells;
    ThreeSame(g, n, re, at, ar, Next(o), Next(i), Next(r), i.host);
  }

  // ----- blocks and loops -----

  lemma StackAgain(o: State, i: State, r: State, s: Stack)
    requires Again(o, i, r)
    ensures Again(o.(stack := s), i.(stack := s), r.(stack := s)) && r.stack == o.stack
  {
  }

  lemma {:induction false} LeaveAgain(r: nat, below: Stack, d: int, d2: int, a: Outcome, b: Outcome, c: Outcome)
    requires AgainOut(a, b, c) && b.st.stack == a.st.stack && (a.Jump? ==> a.l == b.l) && Stands(Leave(r, below, d, a))
    ensures Stands(Leave(r, below, d2, b)) && Leave(r, below, d2, b).st.host == b.st.host
    ensures AgainOut(Leave(r, below, d, a), Leave(r, below, d2, b), Leave(r, below, d, c))
  {
    hide Append, Take, Size, Arrive;
  }

  lemma LeaveStands(r: nat, below: Stack, d: int, a: Outcome)
    ensures Stands(Leave(r, below, d, a)) ==> Stands(a)
  {
  }

  lemma LeaveHost(r: nat, below: Stack, d: int, d2: int, a: Outcome, b: Outcome)
    requires Stands(a) && Stands(b) && b.st.stack == a.st.stack && (a.Next? <==> b.Next?) && (a.Jump? <==> b.Jump?)
    requires (a.Jump? ==> a.l == b.l) && Stands(Leave(r, below, d, a))
    ensures Stands(Leave(r, below, d2, b)) && Leave(r, below, d2, b).st.host == b.st.host
  {
    hide Append, Take, Size, Arrive;
  }

  lemma SameKind(g: Recs, n: nat, a: Outcome, b: Outcome)
    requires Matched(g, n, a, b) && Stands(a)
    ensures Stands(b) && b.st.stack == a.st.stack && (a.Next? <==> b.Next?) && (a.Jump? <==> b.Jump?) && (a.Leaving? <==> b.Leaving?)
    ensures a.Jump? ==> a.l == b.l
    ensures Beside(g, n, a.st, b.st)
  {
  }

  lemma {:induction false} LeaveThree(g: Recs, n: nat, h0: seq<HostCall>, re: Tape, ar: nat, r: nat, below: Stack, d: int, a: Ran, b: Ran, c: Ran)
    requires Three(g, n, h0, re, ar, a, b, c)
    ensures Three(g, n, h0, re, ar, Ran(Leave(r, below, d, a.o), a.at), Ran(Leave(r, below, d, b.o), b.at), Ran(Leave(r, below, d, c.o), c.at))
  {
    hide *;
    ThreeNow(g, n, h0, re, ar, a, b, c);
    LeaveMatched(g, n, r, below, d, d, a.o, b.o);
    LeaveStands(r, below, d, a.o);
    StandsIs(a.o);
    StandsIs(b.o);
    StandsIs(Leave(r, below, d, b.o));
    if Stands(Leave(r, below, d, a.o)) {
      SameKind(g, n, a.o, b.o);
      LeaveHost(r, below, d, d, a.o, b.o);
      if AgainOut(a.o, b.o, c.o) { LeaveAgain(r, below, d, d, a.o, b.o, c.o); }
    }
    ThreeMap(g, n, n, h0, re, ar, a, b, c, Ran(Leave(r, below, d, a.o), a.at), Ran(Leave(r, below, d, b.o), b.at),
             Ran(Leave(r, below, d, c.o), c.at));
  }

  lemma TurnedIs(x: Instr, st: State, o: Outcome)
    requires x.Loop? && x.bt.params <= Size(st.stack) && !Restarts(x, o)
    ensures o.Jump? && o.l > 0 ==> Turned(x, st, o) == Jump(o.l - 1, o.st, o.src)
    ensures o.Jump? && o.l == 0 ==> Turned(x, st, o) == Invalid
    ensures !o.Jump? ==> Turned(x, st, o) == Leave(x.bt.results, Under(st.stack, x.bt.params), x.end, o)
  {
    hide Leave;
  }

  lemma RestartsIs(x: Instr, o: Outcome)
    requires x.Loop?
    ensures Restarts(x, o) <==> o.Jump? && o.l == 0 && x.bt.params <= Size(o.st.stack)
  {
    hide Size;
  }

  lemma JumpsAgain(g: Recs, n: nat, a: Outcome, b: Outcome, c: Outcome)
    requires a.Jump? && a.l > 0 && Matched(g, n, a, b)
    ensures b.Jump? && b.l == a.l && Matched(g, n, Jump(a.l - 1, a.st, a.src), Jump(b.l - 1, b.st, b.src))
    ensures AgainOut(a, b, c) ==> c.Jump? && c.l == a.l && AgainOut(Jump(a.l - 1, a.st, a.src), Jump(b.l - 1, b.st, b.src), Jump(c.l - 1, c.st, c.src))
  {
    hide Beside, Again;
  }

  /** A turn that does not start the loop over. */
  lemma {:induction false} TurnedThree(g: Recs, n: nat, h0: seq<HostCall>, re: Tape, ar: nat, x: Instr, y: Instr, o: State, i: State, r: State,
                                       a: Ran, b: Ran, c: Ran, c': Ran)
    requires x.Loop? && y.Loop? && y.bt == x.bt && y.end == x.end && i.stack == o.stack && r.stack == o.stack
    requires x.bt.params <= Size(o.stack) && Three(g, n, h0, re, ar, a, b, c) && !Restarts(x, a.o) && !Restarts(y, b.o)
    requires !Restarts(x, c.o) ==> c' == Ran(Turned(x, r, c.o), c.at)
    ensures Three(g, n, h0, re, ar, Ran(Turned(x, o, a.o), a.at), Ran(Turned(y, i, b.o), b.at), c')
  {
    hide *;
    ThreeNow(g, n, h0, re, ar, a, b, c);
    TurnedIs(x, o, a.o);
    TurnedIs(y, i, b.o);
    RestartsIs(x, a.o);
    RestartsIs(x, c.o);
    var a', b' := Ran(Turned(x, o, a.o), a.at), Ran(Turned(y, i, b.o), b.at);
    if !Restarts(x, c.o) { TurnedIs(x, r, c.o); }
    if a.o.Jump? && a.o.l == 0 {
      ThreeHalts(g, n, h0, re, ar, a', b', c');
    } else if a.o.Jump? {
      JumpsAgain(g, n, a.o, b.o, c.o);
      StandsIs(a.o);
      StandsIs(b.o);
      StandsIs(b'.o);
      ThreeMap(g, n, n, h0, re, ar, a, b, c, a', b', c');
    } else {
      LeaveTurned(g, n, h0, re, ar, x, y, o, i, r, a, b, c, c');
    }
  }

  lemma {:induction false} LeaveTurned(g: Recs, n: nat, h0: seq<HostCall>, re: Tape, ar: nat, x: Instr, y: Instr, o: State, i: State, r: State,
                                       a: Ran, b: Ran, c: Ran, c': Ran)
    requires x.Loop? && y.Loop? && y.bt == x.bt && y.end == x.end && i.stack == o.stack && r.stack == o.stack
    requires x.bt.params <= Size(o.stack) && Three(g, n, h0, re, ar, a, b, c) && !a.o.Jump? && !Restarts(y, b.o)
    requires !Restarts(x, c.o) ==> c' == Ran(Turned(x, r, c.o), c.at)
    ensures Three(g, n, h0, re, ar, Ran(Leave(x.bt.results, Under(o.stack, x.bt.params), x.end, a.o), a.at), Ran(Turned(y, i, b.o), b.at), c')
  {
    hide *;
    var re', below := x.bt.results, Under(o.stack, x.bt.params);
    ThreeNow(g, n, h0, re, ar, a, b, c);
    var a', b' := Ran(Leave(re', below, x.end, a.o), a.at), Ran(Turned(y, i, b.o), b.at);
    if a.o.Invalid? {
      LeaveInvalid(re', below, x.end);
      ThreeHalts(g, n, h0, re, ar, a', b', c');
    } else {
      MatchedNext(g, n, a.o, b.o);
      TurnedIs(y, i, b.o);
      LeaveMatched(g, n, re', below, x.end, x.end, a.o, b.o);
      LeaveStands(re', below, x.end, a.o);
      StandsIs(a.o);
      StandsIs(b.o);
      StandsIs(b'.o);
      if Stands(a'.o) {
        SameKind(g, n, a.o, b.o);
        LeaveHost(re', below, x.end, x.end, a.o, b.o);
        if AgainOut(a.o, b.o, c.o) {
          AgainOutNow(a.o, b.o, c.o);
          StandsIs(c.o);
          RestartsIs(x, c.o);
          TurnedIs(x, r, c.o);
          LeaveAgain(re', below, x.end, x.end, a.o, b.o, c.o);
        }
      }
      ThreeMap(g, n, n, h0, re, ar, a, b, c, a', b', c');
    }
  }

  lemma LeaveInvalid(r: nat, below: Stack, dst: int)
    ensures Leave(r, below, dst, Invalid) == Invalid
  {
  }

  lemma {:induction false} RestartThree(g: Recs, n: nat, x: Instr, y: Instr, o: State, i: State, r: State, a: Outcome, b: Outcome, c: Outcome)
    requires x.Loop? && y.Loop? && y.bt == x.bt && i.stack == o.stack && r.stack == o.stack && x.bt.params <= Size(o.stack)
    requires Restarts(x, a) && Restarts(y, b) && Beside(g, n, a.st, b.st)
    ensures Beside(g, n, Restart(x, o, a), Restart(y, i, b)) && Restart(y, i, b).host == b.st.host
    ensures AgainOut(a, b, c) ==> Restarts(x, c) && Again(Restart(x, o, a), Restart(y, i, b), Restart(x, r, c))
  {
    hide Append, Take, Under, Size, Arrive;
  }

  // ----- calls -----

  /** The third run calls the same function. */
  lemma {:induction false} DispatchAgain(x: Instr, o: State, i: State, r: State)
    requires (x.CallFn? || x.CallTable?) && Again(o, i, r) && i.stack == o.stack && i.table == o.table
    requires var a, b := Dispatched(x, o), Dispatched(x, i); a.Goes? && b.Goes?
    ensures var a, b, c := Dispatched(x, o), Dispatched(x, i), Dispatched(x, r);
      c.Goes? && c.f == a.f && Again(a.s, b.s, c.s) && b.s.host == i.host
  {
    hide Arrive, Size;
  }

  lemma FrameAgain(f: nat, s: State, t: State, u: State)
    requires Again(s, t, u) && f < |s.funcs| && f < |t.funcs| && t.stack == s.stack
    requires |s.funcs[f].ty.params| <= Size(s.stack) && |t.funcs[f].ty.params| <= Size(t.stack)
    ensures f < |u.funcs| && |u.funcs[f].ty.params| <= Size(u.stack) && u.funcs == s.funcs
    ensures Again(Frame(s, f), Frame(t, f), Frame(u, f)) && Frame(t, f).host == t.host
  {
    hide Args, Take, Size;
  }

  lemma {:induction false} LeaveFnAgain(f: nat, s: State, t: State, u: State, a: Outcome, b: Outcome, c: Outcome)
    requires Again(s, t, u) && f < |s.funcs| && f < |t.funcs| && f < |u.funcs| && t.stack == s.stack
    requires |s.funcs[f].ty.params| <= Size(s.stack) && |t.funcs[f].ty.params| <= Size(t.stack) && |u.funcs[f].ty.params| <= Size(u.stack)
    requires t.funcs[f].ty == s.funcs[f].ty && t.funcs[f].end == s.funcs[f].end && AgainOut(a, b, c)
    requires Stands(LeaveFn(s, f, a)) && Stands(LeaveFn(t, f, b))
    ensures AgainOut(LeaveFn(s, f, a), LeaveFn(t, f, b), LeaveFn(u, f, c))
  {
    hide Append, Under, Take, Size, Arrive;
  }

  lemma LeaveFnStands(f: nat, s: State, a: Outcome)
    requires f < |s.funcs| && |s.funcs[f].ty.params| <= Size(s.stack)
    ensures Stands(LeaveFn(s, f, a)) ==> Stands(a) && LeaveFn(s, f, a).Next? && LeaveFn(s, f, a).st.host == a.st.host
  {
    hide Append, Under, Take, Size, Arrive;
  }

  lemma {:induction false} LeaveFnThree(g: Recs, n: nat, f: nat, s: State, t: State, u: State, h0: seq<HostCall>, re: Tape, ar: nat, a: Ran, b: Ran, c: Ran)
    requires RecordedProgram(g) && Beside(g, n, s, t) && Again(s, t, u) && f < |g.fs|
    requires f < |s.funcs| && f < |t.funcs| && f < |u.funcs| && t.stack == s.stack
    requires |s.funcs[f].ty.params| <= Size(s.stack) && |t.funcs[f].ty.params| <= Size(t.stack) && |u.funcs[f].ty.params| <= Size(u.stack)
    requires Three(g, Own0(g.fs[f]), h0, re, ar, a, b, c)
    ensures Three(g, n, h0, re, ar, Ran(LeaveFn(s, f, a.o), a.at), Ran(LeaveFn(t, f, b.o), b.at), Ran(LeaveFn(u, f, c.o), c.at))
  {
    hide *;
    var m := Own0(g.fs[f]);
    ThreeNow(g, m, h0, re, ar, a, b, c);
    BesideNow(g, n, s, t);
    FnNow(g, f);
    LeaveFnMatched(g, n, f, s, t, a.o, b.o);
    LeaveFnStands(f, s, a.o);
    LeaveFnStands(f, t, b.o);
    var a', b', c' := Ran(LeaveFn(s, f, a.o), a.at), Ran(LeaveFn(t, f, b.o), b.at), Ran(LeaveFn(u, f, c.o), c.at);
    StandsIs(b.o);
    StandsIs(b'.o);
    if Stands(a'.o) {
      SameKind(g, n, a'.o, b'.o);
      if AgainOut(a.o, b.o, c.o) { LeaveFnAgain(f, s, t, u, a.o, b.o, c.o); }
    }
    ThreeMap(g, m, n, h0, re, ar, a, b, c, a', b', c');
  }

  // ----- code -----

  /** Any code: alone, recorded, and run again from what was reported. */
  lemma {:induction false} CodeThree(g: Recs, k: nat, n: nat, code: seq<Instr>, idx: nat, end: int, end2: int, o: State, i: State, r: State,
                                     tape: Tape, at: nat, re: Tape, ar: nat)
    requires RecordedProgram(g) && Recordable(n, code) && Beside(g, n, o, i) && Again(o, i, r)
    ensures Three(g, n, i.host, re, ar, Hosted(k, code, end, o, tape, at), Hosted(k, RecCode(n, code, idx), end2, i, tape, at),
                  Hosted(k, code, end, r, re, ar))
    decreases k, 1, code, 2
  {
    hide *;
    CodeParts(n, code, idx);
    if code == [] {
      HostedNone(k, end, o, tape, at);
      HostedNone(k, end2, i, tape, at);
      HostedNone(k, end, r, re, ar);
      NextThree(g, n, o, i, r, re, at, ar);
    } else {
      var x, next, idx' := code[0], PcAt(code[1..], end), idx + Accesses(FlattenI(code[0]));
      var tail := RecCode(n, code[1..], idx');
      RecordableParts(n, code);
      HostedHead(k, code, end, o, tape, at);
      HostedHead(k, code, end, r, re, ar);
      HostedCat(k, RecI(n, x, idx), tail, end2, i, tape, at);
      InstrThree(g, k, n, x, idx, next, PcAt(tail, end2), o, i, r, tape, at, re, ar);
      var a, b := HostedI(k, x, next, o, tape, at), Hosted(k, RecI(n, x, idx), PcAt(tail, end2), i, tape, at);
      var c := HostedI(k, x, next, r, re, ar);
      ThreeNow(g, n, i.host, re, ar, a, b, c);
      MatchedNext(g, n, a.o, b.o);
      StandsIs(a.o);
      StandsIs(b.o);
      if a.o.Next? {
        var r1 := Pick(a.o.st, b.o.st, c.o);
        PickIs(a.o.st, b.o.st, c.o);
        var ar1: nat := ar + |b.o.st.host| - |i.host|;
        CodeThree(g, k, n, code[1..], idx', end, end2, a.o.st, b.o.st, r1, tape, a.at, re, ar1);
        if AgainOut(a.o, b.o, c.o) { AgainOutNow(a.o, b.o, c.o); }
        ThreeCat(g, n, i.host, re, ar, a, b, c, Hosted(k, code[1..], end, a.o.st, tape, a.at), Hosted(k, tail, end2, b.o.st, tape, b.at),
                 Hosted(k, code[1..], end, r1, re, ar1), Hosted(k, code, end, r, re, ar));
      } else {
        CodeStops(g, n, i.host, re, ar, a, b, c, Hosted(k, RecCode(n, code, idx), end2, i, tape, at), Hosted(k, code, end, r, re, ar));
      }
    }
  }

  lemma {:induction false} CodeStops(g: Recs, n: nat, h0: seq<HostCall>, re: Tape, ar: nat, a: Ran, b: Ran, c: Ran, b': Ran, c': Ran)
    requires Three(g, n, h0, re, ar, a, b, c) && !a.o.Next? && (!b.o.Next? ==> b' == b) && (!c.o.Next? ==> c' == c)
    ensures Three(g, n, h0, re, ar, a, b', c')
  {
    hide *;
    ThreeNow(g, n, h0, re, ar, a, b, c);
    MatchedNext(g, n, a.o, b.o);
    if a.o.Invalid? {
      ThreeHalts(g, n, h0, re, ar, a, b', c');
    } else {
      if AgainOut(a.o, b.o, c.o) { AgainOutNow(a.o, b.o, c.o); }
      StandsIs(b.o);
      ThreeMap(g, n, n, h0, re, ar, a, b, c, a, b', c');
    }
  }

  lemma {:induction false} InstrThree(g: Recs, k: nat, n: nat, x: Instr, idx: nat, next: int, end: int, o: State, i: State, r: State,
                                      tape: Tape, at: nat, re: Tape, ar: nat)
    requires RecordedProgram(g) && RecordableI(n, x) && Beside(g, n, o, i) && Again(o, i, r)
    ensures Three(g, n, i.host, re, ar, HostedI(k, x, next, o, tape, at), Hosted(k, RecI(n, x, idx), end, i, tape, at), HostedI(k, x, next, r, re, ar))
    decreases k, 1, x, 1
  {
    hide *;
    RecordableIs(n, x);
    RecIs(n, x, idx);
    if IsAccess(InsT(x)) {
      AccessThree(g, n, k, x, idx, next, end, o, i, r, tape, at, re, ar);
    } else {
      var y := RecI(n, x, idx)[0];
      HostedOne(k, y, end, i, tape, at);
      Kinds(x);
      if x.Do? {
        PlainThree(g, n, k, x, next, end, o, i, r, tape, at, re, ar);
      } else if x.ReturnOp? {
        HostedPlain(k, x, next, o, tape, at);
        HostedPlain(k, x, end, i, tape, at);
        HostedPlain(k, x, next, r, re, ar);
        DoIs(k, x, next, o);
        DoIs(k, x, end, i);
        DoIs(k, x, next, r);
        LeavingThree(g, n, o, i, r, re, at, ar);
      } else if x.Block? {
        BlockThree(g, k, n, x, idx, next, end, o, i, r, tape, at, re, ar);
      } else if x.Loop? {
        LoopThree(g, k, n, x, idx, next, end, o, i, r, tape, at, re, ar);
      } else {
        CallThree(g, k, n, x, next, end, o, i, r, tape, at, re, ar);
      }
    }
  }

  lemma {:induction false} BlockThree(g: Recs, k: nat, n: nat, x: Instr, idx: nat, next: int, end: int, o: State, i: State, r: State,
                                      tape: Tape, at: nat, re: Tape, ar: nat)
    requires RecordedProgram(g) && x.Block? && Recordable(n, x.body) && Beside(g, n, o, i) && Again(o, i, r)
    ensures var y := Block(x.bt, RecCode(n, x.body, idx), x.pc, x.end);
      Three(g, n, i.host, re, ar, HostedI(k, x, next, o, tape, at), HostedI(k, y, end, i, tape, at), HostedI(k, x, next, r, re, ar))
    decreases k, 1, x, 0
  {
    hide *;
    var y := Block(x.bt, RecCode(n, x.body, idx), x.pc, x.end);
    BesideNow(g, n, o, i);
    HostedBlock(k, x, next, o, tape, at);
    HostedBlock(k, y, end, i, tape, at);
    HostedBlock(k, x, next, r, re, ar);
    var a, b, c := HostedI(k, x, next, o, tape, at), HostedI(k, y, end, i, tape, at), HostedI(k, x, next, r, re, ar);
    if Size(o.stack) < x.bt.params {
      ThreeHalts(g, n, i.host, re, ar, a, b, c);
    } else {
      var s := Take(o.stack, x.bt.params);
      var o1, i1, r1 := o.(stack := s), i.(stack := s), r.(stack := s);
      StackBeside(g, n, o, i, s);
      StackAgain(o, i, r, s);
      CodeThree(g, k, n, x.body, idx, x.end, x.end, o1, i1, r1, tape, at, re, ar);
      LeaveThree(g, n, i.host, re, ar, x.bt.results, Under(o.stack, x.bt.params), x.end, Hosted(k, x.body, x.end, o1, tape, at),
                 Hosted(k, y.body, x.end, i1, tape, at), Hosted(k, x.body, x.end, r1, re, ar));
    }
  }

  lemma {:induction false} LoopThree(g: Recs, k: nat, n: nat, x: Instr, idx: nat, next: int, end: int, o: State, i: State, r: State,
                                     tape: Tape, at: nat, re: Tape, ar: nat)
    requires RecordedProgram(g) && x.Loop? && Recordable(n, x.body) && Beside(g, n, o, i) && Again(o, i, r)
    ensures var y := Loop(x.bt, RecCode(n, x.body, idx), x.pc, x.end);
      Three(g, n, i.host, re, ar, HostedI(k, x, next, o, tape, at), HostedI(k, y, end, i, tape, at), HostedI(k, x, next, r, re, ar))
    decreases k, 1, x, 0
  {
    hide *;
    var y := Loop(x.bt, RecCode(n, x.body, idx), x.pc, x.end);
    BesideNow(g, n, o, i);
    HostedLoop(k, x, next, o, tape, at);
    HostedLoop(k, y, end, i, tape, at);
    HostedLoop(k, x, next, r, re, ar);
    var A, B, C := HostedI(k, x, next, o, tape, at), HostedI(k, y, end, i, tape, at), HostedI(k, x, next, r, re, ar);
    if Size(o.stack) < x.bt.params {
      ThreeHalts(g, n, i.host, re, ar, A, B, C);
    } else {
      var s := Take(o.stack, x.bt.params);
      var o1, i1, r1 := o.(stack := s), i.(stack := s), r.(stack := s);
      StackBeside(g, n, o, i, s);
      StackAgain(o, i, r, s);
      CodeThree(g, k, n, x.body, idx, x.end, x.end, o1, i1, r1, tape, at, re, ar);
      var a, b := Hosted(k, x.body, x.end, o1, tape, at), Hosted(k, y.body, x.end, i1, tape, at);
      var c := Hosted(k, x.body, x.end, r1, re, ar);
      SameTurns(g, n, i.host, re, ar, x, y, a, b, c);
      if a.o.Invalid? {
        TurnInvalid(x, o);
        RestartsIs(x, a.o);
        ThreeHalts(g, n, i.host, re, ar, A, B, C);
      } else if !Restarts(x, a.o) {
        TurnedThree(g, n, i.host, re, ar, x, y, o, i, r, a, b, c, C);
      } else if k == 0 {
        ThreeHalts(g, n, i.host, re, ar, A, B, C);
      } else {
        RestartThree(g, n, x, y, o, i, r, a.o, b.o, c.o);
        var ra, rb := Restart(x, o, a.o), Restart(y, i, b.o);
        ghost var rc := if AgainOut(a.o, b.o, c.o) then Restart(x, r, c.o) else ra.(main := rb.shadow);
        AgainPlain(ra, rb);
        ThreeNow(g, n, i.host, re, ar, a, b, c);
        RestartsIs(x, a.o);
        RestartsIs(y, b.o);
        StandsIs(a.o);
        StandsIs(b.o);
        var ar1: nat := ar + |b.o.st.host| - |i.host|;
        LoopThree(g, k - 1, n, x, idx, next, end, ra, rb, rc, tape, a.at, re, ar1);
        ThreeCat(g, n, i.host, re, ar, a, b, c, HostedI(k - 1, x, next, ra, tape, a.at), HostedI(k - 1, y, end, rb, tape, b.at),
                 HostedI(k - 1, x, next, rc, re, ar1), C);
      }
    }
  }

  lemma AgainPlain(a: State, b: State)
    ensures Again(a, b, a.(main := b.shadow))
  {
  }

  lemma TurnInvalid(x: Instr, st: State)
    requires x.Loop? && x.bt.params <= Size(st.stack)
    ensures Turned(x, st, Invalid) == Invalid
  {
  }

  /** The recorded loop starts over when the program's does. */
  lemma {:induction false} SameTurns(g: Recs, n: nat, h0: seq<HostCall>, re: Tape, ar: nat, x: Instr, y: Instr, a: Ran, b: Ran, c: Ran)
    requires Three(g, n, h0, re, ar, a, b, c) && x.Loop? && y.Loop? && y.bt == x.bt
    ensures !a.o.Invalid? ==> (Restarts(x, a.o) <==> Restarts(y, b.o))
    ensures !a.o.Invalid? && Restarts(x, a.o) ==> Beside(g, n, a.o.st, b.o.st)
  {
    hide *;
    ThreeNow(g, n, h0, re, ar, a, b, c);
    MatchedNext(g, n, a.o, b.o);
    RestartsIs(x, a.o);
    RestartsIs(y, b.o);
    StandsIs(a.o);
    if a.o.Jump? { SameKind(g, n, a.o, b.o); }
  }

  lemma {:induction false} CallThree(g: Recs, k: nat, n: nat, x: Instr, next: int, end: int, o: State, i: State, r: State,
                                     tape: Tape, at: nat, re: Tape, ar: nat)
    requires RecordedProgram(g) && (x.CallFn? || x.CallTable?) && Beside(g, n, o, i) && Again(o, i, r)
    ensures Three(g, n, i.host, re, ar, HostedI(k, x, next, o, tape, at), HostedI(k, x, end, i, tape, at), HostedI(k, x, next, r, re, ar))
    decreases k, 1, x, 0
  {
    hide *;
    BesideNow(g, n, o, i);
    HostedCalls(k, x, next, o, tape, at);
    HostedCalls(k, x, end, i, tape, at);
    HostedCalls(k, x, next, r, re, ar);
    DispatchSame(g, n, x, o, i);
    var d, e := Dispatched(x, o), Dispatched(x, i);
    SameCallNow(g, n, d, e);
    var A, B, C := HostedI(k, x, next, o, tape, at), HostedI(k, x, end, i, tape, at), HostedI(k, x, next, r, re, ar);
    if d.Stops? {
      HostedStops(k, d.o, tape, at);
      if e.Stops? { HostedStops(k, e.o, tape, at); }
      ThreeHalts(g, n, i.host, re, ar, A, B, C);
    } else {
      DispatchAgain(x, o, i, r);
      CallGoes(g, k, n, d.f, d.s, e.s, Dispatched(x, r).s, tape, at, re, ar);
    }
  }

  /** The call itself, its operands on the stack. */
  lemma {:induction false} CallGoes(g: Recs, k: nat, n: nat, f: nat, s: State, t: State, u: State, tape: Tape, at: nat, re: Tape, ar: nat)
    requires RecordedProgram(g) && Beside(g, n, s, t) && Again(s, t, u) && f < |g.fs| && |g.fs[f].ty.params| <= Size(s.stack)
    ensures f < |s.funcs| && f < |t.funcs| && f < |u.funcs|
    ensures |s.funcs[f].ty.params| <= Size(s.stack) && |t.funcs[f].ty.params| <= Size(t.stack) && |u.funcs[f].ty.params| <= Size(u.stack)
    ensures Three(g, n, t.host, re, ar, HostedCall(k, Goes(f, s), tape, at), HostedCall(k, Goes(f, t), tape, at), HostedCall(k, Goes(f, u), re, ar))
    decreases k, 0
  {
    hide *;
    BesideNow(g, n, s, t);
    FrameBeside(g, n, f, s, t);
    FrameAgain(f, s, t, u);
    HostedCallIs(k, Goes(f, s), tape, at);
    HostedCallIs(k, Goes(f, t), tape, at);
    HostedCallIs(k, Goes(f, u), re, ar);
    if k == 0 {
      ThreeHalts(g, n, t.host, re, ar, Ran(Spin, at), Ran(Spin, at), Ran(Spin, ar));
    } else {
      FnNow(g, f);
      var m, body, end := Own0(g.fs[f]), g.fs[f].body, g.fs[f].end;
      CodeThree(g, k - 1, m, body, g.firsts[f], end, end, Frame(s, f), Frame(t, f), Frame(u, f), tape, at, re, ar);
      LeaveFnThree(g, n, f, s, t, u, t.host, re, ar, Hosted(k - 1, body, end, Frame(s, f), tape, at),
                   Hosted(k - 1, g.gs[f].body, end, Frame(t, f), tape, at), Hosted(k - 1, body, end, Frame(u, f), re, ar));
    }
  }

  lemma SameCallNow(g: Recs, n: nat, a: Dispatch, b: Dispatch)
    requires SameCall(g, n, a, b)
    ensures a.Stops? ==> a.o.Invalid? || (b.Stops? && a.o.Trap? && b.o.Trap?)
    ensures a.Goes? ==> b.Goes? && a.f == b.f && Beside(g, n, a.s, b.s) && a.f < |g.fs| && |g.fs[a.f].ty.params| <= Size(a.s.stack)
  {
    hide Beside, Size;
  }

  // ----- the theorems -----

  /**
   * Recording is invisible and sufficient, for whole programs beside any host.  A call of any function
   * returns, traps or runs on recorded as it does unrecorded, with the same values, globals and memory.  And
   * when it returns, the same call run without the host, on the shadow as memory and with nothing written
   * but what the reports of the recorded run say, returns the same values; its memory is then the shadow.
   */
  lemma {:induction false} RecordingComplete(g: Recs, k: nat, n: nat, f: nat, o: State, i: State, r: State, tape: Tape, re: Tape)
    requires RecordedProgram(g) && Beside(g, n, o, i) && Again(o, i, r)
    ensures var x := CallFn(f, NO_PC);
      var a, b := HostedI(k, x, NO_PC, o, tape, 0).o, HostedI(k, x, NO_PC, i, tape, 0).o;
      && Matched(g, n, a, b)
      && (a.Next? ==>
            && b.Next? && i.host <= b.st.host
            && (Tells(re, 0, i.host, b.st.host) ==>
                  var c := HostedI(k, x, NO_PC, r, re, 0).o; c.Next? && Again(a.st, b.st, c.st)))
  {
    hide *;
    var x := CallFn(f, NO_PC);
    CallThree(g, k, n, x, NO_PC, NO_PC, o, i, r, tape, 0, re, 0);
    var a, b, c := HostedI(k, x, NO_PC, o, tape, 0), HostedI(k, x, NO_PC, i, tape, 0), HostedI(k, x, NO_PC, r, re, 0);
    ThreeNow(g, n, i.host, re, 0, a, b, c);
    MatchedNext(g, n, a.o, b.o);
    StandsIs(a.o);
    if a.o.Next? && Tells(re, 0, i.host, b.o.st.host) { AgainOutNow(a.o, b.o, c.o); }
  }

  /** There is such a tape. */
  ghost function Reported(h0: seq<HostCall>, h: seq<HostCall>): Tape {
    (n: nat) => if |h0| + n < |h| then WritesOf(h[|h0| + n]) else []
  }

  lemma ReportedTells(h0: seq<HostCall>, h: seq<HostCall>)
    requires h0 <= h
    ensures Tells(Reported(h0, h), 0, h0, h)
  {
    hide WritesOf;
    forall j: nat | |h0| <= j < |h| ensures TellsOne(Reported(h0, h), 0 + j - |h0|, h[j]) {
      assert |h0| + (j - |h0|) == j;
    }
  }

  /** Without a host: recorded, a program does what it does. */
  lemma {:induction false} RecordingInvisible(g: Recs, k: nat, n: nat, f: nat, o: State, i: State)
    requires RecordedProgram(g) && Beside(g, n, o, i)
    ensures Matched(g, n, ExecI(k, CallFn(f, NO_PC), NO_PC, o), ExecI(k, CallFn(f, NO_PC), NO_PC, i))
  {
    hide *;
    AgainPlain(o, i);
    RecordingComplete(g, k, n, f, o, i, o.(main := i.shadow), Nobody(), Nobody());
    HostedAloneI(k, CallFn(f, NO_PC), NO_PC, o, 0);
    HostedAloneI(k, CallFn(f, NO_PC), NO_PC, i, 0);
  }
}
