/**
 * Whole recorded runs.  The program runs as if it were not recorded, and what the recorder
 * reported is enough to run it again without the host: starting from the shadow's first
 * contents, the program's own stores and the reported write-backs reproduce every load.
 */
module RecorderRun {
  import opened Bytes
  import opened Wasm
  import opened Recorder
  import opened RecorderSteps
  import opened RecorderAccess

  /** One step of a run: an access, an instruction on the program's own data, or the host writing to memory. */
  datatype Act = AccessAct(x: Access) | OwnAct(p: Plain) | HostAct(addr: nat, data: seq<byte>)

  predicate Plausible(acts: seq<Act>, n: nat) {
    forall a <- acts :: (a.AccessAct? ==> ValidAccess(a.x)) && (a.OwnAct? ==> Own(a.p, n))
  }

  function HostWrite(m: seq<byte>, addr: nat, data: seq<byte>): (r: seq<byte>)
    ensures |r| == |m|
  {
    if addr + |data| <= |m| then Poke(m, addr, data) else m
  }

  function Act1(a: Act, st: State): Outcome {
    match a
    case AccessAct(x) => Step(Original(x), NO_PC, NO_PC, st)
    case OwnAct(p) => Step(p, NO_PC, NO_PC, st)
    case HostAct(addr, data) => Next(st.(main := HostWrite(st.main, addr, data)))
  }

  /** The program alone. */
  function RunOriginal(acts: seq<Act>, st: State): Outcome {
    if acts == [] then Next(st)
    else match Act1(acts[0], st) case Next(s) => RunOriginal(acts[1..], s) case o => o
  }

  function RecordedAct(n: nat, a: Act, st: State): Outcome {
    if a.AccessAct? then Exec(0, Recorded(n, a.x), NO_PC, st) else Act1(a, st)
  }

  /** The same steps with every access recorded. */
  function RunRecording(n: nat, acts: seq<Act>, st: State): Outcome {
    if acts == [] then Next(st)
    else match RecordedAct(n, acts[0], st) case Next(s) => RunRecording(n, acts[1..], s) case o => o
  }

  // ----- running from the report -----

  /** What a report says: whether to write back, where, how many bytes, and the value. */
  datatype Entry = NoEntry | Entry(differ: bool, addr: nat, width: nat, value: nat)

  function ReadEntry(h: HostCall): Entry {
    match h.args
    case Push(_, Push(_, Push(v, Push(I32(w), Push(I32(full), Push(_, Push(_, Push(I32(d), Nil)))))))) =>
      if h.f.Trace? then Entry(d == 1, full, w, v.n) else NoEntry
    case _ => NoEntry
  }

  /** Apply the reported write-back before a load; a store needs none. */
  function ReplayedAccess(x: Access, h: HostCall, st: State): Outcome {
    match ReadEntry(h)
    case NoEntry => Invalid
    case Entry(differ, addr, width, value) =>
      if differ && addr + width > |st.main| then Invalid
      else
        var m := if differ then Poke(st.main, addr, ToLE(value, width)) else st.main;
        Step(Original(x), NO_PC, NO_PC, st.(main := m))
  }

  /** The program without its host: one report per access, and no host writes. */
  function RunFromReports(acts: seq<Act>, reports: seq<HostCall>, st: State): Outcome {
    if acts == [] then Next(st)
    else
      match acts[0]
      case AccessAct(x) =>
        if reports == [] then Invalid
        else
          (match ReplayedAccess(x, reports[0], st)
           case Next(s) => RunFromReports(acts[1..], reports[1..], s)
           case o => o)
      case OwnAct(p) =>
        (match Step(p, NO_PC, NO_PC, st) case Next(s) => RunFromReports(acts[1..], reports, s) case o => o)
      case HostAct(_, _) => RunFromReports(acts[1..], reports, st)
  }

  // ----- the relations -----

  /** The recorded run agrees with the program's on everything the program can see. */
  ghost predicate Sim(n: nat, o: State, i: State) {
    && |o.locals| == n && Ready(n, i) && i.locals[..n] == o.locals
    && i == o.(locals := i.locals, shadow := i.shadow, host := i.host)
  }

  /** The run from reports agrees too, and its memory is the shadow. */
  ghost predicate FromShadow(o: State, i: State, r: State) {
    r == o.(main := i.shadow, shadow := r.shadow, host := r.host)
  }

  /** What a step does to the program's data does not depend on memories, reports or further locals. */
  lemma {:induction false} OwnStep(n: nat, p: Plain, o: State, i: State)
    requires Own(p, n) && Sim(n, o, i)
    ensures match Step(p, NO_PC, NO_PC, o)
            case Next(o1) => (match Step(p, NO_PC, NO_PC, i)
                              case Next(i1) => Sim(n, o1, i1) && i1.host == i.host && i1.shadow == i.shadow
                              case _ => false)
            case Invalid => true
            case _ => false
  {
    hide Step, Own;
    OwnFrame(n, p, NO_PC, NO_PC, o, i);
    assert o.locals + i.locals[n..] == i.locals;
  }

  lemma {:induction false} OwnReplay(n: nat, p: Plain, o: State, i: State, r: State)
    requires Own(p, n) && |o.locals| == n && FromShadow(o, i, r)
    ensures match Step(p, NO_PC, NO_PC, o)
            case Next(o1) => (match Step(p, NO_PC, NO_PC, r)
                              case Next(r1) => r1 == o1.(main := r.main, shadow := r.shadow, host := r.host)
                              case _ => false)
            case _ => true
  {
    hide Step, Own;
    assert r.locals[..n] == r.locals;
    OwnFrame(n, p, NO_PC, NO_PC, o, r);
  }

  /** One recorded access against the original, and against the access re-run from its report. */
  ghost predicate AccessAgrees(n: nat, x: Access, o1: State, i: State, i1: State) {
    && Sim(n, o1, i1) && |i1.host| == |i.host| + 1 && i1.host[..|i.host|] == i.host
  }

  lemma {:induction false} LoadAgrees(n: nat, x: Access, a: nat, rest: Stack, o: State, i: State)
    requires ValidAccess(x) && x.kind.LoadK? && Sim(n, o, i) && o.stack == Push(I32(a), rest)
    ensures match Step(Original(x), NO_PC, NO_PC, o)
            case Next(o1) => (match Exec(0, Recorded(n, x), NO_PC, i)
                              case Next(i1) => AccessAgrees(n, x, o1, i, i1)
                              case _ => false)
            case Trap => Exec(0, Recorded(n, x), NO_PC, i) == Trap
            case _ => false
  {
    hide Extend, Peek, Recorded, TraceArgs, Poke, ToLE;
    LoadRecorded(0, n, x, a, rest, NO_PC, i);
    OriginalLoad(x, a, rest, o);
  }

  lemma {:induction false} OriginalLoad(x: Access, a: nat, rest: Stack, o: State)
    requires x.kind.LoadK? && o.stack == Push(I32(a), rest)
    ensures Step(Original(x), NO_PC, NO_PC, o)
         == if a + x.offset + x.width > |o.main| then Trap
            else Next(o.(stack := Push(MakeVal(x.ty, RawAt(x, o.main, a + x.offset)), rest)))
  {
    hide Extend, Peek;
  }

  lemma {:induction false} OriginalStore(x: Access, a: nat, v: Val, rest: Stack, o: State)
    requires x.kind.StoreK? && o.stack == Push(v, Push(I32(a), rest)) && TypeOf(v) == x.ty
    ensures Step(Original(x), NO_PC, NO_PC, o)
         == if a + x.offset + x.width > |o.main| then Trap
            else Next(o.(stack := rest, main := Poke(o.main, a + x.offset, ToLE(v.n, x.width))))
  {
    hide Poke, ToLE;
  }

  lemma {:induction false} StoreAgrees(n: nat, x: Access, a: nat, v: Val, rest: Stack, o: State, i: State)
    requires ValidAccess(x) && x.kind.StoreK? && Sim(n, o, i)
    requires o.stack == Push(v, Push(I32(a), rest)) && TypeOf(v) == x.ty
    ensures match Step(Original(x), NO_PC, NO_PC, o)
            case Next(o1) => (match Exec(0, Recorded(n, x), NO_PC, i)
                              case Next(i1) => AccessAgrees(n, x, o1, i, i1)
                              case _ => false)
            case Trap => Exec(0, Recorded(n, x), NO_PC, i) == Trap
            case _ => false
  {
    hide Recorded, TraceArgs, ToLE, Poke;
    StoreRecorded(0, n, x, a, v, rest, NO_PC, i);
    OriginalStore(x, a, v, rest, o);
  }

  lemma {:induction false} EntryOf(differ: bool, x: Access, full: nat, m64: Val, s64: Val)
    ensures ReadEntry(HostCall(Trace, TraceArgs(Bool32(differ), x, full, m64, s64)))
         == Entry(differ, full, x.width, m64.n)
  {
  }

  /** A load re-run from its report sees what the program saw. */
  lemma {:induction false} LoadFromReport(
      fuel: nat, n: nat, x: Access, a: nat, rest: Stack, end: int, o: State, i: State, i1: State, r: State)
    requires ValidAccess(x) && x.kind.LoadK? && Sim(n, o, i) && FromShadow(o, i, r)
    requires o.stack == Push(I32(a), rest) && a + x.offset + x.width <= |o.main|
    requires Exec(fuel, Recorded(n, x), end, i) == Next(i1)
    ensures var o1 := o.(stack := Push(MakeVal(x.ty, RawAt(x, o.main, a + x.offset)), rest));
      |i1.host| == |i.host| + 1 && i1.host[..|i.host|] == i.host
      && ReplayedAccess(x, i1.host[|i1.host| - 1], r) == Next(r.(stack := o1.stack, main := i1.shadow))
  {
    hide Extend, Peek, Recorded, TraceArgs, Poke, ToLE;
    var ea := a + x.offset;
    var v, w := RawAt(x, i.main, ea), RawAt(x, i.shadow, ea);
    LoadRecorded(fuel, n, x, a, rest, end, i);
    var k := i1.locals;
    var s := SlotsOf(n, x);
    EntryOf(v != w, x, ea, k[s.main64], k[s.shadow64]);
    assert i1.host[|i1.host| - 1] == HostCall(Trace, TraceArgs(Bool32(v != w), x, ea, k[s.main64], k[s.shadow64]));
    ShadowCaughtUp(x, i.main, i.shadow, ea);
    OriginalLoad(x, a, rest, r.(main := i1.shadow));
  }

  lemma {:induction false} StoreFromReport(
      fuel: nat, n: nat, x: Access, a: nat, v: Val, rest: Stack, end: int, o: State, i: State, i1: State, r: State)
    requires ValidAccess(x) && x.kind.StoreK? && Sim(n, o, i) && FromShadow(o, i, r)
    requires o.stack == Push(v, Push(I32(a), rest)) && TypeOf(v) == x.ty && a + x.offset + x.width <= |o.main|
    requires Exec(fuel, Recorded(n, x), end, i) == Next(i1)
    ensures |i1.host| == |i.host| + 1 && i1.host[..|i.host|] == i.host
      && ReplayedAccess(x, i1.host[|i1.host| - 1], r) == Next(r.(stack := rest, main := i1.shadow))
  {
    hide Recorded, TraceArgs, Poke, ToLE;
    var ea := a + x.offset;
    StoreRecorded(fuel, n, x, a, v, rest, end, i);
    EntryOf(false, x, ea, I64(0), I64(0));
    assert i1.host[|i1.host| - 1] == HostCall(Trace, TraceArgs(Bool32(false), x, ea, I64(0), I64(0)));
    OriginalStore(x, a, v, rest, r);
  }

  /** The operands an access finds when it does not go wrong. */
  lemma {:induction false} AccessOperands(x: Access, o: State)
    requires ValidAccess(x) && !Step(Original(x), NO_PC, NO_PC, o).Invalid?
    ensures x.kind.LoadK? ==> o.stack.Push? && o.stack.top.I32?
    ensures x.kind.StoreK? ==> o.stack.Push? && TypeOf(o.stack.top) == x.ty && o.stack.below.Push? && o.stack.below.top.I32?
  {
    hide Extend, Peek, Poke, ToLE;
  }

  /** Everything one step keeps: both relations, and reports only ever added. */
  ghost predicate StepKeeps(n: nat, a: Act, o1: State, i: State, i1: State, r: State) {
    && Sim(n, o1, i1)
    && (if a.AccessAct? then
          && |i1.host| == |i.host| + 1 && i1.host[..|i.host|] == i.host
          && (match ReplayedAccess(a.x, i1.host[|i.host|], r) case Next(r1) => FromShadow(o1, i1, r1) case _ => false)
        else
          && i1.host == i.host
          && (match a
              case OwnAct(p) => (match Step(p, NO_PC, NO_PC, r) case Next(r1) => FromShadow(o1, i1, r1) case _ => false)
              case _ => FromShadow(o1, i1, r)))
  }

  lemma {:induction false} AccessKeeps(n: nat, x: Access, o: State, i: State, r: State)
    requires ValidAccess(x) && Sim(n, o, i) && FromShadow(o, i, r)
    requires !Step(Original(x), NO_PC, NO_PC, o).Invalid?
    ensures match Step(Original(x), NO_PC, NO_PC, o)
            case Next(o1) => (match Exec(0, Recorded(n, x), NO_PC, i)
                              case Next(i1) => StepKeeps(n, AccessAct(x), o1, i, i1, r)
                              case _ => false)
            case Trap => Exec(0, Recorded(n, x), NO_PC, i) == Trap
            case _ => false
  {
    hide Extend, Peek, Poke, ToLE, Recorded, Exec, ReplayedAccess, ReadEntry;
    AccessOperands(x, o);
    if x.kind.LoadK? {
      var a, rest := o.stack.top.n, o.stack.below;
      LoadAgrees(n, x, a, rest, o, i);
      OriginalLoad(x, a, rest, o);
      if a + x.offset + x.width <= |o.main| {
        LoadFromReport(0, n, x, a, rest, NO_PC, o, i, Exec(0, Recorded(n, x), NO_PC, i).st, r);
      }
    } else {
      var v, a, rest := o.stack.top, o.stack.below.top.n, o.stack.below.below;
      StoreAgrees(n, x, a, v, rest, o, i);
      OriginalStore(x, a, v, rest, o);
      if a + x.offset + x.width <= |o.main| {
        StoreFromReport(0, n, x, a, v, rest, NO_PC, o, i, Exec(0, Recorded(n, x), NO_PC, i).st, r);
      }
    }
  }

  lemma {:induction false} ActKeeps(n: nat, a: Act, o: State, i: State, r: State)
    requires Plausible([a], n) && Sim(n, o, i) && FromShadow(o, i, r)
    requires !Act1(a, o).Invalid?
    ensures match Act1(a, o)
            case Next(o1) => (match RecordedAct(n, a, i) case Next(i1) => StepKeeps(n, a, o1, i, i1, r) case _ => false)
            case Trap => RecordedAct(n, a, i) == Trap
            case _ => false
  {
    hide Extend, Peek, Poke, ToLE, Recorded, Exec, ReplayedAccess, ReadEntry;
    assert a in [a];
    match a
    case AccessAct(x) => AccessKeeps(n, x, o, i, r);
    case OwnAct(p) =>
      OwnStep(n, p, o, i);
      OwnReplay(n, p, o, i, r);
    case HostAct(_, _) =>
  }

  /**
   * Recording is invisible and sufficient.  For any steps, the recorded run ends as the program's
   * own run does, with the same stack, locals, globals and memory; and running the same steps from
   * the reports alone - the shadow as memory, no host writes - ends with that stack and those
   * locals too, its memory being exactly the recorded run's shadow.
   */
  lemma {:induction false} RecordingSound(n: nat, acts: seq<Act>, o: State, i: State, r: State)
    requires Plausible(acts, n) && Sim(n, o, i) && FromShadow(o, i, r)
    requires !RunOriginal(acts, o).Invalid?
    ensures match RunOriginal(acts, o)
            case Next(o1) =>
              (match RunRecording(n, acts, i)
               case Next(i1) =>
                 && Sim(n, o1, i1) && |i.host| <= |i1.host| && i1.host[..|i.host|] == i.host
                 && (match RunFromReports(acts, i1.host[|i.host|..], r)
                     case Next(r1) => FromShadow(o1, i1, r1)
                     case _ => false)
               case _ => false)
            case Trap => RunRecording(n, acts, i) == Trap
            case _ => false
    decreases |acts|
  {
    hide Act1, RecordedAct, ReplayedAccess, Sim, FromShadow;
    if acts == [] {
      assert i.host[..|i.host|] == i.host;
    } else {
      var a, tail := acts[0], acts[1..];
      assert a in acts && forall b <- [a] :: b in acts;
      assert forall b <- tail :: b in acts;
      ActKeeps(n, a, o, i, r);
      if Act1(a, o).Next? {
        var o1, i1 := Act1(a, o).st, RecordedAct(n, a, i).st;
        RecordTail(n, acts, o, i, r, o1, i1);
      }
    }
  }

  lemma {:induction false} RecordTail(n: nat, acts: seq<Act>, o: State, i: State, r: State, o1: State, i1: State)
    requires acts != [] && Plausible(acts, n) && Plausible(acts[1..], n)
    requires Act1(acts[0], o) == Next(o1) && RecordedAct(n, acts[0], i) == Next(i1)
    requires StepKeeps(n, acts[0], o1, i, i1, r) && !RunOriginal(acts, o).Invalid?
    ensures match RunOriginal(acts, o)
            case Next(o2) =>
              (match RunRecording(n, acts, i)
               case Next(i2) =>
                 && Sim(n, o2, i2) && |i.host| <= |i2.host| && i2.host[..|i.host|] == i.host
                 && (match RunFromReports(acts, i2.host[|i.host|..], r)
                     case Next(r2) => FromShadow(o2, i2, r2)
                     case _ => false)
               case _ => false)
            case Trap => RunRecording(n, acts, i) == Trap
            case _ => false
    decreases |acts|, 0
  {
    hide Act1, RecordedAct, ReplayedAccess, Sim, FromShadow, Plausible;
    var a, tail := acts[0], acts[1..];
    var r1 := match a
      case AccessAct(x) => ReplayedAccess(x, i1.host[|i.host|], r).st
      case OwnAct(p) => Step(p, NO_PC, NO_PC, r).st
      case HostAct(_, _) => r;
    RecordingSound(n, tail, o1, i1, r1);
    if RunOriginal(tail, o1).Next? {
      var i2 := RunRecording(n, tail, i1).st;
      Suffix(i.host, i1.host, i2.host);
    }
  }

  lemma Suffix(h: seq<HostCall>, h1: seq<HostCall>, h2: seq<HostCall>)
    requires |h| <= |h1| <= |h2| && h1[..|h|] == h && h2[..|h1|] == h1
    ensures h2[..|h|] == h
    ensures |h1| == |h| + 1 ==> h2[|h|..] == [h1[|h|]] + h2[|h1|..]
    ensures h1 == h ==> h2[|h|..] == h2[|h1|..]
  {
  }
}
