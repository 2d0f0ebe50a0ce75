/**
 * The access numbers of the record pass and of the replay pass.  Both walk the functions of their
 * own, differently extended copy of one module and count; recording and replay fit together only
 * if an instruction gets the same number in both.
 */
module AccessNumbering {
  import opened Bytes

  /** Instructions by the kind of their immediates, as both passes tell them apart. */
  datatype Imm = Memarg | MemargLaneidx | Memory | DataMemory | Memorycp | Func | SigTable | Plain

  predicate Counted(m: Imm) { !m.SigTable? && !m.Plain? }

  /**
   * An instruction that was there before the pass, at its place in the function; one the pass added; or
   * the call to the replay function of an access, in the place of the instruction that was there.
   */
  datatype Ins = Mine(imm: Imm, place: nat) | Added(imm: Imm) | ReplayCall(access: nat, place: nat)

  datatype FuncId =
    | Original(k: nat) | Wrapper(k: nat) | LockFn | UnlockFn | WaitFn
    | TraceImport(k: nat) | ReplayImport(k: nat) | ReplayOps(access: nat)

  datatype Fn = Fn(id: FuncId, insts: seq<Ins>)

  /** What both passes start from: the functions, the wrappers of table entries, the functions left alone. */
  datatype Base = Base(funcs: seq<seq<Imm>>, wrappers: seq<seq<Imm>>, ignored: set<FuncId>)

  /** An instruction and the access number it was given. */
  datatype Hit = Hit(fn: FuncId, place: nat)

  function Body(imms: seq<Imm>): (r: seq<Ins>)
    ensures |r| == |imms| && forall j :: 0 <= j < |imms| ==> r[j] == Mine(imms[j], j)
  {
    seq(|imms|, j requires 0 <= j < |imms| => Mine(imms[j], j))
  }

  function Originals(b: Base): (r: seq<Fn>)
    ensures |r| == |b.funcs|
  {
    seq(|b.funcs|, k requires 0 <= k < |b.funcs| => Fn(Original(k), Body(b.funcs[k])))
  }

  function Wrappers(b: Base): (r: seq<Fn>)
    ensures |r| == |b.wrappers|
  {
    seq(|b.wrappers|, k requires 0 <= k < |b.wrappers| => Fn(Wrapper(k), Body(b.wrappers[k])))
  }

  const RECORD_IMPORTS := 2
  const REPLAY_IMPORTS := 7

  function TraceImports(): (r: seq<Fn>)
    ensures |r| == RECORD_IMPORTS
  {
    seq(RECORD_IMPORTS, k requires 0 <= k => Fn(TraceImport(k), []))
  }

  function ReplayImports(): (r: seq<Fn>)
    ensures |r| == REPLAY_IMPORTS
  {
    seq(REPLAY_IMPORTS, k requires 0 <= k => Fn(ReplayImport(k), []))
  }

  /** The mutex functions, made of added instructions only. */
  datatype Helpers = Helpers(lockBody: seq<Imm>, unlockBody: seq<Imm>, waitBody: seq<Imm>)

  function AddedBody(imms: seq<Imm>): (r: seq<Ins>)
    ensures |r| == |imms| && forall j :: 0 <= j < |r| ==> r[j] == Added(imms[j])
  {
    seq(|imms|, j requires 0 <= j < |imms| => Added(imms[j]))
  }

  /** The record pass: imports in front, the mutex before the wrappers. */
  function RecordFuncs(b: Base, h: Helpers): seq<Fn> {
    TraceImports() + Originals(b) + [Fn(LockFn, AddedBody(h.lockBody)), Fn(UnlockFn, AddedBody(h.unlockBody))]
    + Wrappers(b)
  }

  /** The replay pass: other imports in front, the wrappers before its helpers. */
  function ReplayFuncs(b: Base, h: Helpers): seq<Fn> {
    ReplayImports() + Originals(b) + Wrappers(b)
    + [Fn(LockFn, AddedBody(h.lockBody)), Fn(UnlockFn, AddedBody(h.unlockBody)), Fn(WaitFn, AddedBody(h.waitBody))]
  }

  /** The mutex functions are left alone by both passes. */
  predicate Ignored(b: Base, id: FuncId) {
    id in b.ignored || id.LockFn? || id.UnlockFn?
  }

  /** The functions that are not walked over: those given, and the two of the mutex. */
  function LeftAlone(b: Base): set<FuncId> { b.ignored + {LockFn, UnlockFn} }

  // ----- the numbers, as a list of hits: the k-th hit has number k + 1 -----

  function FnHits(id: FuncId, insts: seq<Ins>): seq<Hit> {
    if insts == [] then []
    else
      var x := insts[|insts| - 1];
      FnHits(id, insts[..|insts| - 1]) + (if x.Mine? && Counted(x.imm) then [Hit(id, x.place)] else [])
  }

  function Hits(b: Base, funcs: seq<Fn>): seq<Hit> {
    if funcs == [] then []
    else
      var f := funcs[|funcs| - 1];
      Hits(b, funcs[..|funcs| - 1]) + (if Ignored(b, f.id) then [] else FnHits(f.id, f.insts))
  }

  lemma {:induction false} HitsAppend(b: Base, x: seq<Fn>, y: seq<Fn>)
    ensures Hits(b, x + y) == Hits(b, x) + Hits(b, y)
    decreases |y|
  {
    if y == [] {
      assert x + y == x;
    } else {
      assert (x + y)[..|x + y| - 1] == x + y[..|y| - 1];
      HitsAppend(b, x, y[..|y| - 1]);
    }
  }

  lemma {:induction false} NoHits(b: Base, fs: seq<Fn>)
    requires forall f :: f in fs ==> Ignored(b, f.id) || f.insts == []
    ensures Hits(b, fs) == []
  {
    if fs != [] {
      assert fs[|fs| - 1] in fs;
      assert forall f :: f in fs[..|fs| - 1] ==> f in fs;
      NoHits(b, fs[..|fs| - 1]);
    }
  }

  /** Everything there was before either pass. */
  function Existing(b: Base): seq<Fn> { Originals(b) + Wrappers(b) }

  lemma {:induction false} HitsAround(b: Base, t: seq<Fn>, o: seq<Fn>, m: seq<Fn>, w: seq<Fn>)
    requires Hits(b, t) == [] && Hits(b, m) == []
    ensures Hits(b, t + o + m + w) == Hits(b, o + w)
  {
    hide Hits;
    HitsAppend(b, t + o + m, w);
    HitsAppend(b, t + o, m);
    HitsAppend(b, t, o);
    HitsAppend(b, o, w);
  }

  lemma {:induction false} RecordHits(b: Base, h: Helpers)
    ensures Hits(b, RecordFuncs(b, h)) == Hits(b, Existing(b))
  {
    var m := [Fn(LockFn, AddedBody(h.lockBody)), Fn(UnlockFn, AddedBody(h.unlockBody))];
    NoHits(b, TraceImports());
    NoHits(b, m);
    hide Hits, TraceImports, Originals, Wrappers;
    HitsAround(b, TraceImports(), Originals(b), m, Wrappers(b));
  }

  /** The functions the replay pass visits: it stops at the last function there was before its helpers. */
  function Visited(b: Base): seq<Fn>
    requires Existing(b) != []
  {
    ReplayImports() + Existing(b)[..|Existing(b)| - 1]
  }

  lemma {:induction false} VisitedHits(b: Base)
    requires Existing(b) != []
    ensures Hits(b, Visited(b)) == Hits(b, Existing(b)[..|Existing(b)| - 1])
  {
    hide *;
    var init := Existing(b)[..|Existing(b)| - 1];
    VisitedIs(b);
    HitsAppend(b, ReplayImports(), init);
    ReplayImportsEmpty();
    NoHits(b, ReplayImports());
    assert [] + Hits(b, init) == Hits(b, init);
  }

  lemma VisitedIs(b: Base)
    requires Existing(b) != []
    ensures Visited(b) == ReplayImports() + Existing(b)[..|Existing(b)| - 1]
  {
    hide Existing, ReplayImports;
  }

  lemma ReplayImportsEmpty()
    ensures forall f :: f in ReplayImports() ==> f.insts == []
  {
  }

  /**
   * The replay pass gives the numbers of the record pass, as far as it gets: what it leaves without
   * a number are exactly the accesses of the last function.
   */
  lemma {:induction false} SameNumbers(b: Base, h: Helpers)
    requires Existing(b) != []
    ensures var last := Existing(b)[|Existing(b)| - 1];
      Hits(b, RecordFuncs(b, h))
      == Hits(b, Visited(b)) + (if Ignored(b, last.id) then [] else FnHits(last.id, last.insts))
  {
    RecordHits(b, h);
    VisitedHits(b);
  }

  // ----- the record pass -----

  /** The instructions that were there before. */
  function Mines(insts: seq<Ins>): seq<Ins> {
    if insts == [] then []
    else
      var x := insts[|insts| - 1];
      Mines(insts[..|insts| - 1]) + (if x.Mine? then [x] else [])
  }

  predicate AllMine(insts: seq<Ins>) {
    forall j :: 0 <= j < |insts| ==> insts[j].Mine? && insts[j].place == j
  }

  lemma {:induction false} MinesAppend(x: seq<Ins>, y: seq<Ins>)
    ensures Mines(x + y) == Mines(x) + Mines(y)
    decreases |y|
  {
    if y == [] {
      assert x + y == x;
    } else {
      assert (x + y)[..|x + y| - 1] == x + y[..|y| - 1];
      MinesAppend(x, y[..|y| - 1]);
    }
  }

  lemma {:induction false} NoMines(imms: seq<Imm>)
    ensures Mines(AddedBody(imms)) == []
  {
    if imms != [] {
      assert AddedBody(imms)[..|imms| - 1] == AddedBody(imms[..|imms| - 1]);
      NoMines(imms[..|imms| - 1]);
    }
  }

  /** An instruction with what is spliced in before and behind it. */
  function Spliced(pre: seq<Imm>, x: Ins, post: seq<Imm>): seq<Ins> {
    AddedBody(pre) + [x] + AddedBody(post)
  }

  lemma SplicedMines(done: seq<Ins>, pre: seq<Imm>, x: Ins, post: seq<Imm>)
    requires x.Mine?
    ensures Mines(done + Spliced(pre, x, post)) == Mines(done) + [x]
  {
    NoMines(pre);
    NoMines(post);
    hide AddedBody;
    MinesAppend(done, Spliced(pre, x, post));
    MinesAppend(AddedBody(pre) + [x], AddedBody(post));
    MinesAppend(AddedBody(pre), [x]);
    assert Mines([x]) == [x];
  }

  lemma HitStep(id: FuncId, insts: seq<Ins>, j: nat)
    requires j < |insts| && AllMine(insts)
    ensures FnHits(id, insts[..j + 1])
         == FnHits(id, insts[..j]) + (if Counted(insts[j].imm) then [Hit(id, j)] else [])
  {
    assert insts[..j + 1][..j] == insts[..j];
  }

  /** Code to insert around an instruction with a given number: any code at all. */
  datatype Plan = Plan(pre: seq<Imm>, post: seq<Imm>)

  /**
   * The iterator loop over one function: instructions are spliced in around the cursor, which then
   * moves behind them, so that no inserted instruction is ever counted.
   */
  method RecordFunction(f: Fn, plan: (FuncId, nat, nat) -> Plan, tracker: nat)
    returns (log: seq<Hit>, insts: seq<Ins>, tracker': nat)
    requires AllMine(f.insts)
    ensures log == FnHits(f.id, f.insts) && tracker' == tracker + |log|
    ensures Mines(insts) == f.insts
  {
    hide FnHits, Mines, Spliced, AddedBody;
    log, insts, tracker' := [], f.insts, tracker;
    var i := 0;
    ghost var j, done: seq<Ins> := 0, [];
    NothingYet(f.id);
    assert f.insts[..0] == [];
    while i < |insts|
      invariant j <= |f.insts| && i == |done| && insts == done + f.insts[j..]
      invariant Mines(done) == f.insts[..j] && log == FnHits(f.id, f.insts[..j])
      invariant tracker' == tracker + |log|
      decreases |f.insts| - j
    {
      var x := insts[i];
      assert x == f.insts[j];
      HitStep(f.id, f.insts, j);
      var p := plan(f.id, x.place, tracker');
      if Counted(x.imm) {
        log := log + [Hit(f.id, x.place)];
        tracker' := tracker' + 1;
      }
      SplicedMines(done, p.pre, x, p.post);
      var code := Spliced(p.pre, x, p.post);
      SpliceIn(done, f.insts, j, code);
      insts := insts[..i] + code + insts[i + 1..];
      i := i + |code|;
      done := done + code;
      j := j + 1;
    }
    assert insts == done && f.insts[..j] == f.insts;
  }

  lemma NothingYet(id: FuncId)
    ensures FnHits(id, []) == [] && Mines([]) == []
  {
  }

  lemma SpliceIn(done: seq<Ins>, all: seq<Ins>, j: nat, code: seq<Ins>)
    requires j < |all|
    ensures var insts, i := done + all[j..], |done|;
      insts[..i] + code + insts[i + 1..] == done + code + all[j + 1..]
    ensures all[..j + 1] == all[..j] + [all[j]]
  {
  }

  predicate Countable(b: Base, f: Fn) { Ignored(b, f.id) || AllMine(f.insts) }

  /**
   * The record pass: hits in the order of their numbers, which start at 1.  Every function keeps its
   * own instructions, in order, and the ignored ones stay as they are.
   */
  method RecordPass(b: Base, funcs: seq<Fn>, plan: (FuncId, nat, nat) -> Plan)
    returns (log: seq<Hit>, tracker: nat, out: seq<Fn>)
    requires forall k :: 0 <= k < |funcs| ==> Countable(b, funcs[k])
    ensures log == Hits(b, funcs) && tracker == |log| + 1
    ensures |out| == |funcs| && forall k :: 0 <= k < |out| ==>
      && out[k].id == funcs[k].id
      && if Ignored(b, funcs[k].id) then out[k] == funcs[k] else Mines(out[k].insts) == funcs[k].insts
  {
    hide FnHits, Mines, AllMine;
    log, tracker, out := [], 1, [];
    for k := 0 to |funcs|
      invariant log == Hits(b, funcs[..k]) && tracker == |log| + 1
      invariant |out| == k && forall q :: 0 <= q < k ==>
        && out[q].id == funcs[q].id
        && if Ignored(b, funcs[q].id) then out[q] == funcs[q] else Mines(out[q].insts) == funcs[q].insts
    {
      var f := funcs[k];
      assert funcs[..k + 1][..k] == funcs[..k] && Countable(b, f);
      if Ignored(b, f.id) {
        out := out + [f];
      } else {
        var hits, insts;
        hits, insts, tracker := RecordFunction(f, plan, tracker);
        log := log + hits;
        out := out + [Fn(f.id, insts)];
      }
    }
    assert funcs[..|funcs|] == funcs;
  }

  // ----- the replay pass -----

  /** How many of the ascending `ops` have come up once the numbers up to `t` have been handed out. */
  function Matched(ops: seq<nat>, t: nat): (n: nat)
    ensures n <= |ops|
  {
    if t == 0 then 0
    else
      var n := Matched(ops, t - 1);
      if n < |ops| && ops[n] == t then n + 1 else n
  }

  /** The first `k` recorded numbers start at 1 or later and ascend. */
  predicate Ascending(ops: seq<nat>, k: nat)
    requires k <= |ops|
  {
    (k > 0 ==> ops[0] >= 1) && forall i, j :: 0 <= i < j < k ==> ops[i] < ops[j]
  }

  /** Recorded operation `k` comes up if and only if those up to it ascend and its number is handed out. */
  lemma {:induction false} MatchedIff(ops: seq<nat>, t: nat, k: nat)
    requires k < |ops|
    ensures k < Matched(ops, t) <==> Ascending(ops, k + 1) && ops[k] <= t
    ensures k < Matched(ops, t) ==> Matched(ops, ops[k] - 1) == k
  {
    if t == 0 {
      assert Ascending(ops, k + 1) ==> ops[k] >= 1;
    } else {
      var n := Matched(ops, t - 1);
      MatchedIff(ops, t - 1, k);
      if k > 0 { MatchedIff(ops, t - 1, k - 1); }
      if k == n && ops[k] == t { LaterAscends(ops, k); }
    }
  }

  lemma LaterAscends(ops: seq<nat>, k: nat)
    requires k < |ops| && ops[k] >= 1 && (k > 0 ==> Ascending(ops, k) && ops[k - 1] < ops[k])
    ensures Ascending(ops, k + 1)
  {
  }

  /** The next recorded operation is that of access `n`. */
  predicate Tracked(ops: seq<nat>, n: nat)
    requires n > 0
  {
    var k := Matched(ops, n - 1);
    k < |ops| && ops[k] == n
  }

  /** Some recorded operation is that of access `n`, and those up to it ascend. */
  predicate HasOp(ops: seq<nat>, n: nat) {
    exists k :: 0 <= k < |ops| && ops[k] == n && Ascending(ops, k + 1)
  }

  /** Access `n` is replayed from the recording just when some operation is its own and those up to it ascend. */
  lemma {:induction false} TrackedIff(ops: seq<nat>, n: nat)
    requires n > 0
    ensures Tracked(ops, n) <==> HasOp(ops, n)
  {
    if Tracked(ops, n) {
      var k := Matched(ops, n - 1);
      MatchedIff(ops, n, k);
    }
    if k :| 0 <= k < |ops| && ops[k] == n && Ascending(ops, k + 1) {
      MatchedIff(ops, n, k);
    }
  }

  /** What becomes of an instruction with number `n`: tracked accesses and calls of imports are replaced. */
  function Swapped(x: Ins, n: nat, ops: seq<nat>, isImport: bool): Ins
    requires x.Mine? && n > 0
  {
    if Counted(x.imm) && (Tracked(ops, n) || (x.imm.Func? && isImport)) then ReplayCall(n, x.place) else x
  }

  /** The number of instruction `j`, when the function's first number is `tracker`. */
  function NumberAt(f: Fn, j: nat, tracker: nat): nat
    requires j <= |f.insts|
  {
    tracker + |FnHits(f.id, f.insts[..j])|
  }

  ghost predicate SwappedAt(f: Fn, now: seq<Ins>, ops: seq<nat>, importCall: (FuncId, nat) -> bool, tracker: nat, j: nat)
    requires tracker > 0 && j < |f.insts| == |now| && f.insts[j].Mine?
  {
    now[j] == Swapped(f.insts[j], NumberAt(f, j, tracker), ops, importCall(f.id, j))
  }

  ghost predicate AllSwapped(f: Fn, now: seq<Ins>, ops: seq<nat>, importCall: (FuncId, nat) -> bool, tracker: nat)
    requires tracker > 0 && AllMine(f.insts)
  {
    |now| == |f.insts| && forall j :: 0 <= j < |now| ==> SwappedAt(f, now, ops, importCall, tracker, j)
  }

  /** The replay functions called, in the order of the calls. */
  function NewOps(insts: seq<Ins>): seq<Fn> {
    if insts == [] then []
    else
      var x := insts[|insts| - 1];
      NewOps(insts[..|insts| - 1]) + (if x.ReplayCall? then [Fn(ReplayOps(x.access), [])] else [])
  }

  lemma NewOpsStep(insts: seq<Ins>, j: nat)
    requires j < |insts|
    ensures NewOps(insts[..j + 1])
         == NewOps(insts[..j]) + (if insts[j].ReplayCall? then [Fn(ReplayOps(insts[j].access), [])] else [])
  {
    assert insts[..j + 1][..j] == insts[..j];
  }

  /**
   * The loop over one function: the next recorded operation is used when its number comes up, and a
   * call to an import is replaced in any case.
   */
  method ReplayFunction(
      f: Fn, ops: seq<nat>, importCall: (FuncId, nat) -> bool, opIdx: nat, tracker: nat, made: seq<Fn>)
    returns (log: seq<Hit>, insts: seq<Ins>, opIdx': nat, tracker': nat, made': seq<Fn>)
    requires AllMine(f.insts) && tracker > 0 && opIdx == Matched(ops, tracker - 1)
    ensures log == FnHits(f.id, f.insts) && tracker' == tracker + |log|
    ensures opIdx' == Matched(ops, tracker' - 1)
    ensures AllSwapped(f, insts, ops, importCall, tracker) && made' == made + NewOps(insts)
  {
    hide FnHits, NewOps, NumberAt, Swapped, SwappedAt;
    log, insts, opIdx', tracker', made' := [], f.insts, opIdx, tracker, made;
    NothingYet(f.id);
    NoneNew(f.insts);
    assert f.insts[..0] == [];
    for j := 0 to |f.insts|
      invariant log == FnHits(f.id, f.insts[..j]) && tracker' == tracker + |log|
      invariant opIdx' == Matched(ops, tracker' - 1)
      invariant |insts| == |f.insts| && forall q :: j <= q < |insts| ==> insts[q] == f.insts[q]
      invariant forall q :: 0 <= q < j ==> SwappedAt(f, insts, ops, importCall, tracker, q)
      invariant made' == made + NewOps(insts[..j])
    {
      HitStep(f.id, f.insts, j);
      SwapIs(f, j, tracker, ops, importCall(f.id, j));
      ghost var before := insts;
      if Counted(insts[j].imm) {
        var cur := tracker';
        tracker' := tracker' + 1;
        log := log + [Hit(f.id, j)];
        var tracked := opIdx' < |ops| && cur == ops[opIdx'];
        if tracked { opIdx' := opIdx' + 1; }
        if tracked || (insts[j].imm.Func? && importCall(f.id, j)) {
          insts := insts[j := ReplayCall(cur, j)];
          made' := made' + [Fn(ReplayOps(cur), [])];
        }
      }
      assert insts[..j] == before[..j];
      NewOpsStep(insts, j);
      SwapsKept(f, before, insts, ops, importCall, tracker, j);
    }
    assert f.insts[..|f.insts|] == f.insts && insts[..|insts|] == insts;
  }

  lemma NoneNew(insts: seq<Ins>)
    ensures NewOps(insts[..0]) == []
  {
  }

  lemma SwapIs(f: Fn, j: nat, tracker: nat, ops: seq<nat>, isImport: bool)
    requires j < |f.insts| && f.insts[j].Mine? && f.insts[j].place == j && tracker > 0
    ensures NumberAt(f, j, tracker) == tracker + |FnHits(f.id, f.insts[..j])|
    ensures Swapped(f.insts[j], NumberAt(f, j, tracker), ops, isImport)
         == if Counted(f.insts[j].imm) && (Tracked(ops, NumberAt(f, j, tracker)) || (f.insts[j].imm.Func? && isImport))
            then ReplayCall(NumberAt(f, j, tracker), j) else f.insts[j]
  {
    hide FnHits, Counted, Tracked;
  }

  lemma SwapsKept(f: Fn, before: seq<Ins>, now: seq<Ins>, ops: seq<nat>, importCall: (FuncId, nat) -> bool, tracker: nat, j: nat)
    requires tracker > 0 && AllMine(f.insts) && j < |f.insts| == |before| == |now| && before[..j] == now[..j]
    requires forall q :: 0 <= q < j ==> SwappedAt(f, before, ops, importCall, tracker, q)
    requires now[j] == Swapped(f.insts[j], NumberAt(f, j, tracker), ops, importCall(f.id, j))
    ensures forall q :: 0 <= q < j + 1 ==> SwappedAt(f, now, ops, importCall, tracker, q)
  {
    hide Swapped, NumberAt;
    forall q | 0 <= q < j + 1 ensures SwappedAt(f, now, ops, importCall, tracker, q) {
      if q < j {
        assert SwappedAt(f, before, ops, importCall, tracker, q);
        assert now[q] == now[..j][q] == before[..j][q] == before[q];
      }
    }
  }

  /** What the replay pass leaves of function `k`: all of it when it is left alone. */
  ghost predicate FnReplayed(b: Base, funcs: seq<Fn>, k: nat, now: Fn, ops: seq<nat>, importCall: (FuncId, nat) -> bool)
    requires k < |funcs| && Countable(b, funcs[k])
  {
    if Ignored(b, funcs[k].id) then now == funcs[k]
    else now.id == funcs[k].id && AllSwapped(funcs[k], now.insts, ops, importCall, 1 + |Hits(b, funcs[..k])|)
  }

  /** The replay functions called from the functions that are walked over. */
  function AllNew(b: Base, fs: seq<Fn>): seq<Fn> {
    if fs == [] then []
    else
      var f := fs[|fs| - 1];
      AllNew(b, fs[..|fs| - 1]) + (if f.id in LeftAlone(b) then [] else NewOps(f.insts))
  }

  /**
   * The replay pass: it counts as the record pass does, stops at function `last`, and has used the
   * first `opIdx` recorded operations.  The replay functions made go behind all others.
   */
  method ReplayPass(b: Base, funcs: seq<Fn>, last: nat, ops: seq<nat>, importCall: (FuncId, nat) -> bool)
    returns (log: seq<Hit>, tracker: nat, opIdx: nat, out: seq<Fn>)
    requires last < |funcs| && (forall k :: 0 <= k < last ==> Countable(b, funcs[k]))
    ensures log == Hits(b, funcs[..last]) && tracker == |log| + 1
    ensures opIdx == Matched(ops, |log|)
    ensures |out| >= |funcs| && out[last..] == funcs[last..] + AllNew(b, out[..last])
    ensures forall k :: 0 <= k < last ==> FnReplayed(b, funcs, k, out[k], ops, importCall)
  {
    hide FnHits, AllMine, Matched, AllSwapped, FnReplayed, NewOps, AllNew, Hits, Countable;
    NothingMade(b);
    log, tracker, opIdx, out := [], 1, 0, [];
    var made: seq<Fn> := [];
    NoneMatched(ops);
    for pos := 0 to |funcs|
      invariant pos <= last && |out| == pos && log == Hits(b, funcs[..pos]) && tracker == |log| + 1
      invariant opIdx == Matched(ops, |log|)
      invariant forall k :: 0 <= k < pos ==> FnReplayed(b, funcs, k, out[k], ops, importCall)
      invariant made == AllNew(b, out)
    {
      if pos == last { break; }
      ghost var before := out;
      var f := funcs[pos];
      HitsStep(b, funcs, pos);
      FnReplayedIs(b, funcs, pos, ops, importCall);
      if Ignored(b, f.id) {
        out := out + [f];
      } else {
        var hits, insts;
        hits, insts, opIdx, tracker, made := ReplayFunction(f, ops, importCall, opIdx, tracker, made);
        log := log + hits;
        out := out + [Fn(f.id, insts)];
      }
      AllNewStep(b, before, out[pos]);
    }
    ghost var done := out;
    out := out + funcs[last..] + made;
    assert out[..last] == done && out[last..] == funcs[last..] + made;
  }

  lemma NothingMade(b: Base)
    ensures Hits(b, []) == [] && AllNew(b, []) == []
  {
  }

  lemma HitsStep(b: Base, funcs: seq<Fn>, k: nat)
    requires k < |funcs|
    ensures Hits(b, funcs[..k + 1]) == Hits(b, funcs[..k]) + (if Ignored(b, funcs[k].id) then [] else FnHits(funcs[k].id, funcs[k].insts))
    ensures funcs[..0] == []
  {
    hide FnHits;
    assert funcs[..k + 1][..k] == funcs[..k];
  }

  lemma AllNewStep(b: Base, fs: seq<Fn>, f: Fn)
    ensures AllNew(b, fs + [f]) == AllNew(b, fs) + (if Ignored(b, f.id) then [] else NewOps(f.insts))
  {
    hide NewOps;
    assert (fs + [f])[..|fs|] == fs;
  }

  lemma FnReplayedIs(b: Base, funcs: seq<Fn>, k: nat, ops: seq<nat>, importCall: (FuncId, nat) -> bool)
    requires k < |funcs| && Countable(b, funcs[k])
    ensures Ignored(b, funcs[k].id) ==> FnReplayed(b, funcs, k, funcs[k], ops, importCall)
    ensures !Ignored(b, funcs[k].id) ==> AllMine(funcs[k].insts)
    ensures !Ignored(b, funcs[k].id) ==> forall insts :: AllSwapped(funcs[k], insts, ops, importCall, 1 + |Hits(b, funcs[..k])|) ==>
      FnReplayed(b, funcs, k, Fn(funcs[k].id, insts), ops, importCall)
  {
    hide AllSwapped, Hits, AllMine, Ignored;
  }

  lemma NoneMatched(ops: seq<nat>)
    ensures Matched(ops, 0) == 0
  {
  }

  /** Before the pass every function that is not ignored holds only its own instructions. */
  lemma {:induction false} AllCountable(b: Base, h: Helpers)
    ensures forall k :: 0 <= k < |RecordFuncs(b, h)| ==> Countable(b, RecordFuncs(b, h)[k])
    ensures Existing(b) != [] ==>
      Visited(b) <= ReplayFuncs(b, h) && forall k :: 0 <= k < |Visited(b)| ==> Countable(b, Visited(b)[k])
  {
    var e := Existing(b);
    assert forall k :: 0 <= k < |Originals(b)| ==> AllMine(Originals(b)[k].insts);
    assert forall k :: 0 <= k < |Wrappers(b)| ==> AllMine(Wrappers(b)[k].insts);
    hide Originals, Wrappers;
  }

  // ----- which instructions have a number, and which -----

  /** The kinds of immediates of memory accesses and of direct calls. */
  const ACCESSES: set<Imm> := {Memarg, MemargLaneidx, Memory, DataMemory, Memorycp, Func}

  function AccessesIn(insts: seq<Ins>): nat {
    if insts == [] then 0
    else
      var x := insts[|insts| - 1];
      AccessesIn(insts[..|insts| - 1]) + (if x.Mine? && x.imm in ACCESSES then 1 else 0)
  }

  function AccessesOf(b: Base, funcs: seq<Fn>): nat {
    if funcs == [] then 0
    else
      var f := funcs[|funcs| - 1];
      AccessesOf(b, funcs[..|funcs| - 1]) + (if f.id in LeftAlone(b) then 0 else AccessesIn(f.insts))
  }

  lemma CountedIff(m: Imm)
    ensures Counted(m) <==> m in ACCESSES
  {
  }

  lemma {:induction false} FnHitsCount(id: FuncId, insts: seq<Ins>)
    ensures |FnHits(id, insts)| == AccessesIn(insts)
  {
    if insts != [] {
      CountedIff(if insts[|insts| - 1].Mine? then insts[|insts| - 1].imm else Plain);
      FnHitsCount(id, insts[..|insts| - 1]);
    }
  }

  lemma {:induction false} HitsCount(b: Base, funcs: seq<Fn>)
    ensures |Hits(b, funcs)| == AccessesOf(b, funcs)
  {
    hide FnHits, AccessesIn;
    if funcs != [] {
      HitsCount(b, funcs[..|funcs| - 1]);
      FnHitsCount(funcs[|funcs| - 1].id, funcs[|funcs| - 1].insts);
    }
  }

  lemma {:induction false} FnHitAt(id: FuncId, insts: seq<Ins>, j: nat)
    requires AllMine(insts) && j < |insts| && insts[j].imm in ACCESSES
    ensures AccessesIn(insts[..j]) < |FnHits(id, insts)| && FnHits(id, insts)[AccessesIn(insts[..j])] == Hit(id, j)
    decreases |insts|
  {
    var last := |insts| - 1;
    CountedIff(insts[last].imm);
    FnHitsCount(id, insts[..last]);
    if j < last {
      assert insts[..last][..j] == insts[..j];
      FnHitAt(id, insts[..last], j);
    }
  }

  lemma {:induction false} FnHitIs(id: FuncId, insts: seq<Ins>, h: Hit)
    requires AllMine(insts) && h in FnHits(id, insts)
    ensures h.fn == id && h.place < |insts| && insts[h.place].imm in ACCESSES
    decreases |insts|
  {
    var last := |insts| - 1;
    CountedIff(insts[last].imm);
    if h in FnHits(id, insts[..last]) { FnHitIs(id, insts[..last], h); }
  }

  /**
   * The number of an access is one more than the number of accesses and direct calls before it, in the
   * functions in front and in its own.
   */
  lemma {:induction false} NumberedAs(b: Base, funcs: seq<Fn>, k: nat, j: nat)
    requires k < |funcs| && funcs[k].id !in LeftAlone(b) && AllMine(funcs[k].insts)
    requires j < |funcs[k].insts| && funcs[k].insts[j].imm in ACCESSES
    ensures var n := AccessesOf(b, funcs[..k]) + AccessesIn(funcs[k].insts[..j]);
      n < |Hits(b, funcs)| && Hits(b, funcs)[n] == Hit(funcs[k].id, j)
    decreases |funcs|
  {
    hide FnHits, AccessesIn, AllMine;
    var last := |funcs| - 1;
    HitsCount(b, funcs[..last]);
    if k < last {
      assert funcs[..last][..k] == funcs[..k];
      NumberedAs(b, funcs[..last], k, j);
    } else {
      FnHitAt(funcs[k].id, funcs[k].insts, j);
    }
  }

  ghost predicate AccessAt(b: Base, funcs: seq<Fn>, k: nat, h: Hit) {
    && k < |funcs| && funcs[k].id == h.fn && h.fn !in LeftAlone(b)
    && h.place < |funcs[k].insts| && funcs[k].insts[h.place].Mine? && funcs[k].insts[h.place].imm in ACCESSES
  }

  /** Nothing else has a number. */
  lemma {:induction false} OnlyAccesses(b: Base, funcs: seq<Fn>, h: Hit)
    requires h in Hits(b, funcs) && forall k :: 0 <= k < |funcs| ==> Countable(b, funcs[k])
    ensures exists k: nat :: AccessAt(b, funcs, k, h)
    decreases |funcs|
  {
    hide FnHits, AllMine;
    var last := |funcs| - 1;
    var f := funcs[last];
    assert Countable(b, f);
    if h in Hits(b, funcs[..last]) {
      forall k | 0 <= k < last ensures Countable(b, funcs[..last][k]) { assert funcs[..last][k] == funcs[k]; }
      OnlyAccesses(b, funcs[..last], h);
      var k: nat :| AccessAt(b, funcs[..last], k, h);
      assert AccessAt(b, funcs, k, h);
    } else {
      FnHitIs(f.id, f.insts, h);
      OwnAt(f.insts, h.place);
      assert AccessAt(b, funcs, last, h);
    }
  }

  lemma OwnAt(insts: seq<Ins>, j: nat)
    requires AllMine(insts) && j < |insts|
    ensures insts[j].Mine?
  {
  }

  /**
   * After the replay pass no call of an import is left in a function walked over, and no access with a
   * recorded operation of its own: in its place is the call to the replay function with its number.
   * Everything else is as it was.
   */
  lemma {:induction false} ReplacedExactly(
      b: Base, funcs: seq<Fn>, k: nat, now: Fn, ops: seq<nat>, importCall: (FuncId, nat) -> bool, j: nat)
    requires k < |funcs| && Countable(b, funcs[k]) && FnReplayed(b, funcs, k, now, ops, importCall)
    requires funcs[k].id !in LeftAlone(b) && j < |funcs[k].insts|
    ensures var x, n := funcs[k].insts[j], AccessesOf(b, funcs[..k]) + AccessesIn(funcs[k].insts[..j]) + 1;
      && |now.insts| == |funcs[k].insts| && x.Mine?
      && now.insts[j] ==
         if x.imm in ACCESSES && (HasOp(ops, n) || (x.imm == Func && importCall(funcs[k].id, j))) then ReplayCall(n, j) else x
  {
    hide FnHits, Hits, AccessesIn, AccessesOf, Tracked;
    var f := funcs[k];
    var n := 1 + |Hits(b, funcs[..k])|;
    HitsCount(b, funcs[..k]);
    FnHitsCount(f.id, f.insts[..j]);
    CountedIff(f.insts[j].imm);
    TrackedIff(ops, NumberAt(f, j, n));
    assert SwappedAt(f, now.insts, ops, importCall, n, j);
    hide Counted;
  }

  /** A function imported by or defined in the original module has this index in the recorded module. */
  function TransformToRecordFuncIdx(replayIdx: nat): nat {
    Wrap32(replayIdx + RECORD_IMPORTS - REPLAY_IMPORTS)
  }

  /**
   * The index replay computes is that of the same function in the recorded module if the function is
   * one of the original module; a wrapper sits two places further on there, behind the mutex.
   */
  lemma {:induction false} TransformExact(b: Base, h: Helpers, i: nat)
    requires REPLAY_IMPORTS <= i < REPLAY_IMPORTS + |Existing(b)| && |RecordFuncs(b, h)| < TWO32
    ensures i < |ReplayFuncs(b, h)| && TransformToRecordFuncIdx(i) < |RecordFuncs(b, h)|
    ensures RecordFuncs(b, h)[TransformToRecordFuncIdx(i)].id == ReplayFuncs(b, h)[i].id
      <==> ReplayFuncs(b, h)[i].id.Original?
  {
    var o, w := |b.funcs|, |b.wrappers|;
    assert TransformToRecordFuncIdx(i) == i - 5;
    assert i < 7 + o ==> ReplayFuncs(b, h)[i].id == Original(i - 7) && RecordFuncs(b, h)[i - 5].id == Original(i - 7);
    assert i >= 7 + o ==> ReplayFuncs(b, h)[i].id == Wrapper(i - 7 - o);
  }
}
