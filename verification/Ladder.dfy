/**
 * The block ladder: the shape in which the rewriter emits every switch.  `n` blocks are opened,
 * a `br_table` sits in the innermost one, and each `end` is followed by one arm, so that
 * branching to label `k` continues with arm `k`.
 */
module Ladder {
  import opened Wasm
  import opened Flat

  /** `segs[0]` is the code in the innermost block, `segs[k]` the code after the `end` of the k-th. */
  function Nest(r: nat, segs: seq<seq<Instr>>): Instr
    requires segs != []
    decreases |segs|
  {
    var last := |segs| - 1;
    Block(BT(0, r), (if last == 0 then [] else [Nest(r, segs[..last])]) + segs[last], NO_PC, NO_PC)
  }

  function Opens(r: nat, n: nat): (ts: seq<Tok>)
    ensures |ts| == n
  {
    seq(n, _ => BlockT(BT(0, r), NO_PC))
  }

  /** What a builder pushes after opening all the blocks: each segment and its `end`. */
  function Closed(segs: seq<seq<Instr>>): seq<Tok>
    decreases |segs|
  {
    if segs == [] then []
    else Closed(segs[..|segs| - 1]) + Flatten(segs[|segs| - 1]) + [EndT(NO_PC)]
  }

  /** The tokens in the order the builders push them are those of the nested blocks. */
  lemma {:induction false} FlattenNest(r: nat, segs: seq<seq<Instr>>)
    requires segs != []
    ensures FlattenI(Nest(r, segs)) == Opens(r, |segs|) + Closed(segs)
    decreases |segs|
  {
    var last := |segs| - 1;
    var init := segs[..last];
    assert Opens(r, |segs|) == [BlockT(BT(0, r), NO_PC)] + Opens(r, last);
    if last == 0 {
      assert [] + segs[last] == segs[last];
      assert Closed(init) == [];
    } else {
      FlattenNest(r, init);
      FlattenBody(r, init, segs[last]);
      FlattenBlock(r, [Nest(r, init)] + segs[last]);
      Rearrange([BlockT(BT(0, r), NO_PC)], Opens(r, last), Closed(init), Flatten(segs[last]), [EndT(NO_PC)]);
    }
  }

  lemma {:induction false} FlattenBlock(r: nat, body: seq<Instr>)
    ensures FlattenI(Block(BT(0, r), body, NO_PC, NO_PC)) == [BlockT(BT(0, r), NO_PC)] + Flatten(body) + [EndT(NO_PC)]
  {
  }

  lemma Rearrange<T>(o: seq<T>, os: seq<T>, cl: seq<T>, s: seq<T>, e: seq<T>)
    ensures o + (os + cl + s) + e == (o + os) + (cl + s + e)
  {
  }

  lemma {:induction false} FlattenBody(r: nat, init: seq<seq<Instr>>, seg: seq<Instr>)
    requires init != []
    ensures Flatten([Nest(r, init)] + seg) == FlattenI(Nest(r, init)) + Flatten(seg)
  {
    FlattenAppend([Nest(r, init)], seg);
    FlattenOne(Nest(r, init));
  }

  /** Continuing at segment `k` with the values in `st`; past the last segment the ladder is left. */
  function After(fuel: nat, r: nat, segs: seq<seq<Instr>>, k: nat, st: State): Outcome
    requires k <= |segs|
    decreases |segs| - k, 1
  {
    if k == |segs| then Next(st)
    else Resume(fuel, r, segs, k, Exec(fuel, segs[k], NO_PC, st))
  }

  /** Segment `k` ended with `o`: go on with the next one, or with the one branched to. */
  function Resume(fuel: nat, r: nat, segs: seq<seq<Instr>>, k: nat, o: Outcome): Outcome
    requires k < |segs|
    decreases |segs| - k, 0
  {
    match o
    case Next(s) => if Size(s.stack) == r then After(fuel, r, segs, k + 1, s) else Invalid
    case Jump(l, s, src) =>
      if k + l >= |segs| then Jump(k + l - |segs|, s, src)
      else if Size(s.stack) < r then Invalid
      else After(fuel, r, segs, k + l + 1, Caught(r, s, src))
    case _ => o
  }

  function Caught(r: nat, s: State, src: int): State
    requires r <= Size(s.stack)
  {
    s.(stack := Take(s.stack, r), log := Arrive(s, src, NO_PC, Within))
  }

  /** The outermost block of a ladder around `o`, followed by `last`. */
  function Finish(fuel: nat, r: nat, last: seq<Instr>, o: Outcome): Outcome {
    Leave(r, Nil, NO_PC, match o case Next(s) => Exec(fuel, last, NO_PC, s) case _ => o)
  }

  lemma {:induction false} Peel(fuel: nat, r: nat, segs: seq<seq<Instr>>, last: seq<Instr>, k: nat, st: State)
    requires k <= |segs|
    ensures After(fuel, r, segs + [last], k, st) == Finish(fuel, r, last, After(fuel, r, segs, k, st))
    decreases |segs| - k
  {
    var all := segs + [last];
    if k == |segs| {
      assert all[k] == last;
      PeelLast(fuel, r, all, k, Exec(fuel, last, NO_PC, st));
      hide Resume, Leave, Exec;
    } else {
      assert all[k] == segs[k];
      var o := Exec(fuel, segs[k], NO_PC, st);
      PeelResume(fuel, r, segs, last, k, o);
    }
  }

  /** Behind the last segment there is nothing. */
  lemma {:induction false} PeelLast(fuel: nat, r: nat, segs: seq<seq<Instr>>, k: nat, o: Outcome)
    requires k + 1 == |segs|
    ensures Resume(fuel, r, segs, k, o) == Leave(r, Nil, NO_PC, o)
  {
    if o.Next? {
      AppendNil(o.st.stack);
      AfterAll(fuel, r, segs, o.st);
    } else if o.Jump? && o.l == 0 && r <= Size(o.st.stack) {
      AppendNil(Take(o.st.stack, r));
      AfterAll(fuel, r, segs, Caught(r, o.st, o.src));
    }
    hide After, Append, Take, Size, Arrive;
  }

  lemma AfterAll(fuel: nat, r: nat, segs: seq<seq<Instr>>, st: State)
    ensures After(fuel, r, segs, |segs|, st) == Next(st)
  {
  }

  lemma {:induction false} PeelResume(
      fuel: nat, r: nat, segs: seq<seq<Instr>>, last: seq<Instr>, k: nat, o: Outcome)
    requires k < |segs|
    ensures Resume(fuel, r, segs + [last], k, o) == Finish(fuel, r, last, Resume(fuel, r, segs, k, o))
    decreases |segs| - k, 0
  {
    match o
    case Next(s) => if Size(s.stack) == r { Peel(fuel, r, segs, last, k + 1, s); }
    case Jump(l, s, src) =>
      if k + l < |segs| {
        if r <= Size(s.stack) { Peel(fuel, r, segs, last, k + l + 1, Caught(r, s, src)); }
      } else if k + l == |segs| && r <= Size(s.stack) {
        AppendNil(Take(s.stack, r));
      }
    case _ =>
  }

  function Lower(below: Stack, o: Outcome): Outcome {
    match o case Next(s) => Next(s.(stack := Append(s.stack, below))) case _ => o
  }

  /** Falling into a ladder runs segment 0 and then moves between segments as `After` says. */
  lemma {:induction false} NestExec(fuel: nat, r: nat, segs: seq<seq<Instr>>, next: int, st: State)
    requires segs != []
    ensures ExecI(fuel, Nest(r, segs), next, st)
         == Lower(st.stack, After(fuel, r, segs, 0, st.(stack := Nil)))
    decreases |segs|, 0
  {
    var last := |segs| - 1;
    var init, seg := segs[..last], segs[last];
    var in0 := st.(stack := Nil);
    assert segs == init + [seg];
    Peel(fuel, r, init, seg, 0, in0);
    var body := (if last == 0 then [] else [Nest(r, init)]) + seg;
    BodyExec(fuel, r, init, seg, in0);
    var inner := After(fuel, r, init, 0, in0);
    LeaveLower(fuel, r, st.stack, seg, inner);
  }

  /** The body of the outermost block: the smaller ladder, then the last segment. */
  lemma {:induction false} BodyExec(fuel: nat, r: nat, init: seq<seq<Instr>>, seg: seq<Instr>, in0: State)
    requires in0.stack == Nil
    ensures Exec(fuel, (if init == [] then [] else [Nest(r, init)]) + seg, NO_PC, in0)
         == match After(fuel, r, init, 0, in0) case Next(s) => Exec(fuel, seg, NO_PC, s) case o => o
    decreases |init|, 1
  {
    if init == [] {
      assert [] + seg == seg;
    } else {
      var i := Nest(r, init);
      ExecAppend(fuel, [i], seg, NO_PC, in0);
      NestExec(fuel, r, init, PcAt(seg, NO_PC), in0);
      assert [i][1..] == [];
      assert PcAt([i][1..], PcAt(seg, NO_PC)) == PcAt(seg, NO_PC);
      var o := After(fuel, r, init, 0, in0);
      if o.Next? { AppendNil(o.st.stack); }
    }
  }

  lemma {:induction false} LeaveLower(fuel: nat, r: nat, below: Stack, last: seq<Instr>, o: Outcome)
    ensures Leave(r, below, NO_PC, match o case Next(s) => Exec(fuel, last, NO_PC, s) case _ => o)
         == Lower(below, Finish(fuel, r, last, o))
  {
    var x := match o case Next(s) => Exec(fuel, last, NO_PC, s) case _ => o;
    match x
    case Next(s) => AppendNil(s.stack);
    case Jump(l, s, src) => if l == 0 && r <= Size(s.stack) { AppendNil(Take(s.stack, r)); }
    case _ =>
  }
}
