/** The tracer's pass over a function, and the function it yields. */
module TracerGen {
  import opened Bytes
  import opened Wasm
  import opened Flat
  import opened Ladder
  import opened Tracer
  import opened TracerSteps
  import opened TracerProof
  import opened TracerCalls
  import opened TracerSim

  // ----- builders -----

  /** The scopes around an instruction, outermost first, as the positions branches to them lead to. */
  function FromInside(stack: seq<nat>): (labels: seq<nat>)
    ensures |labels| == |stack| && forall d :: 0 <= d < |stack| ==> labels[d] == stack[|stack| - 1 - d]
  {
    seq(|stack|, d requires 0 <= d < |stack| => stack[|stack| - 1 - d])
  }

  method GetBrTargetPc(cfscopeStack: seq<nat>, depth: nat) returns (pc: nat)
    requires depth < |cfscopeStack|
    ensures pc == FromInside(cfscopeStack)[depth]
  {
    pc := cfscopeStack[|cfscopeStack| - 1 - depth];
  }

  method MaxElement(ls: seq<nat>, d: nat) returns (m: nat)
    ensures m == MaxLabel(ls, d)
  {
    m := d;
    for i := 0 to |ls|
      invariant m == MaxLabel(ls[..i], d)
    {
      assert ls[..i + 1][..i] == ls[..i];
      if ls[i] > m { m := ls[i]; }
    }
    assert ls[..|ls|] == ls;
  }

  /** The table's ladder: the blocks, the copied table, an arm per label. */
  method BrTableInsert(c: Ctx, cfscopeStack: seq<nat>, ls: seq<nat>, d: nat, pc: nat) returns (builder: seq<Tok>)
    requires MaxLabel(ls, d) < |cfscopeStack|
    ensures builder == Flatten(BrTableCode(c, FromInside(cfscopeStack), ls, d, pc))
  {
    hide MaxLabel, Nest, RecordOps, Toks, Closed, Opens;
    var labels := FromInside(cfscopeStack);
    var maxIdx := MaxElement(ls, d);
    builder := Toks([LocalTee(Cond(c))]);
    var blocks: seq<Tok> := [];
    for i := 0 to maxIdx + 1
      invariant blocks == Opens(1, i)
    {
      blocks := blocks + [BlockT(BT(0, 1), NO_PC)];
      OpensNext(1, i);
    }
    blocks := blocks + [BlockT(BT(0, 1), NO_PC)];
    OpensNext(1, maxIdx + 1);
    ghost var segs := TableSegs(c, labels, ls, d);
    var arms := Toks([Const(I64(0)), LocalGet(Cond(c)), BrTable(ls, d)]) + [EndT(NO_PC)];
    FirstSeg(c, labels, ls, d);
    for i := 0 to maxIdx + 1
      invariant arms == Closed(segs[..i + 1])
    {
      var target := GetBrTargetPc(cfscopeStack, i);
      arms := arms + Toks([Const(I64(target)), Br(maxIdx - i)]) + [EndT(NO_PC)];
      NextSeg(c, labels, ls, d, i);
    }
    assert segs[..maxIdx + 2] == segs;
    FlattenNest(1, segs);
    builder := builder + (blocks + arms) + Toks(RecordOps(c, Here(c, pc)));
    TableTokens(c, labels, ls, d, pc);
  }

  lemma OpensNext(r: nat, n: nat)
    ensures Opens(r, n + 1) == Opens(r, n) + [BlockT(BT(0, r), NO_PC)] && Opens(r, 0) == []
  {
  }

  lemma {:induction false} FirstSeg(c: Ctx, labels: seq<nat>, ls: seq<nat>, d: nat)
    requires MaxLabel(ls, d) < |labels|
    ensures Closed(TableSegs(c, labels, ls, d)[..1])
         == Toks([Const(I64(0)), LocalGet(Cond(c)), BrTable(ls, d)]) + [EndT(NO_PC)]
  {
    hide MaxLabel, Toks;
    var segs := TableSegs(c, labels, ls, d);
    var ops := [Const(I64(0)), LocalGet(Cond(c)), BrTable(ls, d)];
    assert segs[0] == Lift(ops);
    FlattenLift(ops);
    assert segs[..1][..0] == [] && Closed([]) == [];
    assert Closed(segs[..1]) == Closed(segs[..1][..0]) + Flatten(segs[..1][0]) + [EndT(NO_PC)];
  }

  lemma {:induction false} NextSeg(c: Ctx, labels: seq<nat>, ls: seq<nat>, d: nat, i: nat)
    requires MaxLabel(ls, d) < |labels| && i <= MaxLabel(ls, d)
    ensures var segs := TableSegs(c, labels, ls, d);
      Closed(segs[..i + 2])
      == Closed(segs[..i + 1]) + Toks([Const(I64(labels[i])), Br(MaxLabel(ls, d) - i)]) + [EndT(NO_PC)]
  {
    hide MaxLabel, Toks;
    var segs := TableSegs(c, labels, ls, d);
    var ops := [Const(I64(labels[i])), Br(MaxLabel(ls, d) - i)];
    assert segs[i + 1] == TableArm(labels, MaxLabel(ls, d), i) == Lift(ops);
    FlattenLift(ops);
    assert segs[..i + 2][..i + 1] == segs[..i + 1];
    assert Closed(segs[..i + 2]) == Closed(segs[..i + 2][..i + 1]) + Flatten(segs[..i + 2][i + 1]) + [EndT(NO_PC)];
  }

  lemma {:induction false} TableTokens(c: Ctx, labels: seq<nat>, ls: seq<nat>, d: nat, pc: nat)
    requires MaxLabel(ls, d) < |labels|
    ensures Flatten(BrTableCode(c, labels, ls, d, pc))
         == Toks([LocalTee(Cond(c))]) + FlattenI(Nest(1, TableSegs(c, labels, ls, d))) + Toks(RecordOps(c, Here(c, pc)))
  {
    hide MaxLabel, TableSegs, Nest, RecordOps;
    var nest := Nest(1, TableSegs(c, labels, ls, d));
    var tee, rec := Lift([LocalTee(Cond(c))]), Lift(RecordOps(c, Here(c, pc)));
    FlattenAppend(tee + [nest], rec);
    FlattenAppend(tee, [nest]);
    FlattenOne(nest);
    FlattenLift([LocalTee(Cond(c))]);
    FlattenLift(RecordOps(c, Here(c, pc)));
  }

  /**
   * The pass: scopes are handled with a stack of the positions their labels lead to; in each
   * scope the recording code goes in front of every branch.
   */
  method LocalCfscopeHandler(c: Ctx, cfscopeStack: seq<nat>, code: seq<Instr>, end: int) returns (out: seq<Tok>)
    requires Traceable(c, code, |cfscopeStack|) && Pc(end)
    ensures out == Flatten(Traced(c, FromInside(cfscopeStack), code, end))
    decreases code, 1
  {
    hide Flatten, Traced, TracedI, TraceableI, FromInside;
    out := [];
    var labels := FromInside(cfscopeStack);
    ghost var all := Flatten(Traced(c, labels, code, end));
    var i := 0;
    assert code[0..] == code;
    while i < |code|
      invariant 0 <= i <= |code| && Traceable(c, code[i..], |labels|)
      invariant out + Flatten(Traced(c, labels, code[i..], end)) == all
    {
      var x := code[i];
      SuffixOk(c, code, i, |labels|);
      PcAtOk(c, code[i + 1..], |labels|, end);
      var next := PcAt(code[i + 1..], end);
      var piece := TracePiece(c, cfscopeStack, x, next);
      TracedHead(c, labels, code[i..], end);
      FlattenAppend(TracedI(c, labels, x, next), Traced(c, labels, code[i + 1..], end));
      out := out + piece;
      i := i + 1;
    }
    assert code[i..] == [];
    NoTrace(c, labels, end);
  }

  /** One instruction of a scope: a branch behind its recording code, a subscope handled in turn. */
  method TracePiece(c: Ctx, cfscopeStack: seq<nat>, x: Instr, next: int) returns (piece: seq<Tok>)
    requires TraceableI(c, x, |cfscopeStack|) && Pc(next)
    ensures piece == Flatten(TracedI(c, FromInside(cfscopeStack), x, next))
    decreases x, 0
  {
    hide Flatten, Inserted, Traced, FromInside;
    PieceTokens(c, FromInside(cfscopeStack), x, next);
    match x {
      case Do(p, pc) =>
        piece := BranchToks(c, cfscopeStack, p, pc, next);
      case Block(bt, body, pc, e) =>
        var inner := LocalCfscopeHandler(c, cfscopeStack + [e], body, e);
        InsideOne(cfscopeStack, e);
        piece := [BlockT(bt, pc)] + inner + [EndT(e)];
      case Loop(bt, body, pc, e) =>
        var inner := LocalCfscopeHandler(c, cfscopeStack + [pc], body, e);
        InsideOne(cfscopeStack, pc);
        piece := [LoopT(bt, pc)] + inner + [EndT(e)];
      case CallTable(ty, pc) =>
        piece := Toks(SiteOps(c, pc)) + [InsT(CallTable(Longer(ty), pc))];
      case _ =>
        piece := [InsT(x)];
    }
  }

  /** A wrapper's instructions: its function's index recorded as the target, then the call. */
  method WrapperToks(base: nat, size: nat, ty: FnType, f: nat) returns (builder: seq<Tok>)
    ensures builder == Flatten(WrapperFn(base, size, ty, f).body)
  {
    hide RecordOps, Toks, Flatten, Lift, WrapperOps;
    var c := WrapperCtx(base, size, ty);
    var n := |ty.params|;
    var gets: seq<Plain> := [];
    for i := 0 to n
      invariant gets == GetOps(i)
    {
      gets := gets + [LocalGet(i)];
    }
    var ops := [Const(I64(f))] + RecordOps(c, LocalGet(n)) + gets;
    WrapperOpsIs(c, n, f);
    FlattenAppend(Lift(ops), [CallFn(f, NO_PC)]);
    FlattenLift(ops);
    FlattenOne(CallFn(f, NO_PC));
    builder := Toks(ops) + [InsT(CallFn(f, NO_PC))];
  }

  lemma WrapperOpsIs(c: Ctx, n: nat, f: nat)
    ensures WrapperOps(c, n, f) == [Const(I64(f))] + RecordOps(c, LocalGet(n)) + GetOps(n)
  {
    hide RecordOps, GetOps;
  }

  lemma NoTrace(c: Ctx, labels: seq<nat>, end: int)
    requires Pc(end)
    ensures Flatten(Traced(c, labels, [], end)) == []
  {
  }

  lemma InsideOne(stack: seq<nat>, x: nat)
    ensures FromInside(stack + [x]) == [x] + FromInside(stack)
  {
  }

  lemma {:induction false} SuffixOk(c: Ctx, code: seq<Instr>, i: nat, depth: nat)
    requires Traceable(c, code, depth) && i < |code|
    ensures Traceable(c, code[i..], depth) && TraceableI(c, code[i], depth) && code[i] in code
    ensures code[i..][1..] == code[i + 1..] && Traceable(c, code[i + 1..], depth)
    decreases i
  {
    if i > 0 {
      SuffixOk(c, code[1..], i - 1, depth);
      assert code[1..][i - 1..] == code[i..];
    } else {
      assert code[0..] == code;
    }
    assert code[i..][1..] == code[i + 1..];
  }

  lemma {:induction false} PieceTokens(c: Ctx, labels: seq<nat>, x: Instr, next: int)
    requires TraceableI(c, x, |labels|) && Pc(next)
    ensures Flatten(TracedI(c, labels, x, next))
         == match x
            case Do(p, pc) => Flatten(Inserted(c, labels, p, pc, next)) + [InsT(x)]
            case Block(bt, body, pc, e) => [BlockT(bt, pc)] + Flatten(Traced(c, [e] + labels, body, e)) + [EndT(e)]
            case Loop(bt, body, pc, e) => [LoopT(bt, pc)] + Flatten(Traced(c, [pc] + labels, body, e)) + [EndT(e)]
            case CallTable(ty, pc) => Toks(SiteOps(c, pc)) + [InsT(CallTable(Longer(ty), pc))]
            case _ => [InsT(x)]
  {
    hide Traced, Inserted;
    match x
    case Do(p, pc) =>
      FlattenAppend(Inserted(c, labels, p, pc, next), [x]);
      FlattenOne(x);
    case Block(_, _, _, _) => FlattenOne(TracedI(c, labels, x, next)[0]);
    case Loop(_, _, _, _) => FlattenOne(TracedI(c, labels, x, next)[0]);
    case CallTable(ty, pc) =>
      FlattenAppend(Lift(SiteOps(c, pc)), [CallTable(Longer(ty), pc)]);
      FlattenLift(SiteOps(c, pc));
      FlattenOne(CallTable(Longer(ty), pc));
    case _ => FlattenOne(x);
  }

  /** One instruction with what goes in front of it. */
  method BranchToks(c: Ctx, cfscopeStack: seq<nat>, p: Plain, pc: nat, next: nat) returns (piece: seq<Tok>)
    requires TracedPlain(c, p, |cfscopeStack|)
    ensures piece == Flatten(Inserted(c, FromInside(cfscopeStack), p, pc, next)) + [InsT(Do(p, pc))]
  {
    hide BrTableCode, MaxLabel;
    match p {
      case Br(l) =>
        var target := GetBrTargetPc(cfscopeStack, l);
        var builder := [Const(I64(target))] + RecordOps(c, Here(c, pc));
        FlattenLift(builder);
        piece := Toks(builder) + [InsT(Do(p, pc))];
      case BrIf(l) =>
        var succ := GetBrTargetPc(cfscopeStack, l);
        var builder := [LocalTee(Cond(c)), Const(I64(succ)), Const(I64(next)), LocalGet(Cond(c)), Select] + RecordOps(c, Here(c, pc));
        FlattenLift(builder);
        piece := Toks(builder) + [InsT(Do(p, pc))];
      case BrTable(ls, d) =>
        var builder := BrTableInsert(c, cfscopeStack, ls, d, pc);
        piece := builder + [InsT(Do(p, pc))];
      case _ =>
        piece := [InsT(Do(p, pc))];
        FlattenNone();
    }
  }

  // ----- how many bits the positions have -----

  /** Rounded-up binary logarithm. */
  function CeilLog2(n: nat): nat
    requires n > 0
  {
    if n == 1 then 0 else 1 + CeilLog2((n + 1) / 2)
  }

  lemma {:induction false} CeilLog2Bound(n: nat, k: nat)
    requires n > 0
    ensures CeilLog2(n) <= k <==> n <= Pow2(k)
    decreases k
  {
    if n > 1 {
      if k == 0 {
      } else {
        CeilLog2Bound((n + 1) / 2, k - 1);
      }
    }
  }

  /** The recorded word gives back what went into it. */
  predicate Recovers(fn: nat, src: nat, dst: nat) {
    var w := Or(SrcShift(fn, src), dst);
    w / B48 == fn && (w / B24) % B24 == src && w % B24 == dst
  }

  ghost predicate AllRecover(maxPc: nat) {
    forall fn: nat, src: nat, dst: nat :: fn < 65536 && src <= maxPc && dst <= maxPc ==> Recovers(fn, src, dst)
  }

  /**
   * The check made before tracing admits positions up to 2^24, but words are exact just when
   * every position is below 2^24: the one position too many spills into the function's bits.
   */
  lemma {:induction false} PackingExact(maxPc: nat)
    requires maxPc > 0
    ensures CeilLog2(maxPc) <= 24 <==> maxPc <= B24
    ensures AllRecover(maxPc) <==> maxPc < B24
  {
    Pow2Table();
    CeilLog2Bound(maxPc, 24);
    if maxPc < B24 {
      forall fn: nat, src: nat, dst: nat | fn < 65536 && src <= maxPc && dst <= maxPc
        ensures Recovers(fn, src, dst)
      {
        Packed(Rec(fn, src, dst));
        Unpack(Rec(fn, src, dst));
      }
    } else {
      assert SrcShift(0, B24) == B48 by { assert B24 * B24 == B48; }
      assert Or(B48, 0) == B48;
      assert (B48 / B24) % B24 == 0;
      assert !Recovers(0, B24, 0);
    }
  }

  /** Position 2^24 passes the check, and its event is read as one of the next function, from position 0. */
  lemma {:induction false} SpilledEvent()
    ensures CeilLog2(B24) <= 24
    ensures var w := Or(SrcShift(0, B24), 0); w / B48 == 1 && (w / B24) % B24 == 0 && w % B24 == 0
  {
    Pow2Table();
    CeilLog2Bound(B24, 24);
    assert SrcShift(0, B24) == B48 by { assert B24 * B24 == B48; }
    assert Or(B48, 0) == B48;
  }
}
