/** The instruction lists of programs, the loop that rewrites them, and the link to the wrapped module. */
module FuncrefGen {
  import opened Bytes
  import opened Codec
  import opened CodecInst
  import opened CodecModule
  import opened CodecParts
  import opened CodecSections
  import opened CodecRound
  import opened ModuleRefs
  import opened Addresses
  import opened DeepCopy
  import opened ModuleEdit
  import opened ModuleKeeps
  import opened ModuleAdds
  import opened FuncrefObj
  import opened FuncrefAll
  import opened ModuleObject
  import opened IndirectCalls
  import opened FuncrefWrap
  import Leb128
  import Wasm

  type Insts = seq<Inst<Addr>>

  function Low(v: nat, bits: nat): int { if v >= Pow256(bits / 8) / 2 then v - Pow256(bits / 8) else v }

  function ConstInst(v: Val): Inst<Addr> {
    match v
    case I32(n) => Inst(0x41, I32C(Low(n, 32)))
    case I64(n) => Inst(0x42, I64C(Low(n, 64)))
    case F32(n) => Inst(0x43, F32C(n))
    case F64(n) => Inst(0x44, F64C(n))
  }

  function ConstInsts(vs: seq<Val>): Insts { seq(|vs|, i requires 0 <= i < |vs| => ConstInst(vs[i])) }

  /** The instruction list of structured code; an empty `else` arm has no `else`. */
  function Toks(code: seq<Code>): Insts
    decreases code, 1
  {
    if code == [] then [] else TokI(code[0]) + Toks(code[1..])
  }

  function TokI(c: Code): Insts
    decreases c, 0
  {
    match c
    case Plain(i) => [i]
    case Const(v) => [ConstInst(v)]
    case LocalGet(l) => [Inst(OP_LOCAL_GET, LocalIdx(l))]
    case LocalSet(l) => [Inst(OP_LOCAL_SET, LocalIdx(l))]
    case LocalTee(l) => [Inst(0x22, LocalIdx(l))]
    case Call(f) => [Inst(OP_CALL, FuncRef(f))]
    case CallIndirect(s, t, _) => [Inst(OP_CALL_INDIRECT, SigTable(s, t))]
    case Block(ty, body) => [Inst(0x02, Blockt(ty))] + Toks(body) + [Inst(OP_END, NoImm)]
    case Loop(ty, body) => [Inst(0x03, Blockt(ty))] + Toks(body) + [Inst(OP_END, NoImm)]
    case If(ty, a, b) =>
      [Inst(0x04, Blockt(ty))] + Toks(a) + (if b == [] then [] else [Inst(0x05, NoImm)] + Toks(b)) + [Inst(OP_END, NoImm)]
    case Br(l) => [Inst(0x0C, Label(l))]
    case BrIf(l) => [Inst(0x0D, Label(l))]
    case BrTable(ls, d) => [Inst(0x0E, Labels(ls, d))]
    case Return => [Inst(0x0F, NoImm)]
  }

  // ----- what the instructions are, read back from their opcodes -----

  datatype Step =
    | One(c: Code) | OpensBlock(ty: int) | OpensLoop(ty: int) | OpensIf(ty: int) | Elses | Ends | Else_

  /** A number of the binary format as the bits of its type. */
  function BitsOf(i: int, bits: nat): nat { i % Pow256(bits / 8) }

  function StepOf(i: Inst<Addr>): Step {
    match i.imm
    case Blockt(ty) =>
      if i.op == 0x02 then OpensBlock(ty) else if i.op == 0x03 then OpensLoop(ty) else if i.op == 0x04 then OpensIf(ty) else Else_
    case NoImm => if i.op == 0x05 then Elses else if i.op == 0x0B then Ends else if i.op == 0x0F then One(Return) else Else_
    case Label(l) => if i.op == 0x0C then One(Br(l)) else if i.op == 0x0D then One(BrIf(l)) else Else_
    case Labels(ls, d) => if i.op == 0x0E then One(BrTable(ls, d)) else Else_
    case FuncRef(f) => if i.op == 0x10 then One(Call(f)) else Else_
    case SigTable(s, t) => if i.op == 0x11 then One(CallIndirect(s, t, 0)) else Else_
    case LocalIdx(l) =>
      if i.op == 0x20 then One(LocalGet(l)) else if i.op == 0x21 then One(LocalSet(l)) else if i.op == 0x22 then One(LocalTee(l)) else Else_
    case I32C(n) => if i.op == 0x41 then One(Const(Wasm.I32(BitsOf(n, 32)))) else Else_
    case I64C(n) => if i.op == 0x42 then One(Const(Wasm.I64(BitsOf(n, 64)))) else Else_
    case F32C(b) => if i.op == 0x43 then One(Const(Wasm.F32(b))) else Else_
    case F64C(b) => if i.op == 0x44 then One(Const(Wasm.F64(b))) else Else_
    case _ => Else_
  }

  predicate Leaf(c: Code) { !c.Plain? && !c.Block? && !c.Loop? && !c.If? }

  /** Every instruction of structured code is written with the opcode and the operand it has in the binary format. */
  lemma {:induction false} LeafReads(c: Code)
    requires Leaf(c) && (c.Const? && c.v.I32? ==> c.v.n < TWO32) && (c.Const? && c.v.I64? ==> c.v.n < TWO64)
    ensures |TokI(c)| == 1 && KindOf(TokI(c)[0].op) == Some(KindOfImm(TokI(c)[0].imm))
    ensures StepOf(TokI(c)[0]) == One(if c.CallIndirect? then c.(site := 0) else c)
    ensures c.Const? && c.v.I32? ==> Leb128.Fits(Leb128.I32, TokI(c)[0].imm.i)
    ensures c.Const? && c.v.I64? ==> Leb128.Fits(Leb128.I64, TokI(c)[0].imm.i)
  {
    PowerTable();
    hide Pow256;
  }

  predicate ArmsRead(c: Code, inner: Insts)
    requires c.If?
  {
    && Toks(c.then_) <= inner
    && var rest := inner[|Toks(c.then_)|..];
    if c.else_ == [] then rest == [] else |rest| > 0 && StepOf(rest[0]) == Elses && rest[1..] == Toks(c.else_)
  }

  lemma {:induction false} NestReads(c: Code)
    requires c.Block? || c.Loop? || c.If?
    ensures var ts := TokI(c);
      && |ts| >= 2 && StepOf(ts[|ts| - 1]) == Ends
      && (c.Block? ==> StepOf(ts[0]) == OpensBlock(c.ty) && ts[1..|ts| - 1] == Toks(c.body))
      && (c.Loop? ==> StepOf(ts[0]) == OpensLoop(c.ty) && ts[1..|ts| - 1] == Toks(c.body))
      && (c.If? ==> StepOf(ts[0]) == OpensIf(c.ty) && ArmsRead(c, ts[1..|ts| - 1]))
  {
    hide Toks;
    if c.If? {
      var inner := Toks(c.then_) + (if c.else_ == [] then [] else [Inst(0x05, NoImm)] + Toks(c.else_));
      assert TokI(c)[1..|TokI(c)| - 1] == inner;
      assert inner[|Toks(c.then_)|..] == if c.else_ == [] then [] else [Inst(0x05, NoImm)] + Toks(c.else_);
    }
  }

  /** The indirect calls of a list. */
  function SitesIn(toks: Insts): nat {
    if toks == [] then 0 else (if toks[0].imm.SigTable? then 1 else 0) + SitesIn(toks[1..])
  }

  /** Indirect calls carry their numbers, counted from `k`, and nothing else looks like one. */
  predicate Numbered(code: seq<Code>, k: nat)
    decreases code, 1
  {
    code == [] || (NumberedI(code[0], k) && Numbered(code[1..], k + SitesIn(TokI(code[0]))))
  }

  predicate NumberedI(c: Code, k: nat)
    decreases c, 0
  {
    match c
    case Plain(i) => !i.imm.SigTable?
    case CallIndirect(_, _, site) => site == k
    case Block(_, body) => Numbered(body, k)
    case Loop(_, body) => Numbered(body, k)
    case If(_, a, b) => Numbered(a, k) && Numbered(b, k + SitesIn(Toks(a)))
    case _ => true
  }

  /** The code with its indirect calls numbered from `k`. */
  function Counted(code: seq<Code>, k: nat): (r: seq<Code>)
    ensures |r| == |code|
    decreases code, 1
  {
    if code == [] then [] else [CountedI(code[0], k)] + Counted(code[1..], k + SitesIn(TokI(code[0])))
  }

  function CountedI(c: Code, k: nat): Code
    decreases c, 0
  {
    match c
    case CallIndirect(s, t, _) => CallIndirect(s, t, k)
    case Block(ty, body) => Block(ty, Counted(body, k))
    case Loop(ty, body) => Loop(ty, Counted(body, k))
    case If(ty, a, b) => If(ty, Counted(a, k), Counted(b, k + SitesIn(Toks(a))))
    case _ => c
  }

  /** No plain instruction is an indirect call. */
  predicate PlainOnly(code: seq<Code>)
    decreases code, 1
  {
    code == [] || (PlainOnlyI(code[0]) && PlainOnly(code[1..]))
  }

  predicate PlainOnlyI(c: Code)
    decreases c, 0
  {
    match c
    case Plain(i) => !i.imm.SigTable?
    case Block(_, body) => PlainOnly(body)
    case Loop(_, body) => PlainOnly(body)
    case If(_, a, b) => PlainOnly(a) && PlainOnly(b)
    case _ => true
  }

  /** Any code can be numbered, whatever its instructions; its list does not change. */
  lemma {:induction false} CanBeNumbered(code: seq<Code>, k: nat)
    requires PlainOnly(code)
    ensures Numbered(Counted(code, k), k) && Toks(Counted(code, k)) == Toks(code)
    decreases code, 1
  {
    if code != [] {
      CanBeNumberedI(code[0], k);
      CanBeNumbered(code[1..], k + SitesIn(TokI(code[0])));
      hide TokI, NumberedI, CountedI, SitesIn, PlainOnlyI;
      var r := Counted(code, k);
      assert r[1..] == Counted(code[1..], k + SitesIn(TokI(code[0])));
    }
  }

  lemma {:induction false} CanBeNumberedI(c: Code, k: nat)
    requires PlainOnlyI(c)
    ensures NumberedI(CountedI(c, k), k) && TokI(CountedI(c, k)) == TokI(c)
    decreases c, 0
  {
    hide Toks, Numbered, Counted, SitesIn, PlainOnly;
    match c
    case Block(ty, body) => CanBeNumbered(body, k);
    case Loop(ty, body) => CanBeNumbered(body, k);
    case If(ty, a, b) =>
      CanBeNumbered(a, k);
      CanBeNumbered(b, k + SitesIn(Toks(a)));
      assert Counted(b, k + SitesIn(Toks(a))) == [] <==> b == [];
    case _ =>
  }

  /** What the loop puts in place of one instruction. */
  function FlatSite(plan: Plan, d: nat, i: Inst<Addr>, k: nat): Insts
    requires i.imm.SigTable?
  {
    var longer := Inst(i.op, SigTable(plan.ext(i.imm.sig), i.imm.table));
    if plan.kept(k) then [i]
    else if plan.tys == [] then [longer]
    else [Inst(OP_LOCAL_SET, LocalIdx(d))] + ConstInsts(plan.mark(k)) + [Inst(OP_LOCAL_GET, LocalIdx(d)), longer]
  }

  function Flat(plan: Plan, d: nat, toks: Insts, k: nat): Insts {
    if toks == [] then []
    else if toks[0].imm.SigTable? then FlatSite(plan, d, toks[0], k) + Flat(plan, d, toks[1..], k + 1)
    else [toks[0]] + Flat(plan, d, toks[1..], k)
  }

  // ----- rewriting lists is rewriting code -----

  lemma {:induction false} SitesAppend(a: Insts, b: Insts)
    ensures SitesIn(a + b) == SitesIn(a) + SitesIn(b)
    decreases |a|
  {
    if a == [] {
      assert a + b == b;
    } else {
      assert (a + b)[1..] == a[1..] + b;
      SitesAppend(a[1..], b);
    }
  }

  lemma {:induction false} FlatAppend(plan: Plan, d: nat, a: Insts, b: Insts, k: nat)
    ensures Flat(plan, d, a + b, k) == Flat(plan, d, a, k) + Flat(plan, d, b, k + SitesIn(a))
    decreases |a|
  {
    hide *;
    if a == [] {
      assert a + b == b;
      FlatNone(plan, d, k);
    } else {
      var i, t := a[0], a[1..];
      var k' := if i.imm.SigTable? then k + 1 else k;
      FlatAppend(plan, d, t, b, k');
      assert a == [i] + t;
      assert a + b == [i] + (t + b);
      FlatCons(plan, d, i, t + b, k);
      FlatCons(plan, d, i, t, k);
      Glued(Spot(plan, d, i, k), Flat(plan, d, t, k'), Flat(plan, d, b, k + SitesIn(a)));
    }
  }

  /** What becomes of one instruction. */
  function Spot(plan: Plan, d: nat, i: Inst<Addr>, k: nat): Insts {
    if i.imm.SigTable? then FlatSite(plan, d, i, k) else [i]
  }

  lemma FlatCons(plan: Plan, d: nat, i: Inst<Addr>, rest: Insts, k: nat)
    ensures Flat(plan, d, [i] + rest, k) == Spot(plan, d, i, k) + Flat(plan, d, rest, if i.imm.SigTable? then k + 1 else k)
    ensures SitesIn([i] + rest) == (if i.imm.SigTable? then 1 else 0) + SitesIn(rest)
  {
    assert ([i] + rest)[1..] == rest;
    hide FlatSite;
  }

  lemma Glued<T>(a: seq<T>, b: seq<T>, c: seq<T>)
    ensures a + (b + c) == a + b + c
  {
  }

  lemma SitesStep(a: Insts)
    requires a != []
    ensures SitesIn(a) == (if a[0].imm.SigTable? then 1 else 0) + SitesIn(a[1..])
  {
  }

  lemma FlatStep(plan: Plan, d: nat, toks: Insts, k: nat)
    requires toks != []
    ensures Flat(plan, d, toks, k)
         == if toks[0].imm.SigTable? then FlatSite(plan, d, toks[0], k) + Flat(plan, d, toks[1..], k + 1)
            else [toks[0]] + Flat(plan, d, toks[1..], k)
  {
    hide FlatSite;
  }

  lemma FlatOne(plan: Plan, d: nat, i: Inst<Addr>, k: nat)
    ensures !i.imm.SigTable? ==> Flat(plan, d, [i], k) == [i] && SitesIn([i]) == 0
    ensures i.imm.SigTable? ==> Flat(plan, d, [i], k) == FlatSite(plan, d, i, k) && SitesIn([i]) == 1
  {
    hide FlatSite;
    FlatStep(plan, d, [i], k);
    SitesStep([i]);
    assert [i][1..] == [];
  }

  lemma {:induction false} ToksAppend(a: seq<Code>, b: seq<Code>)
    ensures Toks(a + b) == Toks(a) + Toks(b)
    decreases |a|
  {
    hide TokI;
    if a == [] {
      assert a + b == b;
    } else {
      assert (a + b)[1..] == a[1..] + b;
      ToksAppend(a[1..], b);
    }
  }

  lemma ToksOne(c: Code)
    ensures Toks([c]) == TokI(c)
  {
    hide TokI;
    assert [c][1..] == [];
  }

  lemma {:induction false} ToksConsts(vs: seq<Val>)
    ensures Toks(Consts(vs)) == ConstInsts(vs)
    decreases |vs|
  {
    if vs != [] {
      assert Consts(vs)[1..] == Consts(vs[1..]);
      ToksConsts(vs[1..]);
      TokConst(vs[0]);
      assert ConstInsts(vs) == [ConstInst(vs[0])] + ConstInsts(vs[1..]);
    }
    hide TokI, ConstInst;
  }

  lemma TokConst(v: Val)
    ensures TokI(Const(v)) == [ConstInst(v)]
  {
    hide ConstInst;
  }

  lemma TokSmall(d: nat, s: Addr, t: Addr, k: nat)
    ensures TokI(LocalSet(d)) == [Inst(OP_LOCAL_SET, LocalIdx(d))] && TokI(LocalGet(d)) == [Inst(OP_LOCAL_GET, LocalIdx(d))]
    ensures TokI(CallIndirect(s, t, k)) == [Inst(OP_CALL_INDIRECT, SigTable(s, t))]
  {
  }

  lemma {:induction false} FlatCall(plan: Plan, d: nat, s: Addr, t: Addr, k: nat)
    ensures Flat(plan, d, TokI(CallIndirect(s, t, k)), k) == Toks(Site(plan, d, s, t, k))
  {
    var i := Inst(OP_CALL_INDIRECT, SigTable(s, t));
    var call := CallIndirect(plan.ext(s), t, k);
    TokSmall(d, s, t, k);
    TokSmall(d, plan.ext(s), t, k);
    FlatOne(plan, d, i, k);
    FlatSiteIs(plan, d, i, k);
    hide *;
    ToksOne(call);
    if plan.kept(k) {
      SitePlain(plan, d, s, t, k);
      ToksOne(CallIndirect(s, t, k));
    } else if plan.tys == [] {
      SitePlain(plan, d, s, t, k);
    } else {
      SiteIs(plan, d, s, t, k);
      var tail := [LocalGet(d)] + [call];
      ToksAppend([LocalSet(d)], Consts(plan.mark(k)) + tail);
      ToksAppend(Consts(plan.mark(k)), tail);
      ToksAppend([LocalGet(d)], [call]);
      ToksConsts(plan.mark(k));
      ToksOne(LocalSet(d));
      ToksOne(LocalGet(d));
    }
  }

  lemma FlatSiteIs(plan: Plan, d: nat, i: Inst<Addr>, k: nat)
    requires i.imm.SigTable?
    ensures var longer := Inst(i.op, SigTable(plan.ext(i.imm.sig), i.imm.table));
      FlatSite(plan, d, i, k) == if plan.kept(k) then [i] else if plan.tys == [] then [longer] else
        [Inst(OP_LOCAL_SET, LocalIdx(d))] + (ConstInsts(plan.mark(k)) + ([Inst(OP_LOCAL_GET, LocalIdx(d))] + [longer]))
  {
    hide ConstInsts;
  }

  /** An instruction that is one token and no indirect call. */
  predicate Single(c: Code) { !c.CallIndirect? && !c.Block? && !c.Loop? && !c.If? }

  lemma {:induction false} FlatSingle(plan: Plan, d: nat, c: Code, k: nat)
    requires Single(c) && NumberedI(c, k)
    ensures Flat(plan, d, TokI(c), k) == Toks(RewriteI(plan, d, c))
  {
    assert |TokI(c)| == 1 && !TokI(c)[0].imm.SigTable? && TokI(c) == [TokI(c)[0]];
    assert RewriteI(plan, d, c) == [c];
    hide *;
    FlatOne(plan, d, TokI(c)[0], k);
    ToksOne(c);
  }

  lemma {:induction false} FlatNest(plan: Plan, d: nat, head: Inst<Addr>, body: Insts, k: nat)
    requires !head.imm.SigTable?
    ensures var end := Inst(OP_END, NoImm);
      Flat(plan, d, [head] + body + [end], k) == [head] + Flat(plan, d, body, k) + [end]
      && SitesIn([head] + body + [end]) == SitesIn(body)
  {
    var end: Inst<Addr> := Inst(OP_END, NoImm);
    hide *;
    assert [head] + body + [end] == [head] + (body + [end]);
    FlatAppend(plan, d, [head], body + [end], k);
    FlatOne(plan, d, head, k);
    FlatAppend(plan, d, body, [end], k);
    FlatOne(plan, d, end, k + SitesIn(body));
    SitesAppend([head], body + [end]);
    SitesAppend(body, [end]);
  }

  /** A list rewritten instruction by instruction is the list of the rewritten code. */
  lemma {:induction false} FlatIsRewrite(plan: Plan, d: nat, code: seq<Code>, k: nat)
    requires Numbered(code, k)
    ensures Flat(plan, d, Toks(code), k) == Toks(Rewrite(plan, d, code))
    decreases code, 2
  {
    hide NumberedI, TokI, RewriteI, SitesIn, Flat;
    if code == [] {
      FlatNone(plan, d, k);
    } else {
      FlatIsRewriteI(plan, d, code[0], k);
      FlatIsRewrite(plan, d, code[1..], k + SitesIn(TokI(code[0])));
      FlatAppend(plan, d, TokI(code[0]), Toks(code[1..]), k);
      ToksAppend(RewriteI(plan, d, code[0]), Rewrite(plan, d, code[1..]));
    }
  }

  lemma FlatNone(plan: Plan, d: nat, k: nat)
    ensures Flat(plan, d, [], k) == [] && SitesIn([]) == 0
  {
  }

  lemma NestTokens(ty: int, body: seq<Code>)
    ensures TokI(Block(ty, body)) == [Inst(0x02, Blockt(ty))] + Toks(body) + [Inst(OP_END, NoImm)]
    ensures TokI(Loop(ty, body)) == [Inst(0x03, Blockt(ty))] + Toks(body) + [Inst(OP_END, NoImm)]
  {
    hide Toks;
  }

  lemma IfTokens(ty: int, a: seq<Code>, b: seq<Code>)
    ensures TokI(If(ty, a, b)) == [Inst(0x04, Blockt(ty))]
      + (Toks(a) + (if b == [] then [] else [Inst(0x05, NoImm)] + Toks(b))) + [Inst(OP_END, NoImm)]
  {
    hide Toks;
  }

  lemma NumberedNow(c: Code, k: nat)
    requires NumberedI(c, k)
    ensures c.Block? || c.Loop? ==> Numbered(c.body, k)
    ensures c.If? ==> Numbered(c.then_, k) && Numbered(c.else_, k + SitesIn(Toks(c.then_)))
    ensures c.CallIndirect? ==> c.site == k
  {
    hide Numbered, Toks, SitesIn;
  }

  lemma RewriteEmpty(plan: Plan, d: nat, code: seq<Code>)
    ensures Rewrite(plan, d, code) == [] <==> code == []
  {
    if code != [] { NotNothing(plan, d, code[0]); }
    hide RewriteI;
  }

  lemma NotNothing(plan: Plan, d: nat, c: Code)
    ensures RewriteI(plan, d, c) != []
  {
    hide Rewrite;
  }

  lemma {:induction false} FlatIsRewriteI(plan: Plan, d: nat, c: Code, k: nat)
    requires NumberedI(c, k)
    ensures Flat(plan, d, TokI(c), k) == Toks(RewriteI(plan, d, c))
    decreases c, 1
  {
    hide *;
    NumberedNow(c, k);
    RewriteOne(plan, d, c);
    if c.CallIndirect? {
      FlatCall(plan, d, c.sig, c.table, k);
    } else if c.Block? || c.Loop? {
      var head := Inst(if c.Block? then 0x02 else 0x03, Blockt(c.ty));
      FlatIsRewrite(plan, d, c.body, k);
      NestTokens(c.ty, c.body);
      NestTokens(c.ty, Rewrite(plan, d, c.body));
      FlatNest(plan, d, head, Toks(c.body), k);
      ToksOne(RewriteI(plan, d, c)[0]);
    } else if c.If? {
      FlatIf(plan, d, c, k);
    } else {
      SingleIs(c);
      FlatSingle(plan, d, c, k);
    }
  }

  lemma SingleIs(c: Code)
    requires !c.CallIndirect? && !c.Block? && !c.Loop? && !c.If?
    ensures Single(c)
  {
  }

  lemma {:induction false} FlatIf(plan: Plan, d: nat, c: Code, k: nat)
    requires c.If? && NumberedI(c, k)
    ensures Flat(plan, d, TokI(c), k) == Toks(RewriteI(plan, d, c))
    decreases c, 0
  {
    hide *;
    NumberedNow(c, k);
    RewriteOne(plan, d, c);
    var a, b := c.then_, c.else_;
    var a', b' := Rewrite(plan, d, a), Rewrite(plan, d, b);
    var mid: Inst<Addr> := Inst(0x05, NoImm);
    var j := k + SitesIn(Toks(a));
    FlatIsRewrite(plan, d, a, k);
    FlatIsRewrite(plan, d, b, j);
    IfTokens(c.ty, a, b);
    IfTokens(c.ty, a', b');
    RewriteEmpty(plan, d, b);
    var arms := if b == [] then [] else [mid] + Toks(b);
    FlatNest(plan, d, Inst(0x04, Blockt(c.ty)), Toks(a) + arms, k);
    FlatAppend(plan, d, Toks(a), arms, k);
    if b == [] {
      FlatNone(plan, d, j);
    } else {
      FlatAppend(plan, d, [mid], Toks(b), j);
      FlatOne(plan, d, mid, j);
    }
    ToksOne(RewriteI(plan, d, c)[0]);
  }
}
