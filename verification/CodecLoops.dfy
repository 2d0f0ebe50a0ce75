/** Decoding and encoding of instructions and function bodies, as loops over a buffer and a byte list. */
module CodecLoops {
  import opened Bytes
  import opened Leb128
  import opened LebProof
  import opened Codec
  import opened CodecInst
  import opened CodecModule
  import opened CodecParts
  import opened CodecIo

  // ----- reading lists -----

  /** What was read already, and what is still to be read. */
  function Pre<T>(done: seq<T>, r: Res<seq<T>>): Res<seq<T>> {
    match r case Fail => Fail case Got(xs, rest) => Got(done + xs, rest)
  }

  lemma PreNone<T>(r: Res<seq<T>>)
    ensures Pre([], r) == r
  {
    if r.Got? { assert [] + r.val == r.val; }
  }

  lemma ManyStep<T>(rd: seq<byte> -> Res<T>, done: seq<T>, n: nat, bs: seq<byte>)
    requires n > 0
    ensures Pre(done, RdMany(rd, n, bs)) == match rd(bs)
      case Fail => Fail
      case Got(x, rest) => Pre(done + [x], RdMany(rd, n - 1, rest))
  {
    if rd(bs).Got? && RdMany(rd, n - 1, rd(bs).rest).Got? {
      var x, xs := rd(bs).val, RdMany(rd, n - 1, rd(bs).rest).val;
      assert done + ([x] + xs) == done + [x] + xs;
    }
    hide RdMany;
    ManyIs(rd, n, bs);
  }

  lemma ManyIs<T>(rd: seq<byte> -> Res<T>, n: nat, bs: seq<byte>)
    ensures RdMany(rd, n, bs) == if n == 0 then Got([], bs) else
      match rd(bs)
      case Fail => Fail
      case Got(x, rest) => Pre([x], RdMany(rd, n - 1, rest))
  {
  }

  lemma ManyDone<T>(rd: seq<byte> -> Res<T>, done: seq<T>, bs: seq<byte>)
    ensures Pre(done, RdMany(rd, 0, bs)) == Got(done, bs)
  {
    assert done + [] == done;
  }

  lemma LabelsAre(bs: seq<byte>, ls: seq<nat>, rest: seq<byte>)
    requires RdMany<nat>(RdU32, RdU32(bs).val, RdU32(bs).rest) == Got(ls, rest)
    ensures RdLabels(bs) == Got((ls, RdU32(rest).val), RdU32(rest).rest)
  {
    hide RdU32, RdMany;
  }

  lemma RunIs(bs: seq<byte>)
    ensures var n := RdU32(bs); var t := RdByte(n.rest); RdRun(bs) == Got(LocalRun(n.val, t.val), t.rest)
  {
    hide RdU32, RdByte;
  }

  lemma LocalsAre(bs: seq<byte>)
    ensures RdLocals(bs) == RdMany(RdRun, RdU32(bs).val, RdU32(bs).rest)
  {
    hide RdU32, RdMany, RdRun;
  }

  method ReadLabels(buf: Buffer) returns (ls: seq<nat>, dflt: nat)
    requires buf.Valid()
    modifies buf`ptr
    ensures buf.Valid() && Got((ls, dflt), buf.Left()) == RdLabels(old(buf.Left()))
  {
    hide *;
    var n := buf.ReadU32();
    ghost var first := buf.Left();
    ls := [];
    PreNone(RdMany<nat>(RdU32, n, first));
    for i := 0 to n
      invariant buf.Valid()
      invariant Pre(ls, RdMany<nat>(RdU32, n - i, buf.Left())) == RdMany<nat>(RdU32, n, first)
    {
      ManyStep<nat>(RdU32, ls, n - i, buf.Left());
      var l := buf.ReadU32();
      ls := ls + [l];
    }
    ManyDone<nat>(RdU32, ls, buf.Left());
    LabelsAre(old(buf.Left()), ls, buf.Left());
    dflt := buf.ReadU32();
  }

  method ReadLanes(n: nat, buf: Buffer) returns (ls: seq<byte>)
    requires buf.Valid()
    modifies buf`ptr
    ensures buf.Valid() && Got(ls, buf.Left()) == RdMany(RdByte, n, old(buf.Left()))
  {
    hide *;
    ghost var first := buf.Left();
    ls := [];
    PreNone(RdMany(RdByte, n, first));
    for i := 0 to n
      invariant buf.Valid()
      invariant Pre(ls, RdMany(RdByte, n - i, buf.Left())) == RdMany(RdByte, n, first)
    {
      ManyStep(RdByte, ls, n - i, buf.Left());
      var l := buf.ReadU8();
      ls := ls + [l];
    }
    ManyDone(RdByte, ls, buf.Left());
  }

  method DecodeLocals(buf: Buffer) returns (ls: seq<LocalRun>)
    requires buf.Valid()
    modifies buf`ptr
    ensures buf.Valid() && Got(ls, buf.Left()) == RdLocals(old(buf.Left()))
  {
    hide *;
    LocalsAre(buf.Left());
    var n := buf.ReadU32();
    ghost var first := buf.Left();
    ls := [];
    PreNone(RdMany(RdRun, n, first));
    for i := 0 to n
      invariant buf.Valid()
      invariant Pre(ls, RdMany(RdRun, n - i, buf.Left())) == RdMany(RdRun, n, first)
    {
      ManyStep(RdRun, ls, n - i, buf.Left());
      RunIs(buf.Left());
      var count := buf.ReadU32();
      var ty := buf.ReadU8();
      ls := ls + [LocalRun(count, ty)];
    }
    ManyDone(RdRun, ls, buf.Left());
  }

  // ----- reading an immediate -----

  method ReadIdx(n: nat, buf: Buffer) returns (r: Option<nat>)
    requires buf.Valid()
    modifies buf`ptr
    ensures buf.Valid() && Agrees(r, buf.Left(), RdIdx(n, old(buf.Left())))
  {
    hide RdU32;
    var i := buf.ReadU32();
    r := if i < n then Some(i) else None;
  }

  method ReadPair(m: nat, n: nat, buf: Buffer) returns (r: Option<(nat, nat)>)
    requires buf.Valid()
    modifies buf`ptr
    ensures buf.Valid() && Agrees(r, buf.Left(), RdPair(m, n, old(buf.Left())))
  {
    hide RdIdx;
    var i := ReadIdx(m, buf);
    if i.None? { return None; }
    var j := ReadIdx(n, buf);
    if j.None? { return None; }
    r := Some((i.value, j.value));
  }

  method ReadMemOp(env: Env, buf: Buffer) returns (r: Option<MemOp>)
    requires buf.Valid()
    modifies buf`ptr
    ensures buf.Valid() && Agrees(r, buf.Left(), RdMemOp(env, old(buf.Left())))
  {
    hide RdU32;
    var align := buf.ReadU32();
    var mem := 0;
    if align / 64 % 2 == 1 { mem := buf.ReadU32(); }
    if mem >= env.mems { return None; }
    var offset := buf.ReadU32();
    r := Some(MemOp(align % 64, mem, offset));
  }

  /** Immediates that name declarations. */
  method DecodeRef(env: Env, k: ImmKind, buf: Buffer) returns (r: Option<Imm<nat>>)
    requires buf.Valid() && !Numeric(k) && !k.KLabels? && !k.KLaneidx16? && !k.KMemarg? && !k.KMemargLane?
    modifies buf`ptr
    ensures buf.Valid() && Agrees(r, buf.Left(), RdImm(env, k, old(buf.Left())))
  {
    hide RdIdx, RdPair;
    if k.KSigTable? || k.KDataMemory? || k.KMemorycp? {
      var m := if k.KSigTable? then env.sigs else if k.KDataMemory? then env.datas else env.mems;
      var p := ReadPair(m, if k.KSigTable? then env.tables else env.mems, buf);
      if p.None? { return None; }
      var (i, j) := p.value;
      r := Some(if k.KSigTable? then SigTable(i, j) else if k.KDataMemory? then DataMemory(i, j) else Memorycp(i, j));
    } else {
      var n := if k.KFunc? then env.funcs else if k.KGlobal? then env.globals else if k.KData? then env.datas else env.mems;
      var i := ReadIdx(n, buf);
      if i.None? { return None; }
      var x := i.value;
      r := Some(if k.KFunc? then FuncRef(x) else if k.KGlobal? then GlobalRef(x)
                else if k.KData? then DataRef(x) else MemoryRef(x));
    }
  }

  /** Immediates that are numbers. */
  method DecodeNumber(env: Env, k: ImmKind, buf: Buffer) returns (r: Option<Imm<nat>>)
    requires buf.Valid() && Numeric(k)
    modifies buf`ptr
    ensures buf.Valid() && Agrees(r, buf.Left(), RdImm(env, k, old(buf.Left())))
  {
    hide RdU32, RdLeb, RdU32Raw, RdU64Raw, RdByte;
    match k
    case KNone => r := Some(NoImm);
    case KBlockt =>
      var t := buf.ReadLeb(I64);
      r := if t >= 0 then None else Some(Blockt(t));
    case KLabel =>
      var l := buf.ReadU32();
      r := Some(Label(l));
    case KLocal =>
      var l := buf.ReadU32();
      r := Some(LocalIdx(l));
    case KI32 =>
      var v := buf.ReadLeb(I32);
      r := Some(I32C(v));
    case KI64 =>
      var v := buf.ReadLeb(I64);
      r := Some(I64C(v));
    case KF32 =>
      var v := buf.ReadU32Raw();
      r := if v.None? then None else Some(F32C(v.value));
    case KF64 =>
      var v := buf.ReadU64Raw();
      r := Some(F64C(v));
    case KLaneidx =>
      var b := buf.ReadU8();
      r := Some(Lane(b));
    case KV128 =>
      var lo := buf.ReadU64Raw();
      var hi := buf.ReadU64Raw();
      r := Some(V128C(lo, hi));
  }

  /** The immediate of an instruction, taken from the buffer by its kind. */
  method DecodeImm(env: Env, k: ImmKind, buf: Buffer) returns (r: Option<Imm<nat>>)
    requires buf.Valid()
    modifies buf`ptr
    ensures buf.Valid() && Agrees(r, buf.Left(), RdImm(env, k, old(buf.Left())))
  {
    if Numeric(k) {
      r := DecodeNumber(env, k, buf);
    } else if k.KLabels? {
      hide RdLabels;
      var ls, d := ReadLabels(buf);
      r := Some(Labels(ls, d));
    } else if k.KLaneidx16? {
      hide RdMany, RdByte;
      var ls := ReadLanes(16, buf);
      r := Some(Lanes(ls));
    } else if k.KMemarg? || k.KMemargLane? {
      hide RdMemOp, RdByte;
      var m := ReadMemOp(env, buf);
      if m.None? { return None; }
      var o := m.value;
      if k.KMemarg? { return Some(Memarg(o.align, o.mem, o.offset)); }
      var b := buf.ReadU8();
      r := Some(MemargLane(o.align, o.mem, o.offset, b));
    } else {
      hide RdImm;
      r := DecodeRef(env, k, buf);
    }
  }

  // ----- reading instructions -----

  method DecodeInst(env: Env, buf: Buffer) returns (r: Option<Inst<nat>>)
    requires buf.Valid()
    modifies buf`ptr
    ensures buf.Valid() && Agrees(r, buf.Left(), RdInst(env, old(buf.Left())))
  {
    hide KindOf, RdOpcode, RdImm;
    var op := buf.ReadOpcode();
    if op.None? { return None; }
    var m := DecodeImm(env, KindOf(op.value).value, buf);
    if m.None? { return None; }
    r := Some(Inst(op.value, m.value));
  }

  lemma ExprStep(env: Env, done: seq<Inst<nat>>, bs: seq<byte>)
    requires bs != []
    ensures Pre(done, RdExpr(env, bs)) == match RdInst(env, bs)
      case Fail => Fail
      case Got(i, rest) => Pre(done + [i], RdExpr(env, rest))
    ensures RdInst(env, bs).Got? ==> |RdInst(env, bs).rest| < |bs|
  {
    InstSound(env, bs);
    hide RdInst, InstOk;
    if RdInst(env, bs).Got? && RdExpr(env, RdInst(env, bs).rest).Got? {
      var i, code := RdInst(env, bs).val, RdExpr(env, RdInst(env, bs).rest).val;
      assert done + ([i] + code) == done + [i] + code;
    }
  }

  lemma ExprDone(env: Env, done: seq<Inst<nat>>)
    ensures Pre(done, RdExpr(env, [])) == Got(done, [])
  {
    assert done + [] == done;
  }

  lemma LeftIs(buf: Buffer)
    requires buf.Valid()
    ensures buf.ptr == buf.end <==> buf.Left() == []
  {
  }

  /** Instructions are read until the end of the body's slice. */
  method DecodeExpr(env: Env, buf: Buffer) returns (r: Option<seq<Inst<nat>>>)
    requires buf.Valid()
    modifies buf`ptr
    ensures buf.Valid() && Agrees(r, buf.Left(), RdExpr(env, old(buf.Left())))
  {
    var code: seq<Inst<nat>> := [];
    ghost var first := buf.Left();
    LeftIs(buf);
    PreNone(RdExpr(env, first));
    hide Pre, RdExpr, RdInst, Buffer.Left;
    while buf.ptr < buf.end
      invariant buf.Valid() && (buf.ptr == buf.end <==> buf.Left() == [])
      invariant Pre(code, RdExpr(env, buf.Left())) == RdExpr(env, first)
      decreases |buf.Left()|
    {
      ExprStep(env, code, buf.Left());
      var i := DecodeInst(env, buf);
      if i.None? { return None; }
      code := code + [i.value];
      LeftIs(buf);
    }
    ExprDone(env, code);
    r := Some(code);
  }

  lemma SliceIs(buf: Buffer, n: nat)
    requires buf.Valid() && n <= |buf.Left()|
    ensures buf.ptr + n <= buf.end <= |buf.data|
    ensures buf.Left()[..n] == buf.data[buf.ptr..buf.ptr + n] && buf.Left()[n..] == buf.data[buf.ptr + n..buf.end]
  {
  }

  /** A size, locals, and a slice of exactly the rest of that size for the instructions. */
  method DecodeBody(env: Env, buf: Buffer) returns (r: Option<Body<nat>>)
    requires buf.Valid()
    modifies buf`ptr
    ensures buf.Valid() && Agrees(r, buf.Left(), RdBody(env, old(buf.Left())))
  {
    hide *;
    BodyIs(env, buf.Left());
    NoneAgrees<Body<nat>>();
    var size := buf.ReadU32();
    var start := buf.ptr;
    LengthIs(buf);
    var ls := DecodeLocals(buf);
    LengthIs(buf);
    if start > buf.ptr || size < buf.ptr - start { return None; }
    var n := size - (buf.ptr - start);
    if n > buf.end - buf.ptr { return None; }
    SliceIs(buf, n);
    var cbuf := new Buffer(buf.data, buf.ptr, buf.ptr + n);
    ghost var slice := cbuf.Left();
    var code := DecodeExpr(env, cbuf);
    AgreesNow(code, cbuf.Left(), RdExpr(env, slice));
    if code.None? { return None; }
    buf.ptr := buf.ptr + n;
    PlaceIsValid(buf);
    LengthIs(buf);
    r := Some(Body(ls, code.value));
    SomeAgrees(Body(ls, code.value), buf.Left());
  }

  lemma NoneAgrees<T(!new)>()
    ensures forall left :: Agrees<T>(None, left, Fail)
  {
  }

  lemma SomeAgrees<T>(v: T, left: seq<byte>)
    ensures Agrees(Some(v), left, Got(v, left))
  {
  }

  lemma AgreesNow<T>(r: Option<T>, left: seq<byte>, got: Res<T>)
    requires Agrees(r, left, got)
    ensures if got.Fail? then r == None else r == Some(got.val) && left == got.rest
  {
  }

  lemma PlaceIsValid(buf: Buffer)
    requires buf.ptr <= buf.end <= |buf.data|
    ensures buf.Valid()
  {
  }

  lemma LengthIs(buf: Buffer)
    requires buf.Valid()
    ensures buf.ptr <= buf.end <= |buf.data|
    ensures |buf.Left()| == buf.end - buf.ptr && buf.Left() == buf.data[buf.ptr..buf.end]
  {
  }

  // ----- writing -----

  /** Items already written, and those still to be written. */
  lemma WriteStep<T>(wr: T -> seq<byte>, xs: seq<T>, k: nat)
    requires k < |xs|
    ensures WrMany(wr, xs[..k]) + wr(xs[k]) == WrMany(wr, xs[..k + 1])
  {
    ManySplit(wr, xs[..k], [xs[k]]);
    assert xs[..k] + [xs[k]] == xs[..k + 1];
    assert WrMany(wr, [xs[k]]) == wr(xs[k]) + WrMany(wr, []);
  }

  lemma {:induction false} ManySplit<T>(wr: T -> seq<byte>, xs: seq<T>, ys: seq<T>)
    ensures WrMany(wr, xs + ys) == WrMany(wr, xs) + WrMany(wr, ys)
    decreases |xs|
  {
    if xs == [] {
      assert xs + ys == ys;
    } else {
      assert (xs + ys)[1..] == xs[1..] + ys;
      ManySplit(wr, xs[1..], ys);
    }
  }

  lemma WriteEnds<T>(wr: T -> seq<byte>, xs: seq<T>)
    ensures xs[..|xs|] == xs && WrMany(wr, xs[..0]) == []
  {
  }

  lemma LabelsWritten(ls: seq<nat>, dflt: nat)
    ensures WrImm(Labels(ls, dflt)) == WrU32(|ls|) + WrMany(WrU32, ls) + WrU32(dflt)
  {
    hide *;
    LabelsImm(ls, dflt);
    VecIs(WrU32, ls);
  }

  lemma LabelsImm(ls: seq<nat>, dflt: nat)
    ensures WrImm(Labels(ls, dflt)) == WrVec(WrU32, ls) + WrU32(dflt)
  {
    hide EncS, ToLE, WrMemOp, WrU32, WrMany, WrVec;
  }

  lemma VecIs<T>(wr: T -> seq<byte>, xs: seq<T>)
    ensures WrVec(wr, xs) == WrU32(|xs|) + WrMany(wr, xs)
  {
    hide WrU32, WrMany;
  }

  lemma NumbersWritten()
    ensures forall n: nat :: WrU32(n) == EncU(n)
  {
    hide EncU;
  }

  /** `br_table`: a count, the labels, the default. */
  method EncodeLabels(out: ByteDeque, ls: seq<nat>, dflt: nat)
    modifies out
    ensures out.bytes == old(out.bytes) + WrImm(Labels(ls, dflt))
  {
    hide *;
    LabelsWritten(ls, dflt);
    NumbersWritten();
    WriteEnds(WrU32, ls);
    out.EncodeUnsigned(|ls|);
    for i := 0 to |ls|
      invariant out.bytes == old(out.bytes) + (WrU32(|ls|) + WrMany(WrU32, ls[..i]))
    {
      WriteStep(WrU32, ls, i);
      out.EncodeUnsigned(ls[i]);
    }
    out.EncodeUnsigned(dflt);
  }

  method EncodeMemOp(out: ByteDeque, m: MemOp)
    modifies out
    ensures out.bytes == old(out.bytes) + WrMemOp(m)
  {
    hide EncU;
    if m.mem != 0 {
      out.EncodeUnsigned(m.align + 64);
      out.EncodeUnsigned(m.mem);
    } else {
      out.EncodeUnsigned(m.align);
    }
    out.EncodeUnsigned(m.offset);
  }

  lemma LanesAre(ls: seq<byte>)
    ensures WrMany(One, ls) == ls
  {
    if ls != [] { LanesAre(ls[1..]); }
  }

  /** Two numbers, one after the other. */
  method EncodePair(out: ByteDeque, a: nat, b: nat)
    modifies out
    ensures out.bytes == old(out.bytes) + (WrU32(a) + WrU32(b))
  {
    hide EncU;
    out.EncodeUnsigned(a);
    out.EncodeUnsigned(b);
  }

  method EncodeImm(out: ByteDeque, m: Imm<nat>)
    modifies out
    ensures out.bytes == old(out.bytes) + WrImm(m)
  {
    hide EncU, EncS, ToLE, WrMemOp, WrMany;
    match m
    case NoImm =>
    case Blockt(ty) => out.EncodeSigned(ty);
    case I32C(i) => out.EncodeSigned(i);
    case I64C(i) => out.EncodeSigned(i);
    case Label(l) => out.EncodeUnsigned(l);
    case LocalIdx(l) => out.EncodeUnsigned(l);
    case FuncRef(f) => out.EncodeUnsigned(f);
    case GlobalRef(g) => out.EncodeUnsigned(g);
    case MemoryRef(mem) => out.EncodeUnsigned(mem);
    case DataRef(d) => out.EncodeUnsigned(d);
    case Labels(ls, d) => EncodeLabels(out, ls, d);
    case SigTable(s, t) => EncodePair(out, s, t);
    case DataMemory(d, mem) => EncodePair(out, d, mem);
    case Memorycp(d, s) => EncodePair(out, d, s);
    case Memarg(a, mem, o) => EncodeMemOp(out, MemOp(a, mem, o));
    case MemargLane(a, mem, o, b) =>
      EncodeMemOp(out, MemOp(a, mem, o));
      out.PushBack(b);
    case F32C(b) => out.bytes := out.bytes + ToLE(b, 4);
    case F64C(b) => out.bytes := out.bytes + ToLE(b, 8);
    case V128C(lo, hi) => out.bytes := out.bytes + (ToLE(lo, 8) + ToLE(hi, 8));
    case Lane(b) => out.PushBack(b);
    case Lanes(ls) =>
      LanesAre(ls);
      out.bytes := out.bytes + ls;
  }

  lemma WrExprStep(code: seq<Inst<nat>>, k: nat)
    requires k < |code|
    ensures WrExpr(code[..k + 1]) == WrExpr(code[..k]) + WrInst(code[k])
  {
    assert code[..k] + [code[k]] == code[..k + 1];
    WrExprSplit(code[..k], [code[k]]);
    assert WrExpr([code[k]]) == WrInst(code[k]) + WrExpr([]);
    hide WrInst;
  }

  lemma {:induction false} WrExprSplit(a: seq<Inst<nat>>, b: seq<Inst<nat>>)
    ensures WrExpr(a + b) == WrExpr(a) + WrExpr(b)
    decreases |a|
  {
    hide WrInst;
    if a == [] {
      assert a + b == b;
    } else {
      assert (a + b)[1..] == a[1..] + b;
      WrExprSplit(a[1..], b);
    }
  }

  lemma WrExprEnds(code: seq<Inst<nat>>)
    ensures code[..|code|] == code && WrExpr(code[..0]) == []
  {
  }

  lemma WrInstIs(i: Inst<nat>)
    ensures WrInst(i) == WrOpcode(i.op) + WrImm(i.imm)
  {
  }

  predicate Known(code: seq<Inst<nat>>) { forall k :: 0 <= k < |code| ==> KindOf(code[k].op).Some? }

  /** Every instruction is written, unless one of the opcodes is not in the table. */
  method EncodeExpr(out: ByteDeque, code: seq<Inst<nat>>) returns (ok: bool)
    modifies out
    ensures ok <==> Known(code)
    ensures ok ==> out.bytes == old(out.bytes) + WrExpr(code)
  {
    WrExprEnds(code);
    hide WrExpr, WrOpcode, WrImm, KindOf;
    for i := 0 to |code|
      invariant out.bytes == old(out.bytes) + WrExpr(code[..i])
      invariant forall k :: 0 <= k < i ==> KindOf(code[k].op).Some?
    {
      var known := out.WriteOpcode(code[i].op);
      if !known { return false; }
      EncodeImm(out, code[i].imm);
      WrInstIs(code[i]);
      WrExprStep(code, i);
      hide WrInst;
    }
    ok := true;
  }

  lemma LocalsWritten(ls: seq<LocalRun>)
    ensures WrLocals(ls) == WrU32(|ls|) + WrMany(WrRun, ls)
  {
    VecIs(WrRun, ls);
    hide WrU32, WrMany, WrVec;
  }

  lemma RunWritten(l: LocalRun)
    ensures WrRun(l) == EncU(l.count) + [l.ty]
  {
    hide EncU;
  }

  method EncodeLocals(out: ByteDeque, ls: seq<LocalRun>)
    modifies out
    ensures out.bytes == old(out.bytes) + WrLocals(ls)
  {
    hide *;
    LocalsWritten(ls);
    NumbersWritten();
    WriteEnds(WrRun, ls);
    out.EncodeUnsigned(|ls|);
    for i := 0 to |ls|
      invariant out.bytes == old(out.bytes) + (WrU32(|ls|) + WrMany(WrRun, ls[..i]))
    {
      WriteStep(WrRun, ls, i);
      RunWritten(ls[i]);
      out.EncodeUnsigned(ls[i].count);
      out.PushBack(ls[i].ty);
    }
  }

  /** The body is written first, then its size in front of it, and both are appended. */
  method EncodeCode(out: ByteDeque, b: Body<nat>) returns (ok: bool)
    modifies out
    ensures ok <==> Known(b.code)
    ensures ok ==> out.bytes == old(out.bytes) + WrBody(b)
  {
    hide WrLocals, WrExpr, EncU, Known;
    var secdeq := new ByteDeque();
    EncodeLocals(secdeq, b.locals);
    ok := EncodeExpr(secdeq, b.code);
    if ok {
      secdeq.PreencodeU32(|secdeq.bytes|);
      out.bytes := out.bytes + secdeq.bytes;
    }
  }
}
