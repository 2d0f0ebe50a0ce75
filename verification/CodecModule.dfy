/** The declarations of a module and how each of them is read and written. */
module CodecModule {
  import opened Bytes
  import opened Leb128
  import opened LebProof
  import opened Codec
  import opened CodecInst

  // ----- declarations; `R` is how one declaration refers to another -----

  datatype Sig = Sig(params: seq<byte>, results: seq<byte>)
  datatype Limits = Limits(initial: nat, max: nat, hasMax: bool, flag: bool)
  datatype Table = Table(reftype: byte, limits: Limits)
  datatype Global = Global(ty: byte, mutable: bool, init: seq<byte>)
  datatype LocalRun = LocalRun(count: nat, ty: byte)
  datatype Func<R> = Func(sig: R, locals: seq<LocalRun>, code: seq<Inst<R>>)
  datatype Kind = FuncK | TableK | MemK | GlobalK
  datatype Import<R> = Import(modName: seq<byte>, member: seq<byte>, kind: Kind, desc: R)
  datatype Export<R> = Export(name: seq<byte>, kind: Kind, desc: R)
  datatype Offset = Offset(opcode: nat, value: nat)
  datatype Elem<R> = Elem(offset: Offset, funcs: seq<R>)
  datatype Data<R> = Unread | Active0(off0: Offset, mem0: R, bytes: seq<byte>) | Passive(bytes: seq<byte>)
    | Active2(mem: R, off: Offset, bytes: seq<byte>)
  datatype Subsec = Subsec(id: byte, bytes: seq<byte>)
  datatype NameAssoc<R> = NameAssoc(func: R, name: seq<byte>)
  datatype Custom<R> = Custom(name: seq<byte>, bytes: seq<byte>, subs: seq<Subsec>, names: seq<NameAssoc<R>>)

  datatype Counts = Counts(funcs: nat, tables: nat, mems: nat, globals: nat)

  datatype Module<R> = Module(
    sigs: seq<Sig>,
    imports: seq<Import<R>>,
    nums: Counts,
    funcs: seq<Func<R>>,
    tables: seq<Table>,
    mems: seq<Limits>,
    globals: seq<Global>,
    exports: seq<Export<R>>,
    start: Option<R>,
    elems: seq<Elem<R>>,
    hasDatacount: bool,
    datas: seq<Data<R>>,
    customs: seq<Custom<R>>)

  // ----- signatures -----

  /** With more parameters behind its own. */
  function Longer(s: Sig, tys: seq<byte>): Sig { Sig(s.params + tys, s.results) }

  const FUNC_TYPE: byte := 0x60

  function RdTypes(bs: seq<byte>): Res<seq<byte>> { RdVec(RdByte, bs) }
  function WrTypes(ts: seq<byte>): seq<byte> { WrVec(One, ts) }

  lemma {:induction false} TypesRead(ts: seq<byte>, rest: seq<byte>)
    requires |ts| < TWO32
    ensures RdTypes(WrTypes(ts) + rest) == Got(ts, rest)
  {
    assert WrVec(One, ts) + rest == WrU32(|ts|) + (WrMany(One, ts) + rest);
    U32Reads(|ts|, WrMany(One, ts) + rest);
    LanesRead(ts, rest);
    hide RdU32, WrU32, RdMany, WrMany;
  }

  function RdSig(bs: seq<byte>): Res<Sig> {
    var t := RdByte(bs);
    if t.val != FUNC_TYPE then Fail
    else
      match RdTypes(t.rest)
      case Fail => Fail
      case Got(ps, rest) => Mapped(RdTypes(rest), rs => Sig(ps, rs))
  }

  function WrSig(s: Sig): seq<byte> { [FUNC_TYPE] + WrTypes(s.params) + WrTypes(s.results) }

  predicate SigOk(s: Sig) { |s.params| < TWO32 && |s.results| < TWO32 }

  lemma {:induction false} SigReads(s: Sig, rest: seq<byte>)
    requires SigOk(s)
    ensures RdSig(WrSig(s) + rest) == Got(s, rest)
  {
    var a, b := WrTypes(s.params), WrTypes(s.results);
    assert WrSig(s) + rest == [FUNC_TYPE] + (a + (b + rest));
    ByteReads(FUNC_TYPE, a + (b + rest));
    TypesRead(s.params, b + rest);
    TypesRead(s.results, rest);
    hide RdTypes, WrTypes, RdByte;
  }

  lemma SigSound(bs: seq<byte>)
    ensures RdSig(bs).Got? ==> SigOk(RdSig(bs).val)
  {
  }

  // ----- limits, tables, memories, globals -----

  /** Bit 0: a maximum follows.  Bit 1 is kept, the bits above are dropped. */
  function RdLimits(bs: seq<byte>): (r: Res<Limits>)
    ensures r.Got?
  {
    var lb := RdByte(bs);
    var min := RdU32(lb.rest);
    if lb.val % 2 == 1 then
      var max := RdU32(min.rest);
      Got(Limits(min.val, max.val, true, lb.val / 2 % 2 == 1), max.rest)
    else Got(Limits(min.val, 0, false, lb.val / 2 % 2 == 1), min.rest)
  }

  function LimitByte(l: Limits): byte { (if l.flag then 2 else 0) + (if l.hasMax then 1 else 0) }

  function WrLimits(l: Limits): seq<byte> {
    [LimitByte(l)] + WrU32(l.initial) + (if l.hasMax then WrU32(l.max) else [])
  }

  predicate LimitsOk(l: Limits) { l.initial < TWO32 && l.max < TWO32 && (!l.hasMax ==> l.max == 0) }

  lemma LimitBits(l: Limits)
    ensures (LimitByte(l) % 2 == 1 <==> l.hasMax) && (LimitByte(l) / 2 % 2 == 1 <==> l.flag)
  {
  }

  lemma {:induction false} LimitsRead(l: Limits, rest: seq<byte>)
    requires LimitsOk(l)
    ensures RdLimits(WrLimits(l) + rest) == Got(l, rest)
  {
    LimitBits(l);
    hide RdByte, RdU32, WrU32, LimitByte;
    var lb := LimitByte(l);
    if l.hasMax {
      assert WrLimits(l) + rest == [lb] + (WrU32(l.initial) + (WrU32(l.max) + rest));
      ByteReads(lb, WrU32(l.initial) + (WrU32(l.max) + rest));
      U32Reads(l.initial, WrU32(l.max) + rest);
      U32Reads(l.max, rest);
    } else {
      assert WrLimits(l) + rest == [lb] + (WrU32(l.initial) + rest);
      ByteReads(lb, WrU32(l.initial) + rest);
      U32Reads(l.initial, rest);
    }
  }

  lemma LimitsSound(bs: seq<byte>)
    ensures LimitsOk(RdLimits(bs).val)
  {
    hide RdByte, RdU32;
  }

  function RdTable(bs: seq<byte>): Res<Table> {
    var t := RdByte(bs);
    if t.val != 0x70 && t.val != 0x6F then Fail else Mapped(RdLimits(t.rest), l => Table(t.val, l))
  }

  function WrTable(t: Table): seq<byte> { [t.reftype] + WrLimits(t.limits) }

  predicate TableOk(t: Table) { (t.reftype == 0x70 || t.reftype == 0x6F) && LimitsOk(t.limits) }

  lemma {:induction false} TableReads(t: Table, rest: seq<byte>)
    requires TableOk(t)
    ensures RdTable(WrTable(t) + rest) == Got(t, rest)
  {
    assert WrTable(t) + rest == [t.reftype] + (WrLimits(t.limits) + rest);
    ByteReads(t.reftype, WrLimits(t.limits) + rest);
    LimitsRead(t.limits, rest);
    hide RdByte, RdLimits, WrLimits;
  }

  lemma TableSound(bs: seq<byte>)
    ensures RdTable(bs).Got? ==> TableOk(RdTable(bs).val)
  {
    LimitsSound(RdByte(bs).rest);
    hide RdLimits, LimitsOk;
  }

  /** A type and a mutability bit. */
  function RdGlobalType(bs: seq<byte>): (r: Res<Global>)
    ensures r.Got?
  {
    var t := RdByte(bs);
    var m := RdByte(t.rest);
    Got(Global(t.val, m.val % 2 == 1, []), m.rest)
  }

  function WrGlobalType(g: Global): seq<byte> { [g.ty, if g.mutable then 1 else 0] }

  lemma {:induction false} GlobalTypeReads(g: Global, rest: seq<byte>)
    ensures RdGlobalType(WrGlobalType(g) + rest) == Got(g.(init := []), rest)
  {
    var m: byte := if g.mutable then 1 else 0;
    assert WrGlobalType(g) + rest == [g.ty] + ([m] + rest);
    ByteReads(g.ty, [m] + rest);
    ByteReads(m, rest);
    hide RdByte;
  }

  // ----- constant expressions -----

  const I32_CONST: nat := 0x41
  const I64_CONST: nat := 0x42
  const F32_CONST: nat := 0x43
  const F64_CONST: nat := 0x44
  const END: nat := 0x0B

  lemma {:induction false} TailBig(res: nat, last: byte, bs: seq<byte>)
    requires 0xFB <= res < TWO32 && res % 0x100 == last >= 0x80
    ensures RdTail(res, last, bs).val >= 0x100
    decreases |bs|, 1
  {
    var n := RdByte(bs);
    var next := Wrap32(res * 0x100 + n.val);
    NextBig(res, n.val);
    if n.val >= 0x80 && bs != [] { TailBig(next, n.val, n.rest); }
  }

  lemma NextBig(res: nat, b: byte)
    requires 0xFB <= res < TWO32 && res % 0x100 >= 0x80
    ensures Wrap32(res * 0x100 + b) >= 0x8000 && Wrap32(res * 0x100 + b) % 0x100 == b
  {
    var low, high := res % 0x100_0000, res / 0x100_0000;
    assert low >= res % 0x100;
    var x := low * 0x100 + b;
    assert res * 0x100 + b == x + high * TWO32;
    assert x < TWO32 && Wrap32(res * 0x100 + b) == x;
  }

  /** An opcode of one byte is that byte. */
  lemma {:induction false} OneByteOpcode(bs: seq<byte>)
    requires RdOpcode(bs).Got? && 0 < RdOpcode(bs).val < 0x100
    ensures bs == [RdOpcode(bs).val] + RdOpcode(bs).rest
  {
    var first := RdByte(bs);
    if Extended(first.val) {
      TailBig(first.val, first.val, first.rest);
    } else {
      assert bs == [bs[0]] + bs[1..];
    }
    hide KindOf, RdTail;
  }

  function Signed32(u: nat): int { if u >= 0x8000_0000 then u - TWO32 else u }

  /** An offset: a constant of either integer type, kept in 32 bits. */
  function RdOffset(bs: seq<byte>): (r: Res<Offset>)
    ensures r.Got? ==> OffsetOk(r.val)
  {
    match RdOpcode(bs)
    case Fail => Fail
    case Got(op, rest) =>
      if op != I32_CONST && op != I64_CONST then Fail
      else
        var v := RdLeb(if op == I32_CONST then I32 else I64, rest);
        match RdOpcode(v.rest)
        case Fail => Fail
        case Got(end, rest') => if end == END then Got(Offset(op, Wrap32(v.val)), rest') else Fail
  }

  predicate OffsetOk(o: Offset) { (o.opcode == I32_CONST || o.opcode == I64_CONST) && o.value < TWO32 }

  function WrOffset(o: Offset): seq<byte> {
    [if o.opcode == I32_CONST then 0x41 else 0x42]
    + (if o.opcode == I32_CONST then EncS(Signed32(o.value)) else EncS(o.value)) + [0x0B]
  }

  lemma {:induction false} ShortOpcode(op: byte, rest: seq<byte>)
    requires 0x41 <= op <= 0x44 || op == 0x0B
    ensures RdOpcode([op] + rest) == Got(op, rest)
  {
    OpcodeReads(op, rest);
    hide RdOpcode;
  }

  lemma {:induction false} OffsetReads(o: Offset, rest: seq<byte>)
    requires OffsetOk(o)
    ensures RdOffset(WrOffset(o) + rest) == Got(o, rest)
  {
    var k := if o.opcode == I32_CONST then I32 else I64;
    var v := if o.opcode == I32_CONST then Signed32(o.value) else o.value;
    var tail := [0x0B] + rest;
    assert WrOffset(o) + rest == [o.opcode] + (EncS(v) + tail);
    ShortOpcode(o.opcode, EncS(v) + tail);
    SignedReads(k, v, tail);
    ShortOpcode(0x0B, rest);
    Wraps(o.value);
    hide RdOpcode, EncS, RdLeb, Wrap32;
  }

  lemma Wraps(u: nat)
    requires u < TWO32
    ensures Wrap32(Signed32(u)) == u
  {
  }

  /** The value of an initializer is skipped over; `Fail` also for an f64 cut off by the end. */
  function SkipConst(op: nat, bs: seq<byte>): Res<int> {
    if op == I32_CONST then RdLeb(I32, bs)
    else if op == I64_CONST then RdLeb(I64, bs)
    else if op == F32_CONST then RdU32Raw(bs)
    else if op == F64_CONST then (if |bs| < 8 then Fail else RdU64Raw(bs))
    else Fail
  }

  /** An initializer is kept as its bytes. */
  function RdInit(bs: seq<byte>): (r: Res<seq<byte>>)
    ensures r.Got? ==> |r.rest| <= |bs|
  {
    match RdOpcode(bs)
    case Fail => Fail
    case Got(op, rest) =>
      match SkipConst(op, rest)
      case Fail => Fail
      case Got(_, rest') =>
        match RdOpcode(rest')
        case Fail => Fail
        case Got(end, rest'') =>
          if end == END && |rest''| <= |bs| then Got(bs[..|bs| - |rest''|], rest'') else Fail
  }

  /** Bytes that are read as one initializer whatever follows. */
  ghost predicate InitOk(raw: seq<byte>) { Reads(RdInit, raw, raw) }

  lemma {:induction false} LebLocal(k: Leb128.Kind, bs: seq<byte>, other: seq<byte>) returns (c: seq<byte>)
    requires RdLeb(k, bs).rest != []
    ensures bs == c + RdLeb(k, bs).rest
    ensures RdLeb(k, c + other) == Got(RdLeb(k, bs).val, other)
  {
    var n := FrontLen(bs);
    DecodeExact(k, bs);
    c := bs[..n];
    FrontOnly(c, other);
    DecodeExact(k, c + other);
    hide FrontLen, Decode, Denotes, Fits;
    assert (c + other)[..n] == c && (c + other)[n..] == other;
  }

  lemma {:induction false} RawLocal(w: nat, bs: seq<byte>, other: seq<byte>)
    requires |bs| >= w && (w == 4 || w == 8)
    ensures w == 4 ==> RdU32Raw(bs[..w] + other) == Got(RdU32Raw(bs).val, other)
    ensures w == 8 ==> RdU64Raw(bs[..w] + other) == Got(RdU64Raw(bs).val, other)
  {
    assert (bs[..w] + other)[..w] == bs[..w] && (bs[..w] + other)[w..] == other;
    hide FromLE;
  }

  /** The bytes of a constant read the same in front of anything. */
  lemma {:induction false} SkipLocal(op: nat, bs: seq<byte>, other: seq<byte>) returns (c: seq<byte>)
    requires SkipConst(op, bs).Got? && SkipConst(op, bs).rest != []
    ensures bs == c + SkipConst(op, bs).rest
    ensures SkipConst(op, c + other) == Got(SkipConst(op, bs).val, other)
  {
    hide RdLeb;
    if op == I32_CONST {
      c := LebLocal(I32, bs, other);
    } else if op == I64_CONST {
      c := LebLocal(I64, bs, other);
    } else {
      var w := if op == F32_CONST then 4 else 8;
      c := bs[..w];
      RawLocal(w, bs, other);
      hide RdU32Raw, RdU64Raw;
      SkippedRaw(op, bs, w);
    }
  }

  lemma SkippedRaw(op: nat, bs: seq<byte>, w: nat)
    requires SkipConst(op, bs).Got? && (op == F32_CONST || op == F64_CONST) && w == if op == F32_CONST then 4 else 8
    ensures |bs| >= w && SkipConst(op, bs).rest == bs[w..]
  {
  }

  lemma NoOpcodeLeft()
    ensures RdOpcode([]) == Got(0, [])
  {
  }

  lemma {:induction false} InitSound(bs: seq<byte>)
    requires RdInit(bs).Got?
    ensures InitOk(RdInit(bs).val)
  {
    var raw := RdInit(bs).val;
    hide RdInit;
    forall other: seq<byte> ensures RdInit(raw + other) == Got(raw, other) {
      InitLocal(bs, other);
    }
  }

  lemma {:induction false} InitLocal(bs: seq<byte>, other: seq<byte>)
    requires RdInit(bs).Got?
    ensures RdInit(RdInit(bs).val + other) == Got(RdInit(bs).val, other)
  {
    hide KindOf, ClassValid, Extended, RdTail, RdByte, RdLeb, RdU32Raw, RdU64Raw;
    var op := RdOpcode(bs);
    var v := SkipConst(op.val, op.rest);
    NoOpcodeLeft();
    OneByteOpcode(bs);
    OneByteOpcode(v.rest);
    var end := RdOpcode(v.rest);
    var c := SkipLocal(op.val, op.rest, [0x0B] + other);
    ShortOpcode(op.val, c + ([0x0B] + other));
    ShortOpcode(0x0B, other);
    var raw := RdInit(bs).val;
    hide RdOpcode, SkipConst;
    Pieces(bs, op.val, c, end.rest, other);
  }

  lemma Pieces(bs: seq<byte>, op: byte, c: seq<byte>, rest: seq<byte>, other: seq<byte>)
    requires bs == [op] + (c + ([0x0B] + rest))
    ensures bs[..|bs| - |rest|] == [op] + c + [0x0B]
    ensures [op] + c + [0x0B] + other == [op] + (c + ([0x0B] + other))
    ensures ([op] + c + [0x0B] + other)[..|bs| - |rest|] == [op] + c + [0x0B]
  {
  }
}
