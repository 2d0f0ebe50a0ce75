/** Instructions in the binary format: opcodes of one to three bytes and the immediates behind them. */
module CodecInst {
  import opened Bytes
  import opened Leb128
  import opened LebProof
  import opened Codec

  datatype ImmKind =
    | KNone | KBlockt | KLabel | KLabels | KFunc | KSigTable | KLocal | KGlobal | KMemarg
    | KI32 | KI64 | KF32 | KF64 | KMemory | KDataMemory | KData | KMemorycp
    | KV128 | KLaneidx | KLaneidx16 | KMemargLane

  datatype Option<+T> = None | Some(value: T)

  /** The opcodes the table knows and does not mark as unsupported, with the kind of their immediates. */
  function KindOf(op: nat): Option<ImmKind> {
    if op < 0x100 then OneByte(op)
    else if op < 0x1_0000 then TwoBytes(op / 0x100, op % 0x100)
    else if op < 0x100_0000 && op / 0x1_0000 == 0xFD && op / 0x100 % 0x100 >= 0x80 && op % 0x100 == 1 then Some(KNone)
    else None
  }

  function OneByte(op: nat): Option<ImmKind> {
    if op <= 0x01 then Some(KNone)
    else if op <= 0x04 then Some(KBlockt)
    else if op == 0x05 || op == 0x0B || op == 0x0F then Some(KNone)
    else if op == 0x0C || op == 0x0D then Some(KLabel)
    else if op == 0x0E then Some(KLabels)
    else if op == 0x10 then Some(KFunc)
    else if op == 0x11 then Some(KSigTable)
    else if op == 0x1A || op == 0x1B then Some(KNone)
    else if 0x20 <= op <= 0x22 then Some(KLocal)
    else if 0x23 <= op <= 0x24 then Some(KGlobal)
    else if 0x28 <= op <= 0x3E then Some(KMemarg)
    else if 0x3F <= op <= 0x40 then Some(KMemory)
    else if op == 0x41 then Some(KI32)
    else if op == 0x42 then Some(KI64)
    else if op == 0x43 then Some(KF32)
    else if op == 0x44 then Some(KF64)
    else if 0x45 <= op <= 0xC4 then Some(KNone)
    else None
  }

  function TwoBytes(cls: nat, op: nat): Option<ImmKind> {
    if cls == 0xFC then
      if op <= 0x07 then Some(KNone)
      else if op == 0x08 then Some(KDataMemory)
      else if op == 0x09 then Some(KData)
      else if op == 0x0A then Some(KMemorycp)
      else if op == 0x0B then Some(KMemory)
      else None
    else if cls == 0xFD then
      if op <= 0x0B then Some(KMemarg)
      else if op == 0x0C then Some(KV128)
      else if op == 0x0D then Some(KLaneidx16)
      else if op <= 0x14 then Some(KNone)
      else if op <= 0x22 then Some(KLaneidx)
      else if op <= 0x53 then Some(KNone)
      else if op <= 0x5B then Some(KMemargLane)
      else if op <= 0x5D then Some(KMemarg)
      else if op <= 0x7F then Some(KNone)
      else None
    else if cls == 0xFE then
      if op <= 0x02 then Some(KMemarg)
      else if op == 0x03 then Some(KNone)
      else if 0x10 <= op <= 0x4E then Some(KMemarg)
      else None
    else None
  }

  /** Which opcodes take which immediates, kind by kind. */
  predicate Takes(k: ImmKind, op: nat) {
    match k
    case KBlockt => op == 0x02 || op == 0x03 || op == 0x04
    case KLabel => op == 0x0C || op == 0x0D
    case KLabels => op == 0x0E
    case KFunc => op == 0x10
    case KSigTable => op == 0x11
    case KLocal => op == 0x20 || op == 0x21 || op == 0x22
    case KGlobal => op == 0x23 || op == 0x24
    case KMemarg =>
      || 0x28 <= op <= 0x3E || 0xFD00 <= op <= 0xFD0B || op == 0xFD5C || op == 0xFD5D
      || 0xFE00 <= op <= 0xFE02 || 0xFE10 <= op <= 0xFE4E
    case KI32 => op == 0x41
    case KI64 => op == 0x42
    case KF32 => op == 0x43
    case KF64 => op == 0x44
    case KMemory => op == 0x3F || op == 0x40 || op == 0xFC0B
    case KDataMemory => op == 0xFC08
    case KData => op == 0xFC09
    case KMemorycp => op == 0xFC0A
    case KV128 => op == 0xFD0C
    case KLaneidx16 => op == 0xFD0D
    case KLaneidx => 0xFD15 <= op <= 0xFD22
    case KMemargLane => 0xFD54 <= op <= 0xFD5B
    case KNone =>
      || op in {0x00, 0x01, 0x05, 0x0B, 0x0F, 0x1A, 0x1B} || 0x45 <= op <= 0xC4 || 0xFC00 <= op <= 0xFC07
      || 0xFD0E <= op <= 0xFD14 || 0xFD23 <= op <= 0xFD53 || 0xFD5E <= op <= 0xFD7F || op == 0xFE03
      || (op / 0x1_0000 == 0xFD && op / 0x100 % 0x100 >= 0x80 && op % 0x100 == 1)
  }

  /** The decoder's ranges give every opcode its own kind, and no other opcode any. */
  lemma {:induction false} KindExact(op: nat, k: ImmKind)
    ensures KindOf(op) == Some(k) <==> Takes(k, op)
  {
    if op < 0x100 { OneByteExact(op, k); }
    if 0x100 <= op < 0x1_0000 { TwoBytesExact(op / 0x100, op % 0x100, k); }
    assert op == op / 0x100 * 0x100 + op % 0x100;
    hide OneByte, TwoBytes;
  }

  lemma OneByteExact(op: nat, k: ImmKind)
    requires op < 0x100
    ensures OneByte(op) == Some(k) <==> Takes(k, op)
  {
  }

  lemma TwoBytesExact(cls: nat, op: nat, k: ImmKind)
    requires 0 < cls < 0x100 && op < 0x100
    ensures TwoBytes(cls, op) == Some(k) <==> Takes(k, cls * 0x100 + op)
  {
    hide Takes, TwoBytes;
    match cls
    case 0xFC => SaturatingExact(op, k);
    case 0xFD => VectorExact(op, k);
    case 0xFE => AtomicExact(op, k);
    case _ => OtherClass(cls, op, k);
  }

  lemma SaturatingExact(op: nat, k: ImmKind)
    requires op < 0x100
    ensures TwoBytes(0xFC, op) == Some(k) <==> Takes(k, 0xFC00 + op)
  {
  }

  lemma VectorExact(op: nat, k: ImmKind)
    requires op < 0x100
    ensures TwoBytes(0xFD, op) == Some(k) <==> Takes(k, 0xFD00 + op)
  {
  }

  lemma AtomicExact(op: nat, k: ImmKind)
    requires op < 0x100
    ensures TwoBytes(0xFE, op) == Some(k) <==> Takes(k, 0xFE00 + op)
  {
  }

  lemma OtherClass(cls: nat, op: nat, k: ImmKind)
    requires 0 < cls < 0x100 && op < 0x100 && cls !in {0xFC, 0xFD, 0xFE}
    ensures TwoBytes(cls, op) == None && !Takes(k, cls * 0x100 + op)
  {
  }

  // ----- opcodes -----

  /** The classes of multi-byte opcodes; the first of them is not supported. */
  predicate Extended(b: nat) { 0xFB <= b <= 0xFE }

  predicate ClassValid(b: nat) { OneByte(b).Some? || (Extended(b) && b != 0xFB) }

  /** The further bytes of an opcode: up to the first one without its top bit. */
  function RdTail(res: nat, last: byte, bs: seq<byte>): (r: Res<nat>)
    ensures r.Got? && |r.rest| <= |bs|
    decreases |bs|, if last >= 0x80 then 1 else 0
  {
    if last < 0x80 then Got(res, bs)
    else
      var n := RdByte(bs);
      RdTail(Wrap32(res * 0x100 + n.val), n.val, n.rest)
  }

  function RdOpcode(bs: seq<byte>): (r: Res<nat>)
    ensures r.Got? ==> KindOf(r.val).Some? && |r.rest| <= |bs|
    ensures r.Got? && bs != [] ==> |r.rest| < |bs|
  {
    var first := RdByte(bs);
    if !ClassValid(first.val) then Fail
    else
      var r := if Extended(first.val) then RdTail(first.val, first.val, first.rest) else first;
      if KindOf(r.val).None? then Fail else Got(r.val, r.rest)
  }

  /** The bytes of an opcode the table knows, most significant first, without leading zeros. */
  function WrOpcode(op: nat): (bs: seq<byte>)
    ensures bs != []
  {
    if op < 0x100 then [op]
    else if op < 0x1_0000 then [op / 0x100, op % 0x100]
    else [op / 0x1_0000 % 0x100, op / 0x100 % 0x100, op % 0x100]
  }

  lemma {:induction false} OpcodeReads(op: nat, rest: seq<byte>)
    requires KindOf(op).Some?
    ensures RdOpcode(WrOpcode(op) + rest) == Got(op, rest)
  {
    var bs := WrOpcode(op) + rest;
    assert bs[0] == WrOpcode(op)[0];
    if op < 0x100 {
      assert bs[1..] == rest;
    } else if op < 0x1_0000 {
      Tail2(op, rest);
    } else {
      Tail3(op, rest);
    }
  }

  lemma {:induction false} Tail2(op: nat, rest: seq<byte>)
    requires 0x100 <= op < 0x1_0000 && KindOf(op).Some?
    ensures RdByte(WrOpcode(op) + rest) == Got(op / 0x100, [op % 0x100] + rest)
    ensures RdTail(op / 0x100, op / 0x100, [op % 0x100] + rest) == Got(op, rest)
    ensures ClassValid(op / 0x100) && Extended(op / 0x100)
  {
    var c, b := op / 0x100, op % 0x100;
    assert WrOpcode(op) + rest == [c] + ([b] + rest);
    assert ([c] + ([b] + rest))[1..] == [b] + rest;
    assert ([b] + rest)[1..] == rest;
    assert c * 0x100 + b == op;
    assert b < 0x80;
    assert RdTail(Wrap32(op), b, rest) == Got(op, rest);
  }

  lemma {:induction false} Tail3(op: nat, rest: seq<byte>)
    requires 0x1_0000 <= op && KindOf(op).Some?
    ensures RdByte(WrOpcode(op) + rest) == Got(op / 0x1_0000, [op / 0x100 % 0x100, op % 0x100] + rest)
    ensures RdTail(op / 0x1_0000, op / 0x1_0000, [op / 0x100 % 0x100, op % 0x100] + rest) == Got(op, rest)
    ensures ClassValid(op / 0x1_0000) && Extended(op / 0x1_0000)
  {
    var c, b, a := op / 0x1_0000, op / 0x100 % 0x100, op % 0x100;
    assert WrOpcode(op) + rest == [c] + ([b, a] + rest);
    assert ([c] + ([b, a] + rest))[1..] == [b, a] + rest;
    assert ([b, a] + rest)[1..] == [a] + rest;
    assert ([a] + rest)[1..] == rest;
    assert c * 0x100 + b == op / 0x100;
    assert (op / 0x100) * 0x100 + a == op;
    assert RdTail(op, a, rest) == Got(op, rest);
    assert RdTail(op / 0x100, b, [a] + rest) == Got(op, rest);
  }

  // ----- immediates -----

  /** What follows an opcode; `R` is how declarations are referred to. */
  datatype Imm<R> =
    | NoImm
    | Blockt(ty: int)
    | Label(l: nat)
    | Labels(ls: seq<nat>, dflt: nat)
    | FuncRef(func: R)
    | SigTable(sig: R, table: R)
    | LocalIdx(l: nat)
    | GlobalRef(global: R)
    | Memarg(align: nat, mem: R, offset: nat)
    | I32C(i: int)
    | I64C(i: int)
    | F32C(bits: nat)
    | F64C(bits: nat)
    | MemoryRef(mem: R)
    | DataMemory(data: R, mem: R)
    | DataRef(data: R)
    | Memorycp(dst: R, src: R)
    | V128C(lo: nat, hi: nat)
    | Lane(lane: byte)
    | Lanes(lanes: seq<byte>)
    | MemargLane(align: nat, mem: R, offset: nat, lane: byte)

  datatype Inst<R> = Inst(op: nat, imm: Imm<R>)

  /** The sizes of the index spaces. */
  datatype Env = Env(sigs: nat, funcs: nat, tables: nat, mems: nat, globals: nat, datas: nat)

  function KindOfImm<R>(m: Imm<R>): ImmKind {
    match m
    case NoImm => KNone case Blockt(_) => KBlockt case Label(_) => KLabel case Labels(_, _) => KLabels
    case FuncRef(_) => KFunc case SigTable(_, _) => KSigTable case LocalIdx(_) => KLocal
    case GlobalRef(_) => KGlobal case Memarg(_, _, _) => KMemarg case I32C(_) => KI32 case I64C(_) => KI64
    case F32C(_) => KF32 case F64C(_) => KF64 case MemoryRef(_) => KMemory
    case DataMemory(_, _) => KDataMemory case DataRef(_) => KData case Memorycp(_, _) => KMemorycp
    case V128C(_, _) => KV128 case Lane(_) => KLaneidx case Lanes(_) => KLaneidx16
    case MemargLane(_, _, _, _) => KMemargLane
  }

  /** The immediates the decoder produces. */
  predicate ImmOk(env: Env, m: Imm<nat>) {
    match m
    case NoImm => true
    case Blockt(ty) => ty < 0 && Fits(I64, ty)
    case Label(l) => l < TWO32
    case Labels(ls, d) => |ls| < TWO32 && (forall l :: l in ls ==> l < TWO32) && d < TWO32
    case FuncRef(f) => f < env.funcs && f < TWO32
    case SigTable(s, t) => s < env.sigs && t < env.tables && s < TWO32 && t < TWO32
    case LocalIdx(l) => l < TWO32
    case GlobalRef(g) => g < env.globals && g < TWO32
    case Memarg(a, mem, o) => a < 64 && mem < env.mems && mem < TWO32 && o < TWO32
    case I32C(i) => Fits(I32, i)
    case I64C(i) => Fits(I64, i)
    case F32C(b) => b < TWO32
    case F64C(b) => b < TWO64
    case MemoryRef(mem) => mem < env.mems && mem < TWO32
    case DataMemory(d, mem) => d < env.datas && mem < env.mems && d < TWO32 && mem < TWO32
    case DataRef(d) => d < env.datas && d < TWO32
    case Memorycp(d, s) => d < env.mems && s < env.mems && d < TWO32 && s < TWO32
    case V128C(lo, hi) => lo < TWO64 && hi < TWO64
    case Lane(_) => true
    case Lanes(ls) => |ls| == 16
    case MemargLane(a, mem, o, _) => a < 64 && mem < env.mems && mem < TWO32 && o < TWO32
  }

  // ----- memory operands -----

  datatype MemOp = MemOp(align: nat, mem: nat, offset: nat)

  /** Bit 6 of the alignment says that a memory index follows; the bits above are dropped. */
  function RdMemOp(env: Env, bs: seq<byte>): (r: Res<MemOp>)
    ensures r.Got? ==> |r.rest| <= |bs|
    ensures r.Got? ==> r.val.align < 64 && r.val.mem < env.mems && r.val.mem < TWO32 && r.val.offset < TWO32
  {
    var a := RdU32(bs);
    var m := if a.val / 64 % 2 == 1 then RdU32(a.rest) else Got(0, a.rest);
    if m.val >= env.mems then Fail
    else
      var o := RdU32(m.rest);
      Got(MemOp(a.val % 64, m.val, o.val), o.rest)
  }

  function WrMemOp(m: MemOp): seq<byte> {
    (if m.mem != 0 then WrU32(m.align + 64) + WrU32(m.mem) else WrU32(m.align)) + WrU32(m.offset)
  }

  lemma {:induction false} MemOpReads(env: Env, m: MemOp, rest: seq<byte>)
    requires m.align < 64 && m.mem < env.mems && m.mem < TWO32 && m.offset < TWO32
    ensures RdMemOp(env, WrMemOp(m) + rest) == Got(m, rest)
  {
    hide RdU32, WrU32;
    var tail := WrU32(m.offset) + rest;
    U32Reads(m.offset, rest);
    if m.mem != 0 {
      assert WrMemOp(m) + rest == WrU32(m.align + 64) + (WrU32(m.mem) + tail);
      U32Reads(m.align + 64, WrU32(m.mem) + tail);
      U32Reads(m.mem, tail);
      assert (m.align + 64) / 64 % 2 == 1 && (m.align + 64) % 64 == m.align;
    } else {
      assert WrMemOp(m) + rest == WrU32(m.align) + tail;
      U32Reads(m.align, tail);
    }
  }

  // ----- one immediate -----

  /** An index into a space of `n` declarations; the decoder may not look past the end of the space. */
  function RdIdx(n: nat, bs: seq<byte>): (r: Res<nat>)
    ensures r.Got? ==> r.val < n && r.val < TWO32 && |r.rest| <= |bs|
  {
    var i := RdU32(bs);
    if i.val < n then i else Fail
  }

  lemma IdxReads(n: nat, i: nat, rest: seq<byte>)
    requires i < n && i < TWO32
    ensures RdIdx(n, WrU32(i) + rest) == Got(i, rest)
  {
    U32Reads(i, rest);
    hide RdU32;
  }

  /** Two indices, as for indirect calls and bulk memory operations. */
  function RdPair(m: nat, n: nat, bs: seq<byte>): (r: Res<(nat, nat)>)
    ensures r.Got? ==> r.val.0 < m && r.val.1 < n && r.val.0 < TWO32 && r.val.1 < TWO32 && |r.rest| <= |bs|
  {
    match RdIdx(m, bs)
    case Fail => Fail
    case Got(i, rest) =>
      match RdIdx(n, rest)
      case Fail => Fail
      case Got(j, rest') => Got((i, j), rest')
  }

  lemma PairReads(m: nat, n: nat, i: nat, j: nat, rest: seq<byte>)
    requires i < m && j < n && i < TWO32 && j < TWO32
    ensures RdPair(m, n, WrU32(i) + WrU32(j) + rest) == Got((i, j), rest)
  {
    assert WrU32(i) + WrU32(j) + rest == WrU32(i) + (WrU32(j) + rest);
    IdxReads(m, i, WrU32(j) + rest);
    IdxReads(n, j, rest);
    hide RdIdx;
  }

  function Mapped<T, U>(r: Res<T>, f: T -> U): Res<U> {
    match r case Fail => Fail case Got(x, rest) => Got(f(x), rest)
  }

  function RdLabels(bs: seq<byte>): (r: Res<(seq<nat>, nat)>) {
    match RdVec<nat>(RdU32, bs)
    case Fail => Fail
    case Got(ls, rest) => var d := RdU32(rest); Got((ls, d.val), d.rest)
  }

  function RdImm(env: Env, k: ImmKind, bs: seq<byte>): Res<Imm<nat>> {
    match k
    case KNone => Got(NoImm, bs)
    case KBlockt =>
      var t := RdLeb(I64, bs);
      if t.val >= 0 then Fail else Got(Blockt(t.val), t.rest)
    case KLabel => Mapped(RdU32(bs), l => Label(l))
    case KLabels => Mapped(RdLabels(bs), (p: (seq<nat>, nat)) => Labels(p.0, p.1))
    case KFunc => Mapped(RdIdx(env.funcs, bs), i => FuncRef(i))
    case KSigTable => Mapped(RdPair(env.sigs, env.tables, bs), (p: (nat, nat)) => SigTable(p.0, p.1))
    case KLocal => Mapped(RdU32(bs), l => LocalIdx(l))
    case KGlobal => Mapped(RdIdx(env.globals, bs), i => GlobalRef(i))
    case KMemarg => Mapped(RdMemOp(env, bs), (m: MemOp) => Memarg(m.align, m.mem, m.offset))
    case KI32 => Mapped(RdLeb(I32, bs), i => I32C(i))
    case KI64 => Mapped(RdLeb(I64, bs), i => I64C(i))
    case KF32 => Mapped(RdU32Raw(bs), b => F32C(b))
    case KF64 => Mapped(RdU64Raw(bs), b => F64C(b))
    case KMemory => Mapped(RdIdx(env.mems, bs), i => MemoryRef(i))
    case KDataMemory => Mapped(RdPair(env.datas, env.mems, bs), (p: (nat, nat)) => DataMemory(p.0, p.1))
    case KData => Mapped(RdIdx(env.datas, bs), i => DataRef(i))
    case KMemorycp => Mapped(RdPair(env.mems, env.mems, bs), (p: (nat, nat)) => Memorycp(p.0, p.1))
    case KV128 => var lo := RdU64Raw(bs); Mapped(RdU64Raw(lo.rest), hi => V128C(lo.val, hi))
    case KLaneidx => Mapped(RdByte(bs), b => Lane(b))
    case KLaneidx16 => Mapped(RdMany(RdByte, 16, bs), ls => Lanes(ls))
    case KMemargLane =>
      (match RdMemOp(env, bs)
       case Fail => Fail
       case Got(m, rest) => Mapped(RdByte(rest), b => MemargLane(m.align, m.mem, m.offset, b)))
  }

  function One(b: byte): seq<byte> { [b] }

  function WrImm(m: Imm<nat>): seq<byte> {
    match m
    case NoImm => []
    case Blockt(ty) => EncS(ty)
    case Label(l) => WrU32(l)
    case Labels(ls, d) => WrVec(WrU32, ls) + WrU32(d)
    case FuncRef(f) => WrU32(f)
    case SigTable(s, t) => WrU32(s) + WrU32(t)
    case LocalIdx(l) => WrU32(l)
    case GlobalRef(g) => WrU32(g)
    case Memarg(a, mem, o) => WrMemOp(MemOp(a, mem, o))
    case I32C(i) => EncS(i)
    case I64C(i) => EncS(i)
    case F32C(b) => ToLE(b, 4)
    case F64C(b) => ToLE(b, 8)
    case MemoryRef(mem) => WrU32(mem)
    case DataMemory(d, mem) => WrU32(d) + WrU32(mem)
    case DataRef(d) => WrU32(d)
    case Memorycp(d, s) => WrU32(d) + WrU32(s)
    case V128C(lo, hi) => ToLE(lo, 8) + ToLE(hi, 8)
    case Lane(b) => [b]
    case Lanes(ls) => WrMany(One, ls)
    case MemargLane(a, mem, o, b) => WrMemOp(MemOp(a, mem, o)) + [b]
  }

  // ----- immediates are read back -----

  lemma {:induction false} NumbersRead(env: Env, m: Imm<nat>, rest: seq<byte>)
    requires ImmOk(env, m)
    requires m.NoImm? || m.Blockt? || m.Label? || m.LocalIdx? || m.I32C? || m.I64C? || m.F32C? || m.F64C? || m.Lane?
    ensures RdImm(env, KindOfImm(m), WrImm(m) + rest) == Got(m, rest)
  {
    hide RdU32, WrU32, RdLeb, EncS, ToLE, RdU32Raw, RdU64Raw, RdByte;
    PowerTable();
    match m
    case NoImm => assert [] + rest == rest;
    case Blockt(ty) => SignedReads(I64, ty, rest);
    case Label(l) => U32Reads(l, rest);
    case LocalIdx(l) => U32Reads(l, rest);
    case I32C(i) => SignedReads(I32, i, rest);
    case I64C(i) => SignedReads(I64, i, rest);
    case F32C(b) => RawReads(b, 4, rest);
    case F64C(b) => RawReads(b, 8, rest);
    case Lane(b) => ByteReads(b, rest);
  }

  lemma {:induction false} RefsRead(env: Env, m: Imm<nat>, rest: seq<byte>)
    requires ImmOk(env, m)
    requires m.FuncRef? || m.SigTable? || m.GlobalRef? || m.MemoryRef? || m.DataMemory? || m.DataRef? || m.Memorycp?
    ensures RdImm(env, KindOfImm(m), WrImm(m) + rest) == Got(m, rest)
  {
    hide RdIdx, RdPair, WrU32;
    match m
    case FuncRef(f) => IdxReads(env.funcs, f, rest);
    case SigTable(s, t) => PairReads(env.sigs, env.tables, s, t, rest);
    case GlobalRef(g) => IdxReads(env.globals, g, rest);
    case MemoryRef(mem) => IdxReads(env.mems, mem, rest);
    case DataMemory(d, mem) => PairReads(env.datas, env.mems, d, mem, rest);
    case DataRef(d) => IdxReads(env.datas, d, rest);
    case Memorycp(d, s) => PairReads(env.mems, env.mems, d, s, rest);
  }

  lemma {:induction false} LabelsRead(ls: seq<nat>, d: nat, rest: seq<byte>)
    requires |ls| < TWO32 && (forall l :: l in ls ==> l < TWO32) && d < TWO32
    ensures RdLabels(WrVec(WrU32, ls) + WrU32(d) + rest) == Got((ls, d), rest)
  {
    assert WrVec(WrU32, ls) + WrU32(d) + rest == WrVec(WrU32, ls) + (WrU32(d) + rest);
    forall l | l in ls ensures Reads(RdU32, WrU32(l), l) {
      forall r: seq<byte> ensures RdU32(WrU32(l) + r) == Got(l, r) { U32Reads(l, r); }
    }
    hide RdU32, WrU32;
    VecReads<nat>(RdU32, WrU32, ls, WrU32(d) + rest);
    U32Reads(d, rest);
  }

  lemma {:induction false} LanesRead(ls: seq<byte>, rest: seq<byte>)
    ensures RdMany(RdByte, |ls|, WrMany(One, ls) + rest) == Got(ls, rest)
  {
    forall b | b in ls ensures Reads(RdByte, One(b), b) {
      forall r: seq<byte> ensures RdByte(One(b) + r) == Got(b, r) { ByteReads(b, r); }
    }
    hide RdByte, One;
    ManyRead(RdByte, One, ls, rest);
  }

  lemma {:induction false} MemargReads(env: Env, m: Imm<nat>, rest: seq<byte>)
    requires ImmOk(env, m) && (m.Memarg? || m.MemargLane?)
    ensures RdImm(env, KindOfImm(m), WrImm(m) + rest) == Got(m, rest)
  {
    hide RdMemOp, WrMemOp;
    var o := MemOp(m.align, m.mem, m.offset);
    if m.Memarg? {
      MemOpReads(env, o, rest);
    } else {
      MemOpReads(env, o, [m.lane] + rest);
      ByteReads(m.lane, rest);
      assert WrMemOp(o) + [m.lane] + rest == WrMemOp(o) + ([m.lane] + rest);
    }
  }

  lemma {:induction false} ListsRead(env: Env, m: Imm<nat>, rest: seq<byte>)
    requires ImmOk(env, m) && (m.Labels? || m.Lanes?)
    ensures RdImm(env, KindOfImm(m), WrImm(m) + rest) == Got(m, rest)
  {
    hide RdLabels, WrVec, RdMany, WrMany, WrU32;
    match m
    case Labels(ls, d) => LabelsRead(ls, d, rest);
    case Lanes(ls) => LanesRead(ls, rest);
  }

  lemma {:induction false} V128Read(env: Env, lo: nat, hi: nat, rest: seq<byte>)
    requires lo < TWO64 && hi < TWO64
    ensures RdImm(env, KV128, ToLE(lo, 8) + ToLE(hi, 8) + rest) == Got(V128C(lo, hi), rest)
  {
    hide RdU64Raw, ToLE;
    PowerTable();
    assert ToLE(lo, 8) + ToLE(hi, 8) + rest == ToLE(lo, 8) + (ToLE(hi, 8) + rest);
    RawReads(lo, 8, ToLE(hi, 8) + rest);
    RawReads(hi, 8, rest);
  }

  /** Every immediate the decoder can produce is read back as it was written. */
  lemma {:induction false} ImmReads(env: Env, m: Imm<nat>, rest: seq<byte>)
    requires ImmOk(env, m)
    ensures RdImm(env, KindOfImm(m), WrImm(m) + rest) == Got(m, rest)
  {
    hide RdImm;
    if m.Labels? || m.Lanes? {
      ListsRead(env, m, rest);
    } else if m.Memarg? || m.MemargLane? {
      MemargReads(env, m, rest);
    } else if m.V128C? {
      V128Read(env, m.lo, m.hi, rest);
    } else if m.FuncRef? || m.SigTable? || m.GlobalRef? || m.MemoryRef? || m.DataMemory? || m.DataRef? || m.Memorycp? {
      hide WrImm, KindOfImm, ImmOk;
      RefsRead(env, m, rest);
    } else {
      hide WrImm, KindOfImm, ImmOk;
      NumbersRead(env, m, rest);
    }
  }

  // ----- what is read is well-formed -----

  lemma {:induction false} ManyU32(n: nat, bs: seq<byte>)
    ensures var r := RdMany<nat>(RdU32, n, bs); r.Got? && |r.rest| <= |bs| && forall l :: l in r.val ==> l < TWO32
    decreases n
  {
    if n > 0 {
      ManyU32(n - 1, RdU32(bs).rest);
      assert RdMany<nat>(RdU32, n, bs) == Got([RdU32(bs).val] + RdMany<nat>(RdU32, n - 1, RdU32(bs).rest).val,
                                         RdMany<nat>(RdU32, n - 1, RdU32(bs).rest).rest);
    }
  }

  lemma {:induction false} ManyBytes(n: nat, bs: seq<byte>)
    ensures var r := RdMany(RdByte, n, bs); r.Got? && |r.rest| <= |bs|
    decreases n
  {
    hide RdByte;
    if n > 0 { ManyBytes(n - 1, RdByte(bs).rest); }
  }

  predicate Numeric(k: ImmKind) {
    k.KNone? || k.KBlockt? || k.KLabel? || k.KLocal? || k.KI32? || k.KI64? || k.KF32? || k.KF64? || k.KLaneidx? || k.KV128?
  }

  predicate Sound(env: Env, k: ImmKind, bs: seq<byte>) {
    var r := RdImm(env, k, bs);
    r.Got? ==> ImmOk(env, r.val) && KindOfImm(r.val) == k && |r.rest| <= |bs|
  }

  lemma {:induction false} NumericSound(env: Env, k: ImmKind, bs: seq<byte>)
    requires Numeric(k)
    ensures Sound(env, k, bs)
  {
    LebFits(I32, bs);
    LebFits(I64, bs);
    hide RdU32, RdLeb, RdU32Raw, RdU64Raw, RdByte, Fits, RdMany, RdIdx, RdPair, RdMemOp, RdLabels;
  }

  lemma {:induction false} LabelsSound(env: Env, bs: seq<byte>)
    ensures Sound(env, KLabels, bs)
  {
    LabelsInRange(bs);
    hide RdLabels;
  }

  lemma LabelsInRange(bs: seq<byte>)
    ensures var r := RdLabels(bs);
      r.Got? && |r.val.0| < TWO32 && (forall l :: l in r.val.0 ==> l < TWO32) && r.val.1 < TWO32 && |r.rest| <= |bs|
  {
    ManyU32(RdU32(bs).val, RdU32(bs).rest);
    hide RdU32, RdMany;
  }

  lemma {:induction false} LanesSound(env: Env, bs: seq<byte>)
    ensures Sound(env, KLaneidx16, bs)
  {
    ManyBytes(16, bs);
    hide RdByte, RdMany;
  }

  lemma {:induction false} RefSound(env: Env, k: ImmKind, bs: seq<byte>)
    requires !Numeric(k) && !k.KLabels? && !k.KLaneidx16?
    ensures Sound(env, k, bs)
  {
    hide RdU32, RdByte, RdMany, RdIdx, RdPair, RdMemOp, RdLeb;
  }

  /** What is read has the kind asked for, and its indices lie in their spaces. */
  lemma {:induction false} ImmSound(env: Env, k: ImmKind, bs: seq<byte>)
    ensures Sound(env, k, bs)
  {
    hide Sound;
    if Numeric(k) {
      NumericSound(env, k, bs);
    } else if k.KLabels? {
      LabelsSound(env, bs);
    } else if k.KLaneidx16? {
      LanesSound(env, bs);
    } else {
      RefSound(env, k, bs);
    }
  }

  // ----- instructions and function bodies -----

  predicate InstOk(env: Env, i: Inst<nat>) {
    KindOf(i.op) == Some(KindOfImm(i.imm)) && ImmOk(env, i.imm)
  }

  function RdInst(env: Env, bs: seq<byte>): Res<Inst<nat>> {
    match RdOpcode(bs)
    case Fail => Fail
    case Got(op, rest) => Mapped(RdImm(env, KindOf(op).value, rest), m => Inst(op, m))
  }

  function WrInst(i: Inst<nat>): seq<byte> {
    WrOpcode(i.op) + WrImm(i.imm)
  }

  lemma {:induction false} InstReads(env: Env, i: Inst<nat>, rest: seq<byte>)
    requires InstOk(env, i)
    ensures RdInst(env, WrInst(i) + rest) == Got(i, rest)
  {
    assert WrInst(i) + rest == WrOpcode(i.op) + (WrImm(i.imm) + rest);
    OpcodeReads(i.op, WrImm(i.imm) + rest);
    ImmReads(env, i.imm, rest);
    hide RdOpcode, WrOpcode, RdImm, WrImm, KindOf, KindOfImm;
  }

  lemma {:induction false} InstSound(env: Env, bs: seq<byte>)
    ensures var r := RdInst(env, bs);
      r.Got? ==> InstOk(env, r.val) && |r.rest| <= |bs| && (bs != [] ==> |r.rest| < |bs|)
  {
    var op := RdOpcode(bs);
    if op.Got? { ImmSound(env, KindOf(op.val).value, op.rest); }
    hide RdOpcode, RdImm, KindOf, KindOfImm, ImmOk;
  }

  /** Instructions up to the end of the slice that holds the body. */
  function RdExpr(env: Env, bs: seq<byte>): Res<seq<Inst<nat>>>
    decreases |bs|
  {
    if bs == [] then Got([], [])
    else
      InstSound(env, bs);
      match RdInst(env, bs)
      case Fail => Fail
      case Got(i, rest) => Mapped(RdExpr(env, rest), (code: seq<Inst<nat>>) => [i] + code)
  }

  predicate AllOk(env: Env, code: seq<Inst<nat>>) {
    forall k :: 0 <= k < |code| ==> InstOk(env, code[k])
  }

  function WrExpr(code: seq<Inst<nat>>): seq<byte> {
    if code == [] then [] else WrInst(code[0]) + WrExpr(code[1..])
  }

  lemma {:induction false} ExprReads(env: Env, code: seq<Inst<nat>>)
    requires AllOk(env, code)
    ensures RdExpr(env, WrExpr(code)) == Got(code, [])
    decreases |code|
  {
    hide KindOf, KindOfImm, ImmOk, RdInst, WrInst;
    if code != [] {
      assert InstOk(env, code[0]);
      InstReads(env, code[0], WrExpr(code[1..]));
      NotEmpty(code[0]);
      ExprReads(env, code[1..]);
      assert code == [code[0]] + code[1..];
    }
  }

  lemma NotEmpty(i: Inst<nat>)
    ensures WrInst(i) != []
  {
    hide WrOpcode, WrImm;
  }

  lemma {:induction false} ExprSound(env: Env, bs: seq<byte>)
    ensures RdExpr(env, bs).Got? ==> AllOk(env, RdExpr(env, bs).val) && RdExpr(env, bs).rest == []
    decreases |bs|
  {
    hide RdInst, InstOk;
    if bs != [] {
      InstSound(env, bs);
      var r := RdInst(env, bs);
      if r.Got? { ExprSound(env, r.rest); }
    }
  }
}
