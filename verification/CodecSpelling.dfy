/**
 * Reading what other writers write: numbers of any permitted length, with or without padding, in every
 * place where the format has a number.
 */
module CodecSpelling {
  import opened Bytes
  import opened Leb128
  import opened LebProof
  import opened Codec
  import opened CodecInst
  import opened CodecModule
  import opened CodecParts
  import opened CodecSections

  predicate Num(bs: seq<byte>, n: nat) { Spells(U32, bs, n) }

  /** Two parts, one behind the other. */
  predicate Two(bs: seq<byte>, m: nat, n: nat, i: nat) { i <= |bs| && Num(bs[..i], m) && Num(bs[i..], n) }

  ghost predicate Pair(bs: seq<byte>, m: nat, n: nat) { exists i: nat :: Two(bs, m, n, i) }

  /** Numbers one after the other. */
  ghost predicate Nums(bs: seq<byte>, ns: seq<nat>)
    decreases |ns|
  {
    if ns == [] then bs == [] else exists i: nat :: NumsAt(bs, ns, i)
  }

  ghost predicate NumsAt(bs: seq<byte>, ns: seq<nat>, i: nat)
    requires ns != []
    decreases |ns|, 0
  {
    i <= |bs| && Num(bs[..i], ns[0]) && Nums(bs[i..], ns[1..])
  }

  /** A count and that many numbers, and one more. */
  ghost predicate LabelList(bs: seq<byte>, ls: seq<nat>, d: nat, i: nat, j: nat) {
    i <= j <= |bs| && Num(bs[..i], |ls|) && Nums(bs[i..j], ls) && Num(bs[j..], d)
  }

  /** The memory's index is there just when bit 6 of the first number is set. */
  predicate MemOpAt(bs: seq<byte>, flags: nat, m: MemOp, i: nat, j: nat) {
    && i <= j <= |bs| && Num(bs[..i], flags) && flags % 64 == m.align && Num(bs[j..], m.offset)
    && if flags / 64 % 2 == 1 then Num(bs[i..j], m.mem) else i == j && m.mem == 0
  }

  ghost predicate MemOpSpelled(bs: seq<byte>, m: MemOp) { exists flags: nat, i: nat, j: nat :: MemOpAt(bs, flags, m, i, j) }

  /** `bs` stands for the immediate. */
  ghost predicate ImmSpelled(m: Imm<nat>, bs: seq<byte>) {
    match m
    case NoImm => bs == []
    case Blockt(ty) => Spells(I64, bs, ty)
    case Label(l) => Num(bs, l)
    case Labels(ls, d) => exists i: nat, j: nat :: LabelList(bs, ls, d, i, j)
    case FuncRef(f) => Num(bs, f)
    case SigTable(s, t) => Pair(bs, s, t)
    case LocalIdx(l) => Num(bs, l)
    case GlobalRef(g) => Num(bs, g)
    case Memarg(a, mem, o) => MemOpSpelled(bs, MemOp(a, mem, o))
    case I32C(i) => Spells(I32, bs, i)
    case I64C(i) => Spells(I64, bs, i)
    case F32C(b) => |bs| == 4 && FromLE(bs) == b
    case F64C(b) => |bs| == 8 && FromLE(bs) == b
    case MemoryRef(mem) => Num(bs, mem)
    case DataMemory(d, mem) => Pair(bs, d, mem)
    case DataRef(d) => Num(bs, d)
    case Memorycp(d, s) => Pair(bs, d, s)
    case V128C(lo, hi) => |bs| == 16 && FromLE(bs[..8]) == lo && FromLE(bs[8..]) == hi
    case Lane(b) => bs == [b]
    case Lanes(ls) => bs == ls
    case MemargLane(a, mem, o, b) => |bs| > 0 && MemOpSpelled(bs[..|bs| - 1], MemOp(a, mem, o)) && bs[|bs| - 1] == b
  }

  lemma NumRead(num: seq<byte>, n: nat, rest: seq<byte>)
    requires Num(num, n)
    ensures RdU32(num + rest) == Got(n, rest) && n < TWO32
  {
    SpellingRead(U32, num, n, rest);
    hide Number, Denotes, RdU32;
  }

  lemma IdxSpelled(num: seq<byte>, n: nat, space: nat, rest: seq<byte>)
    requires Num(num, n) && n < space
    ensures RdIdx(space, num + rest) == Got(n, rest)
  {
    NumRead(num, n, rest);
    hide RdU32, Num;
  }

  lemma {:induction false} PairSpelled(bs: seq<byte>, m: nat, n: nat, mspace: nat, nspace: nat, rest: seq<byte>)
    requires Pair(bs, m, n) && m < mspace && n < nspace
    ensures RdPair(mspace, nspace, bs + rest) == Got((m, n), rest)
  {
    hide RdIdx, Num;
    var i: nat :| Two(bs, m, n, i);
    assert bs + rest == bs[..i] + (bs[i..] + rest);
    IdxSpelled(bs[..i], m, mspace, bs[i..] + rest);
    IdxSpelled(bs[i..], n, nspace, rest);
  }

  lemma {:induction false} NumsRead(bs: seq<byte>, ns: seq<nat>, rest: seq<byte>)
    requires Nums(bs, ns)
    ensures RdMany<nat>(RdU32, |ns|, bs + rest) == Got(ns, rest)
    decreases |ns|
  {
    hide RdU32, Num;
    if ns == [] {
      assert bs + rest == rest;
    } else {
      var i: nat :| NumsAt(bs, ns, i);
      assert bs + rest == bs[..i] + (bs[i..] + rest);
      NumRead(bs[..i], ns[0], bs[i..] + rest);
      NumsRead(bs[i..], ns[1..], rest);
      assert ns == [ns[0]] + ns[1..];
    }
  }

  lemma {:induction false} LabelsSpelled(bs: seq<byte>, ls: seq<nat>, d: nat, i: nat, j: nat, rest: seq<byte>)
    requires LabelList(bs, ls, d, i, j)
    ensures RdLabels(bs + rest) == Got((ls, d), rest)
  {
    hide RdU32, Num, RdMany, Nums;
    assert bs + rest == bs[..i] + (bs[i..j] + (bs[j..] + rest));
    NumRead(bs[..i], |ls|, bs[i..j] + (bs[j..] + rest));
    NumsRead(bs[i..j], ls, bs[j..] + rest);
    NumRead(bs[j..], d, rest);
  }

  lemma {:induction false} MemOpRead(env: Env, bs: seq<byte>, m: MemOp, rest: seq<byte>)
    requires MemOpSpelled(bs, m) && m.mem < env.mems
    ensures RdMemOp(env, bs + rest) == Got(m, rest)
  {
    hide RdU32, Num;
    var flags: nat, i: nat, j: nat :| MemOpAt(bs, flags, m, i, j);
    assert bs + rest == bs[..i] + (bs[i..j] + (bs[j..] + rest));
    NumRead(bs[..i], flags, bs[i..j] + (bs[j..] + rest));
    if flags / 64 % 2 == 1 {
      NumRead(bs[i..j], m.mem, bs[j..] + rest);
    } else {
      assert bs[i..j] + (bs[j..] + rest) == bs[j..] + rest;
    }
    NumRead(bs[j..], m.offset, rest);
  }

  /** Bytes that are no number are taken as they are. */
  lemma {:induction false} RawSpelled(env: Env, m: Imm<nat>, bs: seq<byte>, rest: seq<byte>)
    requires ImmSpelled(m, bs) && ImmOk(env, m) && (m.F32C? || m.F64C? || m.V128C? || m.Lane? || m.Lanes?)
    ensures RdImm(env, KindOfImm(m), bs + rest) == Got(m, rest)
  {
    match m
    case F32C(b) => hide FromLE; assert (bs + rest)[..4] == bs && (bs + rest)[4..] == rest;
    case F64C(b) => hide FromLE; assert (bs + rest)[..8] == bs && (bs + rest)[8..] == rest;
    case V128C(lo, hi) =>
      hide FromLE;
      var tail := (bs + rest)[8..];
      assert (bs + rest)[..8] == bs[..8] && tail[..8] == bs[8..] && tail[8..] == rest;
    case Lane(b) => ByteReads(b, rest);
    case Lanes(ls) => LanesAsBytes(ls); LanesRead(ls, rest);
  }

  lemma {:induction false} LanesAsBytes(ls: seq<byte>)
    ensures WrMany(One, ls) == ls
    decreases |ls|
  {
    if ls != [] {
      LanesAsBytes(ls[1..]);
      assert ls == [ls[0]] + ls[1..];
    }
  }

  lemma {:induction false} RefSpelled(env: Env, m: Imm<nat>, bs: seq<byte>, rest: seq<byte>)
    requires ImmSpelled(m, bs) && ImmOk(env, m)
    requires m.FuncRef? || m.SigTable? || m.GlobalRef? || m.MemoryRef? || m.DataMemory? || m.DataRef? || m.Memorycp?
    ensures RdImm(env, KindOfImm(m), bs + rest) == Got(m, rest)
  {
    hide RdIdx, RdPair, Num, Pair;
    match m
    case FuncRef(f) => IdxSpelled(bs, f, env.funcs, rest);
    case SigTable(s, t) => PairSpelled(bs, s, t, env.sigs, env.tables, rest);
    case GlobalRef(g) => IdxSpelled(bs, g, env.globals, rest);
    case MemoryRef(mem) => IdxSpelled(bs, mem, env.mems, rest);
    case DataMemory(d, mem) => PairSpelled(bs, d, mem, env.datas, env.mems, rest);
    case DataRef(d) => IdxSpelled(bs, d, env.datas, rest);
    case Memorycp(d, s) => PairSpelled(bs, d, s, env.mems, env.mems, rest);
  }

  lemma {:induction false} NumberSpelled(env: Env, m: Imm<nat>, bs: seq<byte>, rest: seq<byte>)
    requires ImmSpelled(m, bs) && ImmOk(env, m)
    requires m.NoImm? || m.Blockt? || m.Label? || m.LocalIdx? || m.I32C? || m.I64C? || m.Labels?
    ensures RdImm(env, KindOfImm(m), bs + rest) == Got(m, rest)
  {
    hide RdU32, RdLeb, RdLabels, Num, Spells, LabelList;
    match m
    case NoImm => assert [] + rest == rest;
    case Blockt(ty) => SpellingRead(I64, bs, ty, rest);
    case Label(l) => NumRead(bs, l, rest);
    case LocalIdx(l) => NumRead(bs, l, rest);
    case I32C(i) => SpellingRead(I32, bs, i, rest);
    case I64C(i) => SpellingRead(I64, bs, i, rest);
    case Labels(ls, d) =>
      var i: nat, j: nat :| LabelList(bs, ls, d, i, j);
      LabelsSpelled(bs, ls, d, i, j, rest);
  }

  lemma {:induction false} MemargSpelled(env: Env, m: Imm<nat>, bs: seq<byte>, rest: seq<byte>)
    requires ImmSpelled(m, bs) && ImmOk(env, m) && (m.Memarg? || m.MemargLane?)
    ensures RdImm(env, KindOfImm(m), bs + rest) == Got(m, rest)
  {
    hide RdMemOp, MemOpSpelled;
    var o := MemOp(m.align, m.mem, m.offset);
    if m.Memarg? {
      MemOpRead(env, bs, o, rest);
    } else {
      var init := bs[..|bs| - 1];
      assert bs + rest == init + ([m.lane] + rest);
      MemOpRead(env, init, o, [m.lane] + rest);
      ByteReads(m.lane, rest);
    }
  }

  /** An immediate is read from any spelling of it. */
  lemma {:induction false} SpelledImmRead(env: Env, m: Imm<nat>, bs: seq<byte>, rest: seq<byte>)
    requires ImmSpelled(m, bs) && ImmOk(env, m)
    ensures RdImm(env, KindOfImm(m), bs + rest) == Got(m, rest)
  {
    hide *;
    if m.F32C? || m.F64C? || m.V128C? || m.Lane? || m.Lanes? {
      RawSpelled(env, m, bs, rest);
    } else if m.Memarg? || m.MemargLane? {
      MemargSpelled(env, m, bs, rest);
    } else if m.FuncRef? || m.SigTable? || m.GlobalRef? || m.MemoryRef? || m.DataMemory? || m.DataRef? || m.Memorycp? {
      RefSpelled(env, m, bs, rest);
    } else {
      NumberSpelled(env, m, bs, rest);
    }
  }

  // ----- instructions and lists -----

  predicate OpcodeFirst(i: Inst<nat>, bs: seq<byte>, n: nat) { n <= |bs| && bs[..n] == WrOpcode(i.op) }

  ghost predicate InstSpelled(i: Inst<nat>, bs: seq<byte>) {
    exists n: nat :: OpcodeFirst(i, bs, n) && ImmSpelled(i.imm, bs[n..])
  }

  lemma {:induction false} SpelledInstRead(env: Env, i: Inst<nat>, bs: seq<byte>, rest: seq<byte>)
    requires InstOk(env, i) && InstSpelled(i, bs)
    ensures RdInst(env, bs + rest) == Got(i, rest) && bs != []
  {
    hide RdOpcode, WrOpcode, RdImm, ImmSpelled, KindOf, KindOfImm, ImmOk;
    var n: nat :| OpcodeFirst(i, bs, n) && ImmSpelled(i.imm, bs[n..]);
    assert bs + rest == WrOpcode(i.op) + (bs[n..] + rest);
    OpcodeReads(i.op, bs[n..] + rest);
    SpelledImmRead(env, i.imm, bs[n..], rest);
  }

  ghost predicate CodeAt(code: seq<Inst<nat>>, bs: seq<byte>, n: nat)
    requires code != []
    decreases |code|, 0
  {
    n <= |bs| && InstSpelled(code[0], bs[..n]) && CodeSpelled(code[1..], bs[n..])
  }

  ghost predicate CodeSpelled(code: seq<Inst<nat>>, bs: seq<byte>)
    decreases |code|, 1
  {
    if code == [] then bs == [] else exists n: nat :: CodeAt(code, bs, n)
  }

  /** A list of instructions is read from any spelling of it. */
  lemma {:induction false} SpelledCodeRead(env: Env, code: seq<Inst<nat>>, bs: seq<byte>)
    requires AllOk(env, code) && CodeSpelled(code, bs)
    ensures RdExpr(env, bs) == Got(code, [])
    decreases |code|
  {
    hide InstSpelled, InstOk;
    if code != [] {
      var n: nat :| CodeAt(code, bs, n);
      assert bs == bs[..n] + bs[n..];
      SpelledInstRead(env, code[0], bs[..n], bs[n..]);
      SpelledCodeRead(env, code[1..], bs[n..]);
      hide RdInst;
      assert code == [code[0]] + code[1..];
    }
  }

  /** A call with its index padded to five bytes, as linkers leave it, is a call of that function. */
  lemma {:induction false} PaddedCall(env: Env, rest: seq<byte>)
    requires env.funcs > 1
    ensures RdInst(env, [0x10, 0x81, 0x80, 0x80, 0x80, 0x00] + rest) == Got(Inst(0x10, FuncRef(1)), rest)
  {
    var i: Inst<nat> := Inst(0x10, FuncRef(1));
    var num: seq<byte> := [0x81, 0x80, 0x80, 0x80, 0x00];
    var bs: seq<byte> := [0x10, 0x81, 0x80, 0x80, 0x80, 0x00];
    PaddedOne();
    assert bs[1..] == num && bs[..1] == [0x10];
    assert OpcodeFirst(i, bs, 1);
    hide RdInst, Num;
    SpelledInstRead(env, i, bs, rest);
  }

  lemma PaddedOne()
    ensures Num([0x81, 0x80, 0x80, 0x80, 0x00], 1)
  {
    var num: seq<byte> := [0x81, 0x80, 0x80, 0x80, 0x00];
    assert num[1..] == [0x80, 0x80, 0x80, 0x00] && num[1..][1..] == [0x80, 0x80, 0x00];
    assert num[1..][1..][1..] == [0x80, 0x00] && num[1..][1..][1..][1..] == [0x00];
    assert UVal([0x00]) == 0;
    assert UVal([0x80, 0x00]) == 0;
    assert UVal([0x80, 0x80, 0x00]) == 0;
    assert UVal([0x80, 0x80, 0x80, 0x00]) == 0;
  }

  // ----- constants -----

  /** The opcode of a constant. */
  function ConstOp(m: Imm<nat>): byte {
    match m case I32C(_) => 0x41 case I64C(_) => 0x42 case F32C(_) => 0x43 case _ => 0x44
  }

  lemma {:induction false} ConstSkipped(m: Imm<nat>, num: seq<byte>, rest: seq<byte>)
    requires (m.I32C? || m.I64C? || m.F32C? || m.F64C?) && ImmSpelled(m, num)
    ensures SkipConst(ConstOp(m), num + rest).Got? && SkipConst(ConstOp(m), num + rest).rest == rest
    ensures m.I32C? || m.I64C? ==> SkipConst(ConstOp(m), num + rest).val == m.i
  {
    hide RdLeb, Spells, FromLE;
    match m
    case I32C(i) => SpellingRead(I32, num, i, rest);
    case I64C(i) => SpellingRead(I64, num, i, rest);
    case F32C(b) => assert (num + rest)[4..] == rest;
    case F64C(b) => assert (num + rest)[8..] == rest;
  }

  /** A constant of any number type, however it is spelled, is kept as an initializer byte for byte. */
  lemma {:induction false} SpelledInitRead(m: Imm<nat>, num: seq<byte>, rest: seq<byte>)
    requires (m.I32C? || m.I64C? || m.F32C? || m.F64C?) && ImmSpelled(m, num)
    ensures RdInit([ConstOp(m)] + num + [0x0B] + rest) == Got([ConstOp(m)] + num + [0x0B], rest)
  {
    hide RdOpcode, SkipConst, ImmSpelled;
    var op := ConstOp(m);
    var bs := [op] + num + [0x0B] + rest;
    var tail := [0x0B] + rest;
    assert bs == [op] + (num + tail);
    ShortOpcode(op, num + tail);
    ConstSkipped(m, num, tail);
    ShortOpcode(0x0B, rest);
    assert bs[..|bs| - |rest|] == [op] + num + [0x0B];
  }

  /** An offset of either integer type, however it is spelled, is its low 32 bits. */
  lemma {:induction false} SpelledOffsetRead(m: Imm<nat>, num: seq<byte>, rest: seq<byte>)
    requires (m.I32C? || m.I64C?) && ImmSpelled(m, num)
    ensures RdOffset([ConstOp(m)] + num + [0x0B] + rest) == Got(Offset(ConstOp(m), m.i % TWO32), rest)
  {
    hide RdOpcode, RdLeb, Spells;
    var op := ConstOp(m);
    var tail := [0x0B] + rest;
    assert [op] + num + [0x0B] + rest == [op] + (num + tail);
    ShortOpcode(op, num + tail);
    SpellingRead(if m.I32C? then I32 else I64, num, m.i, tail);
    ShortOpcode(0x0B, rest);
  }

  // ----- flags -----

  predicate Twice(n: nat, k: nat) { n == 2 * k + 1 }

  ghost predicate Odd(n: nat) { exists k: nat :: Twice(n, k) }

  lemma OddIff(n: nat)
    ensures Odd(n) <==> n % 2 == 1
  {
    if n % 2 == 1 { assert Twice(n, n / 2); }
  }

  /** Only the lowest bit of the byte behind a global's type says whether it can be set. */
  lemma GlobalFlag(ty: byte, flags: byte, rest: seq<byte>)
    ensures var r := RdGlobalType([ty, flags] + rest);
      r.rest == rest && r.val == Global(ty, r.val.mutable, []) && (r.val.mutable <==> Odd(flags))
  {
    assert [ty, flags] + rest == [ty] + ([flags] + rest);
    ByteReads(ty, [flags] + rest);
    ByteReads(flags, rest);
    OddIff(flags);
    hide RdByte, Odd;
  }

  /** Limits whose flags have the lowest bit set have two numbers, others one; the second bit is kept, the rest dropped. */
  lemma {:induction false} SpelledLimitsRead(flags: byte, a: seq<byte>, min: nat, b: seq<byte>, max: nat, rest: seq<byte>)
    requires Num(a, min) && if Odd(flags) then Num(b, max) else b == [] && max == 0
    ensures var r := RdLimits([flags] + a + b + rest);
      && r.rest == rest && r.val.initial == min && r.val.max == max
      && (r.val.hasMax <==> Odd(flags)) && (r.val.flag <==> Odd(flags / 2))
  {
    hide RdU32, Num, Odd;
    OddIff(flags);
    OddIff(flags / 2);
    assert [flags] + a + b + rest == [flags] + (a + (b + rest));
    ByteReads(flags, a + (b + rest));
    NumRead(a, min, b + rest);
    if flags % 2 == 1 { NumRead(b, max, rest); } else { assert [] + rest == rest; }
  }

  // ----- counts and sizes -----

  /** A name behind any spelling of its length. */
  lemma SpelledNameRead(num: seq<byte>, s: seq<byte>, rest: seq<byte>)
    requires Num(num, |s|)
    ensures RdName(num + s + rest) == Got(s, rest)
  {
    hide RdU32, Num;
    assert num + s + rest == num + (s + rest);
    NumRead(num, |s|, s + rest);
    assert (s + rest)[..|s|] == s && (s + rest)[|s|..] == rest;
  }

  /** A vector behind any spelling of its count. */
  lemma SpelledVecRead<T>(rd: seq<byte> -> Res<T>, num: seq<byte>, items: seq<byte>, xs: seq<T>, rest: seq<byte>)
    requires Num(num, |xs|) && RdMany(rd, |xs|, items + rest) == Got(xs, rest)
    ensures RdVec(rd, num + items + rest) == Got(xs, rest)
  {
    hide RdU32, Num, RdMany;
    assert num + items + rest == num + (items + rest);
    NumRead(num, |xs|, items + rest);
  }

  /** A section behind any spelling of its size goes to its decoder. */
  lemma {:induction false} SpelledSectionRead(st: State, id: byte, num: seq<byte>, body: seq<byte>, rest: seq<byte>)
    requires Num(num, |body|)
    ensures RdSections(st, [id] + num + body + rest)
         == match Section(id, st, body) case None => None case Some(st') => RdSections(st', rest)
  {
    hide RdU32, Num, Section;
    var bs := [id] + num + body + rest;
    assert bs == [id] + (num + (body + rest));
    assert bs[1..] == num + (body + rest);
    NumRead(num, |body|, body + rest);
    assert (body + rest)[..|body|] == body && (body + rest)[|body|..] == rest;
  }
}
