/**
 * The recorder: every load and store is duplicated on a second, shadow memory under a lock.  A
 * loaded value that differs from the shadow's is written back to the shadow, and every access is
 * reported to the host.
 */
module Recorder {
  import opened Bytes
  import opened Wasm

  datatype Kind = LoadK(signed: bool) | StoreK

  /** An integer load or store with its static offset, opcode and access index. */
  datatype Access = Access(kind: Kind, ty: ValType, width: nat, offset: nat, opcode: nat, idx: nat)

  predicate ValidAccess(x: Access) {
    (x.ty == TI32 || x.ty == TI64) && 1 <= x.width <= Bits(x.ty) / 8
  }

  function Original(x: Access): Plain {
    match x.kind
    case LoadK(signed) => Load(x.ty, x.width, signed, Main, x.offset)
    case StoreK => Store(x.ty, x.width, Main, x.offset)
  }

  function OnShadow(x: Access): Plain {
    match x.kind
    case LoadK(signed) => Load(x.ty, x.width, signed, Shadow, x.offset)
    case StoreK => Store(x.ty, x.width, Shadow, x.offset)
  }

  // ----- scratch locals -----

  /** Scratch locals appended to the `n` locals a function already has: 3 f64, 3 f32, 6 i64, 7 i32. */
  const POOL: nat := 19

  function I64Slot(n: nat, k: nat): nat { n + 6 + k }
  function I32Slot(n: nat, k: nat): nat { n + 12 + k }

  datatype Slots = Slots(ret: nat, base: nat, value: nat, differ: nat, full: nat, main: nat, main64: nat, shadow64: nat)

  /** The slots in the order in which the allocator hands them out; 0 where none is taken. */
  function SlotsOf(n: nat, x: Access): Slots {
    if x.kind.LoadK? then
      if x.ty == TI32 then
        Slots(I32Slot(n, 0), I32Slot(n, 1), 0, I32Slot(n, 2), I32Slot(n, 3), I32Slot(n, 4), I64Slot(n, 0), I64Slot(n, 1))
      else
        Slots(I64Slot(n, 0), I32Slot(n, 0), 0, I32Slot(n, 1), I32Slot(n, 2), I64Slot(n, 1), I64Slot(n, 2), I64Slot(n, 3))
    else if x.ty == TI32 then
      Slots(0, I32Slot(n, 1), I32Slot(n, 0), I32Slot(n, 2), I32Slot(n, 3), 0, 0, 0)
    else
      Slots(0, I32Slot(n, 0), I64Slot(n, 0), I32Slot(n, 1), I32Slot(n, 2), 0, 0, 0)
  }

  // ----- the inserted code -----

  function ShadowBlock(s: Slots, x: Access): Instr {
    if x.kind.LoadK? then
      Block(BT(1, 1), Lift([LocalTee(s.base), LocalGet(s.base), OnShadow(x), LocalSet(s.ret)]), NO_PC, NO_PC)
    else
      Block(BT(2, 2), Lift([LocalSet(s.value), LocalTee(s.base), LocalGet(s.value),
                            LocalGet(s.base), LocalGet(s.value), OnShadow(x)]), NO_PC, NO_PC)
  }

  function Ne(ty: ValType): Plain {
    if ty == TI32 then I32Ne else I64Ne
  }

  /** Converts the top of the stack to i64. */
  function To64(ty: ValType): seq<Plain> {
    if ty == TI32 then [I64ExtendI32U] else []
  }

  function CompareOps(s: Slots, x: Access): seq<Plain> {
    if x.kind.LoadK? then
      [LocalTee(s.main), LocalGet(s.main), LocalGet(s.ret), Ne(x.ty), LocalTee(s.differ)]
    else [Const(I32(0)), LocalTee(s.differ)]
  }

  function ReportOps(s: Slots, x: Access): seq<Plain> {
    [Const(I32(x.idx)), Const(I32(x.opcode)), Const(I32(x.offset)), LocalGet(s.base), I32Add, LocalTee(s.full),
     Const(I32(x.width))]
  }

  /** Skipped unless the values differ. */
  function WriteBackOps(s: Slots, x: Access): seq<Plain> {
    [LocalGet(s.differ), I32Eqz, BrIf(0)]
    + ([LocalGet(s.full), LocalGet(s.main)] + To64(x.ty)
       + [LocalTee(s.main64), Store(TI64, x.width, Shadow, 0), LocalGet(s.ret)] + To64(x.ty)
       + [LocalSet(s.shadow64)])
  }

  function WriteBack(s: Slots, x: Access): Instr {
    Block(BT(0, 0), Lift(WriteBackOps(s, x)), NO_PC, NO_PC)
  }

  function LastOps(s: Slots, x: Access): seq<Plain> {
    (if x.kind.LoadK? then [LocalGet(s.main64), LocalGet(s.shadow64)] else [Const(I64(0)), Const(I64(0))])
    + [Const(I32(0)), CallHost(Trace), CallHost(Unlock)]
  }

  /** An access with everything inserted before and after it. */
  function Recorded(n: nat, x: Access): seq<Instr> {
    var s := SlotsOf(n, x);
    Lift([CallHost(Lock)]) + [ShadowBlock(s, x)] + Lift([Original(x)]) + Lift(CompareOps(s, x) + ReportOps(s, x))
    + (if x.kind.LoadK? then [WriteBack(s, x)] else []) + Lift(LastOps(s, x))
  }

  // ----- arithmetic of loads and write-backs -----

  /** 256^b divided by 256^a. */
  function PowQuot(a: nat, b: nat): (k: nat)
    requires a <= b
    ensures k > 0
  {
    Pow256(b - a)
  }

  lemma {:induction false} PowSplit(a: nat, b: nat)
    requires a <= b
    ensures Pow256(b) == PowQuot(a, b) * Pow256(a)
    decreases b
  {
    if a < b {
      PowSplit(a, b - 1);
      MulAssoc(256, PowQuot(a, b - 1), Pow256(a));
    }
  }

  lemma MulAssoc(a: nat, b: nat, c: nat)
    ensures a * (b * c) == (a * b) * c
  {
  }

  /** The low bytes of a loaded value are the bytes that were loaded, sign-extended or not. */
  lemma {:induction false} ExtendLow(ty: ValType, signed: bool, bs: seq<byte>)
    requires |bs| <= Bits(ty) / 8
    ensures ToLE(Extend(ty, signed, bs), |bs|) == bs
  {
    hide ToLE, FromLE, Pow256, PowQuot;
    var raw, p, k := FromLE(bs), Pow256(|bs|), PowQuot(|bs|, Bits(ty) / 8);
    ToFromLE(bs);
    if signed && bs != [] && bs[|bs| - 1] >= 128 {
      PowSplit(|bs|, Bits(ty) / 8);
      NegativeWrap(raw, p, k);
      ToLEPeriod(raw, k - 1, |bs|);
    }
  }

  lemma NegativeWrap(raw: nat, p: nat, k: nat)
    requires raw < p && k > 0
    ensures (raw - p) % (k * p) == raw + (k - 1) * p
  {
    var m := k * p;
    assert m > 0;
    var r := raw + (k - 1) * p;
    assert 0 <= r < m;
    assert raw - p == r + (-1) * m;
    ModUnique(raw - p, -1, m, r);
  }

  lemma ModUnique(x: int, q: int, m: int, r: int)
    requires x == q * m + r && 0 <= r < m
    ensures x % m == r
  {
    var d := x / m - q;
    assert x == (x / m) * m + x % m;
    assert d * m == r - x % m by {
      assert d * m == (x / m) * m - q * m;
    }
    if d > 0 {
      MulAtLeast(d, m);
    } else if d < 0 {
      MulAtLeast(-d, m);
    }
  }

  lemma {:induction false} MulAtLeast(d: nat, m: int)
    requires d > 0 && m > 0
    ensures d * m >= m
    decreases d
  {
    if d > 1 {
      MulAtLeast(d - 1, m);
      assert d * m == (d - 1) * m + m;
    }
  }

  /** Equal loaded values come from equal bytes. */
  lemma {:induction false} ExtendInjective(ty: ValType, signed: bool, a: seq<byte>, b: seq<byte>)
    requires |a| == |b| <= Bits(ty) / 8
    requires Extend(ty, signed, a) == Extend(ty, signed, b)
    ensures a == b
  {
    ExtendLow(ty, signed, a);
    ExtendLow(ty, signed, b);
  }

  /** `n` below `m` as a two's complement number. */
  function TwosComplement(n: nat, m: nat): int { if 2 * n >= m then n - m else n }

  lemma {:induction false} TopBit(bs: seq<byte>)
    requires bs != []
    ensures bs[|bs| - 1] >= 128 <==> 2 * FromLE(bs) >= Pow256(|bs|)
    ensures Pow256(|bs|) % 2 == 0 && FromLE(bs) < Pow256(|bs|)
  {
    ToFromLE(bs);
    if |bs| == 1 {
      assert bs[1..] == [] && Pow256(0) == 1;
    } else {
      TopBit(bs[1..]);
      var t, p := FromLE(bs[1..]), Pow256(|bs| - 1);
      assert 2 * t < p ==> 2 * t <= p - 2;
    }
  }

  /** Sign extension keeps the signed value at the width of the type; zero extension keeps the unsigned one. */
  lemma {:induction false} ExtendMeans(ty: ValType, signed: bool, bs: seq<byte>)
    requires bs != [] && |bs| <= Bits(ty) / 8
    ensures var r := Extend(ty, signed, bs);
      && r < Pow256(Bits(ty) / 8)
      && if signed then TwosComplement(r, Pow256(Bits(ty) / 8)) == TwosComplement(FromLE(bs), Pow256(|bs|)) else r == FromLE(bs)
  {
    TopBit(bs);
    PowerMono(|bs|, Bits(ty) / 8);
    var x: int := FromLE(bs) - Pow256(|bs|);
    hide Pow256, FromLE;
    if signed && bs[|bs| - 1] >= 128 { WrapsOnce(x, Pow256(Bits(ty) / 8)); }
  }

  lemma WrapsOnce(x: int, m: nat)
    requires x < 0 <= x + m
    ensures x % m == x + m
  {
  }

  lemma {:induction false} PowerMono(a: nat, b: nat)
    requires a <= b
    ensures Pow256(a) <= Pow256(b)
  {
    if a < b { PowerMono(a, b - 1); }
  }
}
