/**
 * LEB128 integers as the module reader and writer code them: section 5.2.2 of the WebAssembly
 * Core Specification 2.0.
 */
module Leb128 {
  import opened Bytes

  datatype Kind = U32 | I32 | U64 | I64

  predicate Signed(k: Kind) { k.I32? || k.I64? }

  /** The most bytes a value may take. */
  function MaxLen(k: Kind): nat { if k.U32? || k.I32? then 5 else 10 }

  predicate Fits(k: Kind, v: int) {
    match k
    case U32 => 0 <= v < 0x1_0000_0000
    case I32 => -0x8000_0000 <= v < 0x8000_0000
    case U64 => 0 <= v < 0x1_0000_0000_0000_0000
    case I64 => -0x8000_0000_0000_0000 <= v < 0x8000_0000_0000_0000
  }

  /** The bits of the last permitted byte that must be all clear or spell `Legal`. */
  function Upper(k: Kind, b: byte): nat {
    if k.U32? || k.I32? then b - b % 8 else b
  }

  function Legal(k: Kind): nat {
    match k case U32 => 0x08 case I32 => 0x78 case U64 => 0x01 case I64 => 0x7F
  }

  function Pow128(n: nat): (r: nat)
    ensures r > 0
  {
    if n == 0 then 1 else 128 * Pow128(n - 1)
  }

  // ----- what a byte sequence denotes -----

  /** The groups of seven bits, least significant first. */
  function UVal(bs: seq<byte>): nat {
    if bs == [] then 0 else bs[0] % 128 + 128 * UVal(bs[1..])
  }

  /** The same as a two's complement number whose sign is bit 6 of the last byte. */
  function SVal(bs: seq<byte>): int {
    if bs == [] then 0
    else if |bs| == 1 then (if bs[0] % 128 >= 64 then bs[0] % 128 - 128 else bs[0] % 128)
    else bs[0] % 128 + 128 * SVal(bs[1..])
  }

  function Denotes(k: Kind, bs: seq<byte>): int {
    if Signed(k) then SVal(bs) else UVal(bs)
  }

  /** `bs` is one complete number: only the last byte has a clear top bit. */
  predicate Number(bs: seq<byte>) {
    bs != [] && bs[|bs| - 1] < 128 && forall i :: 0 <= i < |bs| - 1 ==> bs[i] >= 128
  }

  /** The length of the number at the front of `bs`; 0 when it does not end. */
  function FrontLen(bs: seq<byte>): (n: nat)
    ensures n <= |bs| && (n > 0 ==> Number(bs[..n]))
    ensures n == 0 ==> forall i :: 0 <= i < |bs| ==> bs[i] >= 128
  {
    if bs == [] then 0
    else if bs[0] < 128 then 1
    else
      var n := FrontLen(bs[1..]);
      if n == 0 then 0
      else
        assert bs[..n + 1] == [bs[0]] + bs[1..][..n];
        n + 1
  }

  // ----- decoding -----

  datatype Leb = Err | Ok(val: int, len: nat)

  /** The accumulated bits as a value of the type, the bits past `width` not yet known. */
  function Interpret(k: Kind, acc: nat, width: nat): int {
    if Signed(k) && acc >= Pow2(width) / 2 then acc - Pow2(width) else acc
  }

  function Bits(k: Kind): nat { if k.U32? || k.I32? then 32 else 64 }

  function Trunc(k: Kind, n: nat): nat { if Bits(k) == 32 then Wrap32(n) else Wrap64(n) }

  /**
   * The decoder: fewer than the maximal number of bytes are sign-extended from where they stop;
   * the last permitted byte must not continue and must not have bits out of range.
   */
  function Decode(k: Kind, bs: seq<byte>): Leb {
    var n := FrontLen(bs);
    if n == 0 || n > MaxLen(k) then Err
    else if n < MaxLen(k) then Ok(Interpret(k, UVal(bs[..n]), 7 * n), n)
    else if Upper(k, bs[n - 1]) != 0 && Upper(k, bs[n - 1]) != Legal(k) then Err
    else Ok(Interpret(k, Trunc(k, UVal(bs[..n])), Bits(k)), n)
  }

  lemma {:induction false} UValSnoc(bs: seq<byte>, b: byte)
    ensures UVal(bs + [b]) == UVal(bs) + (b % 128) * Pow128(|bs|)
    decreases |bs|
  {
    if bs == [] {
      assert UVal([b]) == b % 128 + 128 * UVal([b][1..]);
    } else {
      assert (bs + [b])[1..] == bs[1..] + [b];
      UValSnoc(bs[1..], b);
      MulShift(b % 128, Pow128(|bs| - 1));
    }
  }

  lemma MulShift(a: nat, p: nat)
    ensures 128 * (a * p) == a * (128 * p)
  {
  }

  lemma {:induction false} UValBound(bs: seq<byte>)
    ensures UVal(bs) < Pow128(|bs|)
  {
    if bs != [] { UValBound(bs[1..]); }
  }

  lemma {:induction false} Pow128Pow2(n: nat)
    ensures Pow128(n) == Pow2(7 * n)
  {
    if n > 0 {
      Pow128Pow2(n - 1);
      var m := 7 * n - 7;
      assert Pow2(m + 1) == 2 * Pow2(m) && Pow2(m + 2) == 4 * Pow2(m);
      assert Pow2(m + 3) == 8 * Pow2(m) && Pow2(m + 4) == 16 * Pow2(m);
      assert Pow2(m + 5) == 32 * Pow2(m) && Pow2(m + 6) == 64 * Pow2(m);
      assert Pow2(m + 7) == 128 * Pow2(m);
    }
  }

  /** The decoding loop: bytes are taken up to `limit`, each adding seven bits. */
  method DecodeBody(k: Kind, bs: seq<byte>) returns (r: Leb)
    ensures r == Decode(k, bs)
  {
    hide UVal, Pow2, Upper, Trunc, Interpret, FrontLen, Legal;
    var result, shift, i := 0, 0, 0;
    assert bs[..0] == [];
    NoBits();
    while i < |bs|
      invariant 0 <= i <= |bs| && i <= MaxLen(k) - 1 && shift == 7 * i
      invariant forall j :: 0 <= j < i ==> bs[j] >= 128
      invariant result == UVal(bs[..i])
    {
      var b := bs[i];
      TakeByte(k, bs, i);
      result := Trunc(k, result + (b % 128) * Pow2(shift));
      i := i + 1;
      shift := shift + 7;
      if shift > Bits(k) {
        if b >= 128 { return Err; }
        var upper := Upper(k, b);
        if upper != 0 && upper != Legal(k) { return Err; }
        return Ok(Interpret(k, result, Bits(k)), i);
      }
      if b < 128 { return Ok(Interpret(k, result, shift), i); }
    }
    NoEnd(bs);
    return Err;
  }

  lemma NoBits()
    ensures UVal([]) == 0
  {
  }

  lemma {:induction false} FrontLenAt(bs: seq<byte>, i: nat)
    requires i < |bs| && bs[i] < 128 && forall j :: 0 <= j < i ==> bs[j] >= 128
    ensures FrontLen(bs) == i + 1
  {
    if i > 0 { FrontLenAt(bs[1..], i - 1); }
  }

  lemma {:induction false} FrontLenLate(bs: seq<byte>, i: nat)
    requires i < |bs| && forall j :: 0 <= j <= i ==> bs[j] >= 128
    ensures FrontLen(bs) == 0 || FrontLen(bs) > i + 1
  {
    var n := FrontLen(bs);
    assert n > 0 ==> bs[..n][n - 1] < 128;
  }

  lemma NoEnd(bs: seq<byte>)
    requires forall j :: 0 <= j < |bs| ==> bs[j] >= 128
    ensures FrontLen(bs) == 0
  {
  }

  lemma {:induction false} TakeByte(k: Kind, bs: seq<byte>, i: nat)
    requires i < |bs| && i < MaxLen(k) && forall j :: 0 <= j < i ==> bs[j] >= 128
    ensures UVal(bs[..i + 1]) == UVal(bs[..i]) + (bs[i] % 128) * Pow2(7 * i)
    ensures i + 1 < MaxLen(k) ==> Trunc(k, UVal(bs[..i + 1])) == UVal(bs[..i + 1])
    ensures bs[i] < 128 ==> FrontLen(bs) == i + 1
    ensures bs[i] >= 128 ==> FrontLen(bs) == 0 || FrontLen(bs) > i + 1
    ensures i + 1 < MaxLen(k) <==> 7 * (i + 1) <= Bits(k)
  {
    assert bs[..i + 1] == bs[..i] + [bs[i]];
    UValSnoc(bs[..i], bs[i]);
    Pow128Pow2(i);
    UValBound(bs[..i + 1]);
    Pow128Pow2(i + 1);
    Pow2Consts();
    if i + 1 < MaxLen(k) { Pow2Mono(7 * (i + 1), Bits(k)); }
    if bs[i] < 128 { FrontLenAt(bs, i); } else { FrontLenLate(bs, i); }
  }

  lemma {:induction false} Pow2Mono(a: nat, b: nat)
    requires a <= b
    ensures Pow2(a) <= Pow2(b)
    decreases b
  {
    if a < b { Pow2Mono(a, b - 1); }
  }
}
