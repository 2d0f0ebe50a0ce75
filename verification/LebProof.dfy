/** What the LEB128 decoder accepts, the encoder, and the round trip between the two. */
module LebProof {
  import opened Bytes
  import opened Leb128

  // ----- a decoded number denotes its mathematical value -----

  /** `u` of `p` values read as a two's complement number. */
  function Fold(u: nat, p: nat): int {
    if 2 * u >= p then u - p else u
  }

  lemma FoldStep(lo: nat, u: nat, p: nat)
    requires lo < 128 && p % 2 == 0
    ensures Fold(lo + 128 * u, 128 * p) == lo + 128 * Fold(u, p)
  {
    var h := p / 2;
    assert p == 2 * h;
    assert u >= h <==> lo + 128 * u >= 128 * h;
  }

  lemma {:induction false} SValFold(bs: seq<byte>)
    requires bs != []
    ensures SVal(bs) == Fold(UVal(bs), Pow128(|bs|))
  {
    hide *;
    if |bs| == 1 {
      OneGroup(bs);
    } else {
      MoreGroups(bs);
      EvenPower(|bs|);
      SValFold(bs[1..]);
      FoldStep(bs[0] % 128, UVal(bs[1..]), Pow128(|bs| - 1));
    }
  }

  lemma OneGroup(bs: seq<byte>)
    requires |bs| == 1
    ensures SVal(bs) == Fold(UVal(bs), Pow128(1))
  {
    assert bs[1..] == [] && Pow128(0) == 1;
  }

  lemma MoreGroups(bs: seq<byte>)
    requires |bs| > 1
    ensures SVal(bs) == bs[0] % 128 + 128 * SVal(bs[1..]) && UVal(bs) == bs[0] % 128 + 128 * UVal(bs[1..])
  {
  }

  lemma EvenPower(n: nat)
    requires n > 1
    ensures Pow128(n) == 128 * Pow128(n - 1) && Pow128(n - 1) % 2 == 0
  {
    assert Pow128(n - 1) == 128 * Pow128(n - 2);
  }

  /** Fewer than the most bytes: the value always fits. */
  lemma {:induction false} ShortFits(k: Kind, bs: seq<byte>)
    requires bs != [] && |bs| < MaxLen(k)
    ensures Fits(k, Denotes(k, bs)) && Interpret(k, UVal(bs), 7 * |bs|) == Denotes(k, bs)
  {
    var m := 7 * |bs|;
    var p, h := Pow2(m), Pow2(m - 1);
    assert p == 2 * h;
    HalfConsts();
    hide UVal, SVal, Pow128, Pow2;
    UValBound(bs);
    SValFold(bs);
    Pow128Pow2(|bs|);
    Pow2Mono(m, if Bits(k) == 32 then 31 else 63);
    hide Interpret, Fits, Denotes;
    ShortCase(k, bs, m, h);
  }

  lemma ShortCase(k: Kind, bs: seq<byte>, m: nat, h: nat)
    requires Pow2(m) == 2 * h && UVal(bs) < 2 * h <= (if Bits(k) == 32 then 0x8000_0000 else 0x8000_0000_0000_0000)
    requires SVal(bs) == Fold(UVal(bs), 2 * h)
    ensures Fits(k, Denotes(k, bs)) && Interpret(k, UVal(bs), m) == Denotes(k, bs)
  {
    hide UVal, SVal, Pow2;
  }

  lemma HalfConsts()
    ensures Pow2(31) == 0x8000_0000 && Pow2(63) == 0x8000_0000_0000_0000
  {
    Pow2Consts();
    assert Pow2(32) == 2 * Pow2(31) && Pow2(64) == 2 * Pow2(63);
  }

  /** The weight of the last of the most bytes. */
  function Weight(k: Kind): nat { if Bits(k) == 32 then 0x1000_0000 else 0x8000_0000_0000_0000 }

  lemma {:induction false} FullValue(k: Kind, bs: seq<byte>) returns (lo: nat)
    requires |bs| == MaxLen(k) && bs[|bs| - 1] < 128
    ensures lo < Weight(k) && UVal(bs) == lo + Weight(k) * bs[|bs| - 1]
    ensures SVal(bs) == UVal(bs) - (if bs[|bs| - 1] < 64 then 0 else 128 * Weight(k))
  {
    var n := |bs| - 1;
    assert bs == bs[..n] + [bs[n]];
    UValSnoc(bs[..n], bs[n]);
    UValBound(bs[..n]);
    SValFold(bs);
    lo := UVal(bs[..n]);
    PowTable();
    hide UVal, SVal, Pow128;
  }

  lemma PowTable()
    ensures Pow128(4) == 0x1000_0000 && Pow128(5) == 0x8_0000_0000
    ensures Pow128(9) == 0x8000_0000_0000_0000 && Pow128(10) == 0x40_0000_0000_0000_0000
  {
    assert Pow128(2) == 16384;
    assert Pow128(4) == 0x1000_0000;
    assert Pow128(6) == 0x400_0000_0000;
    assert Pow128(8) == 0x100_0000_0000_0000;
  }

  lemma {:induction false} Full32(lo: nat, b: nat)
    requires lo < 0x1000_0000 && b < 128
    ensures b < 16 ==> (lo + b * 0x1000_0000) % TWO32 == lo + b * 0x1000_0000
    ensures b >= 112 ==> (lo + b * 0x1000_0000) % TWO32 == lo + (b - 112) * 0x1000_0000
  {
    if b >= 112 {
      var x := lo + (b - 112) * 0x1000_0000;
      assert x < TWO32 && lo + b * 0x1000_0000 == x + 7 * TWO32;
    }
  }

  lemma {:induction false} Full64(lo: nat, b: nat)
    requires lo < 0x8000_0000_0000_0000 && b < 128
    ensures b < 2 ==> (lo + b * 0x8000_0000_0000_0000) % TWO64 == lo + b * 0x8000_0000_0000_0000
    ensures b == 127 ==> (lo + b * 0x8000_0000_0000_0000) % TWO64 == lo + 0x8000_0000_0000_0000
  {
    if b == 127 {
      var x := lo + 0x8000_0000_0000_0000;
      assert x < TWO64 && lo + b * 0x8000_0000_0000_0000 == x + 63 * TWO64;
    }
  }

  lemma {:induction false} FullFits(k: Kind, bs: seq<byte>)
    requires |bs| == MaxLen(k) && bs[|bs| - 1] < 128
    ensures var up := Upper(k, bs[|bs| - 1]);
            Fits(k, Denotes(k, bs)) <==> up == 0 || up == Legal(k)
    ensures Fits(k, Denotes(k, bs)) ==> Interpret(k, Trunc(k, UVal(bs)), Bits(k)) == Denotes(k, bs)
  {
    hide UVal, SVal, Pow2;
    var lo := FullValue(k, bs);
    Pow2Consts();
    FullCase(k, lo, bs[|bs| - 1], Pow2(Bits(k)));
  }

  lemma {:induction false} FullCase(k: Kind, lo: nat, b: byte, p: nat)
    requires lo < Weight(k) && b < 128 && p == if Bits(k) == 32 then TWO32 else TWO64
    ensures var u, up := lo + Weight(k) * b, Upper(k, b);
            var t, v := Trunc(k, u), if Signed(k) && b >= 64 then u - 128 * Weight(k) else u;
            && (Fits(k, v) <==> up == 0 || up == Legal(k))
            && (Fits(k, v) ==> v == if Signed(k) && t >= p / 2 then t - p else t)
  {
    if Bits(k) == 32 { Full32(lo, b); } else { Full64(lo, b); }
  }

  /**
   * The decoder accepts exactly the inputs that start with a complete number of at most the maximal
   * length whose value the type can hold, and then returns that value and that length.
   */
  lemma DecodeExact(k: Kind, bs: seq<byte>)
    ensures var n := FrontLen(bs);
            Decode(k, bs) == if 0 < n <= MaxLen(k) && Fits(k, Denotes(k, bs[..n]))
                             then Ok(Denotes(k, bs[..n]), n) else Err
  {
    var n := FrontLen(bs);
    hide FrontLen, UVal, SVal, Pow2, Upper, Legal, Interpret, Fits, Denotes;
    if 0 < n < MaxLen(k) { ShortFits(k, bs[..n]); }
    if n == MaxLen(k) {
      assert bs[..n][n - 1] == bs[n - 1];
      FullFits(k, bs[..n]);
    }
  }

  /** Two inputs that agree on the number decode alike: nothing behind it, or past `limit`, is read. */
  lemma {:induction false} FrontOnly(bs: seq<byte>, rest: seq<byte>)
    requires Number(bs)
    ensures FrontLen(bs + rest) == |bs|
    decreases |bs|
  {
    assert (bs + rest)[0] == bs[0];
    if |bs| > 1 {
      assert (bs + rest)[1..] == bs[1..] + rest;
      FrontOnly(bs[1..], rest);
    }
  }

  // ----- encoding -----

  function EncU(v: nat): (bs: seq<byte>)
    ensures bs != []
  {
    if v < 128 then [v] else [v % 128 + 128] + EncU(v / 128)
  }

  /** Negative numbers shift arithmetically: the division rounds down. */
  function EncS(v: int): (bs: seq<byte>)
    ensures bs != []
    decreases if v < 0 then -v else v
  {
    var b := v % 128;
    if (v / 128 == 0 && b < 64) || (v / 128 == -1 && b >= 64) then [b] else [b + 128] + EncS(v / 128)
  }

  function Enc(k: Kind, v: int): (bs: seq<byte>)
    requires Fits(k, v)
    ensures bs != []
  {
    if Signed(k) then EncS(v) else EncU(v)
  }

  lemma {:induction false} NumberCons(b: byte, bs: seq<byte>)
    requires b >= 128 && Number(bs)
    ensures Number([b] + bs)
  {
    var c := [b] + bs;
    assert forall i :: 0 < i < |c| ==> c[i] == bs[i - 1];
  }

  lemma {:induction false} EncUDenotes(v: nat)
    ensures Number(EncU(v)) && UVal(EncU(v)) == v
  {
    if v < 128 {
      assert EncU(v)[1..] == [];
    } else {
      EncUDenotes(v / 128);
      NumberCons(v % 128 + 128, EncU(v / 128));
      assert EncU(v)[1..] == EncU(v / 128);
    }
  }

  lemma SValCons(b: nat, bs: seq<byte>)
    requires b < 128 && bs != []
    ensures SVal([b + 128] + bs) == b + 128 * SVal(bs)
  {
    assert ([b + 128] + bs)[1..] == bs;
  }

  lemma {:induction false} EncSDenotes(v: int)
    ensures Number(EncS(v)) && SVal(EncS(v)) == v
    decreases if v < 0 then -v else v
  {
    var b := v % 128;
    if (v / 128 == 0 && b < 64) || (v / 128 == -1 && b >= 64) {
      assert EncS(v) == [b];
    } else {
      EncSDenotes(v / 128);
      NumberCons(b + 128, EncS(v / 128));
      SValCons(b, EncS(v / 128));
      hide SVal, Number;
    }
  }

  lemma {:induction false} EncULen(v: nat, n: nat)
    requires n > 0 && v < Pow128(n)
    ensures |EncU(v)| <= n
  {
    if v >= 128 {
      assert Pow128(n) == 128 * Pow128(n - 1);
      EncULen(v / 128, n - 1);
    }
  }

  lemma {:induction false} EncSLen(v: int, n: nat)
    requires n > 0 && 0 - Pow128(n) <= 2 * v < Pow128(n)
    ensures |EncS(v)| <= n
    decreases n
  {
    var b := v % 128;
    assert Pow128(n) == 128 * Pow128(n - 1);
    if n == 1 {
      assert Pow128(0) == 1;
    } else if !((v / 128 == 0 && b < 64) || (v / 128 == -1 && b >= 64)) {
      var p := Pow128(n - 1);
      assert p == 128 * Pow128(n - 2);
      assert p % 2 == 0;
      HalfStep(v, p);
      EncSLen(v / 128, n - 1);
    }
  }

  lemma HalfStep(v: int, p: nat)
    requires p % 2 == 0 && 0 - 128 * p <= 2 * v < 128 * p
    ensures 0 - p <= 2 * (v / 128) < p
  {
    var h := p / 2;
    assert p == 2 * h && 0 - 128 * h <= v < 128 * h;
    assert 0 - h <= v / 128 < h;
  }

  /** No number with that value is shorter than the encoding. */
  lemma {:induction false} Shortest(k: Kind, v: int, bs: seq<byte>)
    requires Fits(k, v) && Number(bs) && Denotes(k, bs) == v
    ensures |Enc(k, v)| <= |bs|
  {
    UValBound(bs);
    if Signed(k) {
      SValFold(bs);
      EncSLen(v, |bs|);
    } else {
      EncULen(v, |bs|);
    }
  }

  lemma {:induction false} EncBound(k: Kind, v: int)
    requires Fits(k, v)
    ensures |Enc(k, v)| <= MaxLen(k)
  {
    PowTable();
    hide Pow128, EncS, EncU;
    if Signed(k) { EncSLen(v, MaxLen(k)); } else { EncULen(v, MaxLen(k)); }
  }

  /**
   * The round trip: encoded, followed by anything, a value decodes to itself and the decoder stops
   * right behind it; the encoding takes at most 5 or 10 bytes.
   */
  lemma {:induction false} RoundTrip(k: Kind, v: int, rest: seq<byte>)
    requires Fits(k, v)
    ensures Decode(k, Enc(k, v) + rest) == Ok(v, |Enc(k, v)|)
    ensures |Enc(k, v)| <= MaxLen(k)
  {
    var bs := Enc(k, v);
    assert Number(bs) && Denotes(k, bs) == v by {
      if Signed(k) { EncSDenotes(v); } else { EncUDenotes(v); }
    }
    EncBound(k, v);
    hide Enc, Number, FrontLen, Decode, Denotes, Fits;
    FrontOnly(bs, rest);
    DecodeExact(k, bs + rest);
    assert (bs + rest)[..|bs|] == bs;
  }
}
