/**
 * Reading and writing the primitive parts of a binary module, and the law that ties a reader to a
 * writer: what was written, followed by anything, is read back and nothing more.
 */
module Codec {
  import opened Bytes
  import opened Leb128
  import opened LebProof

  /** `Fail`: the reader throws, or would look past the end of its memory. */
  datatype Res<+T> = Fail | Got(val: T, rest: seq<byte>)

  /** A reader that returns `x` when it finds `bs` in front of anything, and stops right behind it. */
  ghost predicate Reads<T(!new)>(rd: seq<byte> -> Res<T>, bs: seq<byte>, x: T) {
    forall rest: seq<byte> {:trigger bs + rest} :: rd(bs + rest) == Got(x, rest)
  }

  // ----- integers, bytes, names -----

  /**
   * A malformed integer is not an error: it reads as 0 and the rest of the buffer is skipped; at the
   * end of the buffer an integer reads as 0.
   */
  function RdLeb(k: Kind, bs: seq<byte>): (r: Res<int>)
    ensures r.Got? && |r.rest| <= |bs|
  {
    if bs == [] then Got(0, [])
    else
      match Decode(k, bs)
      case Ok(v, n) => Got(v, if n <= |bs| then bs[n..] else [])
      case Err => Got(0, [])
  }

  function RdU32(bs: seq<byte>): (r: Res<nat>)
    ensures r.Got? && |r.rest| <= |bs| && r.val < TWO32
  {
    LebFits(U32, bs);
    var r := RdLeb(U32, bs);
    Got(r.val, r.rest)
  }

  lemma LebFits(k: Kind, bs: seq<byte>)
    ensures Fits(k, RdLeb(k, bs).val)
    ensures bs != [] ==> |RdLeb(k, bs).rest| < |bs|
  {
    DecodeExact(k, bs);
    hide Decode, Denotes, FrontLen;
  }

  // ----- what the integer readers read, whatever the length of the number -----

  /** `num` is one complete number for the value `v`, padded or not. */
  predicate Spells(k: Kind, num: seq<byte>, v: int) {
    Number(num) && |num| <= MaxLen(k) && Denotes(k, num) == v && Fits(k, v)
  }

  lemma {:induction false} FrontIs(num: seq<byte>, rest: seq<byte>)
    requires Number(num)
    ensures FrontLen(num + rest) == |num|
  {
    hide FrontLen;
    FrontLenAt(num + rest, |num| - 1);
  }

  /** Any spelling of a number is read, and nothing behind it. */
  lemma {:induction false} SpellingRead(k: Kind, num: seq<byte>, v: int, rest: seq<byte>)
    requires Spells(k, num, v)
    ensures RdLeb(k, num + rest) == Got(v, rest)
    ensures k.U32? ==> RdU32(num + rest) == Got(v, rest)
  {
    FrontIs(num, rest);
    DecodeExact(k, num + rest);
    assert (num + rest)[..|num|] == num && (num + rest)[|num|..] == rest;
    hide Decode, Denotes, FrontLen, Number;
  }

  predicate SpelledAt(k: Kind, bs: seq<byte>, n: nat, v: int) { n <= |bs| && Spells(k, bs[..n], v) }

  /** What is read stands there; or no number does, and then the value is 0 and nothing is left. */
  lemma {:induction false} SpellingFound(k: Kind, bs: seq<byte>)
    ensures var r := RdLeb(k, bs);
      || (exists n: nat :: SpelledAt(k, bs, n, r.val) && r.rest == bs[n..])
      || (r == Got(0, []) && forall n: nat, v :: !SpelledAt(k, bs, n, v))
  {
    DecodeExact(k, bs);
    var n := FrontLen(bs);
    hide Decode, Denotes, FrontLen;
    if 0 < n <= MaxLen(k) && Fits(k, Denotes(k, bs[..n])) {
      assert SpelledAt(k, bs, n, RdLeb(k, bs).val);
    } else {
      forall m: nat, v | SpelledAt(k, bs, m, v) ensures false { SpelledFront(k, bs, m, v); }
    }
  }

  lemma SpelledFront(k: Kind, bs: seq<byte>, n: nat, v: int)
    requires SpelledAt(k, bs, n, v)
    ensures FrontLen(bs) == n && 0 < n <= MaxLen(k) && Fits(k, Denotes(k, bs[..n]))
  {
    assert bs[..n] + bs[n..] == bs;
    FrontIs(bs[..n], bs[n..]);
    hide Denotes, FrontLen;
  }

  function WrU32(v: nat): seq<byte> { EncU(v) }

  lemma {:induction false} LebReads(k: Kind, v: int)
    requires Fits(k, v)
    ensures Reads(bs => RdLeb(k, bs), Enc(k, v), v)
  {
    forall rest: seq<byte> ensures RdLeb(k, Enc(k, v) + rest) == Got(v, rest) {
      RoundTrip(k, v, rest);
      hide Enc, Decode;
      assert (Enc(k, v) + rest)[|Enc(k, v)|..] == rest;
    }
  }

  lemma {:induction false} U32Reads(v: nat, rest: seq<byte>)
    requires v < TWO32
    ensures RdU32(WrU32(v) + rest) == Got(v, rest)
  {
    LebReads(U32, v);
    assert (bs => RdLeb(U32, bs))(Enc(U32, v) + rest) == Got(v, rest);
    hide RdLeb;
  }

  lemma {:induction false} SignedReads(k: Kind, v: int, rest: seq<byte>)
    requires Fits(k, v)
    ensures RdLeb(k, Enc(k, v) + rest) == Got(v, rest)
  {
    LebReads(k, v);
    assert (bs => RdLeb(k, bs))(Enc(k, v) + rest) == Got(v, rest);
  }

  /** Past the end a byte reads as 0. */
  function RdByte(bs: seq<byte>): (r: Res<byte>)
    ensures r.Got? && |r.rest| <= |bs|
  {
    if bs == [] then Got(0, []) else Got(bs[0], bs[1..])
  }

  lemma ByteReads(b: byte, rest: seq<byte>)
    ensures RdByte([b] + rest) == Got(b, rest)
  {
    assert ([b] + rest)[1..] == rest;
  }

  /** Four raw bytes, taken whether they are there or not. */
  function RdU32Raw(bs: seq<byte>): (r: Res<nat>)
    ensures r.Got? ==> |r.rest| <= |bs| && r.val < TWO32
  {
    if |bs| < 4 then Fail
    else
      PowerTable();
      ToFromLE(bs[..4]);
      Got(FromLE(bs[..4]), bs[4..])
  }

  /** Eight raw bytes; if they are not there, 0 and nothing is taken. */
  function RdU64Raw(bs: seq<byte>): (r: Res<nat>)
    ensures r.Got? && |r.rest| <= |bs| && r.val < TWO64
  {
    if |bs| < 8 then Got(0, bs)
    else
      PowerTable();
      ToFromLE(bs[..8]);
      Got(FromLE(bs[..8]), bs[8..])
  }

  lemma {:induction false} RawReads(n: nat, w: nat, rest: seq<byte>)
    requires n < Pow256(w)
    ensures w == 4 ==> RdU32Raw(ToLE(n, w) + rest) == Got(n, rest)
    ensures w == 8 ==> RdU64Raw(ToLE(n, w) + rest) == Got(n, rest)
  {
    FromToLE(n, w);
    var bs := ToLE(n, w) + rest;
    assert bs[..w] == ToLE(n, w) && bs[w..] == rest;
    hide ToLE, FromLE, Pow256;
  }

  /** `n` bytes; if they are not there, none and nothing is taken. */
  function RdBytes(n: nat, bs: seq<byte>): (r: Res<seq<byte>>)
    ensures r.Got? && |r.rest| <= |bs| && |r.val| <= n
    ensures r.val + r.rest == bs && (|r.val| == n || (n > |bs| && r.val == []))
  {
    if n > |bs| then Got([], bs) else Got(bs[..n], bs[n..])
  }

  lemma BytesRead(s: seq<byte>, rest: seq<byte>)
    ensures RdBytes(|s|, s + rest) == Got(s, rest)
  {
    assert (s + rest)[..|s|] == s && (s + rest)[|s|..] == rest;
  }

  function RdName(bs: seq<byte>): (r: Res<seq<byte>>)
    ensures r.Got? ==> |r.rest| <= |bs| && |r.val| < TWO32
  {
    var n := RdU32(bs);
    if n.val > |n.rest| then Fail else Got(n.rest[..n.val], n.rest[n.val..])
  }

  function WrName(s: seq<byte>): seq<byte> { WrU32(|s|) + s }

  lemma NameReads(s: seq<byte>, rest: seq<byte>)
    requires |s| < TWO32
    ensures RdName(WrName(s) + rest) == Got(s, rest)
  {
    assert WrName(s) + rest == WrU32(|s|) + (s + rest);
    U32Reads(|s|, s + rest);
    assert (s + rest)[..|s|] == s && (s + rest)[|s|..] == rest;
    hide RdU32;
  }

  // ----- vectors -----

  /** `n` items one after the other. */
  function RdMany<T>(rd: seq<byte> -> Res<T>, n: nat, bs: seq<byte>): (r: Res<seq<T>>)
    ensures r.Got? ==> |r.val| == n
  {
    if n == 0 then Got([], bs)
    else
      match rd(bs)
      case Fail => Fail
      case Got(x, rest) =>
        match RdMany(rd, n - 1, rest)
        case Fail => Fail
        case Got(xs, rest') => Got([x] + xs, rest')
  }

  function WrMany<T>(wr: T -> seq<byte>, xs: seq<T>): seq<byte> {
    if xs == [] then [] else wr(xs[0]) + WrMany(wr, xs[1..])
  }

  lemma {:induction false} ManyRead<T(!new)>(rd: seq<byte> -> Res<T>, wr: T -> seq<byte>, xs: seq<T>, rest: seq<byte>)
    requires forall x :: x in xs ==> Reads(rd, wr(x), x)
    ensures RdMany(rd, |xs|, WrMany(wr, xs) + rest) == Got(xs, rest)
    decreases |xs|
  {
    if xs == [] {
      assert WrMany(wr, xs) + rest == rest;
    } else {
      var tail := WrMany(wr, xs[1..]) + rest;
      assert WrMany(wr, xs) + rest == wr(xs[0]) + tail;
      assert Reads(rd, wr(xs[0]), xs[0]);
      ManyRead(rd, wr, xs[1..], rest);
      assert xs == [xs[0]] + xs[1..];
    }
  }

  /** A count and the items. */
  function RdVec<T>(rd: seq<byte> -> Res<T>, bs: seq<byte>): (r: Res<seq<T>>)
    ensures r.Got? ==> |r.val| < TWO32
  {
    var n := RdU32(bs);
    RdMany(rd, n.val, n.rest)
  }

  function WrVec<T>(wr: T -> seq<byte>, xs: seq<T>): seq<byte> { WrU32(|xs|) + WrMany(wr, xs) }

  lemma {:induction false} VecReads<T(!new)>(rd: seq<byte> -> Res<T>, wr: T -> seq<byte>, xs: seq<T>, rest: seq<byte>)
    requires |xs| < TWO32 && forall x :: x in xs ==> Reads(rd, wr(x), x)
    ensures RdVec(rd, WrVec(wr, xs) + rest) == Got(xs, rest)
  {
    assert WrVec(wr, xs) + rest == WrU32(|xs|) + (WrMany(wr, xs) + rest);
    U32Reads(|xs|, WrMany(wr, xs) + rest);
    ManyRead(rd, wr, xs, rest);
    hide RdMany, WrMany, RdU32;
  }

  /** Every item a vector reader returns satisfies what one item does. */
  lemma {:induction false} ManyHave<T(!new)>(rd: seq<byte> -> Res<T>, good: T -> bool, n: nat, bs: seq<byte>)
    requires forall b: seq<byte> :: rd(b).Got? ==> good(rd(b).val)
    ensures RdMany(rd, n, bs).Got? ==> forall x :: x in RdMany(rd, n, bs).val ==> good(x)
    decreases n
  {
    if n > 0 {
      match rd(bs)
      case Fail =>
      case Got(x, rest) => ManyHave(rd, good, n - 1, rest);
    }
  }
}
