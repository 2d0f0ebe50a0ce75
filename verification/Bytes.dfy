/** Little-endian bytes, machine-word wrapping and bitwise `or`, as the emitted WebAssembly code uses them. */
module Bytes {

  type byte = b: int | 0 <= b < 256

  const TWO32: nat := 0x1_0000_0000
  const TWO64: nat := 0x1_0000_0000_0000_0000
  const PAGE: nat := 65536

  function Wrap32(n: int): (r: nat)
    ensures r < TWO32
    ensures 0 <= n < TWO32 ==> r == n
  {
    n % TWO32
  }

  function Wrap64(n: int): (r: nat)
    ensures r < TWO64
    ensures 0 <= n < TWO64 ==> r == n
  {
    n % TWO64
  }

  function Pow256(n: nat): (r: nat)
    ensures r > 0
  {
    if n == 0 then 1 else 256 * Pow256(n - 1)
  }

  /** The `n` low bytes of `v`, least significant first. */
  function ToLE(v: nat, n: nat): (bs: seq<byte>)
    ensures |bs| == n
    decreases n
  {
    if n == 0 then [] else [v % 256] + ToLE(v / 256, n - 1)
  }

  function FromLE(bs: seq<byte>): nat {
    if bs == [] then 0 else bs[0] + 256 * FromLE(bs[1..])
  }

  lemma {:induction false} ToFromLE(bs: seq<byte>)
    ensures FromLE(bs) < Pow256(|bs|)
    ensures ToLE(FromLE(bs), |bs|) == bs
  {
    if bs != [] {
      ToFromLE(bs[1..]);
      assert bs == [bs[0]] + bs[1..];
    }
  }

  lemma {:induction false} FromToLE(v: nat, n: nat)
    requires v < Pow256(n)
    ensures FromLE(ToLE(v, n)) == v
  {
    if n > 0 {
      FromToLE(v / 256, n - 1);
      assert ToLE(v, n)[1..] == ToLE(v / 256, n - 1);
    }
  }

  /** Only `v` modulo 256^n matters to its `n` low bytes. */
  lemma {:induction false} ToLEPeriod(v: nat, k: nat, n: nat)
    ensures ToLE(v + k * Pow256(n), n) == ToLE(v, n)
  {
    if n > 0 {
      var p := Pow256(n - 1);
      assert k * Pow256(n) == 256 * (k * p) by {
        assert Pow256(n) == 256 * p;
      }
      assert (v + 256 * (k * p)) % 256 == v % 256;
      assert (v + 256 * (k * p)) / 256 == v / 256 + k * p;
      ToLEPeriod(v / 256, k, n - 1);
    }
  }

  lemma PowerTable()
    ensures Pow256(1) == 256 && Pow256(2) == 65536
    ensures Pow256(4) == TWO32 && Pow256(8) == TWO64
  {
    assert Pow256(0) == 1;
    assert Pow256(3) == 16777216;
    assert Pow256(5) == 256 * TWO32;
    assert Pow256(6) == 65536 * TWO32;
    assert Pow256(7) == 16777216 * TWO32;
  }

  /** Bitwise or of two naturals, bit by bit. */
  function Or(a: nat, b: nat): nat
    decreases a + b
  {
    if a == 0 then b
    else if b == 0 then a
    else (if a % 2 == 1 || b % 2 == 1 then 1 else 0) + 2 * Or(a / 2, b / 2)
  }

  function Pow2(n: nat): (r: nat)
    ensures r > 0
  {
    if n == 0 then 1 else 2 * Pow2(n - 1)
  }

  lemma Pow2Consts()
    ensures Pow2(32) == TWO32 && Pow2(64) == TWO64
  {
    assert Pow2(8) == 256;
    assert Pow2(16) == 65536;
    assert Pow2(24) == 0x100_0000;
    assert Pow2(32) == 0x1_0000_0000;
    assert Pow2(40) == 0x100_0000_0000;
    assert Pow2(48) == 0x1_0000_0000_0000;
    assert Pow2(56) == 0x100_0000_0000_0000;
  }

  /** When the bits of the operands do not overlap, `or` is addition: the packing lemma. */
  lemma {:induction false} OrDisjoint(hi: nat, k: nat, lo: nat)
    requires lo < Pow2(k)
    ensures Or(hi * Pow2(k), lo) == hi * Pow2(k) + lo
    decreases k
  {
    if k > 0 && hi > 0 && lo > 0 {
      var p := Pow2(k - 1);
      assert hi * Pow2(k) == 2 * (hi * p) by {
        assert Pow2(k) == 2 * p;
      }
      assert hi * p >= 1;
      OrDisjoint(hi, k - 1, lo / 2);
    }
  }
}
