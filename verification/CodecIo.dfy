/** The reader over a buffer and the writer onto a byte list, step by step as the program does it. */
module CodecIo {
  import opened Bytes
  import opened Leb128
  import opened LebProof
  import opened Codec
  import opened CodecInst
  import opened CodecModule
  import opened CodecParts

  /** What a reading method returns, and what it leaves, are what the reader function says. */
  predicate Agrees<T(==)>(r: Option<T>, left: seq<byte>, got: Res<T>) {
    match got case Fail => r == None case Got(v, rest) => r == Some(v) && left == rest
  }

  /** A slice being read: everything from `ptr` up to `end` is still to come. */
  class Buffer {
    const data: seq<byte>
    const end: nat
    var ptr: nat

    predicate Valid()
      reads this
    {
      ptr <= end <= |data|
    }

    function Left(): seq<byte>
      requires Valid()
      reads this
    {
      data[ptr..end]
    }

    constructor (data: seq<byte>, ptr: nat, end: nat)
      requires ptr <= end <= |data|
      ensures Valid() && Left() == data[ptr..end] && this.data == data && this.end == end && this.ptr == ptr
    {
      this.data, this.ptr, this.end := data, ptr, end;
    }

    method ReadLeb(k: Leb128.Kind) returns (v: int)
      requires Valid()
      modifies this`ptr
      ensures Valid() && Got(v, Left()) == RdLeb(k, old(Left()))
    {
      hide Decode, RdLeb;
      LebIs(k, data[ptr..end]);
      if ptr >= end { return 0; }
      var r := DecodeBody(k, data[ptr..end]);
      LebLength(k, data[ptr..end]);
      match r
      case Err =>
        ptr := end;
        v := 0;
      case Ok(val, len) =>
        assert data[ptr..end][len..] == data[ptr + len..end];
        ptr := ptr + len;
        v := val;
    }

    method ReadU32() returns (v: nat)
      requires Valid()
      modifies this`ptr
      ensures Valid() && Got(v, Left()) == RdU32(old(Left()))
    {
      LebFits(U32, Left());
      v := ReadLeb(U32);
    }

    method ReadU8() returns (b: byte)
      requires Valid()
      modifies this`ptr
      ensures Valid() && Got(b, Left()) == RdByte(old(Left()))
    {
      if ptr >= end { return 0; }
      b := data[ptr];
      assert data[ptr..end][1..] == data[ptr + 1..end];
      ptr := ptr + 1;
    }

    /** Four raw bytes; the program takes them even past the end, here that is `None`. */
    method ReadU32Raw() returns (r: Option<nat>)
      requires Valid()
      modifies this`ptr
      ensures Valid() && Agrees(r, Left(), RdU32Raw(old(Left())))
    {
      if ptr + 4 > end { return None; }
      ghost var all := Left();
      assert all[..4] == data[ptr..ptr + 4] && all[4..] == data[ptr + 4..end];
      r := Some(FromLE(data[ptr..ptr + 4]));
      hide FromLE;
      ptr := ptr + 4;
    }

    method ReadU64Raw() returns (v: nat)
      requires Valid()
      modifies this`ptr
      ensures Valid() && Got(v, Left()) == RdU64Raw(old(Left()))
    {
      if ptr + 8 > end { return 0; }
      ghost var all := Left();
      assert all[..8] == data[ptr..ptr + 8] && all[8..] == data[ptr + 8..end];
      v := FromLE(data[ptr..ptr + 8]);
      hide FromLE;
      ptr := ptr + 8;
    }

    method ReadName() returns (r: Option<seq<byte>>)
      requires Valid()
      modifies this`ptr
      ensures Valid() && Agrees(r, Left(), RdName(old(Left())))
    {
      hide RdU32;
      var sz := ReadU32();
      ghost var all := Left();
      if ptr + sz > end { return None; }
      assert all[..sz] == data[ptr..ptr + sz] && all[sz..] == data[ptr + sz..end];
      r := Some(data[ptr..ptr + sz]);
      ptr := ptr + sz;
    }

    /** The opcode loop: the class byte, then bytes for as long as the last one has its top bit. */
    method ReadOpcode() returns (op: Option<nat>)
      requires Valid()
      modifies this`ptr
      ensures Valid() && Agrees(op, Left(), RdOpcode(old(Left())))
    {
      hide RdByte, KindOf;
      var last := ReadU8();
      var opclass, res: nat := last, last;
      if !ClassValid(opclass) { return None; }
      ghost var first := Left();
      if Extended(opclass) {
        while last >= 0x80
          invariant Valid() && RdTail(res, last, Left()) == RdTail(opclass, opclass, first)
          decreases |Left()|, last
        {
          ghost var was := Left();
          last := ReadU8();
          TailStep(res, was);
          res := Wrap32(res * 0x100 + last);
        }
      }
      if KindOf(res).None? { return None; }
      op := Some(res);
    }
  }

  lemma LebIs(k: Leb128.Kind, bs: seq<byte>)
    ensures RdLeb(k, []) == Got(0, [])
    ensures bs != [] ==> RdLeb(k, bs) == match Decode(k, bs)
      case Ok(v, n) => Got(v, if n <= |bs| then bs[n..] else [])
      case Err => Got(0, [])
  {
    hide Decode;
  }

  lemma LebLength(k: Leb128.Kind, bs: seq<byte>)
    ensures Decode(k, bs).Ok? ==> Decode(k, bs).len <= |bs|
  {
    hide UVal, Upper, Legal, Interpret, Trunc;
  }

  lemma TailStep(res: nat, bs: seq<byte>)
    ensures forall last: byte :: last >= 0x80 ==>
      RdTail(res, last, bs) == RdTail(Wrap32(res * 0x100 + RdByte(bs).val), RdByte(bs).val, RdByte(bs).rest)
    ensures bs == [] ==> RdByte(bs).val == 0
    ensures bs != [] ==> |RdByte(bs).rest| < |bs|
  {
    hide Wrap32;
  }

  // ----- the writer -----

  class ByteDeque {
    var bytes: seq<byte>

    constructor ()
      ensures bytes == []
    {
      bytes := [];
    }

    method PushBack(b: byte)
      modifies this
      ensures bytes == old(bytes) + [b]
    {
      bytes := bytes + [b];
    }

    method PushFront(b: byte)
      modifies this
      ensures bytes == [b] + old(bytes)
    {
      bytes := [b] + bytes;
    }

    /** The encoding loop: seven bits at a time, until what remains is the sign of the last byte. */
    method EncodeSigned(v: int)
      modifies this
      ensures bytes == old(bytes) + EncS(v)
    {
      hide *;
      var val, more := v, true;
      ghost var done: seq<byte> := [];
      while more
        invariant bytes == old(bytes) + done
        invariant if more then done + EncS(val) == EncS(v) else done == EncS(v)
        decreases more, Size(val)
      {
        var b, next := val % 128, val / 128;
        SignedStep(val);
        more := !((next == 0 && b < 64) || (next == -1 && b >= 64));
        b := if more then b + 128 else b;
        PushBack(b);
        Together(done, b, EncS(next));
        done := done + [b];
        val := next;
      }
    }

    method EncodeUnsigned(v: nat)
      modifies this
      ensures bytes == old(bytes) + EncU(v)
    {
      hide *;
      var val: nat, more := v, true;
      ghost var done: seq<byte> := [];
      while more
        invariant bytes == old(bytes) + done
        invariant if more then done + EncU(val) == EncU(v) else done == EncU(v)
        decreases more, val
      {
        var b := val % 128;
        UnsignedStep(val);
        val := val / 128;
        more := val != 0;
        b := if more then b + 128 else b;
        PushBack(b);
        Together(done, b, EncU(val));
        done := done + [b];
      }
    }

    /** The same bytes, put in front of what is there: for sizes that are known last. */
    method PreencodeU32(v: nat)
      modifies this
      ensures bytes == EncU(v) + old(bytes)
    {
      var bint := new ByteDeque();
      bint.EncodeUnsigned(v);
      bytes := bint.bytes + bytes;
    }

    /** The bytes of an opcode: the loop finds its first non-zero byte and writes from there. */
    method WriteOpcode(op: nat) returns (ok: bool)
      modifies this
      ensures ok <==> KindOf(op).Some?
      ensures bytes == if ok then old(bytes) + WrOpcode(op) else old(bytes)
    {
      hide *;
      if KindOf(op).None? { return false; }
      LeadingFirst(op);
      var shf: nat := 0;
      while ByteAt(op, shf + 1) != 0
        invariant Leading(op, shf) && bytes == old(bytes)
        decreases 3 - shf
      {
        LeadingNext(op, shf);
        shf := shf + 1;
      }
      ghost var n := shf;
      OpcodeBytes(op, n);
      FromTop(op, n);
      PushBack(ByteAt(op, shf));
      if Extended(ByteAt(op, shf)) {
        while shf > 0
          invariant shf <= n && bytes == old(bytes) + OpcodeFrom(op, n, shf)
        {
          shf := shf - 1;
          FromNext(op, n, shf);
          PushBack(ByteAt(op, shf));
        }
      }
      ok := true;
    }
  }

  /** Byte `k` of an opcode, counted from the least significant. */
  function ByteAt(op: nat, k: nat): byte {
    if k == 0 then op % 0x100 else ByteAt(op / 0x100, k - 1)
  }

  /** Bytes `n` down to `k` of an opcode. */
  function OpcodeFrom(op: nat, n: nat, k: nat): seq<byte>
    requires k <= n
    decreases n - k
  {
    if k == n then [ByteAt(op, n)] else OpcodeFrom(op, n, k + 1) + [ByteAt(op, k)]
  }

  lemma FromTop(op: nat, n: nat)
    ensures OpcodeFrom(op, n, n) == [ByteAt(op, n)]
  {
  }

  lemma FromNext(op: nat, n: nat, k: nat)
    requires k < n
    ensures OpcodeFrom(op, n, k) == OpcodeFrom(op, n, k + 1) + [ByteAt(op, k)]
  {
  }

  /** An opcode of the table whose bytes 1 to `n` are not zero: it has at most three bytes. */
  predicate Leading(op: nat, n: nat) {
    KindOf(op).Some? && n <= 2 && op < 0x100_0000 && (n > 0 ==> ByteAt(op, n) != 0)
    && (n == 1 ==> op >= 0x100) && (n == 2 ==> op >= 0x1_0000)
  }

  lemma LeadingFirst(op: nat)
    requires KindOf(op).Some?
    ensures Leading(op, 0)
  {
  }

  lemma Bytes3(op: nat)
    requires op < 0x100_0000
    ensures ByteAt(op, 0) == op % 0x100 && ByteAt(op, 1) == op / 0x100 % 0x100
    ensures ByteAt(op, 2) == op / 0x1_0000 && ByteAt(op, 3) == 0
  {
    var p, q, r := op / 0x100, op / 0x1_0000, op / 0x100_0000;
    Halves(op);
    ByteStep(op, 0);
    ByteStep(op, 1);
    ByteStep(op, 2);
    ByteStep(p, 0);
    ByteStep(p, 1);
    ByteStep(q, 0);
    hide ByteAt;
  }

  lemma Halves(op: nat)
    requires op < 0x100_0000
    ensures op / 0x100 / 0x100 == op / 0x1_0000 < 0x100 && op / 0x1_0000 / 0x100 == 0
  {
  }

  lemma ByteStep(op: nat, k: nat)
    ensures ByteAt(op, k + 1) == ByteAt(op / 0x100, k) && ByteAt(op, 0) == op % 0x100
  {
  }

  lemma LeadingNext(op: nat, n: nat)
    requires Leading(op, n) && ByteAt(op, n + 1) != 0
    ensures Leading(op, n + 1) && n < 2
  {
    Bytes3(op);
    hide KindOf, ByteAt;
  }

  lemma OpcodeBytes(op: nat, n: nat)
    requires Leading(op, n) && ByteAt(op, n + 1) == 0
    ensures WrOpcode(op) == OpcodeFrom(op, n, if Extended(ByteAt(op, n)) then 0 else n)
  {
    Bytes3(op);
    OpcodeTop(op, n);
    hide KindOf, ByteAt, Extended, OpcodeFrom;
    FromTop(op, n);
    if n > 0 { FromNext(op, n, n - 1); }
    if n > 1 { FromNext(op, n, n - 2); }
  }

  lemma OpcodeTop(op: nat, n: nat)
    requires Leading(op, n) && ByteAt(op, n + 1) == 0
    ensures if n == 0 then op < 0x100 && !Extended(op) else
      Extended(ByteAt(op, n)) && if n == 1 then 0x100 <= op < 0x1_0000 else 0x1_0000 <= op
  {
    Bytes3(op);
    hide ByteAt;
  }

  function Size(val: int): nat { if val < 0 then -val else val }

  lemma Together(done: seq<byte>, b: byte, more: seq<byte>)
    ensures done + ([b] + more) == done + [b] + more
  {
  }

  lemma SignedStep(val: int)
    ensures var b, next := val % 128, val / 128;
      EncS(val) == if (next == 0 && b < 64) || (next == -1 && b >= 64) then [b] else [b + 128] + EncS(next)
    ensures var b, next := val % 128, val / 128;
      !((next == 0 && b < 64) || (next == -1 && b >= 64)) ==> Size(next) < Size(val)
  {
  }

  lemma UnsignedStep(val: nat)
    ensures EncU(val) == if val / 128 == 0 then [val % 128] else [val % 128 + 128] + EncU(val / 128)
  {
  }
}
