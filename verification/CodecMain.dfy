/** The two drivers: sections are taken from a buffer one by one, and written one by one. */
module CodecMain {
  import opened Bytes
  import opened Leb128
  import opened LebProof
  import opened Codec
  import opened CodecInst
  import opened CodecModule
  import opened CodecParts
  import opened CodecSections
  import opened CodecRound
  import opened CodecIo
  import opened CodecLoops

  lemma SectionsIs(st: State, bs: seq<byte>)
    requires bs != []
    ensures var len := RdU32(bs[1..]);
      RdSections(st, bs) == if len.val > |len.rest| then None else
        match Section(bs[0], st, len.rest[..len.val])
        case None => None
        case Some(st') => RdSections(st', len.rest[len.val..])
  {
    hide RdU32, Section;
  }

  lemma SectionsEnd(st: State)
    ensures RdSections(st, []) == Some(st)
  {
  }

  lemma ByteIs(bs: seq<byte>)
    ensures bs != [] ==> RdByte(bs) == Got(bs[0], bs[1..])
  {
  }

  lemma ModuleIs(bs: seq<byte>)
    ensures DecodeModule(bs) == match RdU32Raw(bs)
      case Fail => None
      case Got(magic, r1) =>
        match RdU32Raw(r1)
        case Fail => None
        case Got(version, r2) =>
          if magic != MAGIC || version != VERSION then None
          else match RdSections(State(EMPTY, 0), r2) case None => None case Some(st) => Some(st.m)
  {
    hide RdU32Raw, RdSections, EMPTY, MAGIC, VERSION;
  }

  /** Magic number, version, then sections until the buffer is used up, in whatever order they come. */
  method DecodeBuffer(buf: Buffer) returns (r: Option<Mod>)
    requires buf.Valid()
    modifies buf`ptr
    ensures r == DecodeModule(old(buf.Left()))
  {
    hide *;
    ModuleIs(buf.Left());
    var magic := buf.ReadU32Raw();
    AgreesIs(magic, buf.Left(), RdU32Raw(old(buf.Left())));
    if magic != Some(MAGIC) { return None; }
    ghost var behind := buf.Left();
    var version := buf.ReadU32Raw();
    AgreesIs(version, buf.Left(), RdU32Raw(behind));
    if version != Some(VERSION) { return None; }
    r := DecodeSections(buf);
  }

  lemma AgreesIs<T>(r: Option<T>, left: seq<byte>, got: Res<T>)
    requires Agrees(r, left, got)
    ensures match got case Fail => r == None case Got(v, rest) => r == Some(v) && left == rest
  {
  }

  method DecodeSections(buf: Buffer) returns (r: Option<Mod>)
    requires buf.Valid()
    modifies buf`ptr
    ensures buf.Valid()
    ensures r == match RdSections(State(EMPTY, 0), old(buf.Left())) case None => None case Some(st) => Some(st.m)
  {
    hide *;
    var st := State(EMPTY, 0);
    ghost var first := buf.Left();
    LengthIs(buf);
    while buf.ptr < buf.end
      invariant buf.Valid() && |buf.Left()| == buf.end - buf.ptr
      invariant RdSections(st, buf.Left()) == RdSections(State(EMPTY, 0), first)
      decreases |buf.Left()|
    {
      ghost var was := buf.Left();
      SectionsIs(st, was);
      ByteIs(was);
      var id := buf.ReadU8();
      var len := buf.ReadU32();
      LengthIs(buf);
      if len > buf.end - buf.ptr { return None; }
      SliceIs(buf, len);
      var next := Section(id, st, buf.data[buf.ptr..buf.ptr + len]);
      if next.None? { return None; }
      st := next.value;
      buf.ptr := buf.ptr + len;
      StillValid(buf);
      LengthIs(buf);
    }
    SectionsEnd(st);
    r := Some(st.m);
  }

  lemma StillValid(buf: Buffer)
    requires buf.ptr <= buf.end <= |buf.data|
    ensures buf.Valid()
  {
  }

  // ----- the encoder -----

  lemma SectionsNext(m: Mod, k: nat)
    requires Resolved(m) && NumsFit(m) && k < 12
    ensures WrSections(m, k + 1) == WrSections(m, k) + WrSection(ORDER[k], Contents(m, ORDER[k]))
  {
    hide WrSection, Contents, Resolved, NumsFit;
  }

  lemma SectionsStart(m: Mod)
    requires Resolved(m) && NumsFit(m)
    ensures WrSections(m, 0) == [] && |ORDER| == 12
  {
    hide Resolved, NumsFit, Contents;
  }

  lemma CustomsNext(cs: seq<Custom<nat>>, k: nat)
    requires k < |cs|
    ensures WrCustoms(cs[..k + 1]) == WrCustoms(cs[..k]) + WrSection(0, WrCustomBody(cs[k]))
  {
    assert cs[..k] + [cs[k]] == cs[..k + 1];
    CustomsSplit(cs[..k], [cs[k]]);
    hide WrSection, WrCustomBody;
    assert WrCustoms([cs[k]]) == WrSection(0, WrCustomBody(cs[k])) + WrCustoms([]);
  }

  lemma {:induction false} CustomsSplit(a: seq<Custom<nat>>, b: seq<Custom<nat>>)
    ensures WrCustoms(a + b) == WrCustoms(a) + WrCustoms(b)
    decreases |a|
  {
    hide WrSection, WrCustomBody;
    if a == [] {
      assert a + b == b;
    } else {
      assert (a + b)[1..] == a[1..] + b;
      CustomsSplit(a[1..], b);
    }
  }

  lemma CustomsEnds(cs: seq<Custom<nat>>)
    ensures WrCustoms(cs[..0]) == [] && cs[..|cs|] == cs
  {
  }

  lemma WrSectionIs(id: byte, body: seq<byte>)
    ensures WrSection(id, body) == if body == [] then [] else [id] + (EncU(|body|) + body)
  {
    hide EncU;
  }

  /** Contents that are not empty are written behind their size, and that behind the section's id. */
  method EncodeSection(out: ByteDeque, id: byte, body: seq<byte>)
    modifies out
    ensures out.bytes == old(out.bytes) + WrSection(id, body)
  {
    hide *;
    WrSectionIs(id, body);
    if body != [] {
      var secdeq := new ByteDeque();
      secdeq.bytes := body;
      secdeq.PreencodeU32(|body|);
      secdeq.PushFront(id);
      out.bytes := out.bytes + secdeq.bytes;
    }
  }

  lemma EncodedIs(m: Mod)
    ensures EncodeModule(m) == if Encodable(m)
      then Some(ToLE(MAGIC, 4) + ToLE(VERSION, 4) + WrSections(m, 12) + WrCustoms(m.customs)) else None
    ensures Encodable(m) ==> Resolved(m) && NumsFit(m)
  {
    hide WrSections, WrCustoms, ToLE;
  }

  /** The sections in their fixed order, then the custom sections. */
  method EncodeAll(m: Mod) returns (r: Option<seq<byte>>)
    ensures r == EncodeModule(m)
  {
    hide *;
    EncodedIs(m);
    if !Encodable(m) { return None; }
    var out := new ByteDeque();
    out.bytes := ToLE(MAGIC, 4) + ToLE(VERSION, 4);
    ghost var head := out.bytes;
    SectionsStart(m);
    for k := 0 to 12
      invariant out.bytes == head + WrSections(m, k)
    {
      SectionsNext(m, k);
      EncodeSection(out, ORDER[k], Contents(m, ORDER[k]));
    }
    CustomsEnds(m.customs);
    for k := 0 to |m.customs|
      invariant out.bytes == head + WrSections(m, 12) + WrCustoms(m.customs[..k])
    {
      CustomsNext(m.customs, k);
      EncodeSection(out, 0, WrCustomBody(m.customs[k]));
    }
    r := Some(out.bytes);
  }
}
