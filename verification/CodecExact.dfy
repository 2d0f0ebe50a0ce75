/** The round trip, exactly: which modules come back from their own encoding. */
module CodecExact {
  import opened Bytes
  import opened Codec
  import opened CodecInst
  import opened CodecModule
  import opened CodecParts
  import opened CodecSections
  import opened CodecRound
  import opened CodecStages
  import opened CodecTrip
  import opened CodecSound

  // ----- the encoder writes the sections in their order -----

  lemma {:induction false} OrderMono(bs: seq<byte>, a: nat, b: nat)
    requires InOrder(bs, a) && b <= a
    ensures InOrder(bs, b)
    decreases |bs|
  {
    hide RdU32, Rank;
    if bs != [] {
      var len := RdU32(bs[1..]);
      if len.val <= |len.rest| && bs[0] == 0 { OrderMono(len.rest[len.val..], a, b); }
    }
  }

  lemma {:induction false} OneInOrder(id: byte, body: seq<byte>, rest: seq<byte>, last: nat)
    requires body != [] && |body| < TWO32
    requires (id == 0 || Rank(id) > last) && InOrder(rest, if id == 0 then last else Rank(id))
    ensures InOrder(WrSection(id, body) + rest, last)
  {
    hide *;
    SectionSplit(id, body, rest);
    U32Reads(|body|, body + rest);
    InOrderStep(WrSection(id, body) + rest, last, |body|, body + rest);
  }

  lemma SectionSplit(id: byte, body: seq<byte>, rest: seq<byte>)
    requires body != []
    ensures var bs := WrSection(id, body) + rest;
      |body + rest| < |bs| && bs[0] == id && bs[1..] == WrU32(|body|) + (body + rest) && (body + rest)[|body|..] == rest
  {
    hide WrU32;
    assert WrSection(id, body) + rest == [id] + (WrU32(|body|) + (body + rest));
  }

  lemma OrderAt(k: nat)
    requires 0 < k <= 12
    ensures |ORDER| == 12 && Rank(ORDER[k - 1]) == k && ORDER[k - 1] != 0
  {
  }

  lemma ContentsFit(m: Mod, id: byte)
    requires Resolved(m) && NumsFit(m) && SizesFit(m)
    ensures |Contents(m, id)| < TWO32
  {
    hide Contents, Resolved, NumsFit;
  }

  lemma {:induction false} SectionsInOrder(m: Mod, k: nat, rest: seq<byte>)
    requires Resolved(m) && NumsFit(m) && SizesFit(m) && k <= 12 && InOrder(rest, k)
    ensures InOrder(WrSections(m, k) + rest, 0)
  {
    hide *;
    if k == 0 {
      NoSections(m, rest);
    } else {
      OrderAt(k);
      var id := ORDER[k - 1];
      var body := Contents(m, id);
      ContentsFit(m, id);
      SectionsStep(m, k, rest);
      if body == [] {
        OrderMono(rest, k, k - 1);
        EmptySection(id, rest);
      } else {
        OneInOrder(id, body, rest, k - 1);
      }
      SectionsInOrder(m, k - 1, WrSection(id, body) + rest);
    }
  }

  lemma EmptySection(id: byte, rest: seq<byte>)
    ensures WrSection(id, []) + rest == rest
  {
  }

  lemma {:induction false} CustomsInOrder(cs: seq<Custom<nat>>, last: nat)
    requires forall c :: c in cs ==> |WrCustomBody(c)| < TWO32
    ensures InOrder(WrCustoms(cs), last)
    decreases |cs|
  {
    hide WrCustomBody, WrSection, Rank;
    if cs != [] {
      var c := cs[0];
      assert c in cs && forall d :: d in cs[1..] ==> d in cs;
      CustomsInOrder(cs[1..], last);
      hide InOrder;
      if WrCustomBody(c) == [] {
        EmptySection(0, WrCustoms(cs[1..]));
      } else {
        OneInOrder(0, WrCustomBody(c), WrCustoms(cs[1..]), last);
      }
    }
  }

  lemma EncodableIsRead(m: Mod)
    requires EncodeModule(m).Some?
    ensures Resolved(m) && NumsFit(m) && forall d :: d in m.datas ==> !d.Unread?
  {
    hide WrSections, WrCustoms, ToLE;
  }

  lemma {:induction false} EncodedInOrder(m: Mod)
    requires EncodeModule(m).Some? && SizesFit(m)
    ensures Ordered(EncodeModule(m).value)
  {
    EncodableIsRead(m);
    CustomSizes(m);
    hide *;
    CustomsInOrder(m.customs, 12);
    SectionsInOrder(m, 12, WrCustoms(m.customs));
    BehindHeader(m);
  }

  lemma CustomSizes(m: Mod)
    requires Resolved(m) && NumsFit(m) && SizesFit(m)
    ensures forall c :: c in m.customs ==> |WrCustomBody(c)| < TWO32
  {
    hide Contents, BodyBytes, WrAssocs, WrCustomBody, Resolved, NumsFit;
  }

  lemma BehindHeader(m: Mod)
    requires EncodeModule(m).Some? && Resolved(m) && NumsFit(m)
    requires InOrder(WrSections(m, 12) + WrCustoms(m.customs), 0)
    ensures Ordered(EncodeModule(m).value)
  {
    hide Encodable, InOrder, WrSections, WrCustoms, ToLE, Resolved, NumsFit;
    assert EncodeModule(m).value[8..] == WrSections(m, 12) + WrCustoms(m.customs);
  }

  // ----- which modules come back -----

  /** The custom sections that are written at all. */
  function Kept(cs: seq<Custom<nat>>): (r: seq<Custom<nat>>)
    ensures |r| <= |cs|
    ensures forall c :: c in r ==> c in cs && (c.name != [] || c.bytes != [])
    ensures r == cs <==> forall c :: c in cs ==> c.name != [] || c.bytes != []
    decreases |cs|
  {
    if cs == [] then []
    else
      var tail := Kept(cs[1..]);
      assert cs == [cs[0]] + cs[1..];
      if cs[0].name == [] && cs[0].bytes == [] then tail else [cs[0]] + tail
  }

  /** The module without its empty custom sections. */
  function Pruned(m: Mod): Mod { m.(customs := Kept(m.customs)) }

  lemma {:induction false} KeptWritten(cs: seq<Custom<nat>>)
    ensures WrCustoms(Kept(cs)) == WrCustoms(cs)
    decreases |cs|
  {
    hide WrSection, WrCustomBody;
    if cs != [] {
      KeptWritten(cs[1..]);
      if cs[0].name == [] && cs[0].bytes == [] { EmptyBody(cs[0]); }
    }
  }

  lemma EmptyBody(c: Custom<nat>)
    requires c.name == [] && c.bytes == []
    ensures WrSection(0, WrCustomBody(c)) == []
  {
  }

  lemma PrunedContents(m: Mod, id: byte)
    requires Resolved(m) && NumsFit(m)
    ensures Resolved(Pruned(m)) && NumsFit(Pruned(m)) && Contents(Pruned(m), id) == Contents(m, id)
  {
    assert Entries(Pruned(m)) == Entries(m);
    hide Kept, Counted;
  }

  lemma {:induction false} PrunedSections(m: Mod, k: nat)
    requires Resolved(m) && NumsFit(m) && k <= 12
    ensures Resolved(Pruned(m)) && NumsFit(Pruned(m)) && WrSections(Pruned(m), k) == WrSections(m, k)
  {
    hide *;
    PrunedContents(m, 0);
    if k == 0 {
      NoSections(m, []);
      NoSections(Pruned(m), []);
      NothingMore(WrSections(m, 0), WrSections(Pruned(m), 0));
    } else {
      OrderIs();
      PrunedSections(m, k - 1);
      PrunedContents(m, ORDER[k - 1]);
      SectionsNow(m, k);
      SectionsNow(Pruned(m), k);
    }
  }

  lemma NothingMore(a: seq<byte>, b: seq<byte>)
    requires a + [] == [] && b + [] == []
    ensures a == b
  {
  }

  lemma SectionsNow(m: Mod, k: nat)
    requires Resolved(m) && NumsFit(m) && 0 < k <= 12
    ensures |ORDER| == 12 && WrSections(m, k) == WrSections(m, k - 1) + WrSection(ORDER[k - 1], Contents(m, ORDER[k - 1]))
  {
    hide Contents, WrSection, Resolved, NumsFit;
  }

  /** Empty custom sections leave no trace in the bytes. */
  lemma {:induction false} PrunedEncodesAlike(m: Mod)
    requires EncodeModule(m).Some?
    ensures EncodeModule(Pruned(m)) == EncodeModule(m)
  {
    EncodableIsRead(m);
    PrunedSections(m, 12);
    KeptWritten(m.customs);
    hide WrSections, WrCustoms, ToLE, Kept, Resolved, NumsFit;
  }

  lemma PrunedSizes(m: Mod)
    requires Resolved(m) && NumsFit(m) && SizesFit(m)
    ensures Resolved(Pruned(m)) && NumsFit(Pruned(m)) && SizesFit(Pruned(m))
  {
    forall id: byte ensures |Contents(Pruned(m), id)| < TWO32 && Resolved(Pruned(m)) && NumsFit(Pruned(m)) { PrunedContents(m, id); }
    PrunedContents(m, 0);
    hide Contents, Kept, BodyBytes, WrCustomBody, WrAssocs, Resolved, NumsFit;
  }

  lemma PrunedInv(st: State, r: nat)
    requires Inv(st, r)
    ensures Inv(st.(m := Pruned(st.m)), r)
  {
    assert forall c :: c in Kept(st.m.customs) ==> c in st.m.customs;
    PrunedImports(st.m);
    hide ImportsOk, FuncsInv, SigsInv, TablesInv, MemsInv, GlobalsInv, RefsInv, DatasInv, CustomSound, Kept;
  }

  lemma PrunedImports(m: Mod)
    requires ImportsOk(m)
    ensures ImportsOk(Pruned(m))
  {
    assert Entries(Pruned(m)) == Entries(m);
    hide Kept, NumsOf, ImportsInOrder, EntryOk;
  }

  /** What the decoder accepted, without its empty custom sections, is well-formed if all its data were read. */
  lemma {:induction false} PrunedIsCanonical(bs: seq<byte>)
    requires Ordered(bs) && DecodeModule(bs).Some? && forall d :: d in DecodeModule(bs).value.datas ==> !d.Unread?
    ensures Canonical(Pruned(DecodeModule(bs).value))
  {
    var m := DecodeModule(bs).value;
    DecodedInv(bs);
    PrunedComplete(m);
    hide *;
    var st: State, r: nat :| Inv(st, r) && st.m == m;
    PrunedInv(st, r);
    CompleteIsCanonical(st.(m := Pruned(st.m)), r);
  }

  lemma PrunedComplete(m: Mod)
    requires forall d :: d in m.datas ==> !d.Unread?
    ensures Complete(Pruned(m))
    ensures Complete(m) <==> Pruned(m) == m
  {
  }

  lemma CompleteIs(m: Mod)
    ensures Complete(m) ==> forall d :: d in m.datas ==> !d.Unread?
  {
  }

  /** Nothing announced was left unread, and everything preceded by its size is small enough. */
  ghost predicate Writable(m: Mod) {
    EncodeModule(m).Some? ==> Resolved(m) && NumsFit(m) && SizesFit(m)
  }

  /**
   * What comes back from the encoding of an accepted module: the module without its empty custom
   * sections; all index spaces, references and instructions are the same.
   */
  lemma {:induction false} AcceptedComesBack(bs: seq<byte>)
    requires Ordered(bs) && DecodeModule(bs).Some? && Writable(DecodeModule(bs).value)
    requires EncodeModule(DecodeModule(bs).value).Some?
    ensures DecodeModule(EncodeModule(DecodeModule(bs).value).value) == Some(Pruned(DecodeModule(bs).value))
  {
    var m := DecodeModule(bs).value;
    EncodableIsRead(m);
    PrunedIsCanonical(bs);
    PrunedEncodesAlike(m);
    PrunedSizes(m);
    GoodIs(Pruned(m));
    hide *;
    RoundTrips(Pruned(m));
  }

  lemma GoodIs(m: Mod)
    requires Resolved(m) && NumsFit(m) && SizesFit(m) && Canonical(m)
    ensures Good(m)
  {
    hide Resolved, NumsFit, SizesFit, Canonical;
  }

  /** An accepted module can be written unless some announced data segment was never read. */
  lemma {:induction false} AcceptedIsWritten(bs: seq<byte>)
    requires Ordered(bs) && DecodeModule(bs).Some?
    ensures EncodeModule(DecodeModule(bs).value).Some? <==> forall d :: d in DecodeModule(bs).value.datas ==> !d.Unread?
  {
    var m := DecodeModule(bs).value;
    if EncodeModule(m).Some? { EncodableIsRead(m); }
    if forall d :: d in m.datas ==> !d.Unread? {
      PrunedIsCanonical(bs);
      CanonEncodes(Pruned(m));
      UnprunedEncodable(m);
      EncodedIff(m);
    }
    hide DecodeModule, EncodeModule, Pruned;
  }

  lemma EncodedIff(m: Mod)
    ensures EncodeModule(m).Some? <==> Encodable(m)
  {
    hide WrSections, WrCustoms, ToLE, Encodable;
  }

  lemma UnprunedEncodable(m: Mod)
    requires Encodable(Pruned(m))
    ensures Encodable(m)
  {
    hide Kept, KindOf;
  }

  /**
   * An accepted module comes back from its own encoding if and only if nothing announced was left out
   * and no custom section is empty.
   */
  lemma {:induction false} AcceptedRoundTrips(bs: seq<byte>)
    requires Ordered(bs) && DecodeModule(bs).Some? && Writable(DecodeModule(bs).value)
    ensures var m := DecodeModule(bs).value;
      (EncodeModule(m).Some? && DecodeModule(EncodeModule(m).value) == Some(m)) <==> Complete(m)
  {
    var m := DecodeModule(bs).value;
    AcceptedIsWritten(bs);
    CompleteIs(m);
    hide *;
    if EncodeModule(m).Some? {
      PrunedComplete(m);
      AcceptedComesBack(bs);
    }
  }

  /**
   * A module that can be written comes back from its encoding if and only if it is well-formed: its
   * imports are, in list order, the front of their index spaces, every reference lies in its space,
   * data segments used by code are announced, and no custom section is empty.
   */
  lemma {:induction false} RoundTripExact(m: Mod)
    requires EncodeModule(m).Some? && Resolved(m) && NumsFit(m) && SizesFit(m)
    ensures DecodeModule(EncodeModule(m).value) == Some(m) <==> Canonical(m)
  {
    EncodableIsRead(m);
    EncodedInOrder(m);
    hide *;
    if Canonical(m) {
      GoodIs(m);
      RoundTrips(m);
    }
    var bs := EncodeModule(m).value;
    if DecodeModule(bs) == Some(m) {
      WritableIf(m);
      AcceptedComesBack(bs);
      PrunedComplete(m);
      AcceptedIsCanonical(bs);
    }
  }

  lemma WritableIf(m: Mod)
    requires Resolved(m) && NumsFit(m) && SizesFit(m)
    ensures Writable(m)
  {
    hide Resolved, NumsFit, SizesFit, EncodeModule;
  }

  /** An import read after a definition of its kind is not at the front of its index space. */
  lemma {:induction false} LateImport(m: Mod, e: Entry)
    requires CountOf(m.nums, ItemKind(e.item)) < Space(EnvOf(m), ItemKind(e.item)) && m.nums == NumsOf(m.imports)
    ensures !Canonical(AddEntry(m, e))
  {
    var m' := AddEntry(m, e);
    var j := |m.imports|;
    assert m'.imports[..j] == m.imports && m'.imports[j].desc != CountOf(NumsOf(m'.imports[..j]), m'.imports[j].kind);
    hide NumsOf, FuncsOk, SpacesOk, RefsOk, CustomOk;
  }
}
