/** Bytes that are accepted, and modules that do not come back from their encoding. */
module CodecExamples {
  import opened Bytes
  import opened Leb128
  import opened LebProof
  import opened Codec
  import opened CodecInst
  import opened CodecModule
  import opened CodecParts
  import opened CodecSections
  import opened CodecRound
  import opened CodecSound
  import opened CodecExact
  import opened CodecSteps
  import opened DeepCopy

  // ----- modules that do not come back -----

  const HEADER: seq<byte> := [0x00, 0x61, 0x73, 0x6D, 0x01, 0x00, 0x00, 0x00]

  lemma HeaderIs()
    ensures HEADER == ToLE(MAGIC, 4) + ToLE(VERSION, 4)
  {
    Four(MAGIC);
    Four(VERSION);
  }

  lemma Four(n: nat)
    ensures ToLE(n, 4) == [n % 256, n / 256 % 256, n / 256 / 256 % 256, n / 256 / 256 / 256 % 256]
  {
    assert ToLE(n / 256 / 256 / 256, 1) == [n / 256 / 256 / 256 % 256] + ToLE(n / 256 / 256 / 256 / 256, 0);
    assert ToLE(n / 256 / 256, 2) == [n / 256 / 256 % 256] + ToLE(n / 256 / 256 / 256, 1);
    assert ToLE(n / 256, 3) == [n / 256 % 256] + ToLE(n / 256 / 256, 2);
  }

  lemma {:induction false} BehindTheHeader(body: seq<byte>)
    ensures DecodeModule(HEADER + body) == match RdSections(State(EMPTY, 0), body) case None => None case Some(st) => Some(st.m)
  {
    HeaderIs();
    PowerTable();
    hide ToLE, RdSections, RdU32Raw;
    assert HEADER + body == ToLE(MAGIC, 4) + (ToLE(VERSION, 4) + body);
    RawReads(MAGIC, 4, ToLE(VERSION, 4) + body);
    RawReads(VERSION, 4, body);
  }

  lemma OneByte(n: nat)
    requires n < 128
    ensures WrU32(n) == [n]
  {
  }

  /** A number below 128 is one byte. */
  lemma SmallReads(n: nat, rest: seq<byte>)
    requires n < 128
    ensures RdU32([n] + rest) == Got(n, rest)
  {
    OneByte(n);
    U32Reads(n, rest);
    hide RdU32, WrU32;
  }

  lemma SmallWritten(id: byte, body: seq<byte>)
    requires 0 < |body| < 128
    ensures WrSection(id, body) == [id, |body|] + body && body != [] && |body| < TWO32
  {
    OneByte(|body|);
    hide WrU32;
  }

  lemma {:induction false} SmallSection(st: State, id: byte, body: seq<byte>, rest: seq<byte>)
    requires 0 < |body| < 128
    ensures RdSections(st, [id, |body|] + body + rest)
         == match Section(id, st, body) case None => None case Some(st') => RdSections(st', rest)
  {
    SmallWritten(id, body);
    hide *;
    SectionReads(st, id, body, rest);
  }

  /** A custom section without name and contents is read, and lost when the module is written. */
  lemma {:induction false} EmptyCustomLost()
    ensures var bs := HEADER + [0, 1, 0]; var m := EMPTY.(customs := [Custom([], [], [], [])]);
      && Ordered(bs) && DecodeModule(bs) == Some(m)
      && EncodeModule(m) == Some(HEADER) && DecodeModule(HEADER) == Some(EMPTY)
  {
    hide *;
    var st := State(EMPTY, 0);
    var m := EMPTY.(customs := [Custom([], [], [], [])]);
    BehindTheHeader([0, 1, 0]);
    BehindTheHeader([]);
    assert HEADER + [] == HEADER;
    SmallSection(st, 0, [0], []);
    assert [0, |[0]|] + [0] + [] == [0, 1, 0];
    EmptyName();
    NoMoreSections(State(m, 0));
    NoMoreSections(st);
    EmptyOrdered();
    EmptyWritten(m);
  }

  lemma NoMoreSections(st: State)
    ensures RdSections(st, []) == Some(st)
  {
  }

  lemma EmptyName()
    ensures RdName([0]) == Got([], [])
    ensures Section(0, State(EMPTY, 0), [0]) == Some(State(EMPTY.(customs := [Custom([], [], [], [])]), 0))
  {
    SmallReads(0, []);
    assert [0] + [] == [0];
    hide RdU32;
    assert RdName([0]) == Got([], []);
    var c: Custom<nat> := Custom([], [], [], []);
    assert EMPTY.customs + [c] == [c];
    assert DecodeCustom(EMPTY, [0]) == Some(EMPTY.(customs := [c])) by { hide RdName; }
    hide DecodeCustom;
  }

  lemma EmptyOrdered()
    ensures Ordered(HEADER + [0, 1, 0])
  {
    var bs: seq<byte> := [0, 1, 0];
    assert (HEADER + bs)[8..] == bs;
    SmallReads(1, [0]);
    assert [1] + [0] == bs[1..];
    assert InOrder([], 0);
    hide RdU32;
  }

  lemma EmptyWritten(m: Mod)
    requires m == EMPTY.(customs := [Custom([], [], [], [])])
    ensures EncodeModule(m) == Some(HEADER)
  {
    HeaderIs();
    assert Resolved(m) && NumsFit(m) && m.(customs := []) == EMPTY;
    assert Encodable(m);
    EncodedAs(m);
    EmptyBody(m.customs[0]);
    assert WrCustoms(m.customs) == WrSection(0, WrCustomBody(m.customs[0])) + WrCustoms([]);
    EmptySections(m, 12);
    hide *;
    NoneBehind(ToLE(MAGIC, 4) + ToLE(VERSION, 4));
  }

  lemma NoneBehind(h: seq<byte>)
    ensures h + [] + [] == h
  {
  }

  lemma EncodedAs(m: Mod)
    requires Encodable(m)
    ensures Resolved(m) && NumsFit(m)
    ensures EncodeModule(m) == Some(ToLE(MAGIC, 4) + ToLE(VERSION, 4) + WrSections(m, 12) + WrCustoms(m.customs))
  {
    hide ToLE, WrSections, WrCustoms;
  }

  lemma {:induction false} EmptySections(m: Mod, k: nat)
    requires Resolved(m) && NumsFit(m) && m.(customs := []) == EMPTY && k <= 12
    ensures WrSections(m, k) == []
  {
    if k > 0 {
      EmptySections(m, k - 1);
      EmptyContents(m, ORDER[k - 1]);
    }
    hide Contents;
  }

  lemma EmptyContents(m: Mod, id: byte)
    requires Resolved(m) && NumsFit(m) && m.(customs := []) == EMPTY
    ensures Contents(m, id) == []
  {
    assert Entries(m) == [];
  }

  /** One function of type 0 and, read after it, one imported function. */
  function LateModule(): Mod {
    EMPTY.(sigs := [Sig([], [])], imports := [Import([], [], FuncK, 1)], nums := Counts(1, 0, 0, 0),
           funcs := [Func(0, [], []), Func(0, [], [])])
  }

  const LATE: seq<byte> := [1, 4, 1, 0x60, 0, 0] + [3, 2, 1, 0] + [2, 5, 1, 0, 0, 0, 0]

  /** A list of one item that takes all the bytes. */
  lemma OneItem<T>(rd: seq<byte> -> Res<T>, bs: seq<byte>, x: T)
    requires rd(bs) == Got(x, [])
    ensures Whole(RdVec(rd, [1] + bs)) == Some([x])
  {
    SmallReads(1, bs);
    hide RdU32;
    assert RdMany(rd, 0, []) == Got([], []) && [x] + [] == [x];
    assert RdMany(rd, 1, bs) == Got([x], []);
  }

  lemma LateTypes()
    ensures Section(1, State(EMPTY, 0), [1, 0x60, 0, 0]) == Some(State(EMPTY.(sigs := [Sig([], [])]), 0))
  {
    var bs: seq<byte> := [0x60, 0, 0];
    assert [1, 0x60, 0, 0] == [1] + bs;
    EmptySigRead();
    assert EMPTY.sigs + [Sig([], [])] == [Sig([], [])];
    hide RdVec, RdSig, Whole;
    OneItem(RdSig, bs, Sig([], []));
  }

  lemma EmptySigRead()
    ensures RdSig([0x60, 0, 0]) == Got(Sig([], []), [])
  {
    OneByte(0);
    assert WrTypes([]) == [0];
    SigReads(Sig([], []), []);
    assert WrSig(Sig([], [])) + [] == [0x60, 0, 0];
    hide RdSig;
  }

  lemma LateFunctions(m: Mod)
    requires m == EMPTY.(sigs := [Sig([], [])])
    ensures Section(3, State(m, 0), [1, 0]) == Some(State(m.(funcs := [Func(0, [], [])]), 0))
  {
    hide Section, RdVec, Whole, BareFuncs, RdU32;
    var rd := (b: seq<byte>) => RdIdx(|m.sigs|, b);
    FirstIndex(m.sigs);
    OneItem<nat>(rd, [0], 0);
    assert [1] + [0] == [1, 0];
    FunctionsFrom(m, [1, 0], [0]);
    OneBare();
  }

  lemma FirstIndex(sigs: seq<Sig>)
    requires |sigs| == 1
    ensures RdIdx(|sigs|, [0]) == Got(0, [])
  {
    SmallReads(0, []);
    assert [0] + [] == [0];
    hide RdU32;
  }

  lemma OneBare()
    ensures EMPTY.funcs + BareFuncs([0]) == [Func(0, [], [])] && EMPTY.nums.funcs == |EMPTY.funcs|
  {
  }

  lemma FunctionsFrom(m: Mod, bs: seq<byte>, sigs: seq<nat>)
    requires m.nums.funcs == |m.funcs| && Whole(RdVec((b: seq<byte>) => RdIdx(|m.sigs|, b), bs)) == Some(sigs)
    ensures Section(3, State(m, 0), bs) == Some(State(m.(funcs := m.funcs + BareFuncs(sigs)), 0))
  {
    hide Whole, RdVec, RdIdx, BareFuncs;
  }

  lemma LateImports(m: Mod)
    requires m == EMPTY.(sigs := [Sig([], [])], funcs := [Func(0, [], [])])
    ensures Section(2, State(m, 0), [1, 0, 0, 0, 0]) == Some(State(LateModule(), 0))
  {
    var e := Entry([], [], FuncItem(0));
    var bs: seq<byte> := [0, 0, 0, 0];
    assert [1] + bs == [1, 0, 0, 0, 0];
    EmptyEntryRead();
    LateAdded(m);
    var rd := (b: seq<byte>) => RdEntry(|m.sigs|, b);
    hide *;
    assert rd(bs) == Got(e, []) by { ReadByEntry(m, bs); }
    OneItem(rd, bs, e);
    ImportsRead(m, [1] + bs, [e]);
  }

  lemma ReadByEntry(m: Mod, bs: seq<byte>)
    requires |m.sigs| == 1
    ensures ((b: seq<byte>) => RdEntry(|m.sigs|, b))(bs) == RdEntry(1, bs)
  {
    hide RdEntry;
  }

  lemma ImportsRead(m: Mod, bs: seq<byte>, es: seq<Entry>)
    requires Whole(RdVec((b: seq<byte>) => RdEntry(|m.sigs|, b), bs)) == Some(es)
    ensures Section(2, State(m, 0), bs) == Some(State(AddEntries(m, es), 0))
  {
    hide RdEntry, RdVec, Whole, AddEntries;
  }

  lemma EmptyEntryRead()
    ensures RdEntry(1, [0, 0, 0, 0]) == Got(Entry([], [], FuncItem(0)), [])
  {
    var e := Entry([], [], FuncItem(0));
    EmptyEntry();
    EntryFits();
    hide *;
    EntryReads(1, e, []);
    NoneBehindEntry(WrEntry(e));
  }

  lemma NoneBehindEntry(bs: seq<byte>)
    ensures bs + [] == bs
  {
  }

  lemma EntryFits()
    ensures EntryOk(1, Entry([], [], FuncItem(0)))
  {
  }

  lemma EmptyEntry()
    ensures WrEntry(Entry([], [], FuncItem(0))) == [0, 0, 0, 0]
  {
    OneByte(0);
    hide EncU;
  }

  lemma LateAdded(m: Mod)
    requires m == EMPTY.(sigs := [Sig([], [])], funcs := [Func(0, [], [])])
    ensures AddEntries(m, [Entry([], [], FuncItem(0))]) == LateModule()
  {
    var e := Entry([], [], FuncItem(0));
    assert [e][..0] == [];
    assert AddEntries(m, [e]) == AddEntry(AddEntries(m, []), e);
    assert m.imports + [Import([], [], FuncK, 1)] == LateModule().imports;
    assert m.funcs + [Func(0, [], [])] == LateModule().funcs;
  }

  lemma LateRead()
    ensures DecodeModule(HEADER + LATE) == Some(LateModule())
  {
    var st := State(EMPTY, 0);
    var m1 := EMPTY.(sigs := [Sig([], [])]);
    var m2 := m1.(funcs := [Func(0, [], [])]);
    LateTypes();
    LateFunctions(m1);
    LateImports(m2);
    hide *;
    BehindTheHeader(LATE);
    LateBytes();
    SmallSection(st, 1, [1, 0x60, 0, 0], [3, 2, 1, 0] + [2, 5, 1, 0, 0, 0, 0]);
    SmallSection(State(m1, 0), 3, [1, 0], [2, 5, 1, 0, 0, 0, 0]);
    SmallSection(State(m2, 0), 2, [1, 0, 0, 0, 0], []);
    NoSectionsLeft(State(LateModule(), 0));
  }

  lemma LateBytes()
    ensures LATE == [1, 4] + [1, 0x60, 0, 0] + ([3, 2, 1, 0] + [2, 5, 1, 0, 0, 0, 0])
    ensures [3, 2, 1, 0] + [2, 5, 1, 0, 0, 0, 0] == [3, 2] + [1, 0] + [2, 5, 1, 0, 0, 0, 0]
    ensures [2, 5, 1, 0, 0, 0, 0] == [2, 5] + [1, 0, 0, 0, 0] + []
  {
  }

  lemma NoSectionsLeft(st: State)
    ensures RdSections(st, []) == Some(st)
  {
  }

  lemma LateEncodable()
    ensures Resolved(LateModule()) && NumsFit(LateModule()) && Encodable(LateModule())
  {
    hide KindOf;
  }

  lemma LateSmall(id: byte)
    requires Resolved(LateModule()) && NumsFit(LateModule())
    ensures |Contents(LateModule(), id)| < TWO32
  {
    var m := LateModule();
    OneByte(0);
    OneByte(1);
    assert WrTypes([]) == [0];
    assert |WrVec(WrSig, m.sigs)| == 4 by { assert WrMany(WrSig, m.sigs) == WrSig(m.sigs[0]) + WrMany(WrSig, []); }
    LateEntry();
    assert SigsOf(m.funcs[1..]) == [0];
    assert |WrVec(WrU32, [0])| == 2 by { assert WrMany(WrU32, [0]) == WrU32(0) + WrMany(WrU32, []); }
    LateBody();
    assert Bodies(m.funcs[1..]) == [Body([], [])];
    hide WrVec, WrU32;
  }

  lemma LateEntry()
    requires Resolved(LateModule())
    ensures |Counted(WrEntry, Entries(LateModule()))| == 5
  {
    var es := Entries(LateModule());
    OneByte(0);
    OneByte(1);
    assert es == [Entry([], [], FuncItem(0))];
    assert WrMany(WrEntry, es) == WrEntry(es[0]) + WrMany(WrEntry, []);
    assert |WrEntry(es[0])| == 4;
  }

  lemma LateBody()
    ensures BodyBytes(Body([], [])) == [0] && |Counted(WrBody, [Body([], [])])| == 3
  {
    OneByte(0);
    OneByte(1);
    var b: Body<nat> := Body([], []);
    assert BodyBytes(b) == [0];
    assert WrMany(WrBody, [b]) == WrBody(b) + WrMany(WrBody, []);
  }

  /** The bytes are accepted, but what is written for them does not give the same module. */
  lemma {:induction false} LateImportLost()
    ensures DecodeModule(HEADER + LATE) == Some(LateModule()) && !Ordered(HEADER + LATE)
    ensures EncodeModule(LateModule()).Some? && DecodeModule(EncodeModule(LateModule()).value) != Some(LateModule())
  {
    LateRead();
    LateEncodable();
    EncodedIff(LateModule());
    forall id: byte ensures |Contents(LateModule(), id)| < TWO32 { LateSmall(id); }
    LateBody();
    LateSizes();
    LateUncanonical();
    hide *;
    RoundTripExact(LateModule());
    LateUnordered();
  }

  lemma LateSizes()
    requires Resolved(LateModule()) && NumsFit(LateModule()) && forall id: byte :: |Contents(LateModule(), id)| < TWO32
    requires BodyBytes(Body([], [])) == [0]
    ensures SizesFit(LateModule())
  {
    hide Contents, BodyBytes;
  }

  lemma LateUncanonical()
    ensures !Canonical(LateModule())
  {
    var m := LateModule();
    assert m.imports[..0] == [];
    assert m.imports[0].desc != CountOf(NumsOf(m.imports[..0]), FuncK);
  }

  lemma NextOrdered(id: byte, body: seq<byte>, rest: seq<byte>, last: nat)
    requires 0 < |body| < 128 && id != 0
    ensures InOrder([id, |body|] + body + rest, last) <==> Rank(id) > last && InOrder(rest, Rank(id))
  {
    hide *;
    SmallSplit(id, body, rest);
    SmallReads(|body|, body + rest);
    InOrderStep([id, |body|] + body + rest, last, |body|, body + rest);
  }

  lemma SmallSplit(id: byte, body: seq<byte>, rest: seq<byte>)
    requires 0 < |body| < 128
    ensures var bs := [id, |body|] + body + rest;
      |bs| > |body + rest| && bs[0] == id && bs[1..] == [|body|] + (body + rest) && (body + rest)[|body|..] == rest
  {
  }

  /** The import section comes last and has the lowest rank but one. */
  lemma LateRanks()
    ensures Rank(1) == 1 && Rank(3) == 3 && Rank(2) == 2
  {
  }

  lemma OrderedIs(body: seq<byte>)
    ensures Ordered(HEADER + body) <==> InOrder(body, 0)
  {
    hide InOrder;
    assert (HEADER + body)[8..] == body;
  }

  lemma LateUnordered()
    ensures !Ordered(HEADER + LATE)
  {
    hide *;
    OrderedIs(LATE);
    LateBytes();
    LateRanks();
    NextOrdered(1, [1, 0x60, 0, 0], [3, 2, 1, 0] + [2, 5, 1, 0, 0, 0, 0], 0);
    NextOrdered(3, [1, 0], [2, 5, 1, 0, 0, 0, 0], 1);
    NextOrdered(2, [1, 0, 0, 0, 0], [], 3);
  }

  /** A data count of one, and no data section. */
  const COUNT_ONLY: seq<byte> := [12, 1, 1]

  /** The module is accepted; its one segment was never read, so it is neither copied nor encoded. */
  lemma {:induction false} CountOnlyAccepted()
    ensures var m := EMPTY.(hasDatacount := true, datas := [Unread]);
      DecodeModule(HEADER + COUNT_ONLY) == Some(m) && !AllRead(m.datas) && EncodeModule(m) == None
  {
    var st, m := State(EMPTY, 0), EMPTY.(hasDatacount := true, datas := [Unread]);
    OneByte(1);
    DatacountDecode(st, 1);
    OneUnread(m);
    hide *;
    BehindTheHeader(COUNT_ONLY);
    CountBytes();
    SmallSection(st, 12, [1], []);
    NoSectionsLeft(State(m, 1));
  }

  lemma OneUnread(m: Mod)
    requires m == EMPTY.(hasDatacount := true, datas := [Unread])
    ensures EMPTY.datas + Unreads(1) == m.datas && !AllRead(m.datas) && EncodeModule(m) == None
  {
    assert m.datas[0] == Unread;
    hide WrSections, WrCustoms, Resolved, NumsFit;
  }

  lemma CountBytes()
    ensures COUNT_ONLY == [12, 1] + [1] + []
  {
  }
}
