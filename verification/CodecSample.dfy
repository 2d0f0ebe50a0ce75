/**
 * A small module with every kind of section, byte for byte as the binary format has it: section 5.5 of the
 * WebAssembly Core Specification 2.0.
 */
module CodecSample {
  import opened Bytes
  import opened Leb128
  import opened LebProof
  import opened Codec
  import opened CodecInst
  import opened CodecModule
  import opened CodecParts
  import opened CodecSections
  import opened CodecRound
  import opened CodecStages
  import opened CodecTrip
  import opened CodecExamples

  /** "name" */
  const NAME: seq<byte> := [0x6E, 0x61, 0x6D, 0x65]

  /** A function from i32 to i32 that returns its operand, an imported memory, and something of everything else. */
  function Sample(): Mod {
    Module(
      [Sig([0x7F], [0x7F])], [Import([0x61], [0x62], MemK, 0)], Counts(0, 0, 1, 0),
      [Func(0, [LocalRun(2, 0x7E)], [Inst(0x20, LocalIdx(0)), Inst(0x0B, NoImm)])],
      [Table(0x70, Limits(1, 2, true, false))], [Limits(1, 0, false, false)],
      [Global(0x7F, true, [0x41, 0x2A, 0x0B])], [Export([0x66], FuncK, 0)], Some(0),
      [Elem(Offset(0x41, 0), [0])], false, [Active0(Offset(0x41, 0), 0, [0x2A])],
      [Custom(NAME, [], [], [NameAssoc(0, [0x66])])])
  }

  const TYPES: seq<byte> := [0x01, 0x60, 0x01, 0x7F, 0x01, 0x7F]
  const IMPORTS: seq<byte> := [0x01, 0x01, 0x61, 0x01, 0x62, 0x02, 0x00, 0x01]
  const FUNCTIONS: seq<byte> := [0x01, 0x00]
  const TABLES: seq<byte> := [0x01, 0x70, 0x01, 0x01, 0x02]
  const GLOBALS: seq<byte> := [0x01, 0x7F, 0x01, 0x41, 0x2A, 0x0B]
  const EXPORTS: seq<byte> := [0x01, 0x01, 0x66, 0x00, 0x00]
  const START: seq<byte> := [0x00]
  const ELEMENTS: seq<byte> := [0x01, 0x00, 0x41, 0x00, 0x0B, 0x01, 0x00]
  const CODE: seq<byte> := [0x01, 0x06, 0x01, 0x02, 0x7E, 0x20, 0x00, 0x0B]
  const DATAS: seq<byte> := [0x01, 0x00, 0x41, 0x00, 0x0B, 0x01, 0x2A]
  const NAMES: seq<byte> := [0x04, 0x6E, 0x61, 0x6D, 0x65, 0x01, 0x04, 0x01, 0x00, 0x01, 0x66]

  /** The module's bytes: header, sections with their numbers and sizes, names. */
  function SampleBytes(): seq<byte> {
    [0x00, 0x61, 0x73, 0x6D, 0x01, 0x00, 0x00, 0x00]
    + ([0x01, 0x06] + TYPES + ([0x02, 0x08] + IMPORTS) + ([0x03, 0x02] + FUNCTIONS) + ([0x04, 0x05] + TABLES)
       + ([0x06, 0x06] + GLOBALS) + ([0x07, 0x05] + EXPORTS) + ([0x08, 0x01] + START) + ([0x09, 0x07] + ELEMENTS)
       + ([0x0A, 0x08] + CODE) + ([0x0B, 0x07] + DATAS))
    + ([0x00, 0x0B] + NAMES)
  }

  // ----- the parts -----

  lemma OneOf<T>(wr: T -> seq<byte>, x: T)
    ensures Counted(wr, [x]) == [1] + wr(x) == WrVec(wr, [x])
  {
    CodecExamples.OneByte(1);
    hide WrU32;
    assert WrMany(wr, []) == [] && [x][1..] == [];
    assert WrMany(wr, [x]) == wr(x) + [];
  }

  lemma OneType(t: byte)
    ensures WrTypes([t]) == [1, t]
  {
    OneOf(One, t);
    hide WrVec;
  }

  lemma SmallLimits(l: Limits)
    requires l.initial < 128 && l.max < 128
    ensures WrLimits(l) == [LimitByte(l), l.initial] + if l.hasMax then [l.max] else []
  {
    CodecExamples.OneByte(l.initial);
    CodecExamples.OneByte(l.max);
    hide WrU32, LimitByte;
  }

  lemma ShortName(s: seq<byte>)
    requires |s| < 128
    ensures WrName(s) == [|s|] + s == WrPayload(s)
  {
    CodecExamples.OneByte(|s|);
    hide WrU32;
  }

  lemma ZeroOffset()
    ensures WrOffset(Offset(0x41, 0)) == [0x41, 0x00, 0x0B]
  {
    assert EncS(0) == [0];
  }

  lemma TypesAre()
    ensures Counted(WrSig, Sample().sigs) == TYPES
  {
    OneType(0x7F);
    OneOf(WrSig, Sample().sigs[0]);
    hide WrVec, Counted, WrTypes;
  }

  lemma ImportsAre()
    ensures Resolved(Sample()) && NumsFit(Sample()) && Counted(WrEntry, Entries(Sample())) == IMPORTS
  {
    var e := Entry([0x61], [0x62], MemItem(Limits(1, 0, false, false)));
    assert Entries(Sample()) == [e];
    OneOf(WrEntry, e);
    ShortName([0x61]);
    ShortName([0x62]);
    SmallLimits(Limits(1, 0, false, false));
    hide WrVec, Counted, WrName, WrLimits;
  }

  lemma FunctionsAre()
    ensures Counted(WrU32, SigsOf(Sample().funcs[0..])) == FUNCTIONS
  {
    assert SigsOf(Sample().funcs[0..]) == [0];
    OneOf(WrU32, 0);
    CodecExamples.OneByte(0);
    hide WrVec, Counted, WrU32, SigsOf;
  }

  lemma TablesAre()
    ensures Counted(WrTable, Sample().tables[0..]) == TABLES
  {
    assert Sample().tables[0..] == Sample().tables;
    OneOf(WrTable, Sample().tables[0]);
    SmallLimits(Limits(1, 2, true, false));
    hide WrVec, Counted, WrLimits;
  }

  lemma GlobalsAre()
    ensures Counted(WrGlobal, Sample().globals[0..]) == GLOBALS
  {
    assert Sample().globals[0..] == Sample().globals;
    OneOf(WrGlobal, Sample().globals[0]);
    hide WrVec, Counted;
  }

  lemma ExportsAre()
    ensures Counted(WrExport, Sample().exports) == EXPORTS
  {
    OneOf(WrExport, Sample().exports[0]);
    ShortName([0x66]);
    CodecExamples.OneByte(0);
    hide WrVec, Counted, WrName, WrU32;
  }

  lemma ElementsAre()
    ensures Counted(WrElem, Sample().elems) == ELEMENTS
  {
    OneOf(WrElem, Sample().elems[0]);
    OneOf(WrU32, 0);
    ZeroOffset();
    CodecExamples.OneByte(0);
    hide WrVec, Counted, WrOffset, WrU32;
  }

  lemma DatasAre()
    ensures Counted(WrData, Sample().datas) == DATAS
  {
    OneOf(WrData, Sample().datas[0]);
    ShortName([0x2A]);
    ZeroOffset();
    CodecExamples.OneByte(0);
    hide WrVec, Counted, WrOffset, WrU32, WrPayload;
  }

  lemma CodeIs()
    ensures WrExpr(Sample().funcs[0].code) == [0x20, 0x00, 0x0B]
  {
    CodecExamples.OneByte(0);
    hide WrU32;
    var a: Inst<nat>, b: Inst<nat> := Inst(0x20, LocalIdx(0)), Inst(0x0B, NoImm);
    assert WrInst(a) == [0x20, 0x00] && WrInst(b) == [0x0B];
    hide WrInst;
    assert [a, b][1..] == [b] && [b][1..] == [];
    assert WrExpr([]) == [];
    assert WrExpr([b]) == [0x0B] + [];
  }

  lemma BodyIs()
    ensures BodyBytes(BodyOf(Sample().funcs[0])) == [0x01, 0x02, 0x7E, 0x20, 0x00, 0x0B]
  {
    CodeIs();
    OneOf(WrRun, LocalRun(2, 0x7E));
    CodecExamples.OneByte(2);
    hide WrVec, Counted, WrU32, WrExpr;
  }

  lemma BodiesAre()
    ensures Counted(WrBody, Bodies(Sample().funcs[0..])) == CODE
  {
    var b := BodyOf(Sample().funcs[0]);
    assert Bodies(Sample().funcs[0..]) == [b];
    OneOf(WrBody, b);
    BodyIs();
    CodecExamples.OneByte(6);
    hide WrVec, Counted, WrU32, Bodies, BodyBytes;
  }

  lemma AssocsAre()
    ensures WrAssocs([NameAssoc(0, [0x66])]) == [0x01, 0x00, 0x01, 0x66]
  {
    OneOf(WrAssoc, NameAssoc(0, [0x66]));
    ShortName([0x66]);
    CodecExamples.OneByte(0);
    hide WrVec, Counted, WrName, WrU32;
  }

  lemma NamesAre()
    ensures WrCustomBody(Sample().customs[0]) == NAMES
  {
    AssocsAre();
    ShortName([0x01, 0x00, 0x01, 0x66]);
    ShortName(NAME);
    var m: NameMap<nat> := NameMap([], [NameAssoc(0, [0x66])]);
    assert Front([]) == 0 && WrSubs([]) == [];
    hide WrAssocs, WrName, WrPayload;
    assert WrNames(m) == [0x01] + [0x04] + [0x01, 0x00, 0x01, 0x66];
    hide WrNames, WrFuncNames, WrSubs;
  }

  // ----- the whole -----

  lemma {:induction false} ContentsAre()
    ensures Resolved(Sample()) && NumsFit(Sample())
    ensures var m := Sample();
      && Contents(m, 1) == TYPES && Contents(m, 2) == IMPORTS && Contents(m, 3) == FUNCTIONS && Contents(m, 4) == TABLES
      && Contents(m, 5) == [] && Contents(m, 6) == GLOBALS && Contents(m, 7) == EXPORTS && Contents(m, 8) == START
      && Contents(m, 9) == ELEMENTS && Contents(m, 12) == [] && Contents(m, 10) == CODE && Contents(m, 11) == DATAS
  {
    ImportsAre();
    TypesAre();
    FunctionsAre();
    TablesAre();
    GlobalsAre();
    ExportsAre();
    ElementsAre();
    BodiesAre();
    DatasAre();
    CodecExamples.OneByte(0);
    assert Sample().mems[1..] == [];
    hide WrU32, WrSig, WrEntry, WrTable, WrLimits, WrGlobal, WrExport, WrElem, WrBody, WrData, WrVec, Entries, SigsOf, Bodies;
  }

  lemma OneMore(m: Mod, k: nat, done: seq<byte>, id: byte, body: seq<byte>)
    requires Resolved(m) && NumsFit(m) && k < 12 && ORDER[k] == id && WrSections(m, k) == done && Contents(m, id) == body
    requires |body| < 128
    ensures WrSections(m, k + 1) == if body == [] then done else done + ([id, |body|] + body)
  {
    if body != [] { SmallWritten(id, body); }
    hide WrU32, Contents;
  }

  lemma {:induction false} SectionsAre()
    ensures Resolved(Sample()) && NumsFit(Sample())
    ensures WrSections(Sample(), 12)
         == [0x01, 0x06] + TYPES + ([0x02, 0x08] + IMPORTS) + ([0x03, 0x02] + FUNCTIONS) + ([0x04, 0x05] + TABLES)
            + ([0x06, 0x06] + GLOBALS) + ([0x07, 0x05] + EXPORTS) + ([0x08, 0x01] + START) + ([0x09, 0x07] + ELEMENTS)
            + ([0x0A, 0x08] + CODE) + ([0x0B, 0x07] + DATAS)
  {
    ContentsAre();
    hide Resolved, NumsFit, Contents, WrSections, Sample;
    var m := Sample();
    NoSections(m);
    var s0: seq<byte> := [];
    OneMore(m, 0, s0, 1, TYPES);
    var s1 := s0 + ([0x01, 0x06] + TYPES);
    OneMore(m, 1, s1, 2, IMPORTS);
    var s2 := s1 + ([0x02, 0x08] + IMPORTS);
    OneMore(m, 2, s2, 3, FUNCTIONS);
    var s3 := s2 + ([0x03, 0x02] + FUNCTIONS);
    OneMore(m, 3, s3, 4, TABLES);
    var s4 := s3 + ([0x04, 0x05] + TABLES);
    OneMore(m, 4, s4, 5, []);
    OneMore(m, 5, s4, 6, GLOBALS);
    var s6 := s4 + ([0x06, 0x06] + GLOBALS);
    OneMore(m, 6, s6, 7, EXPORTS);
    var s7 := s6 + ([0x07, 0x05] + EXPORTS);
    OneMore(m, 7, s7, 8, START);
    var s8 := s7 + ([0x08, 0x01] + START);
    OneMore(m, 8, s8, 9, ELEMENTS);
    var s9 := s8 + ([0x09, 0x07] + ELEMENTS);
    OneMore(m, 9, s9, 12, []);
    OneMore(m, 10, s9, 10, CODE);
    var s11 := s9 + ([0x0A, 0x08] + CODE);
    OneMore(m, 11, s11, 11, DATAS);
    assert s1 == [0x01, 0x06] + TYPES;
  }

  lemma NoSections(m: Mod)
    requires Resolved(m) && NumsFit(m)
    ensures WrSections(m, 0) == []
  {
  }

  lemma {:induction false} CustomsAre()
    ensures WrCustoms(Sample().customs) == [0x00, 0x0B] + NAMES
  {
    NamesAre();
    SmallWritten(0, NAMES);
    hide WrCustomBody, WrU32;
    var c := Sample().customs[0];
    assert [c][1..] == [] && WrCustoms([]) == [];
    assert WrCustoms([c]) == WrSection(0, NAMES) + [];
  }

  lemma {:induction false} SampleWritten()
    ensures EncodeModule(Sample()) == Some(SampleBytes())
  {
    SectionsAre();
    CustomsAre();
    SampleEncodable();
    EncodedAs(Sample());
    HeaderIs();
    hide *;
    HeaderBytes();
  }

  lemma HeaderBytes()
    ensures HEADER == [0x00, 0x61, 0x73, 0x6D, 0x01, 0x00, 0x00, 0x00]
    ensures SampleBytes() == HEADER
      + ([0x01, 0x06] + TYPES + ([0x02, 0x08] + IMPORTS) + ([0x03, 0x02] + FUNCTIONS) + ([0x04, 0x05] + TABLES)
         + ([0x06, 0x06] + GLOBALS) + ([0x07, 0x05] + EXPORTS) + ([0x08, 0x01] + START) + ([0x09, 0x07] + ELEMENTS)
         + ([0x0A, 0x08] + CODE) + ([0x0B, 0x07] + DATAS))
      + ([0x00, 0x0B] + NAMES)
  {
  }

  lemma SampleEncodable()
    ensures Encodable(Sample())
  {
    ImportsAre();
    hide Resolved, NumsFit;
  }

  // ----- read back -----

  lemma SampleImports()
    ensures ImportsOk(Sample())
  {
    var m := Sample();
    ImportsAre();
    assert m.imports[..0] == [] && NumsOf([]) == Counts(0, 0, 0, 0);
    assert m.imports == [m.imports[0]] && [m.imports[0]][..0] == [];
    assert NumsOf([m.imports[0]]) == Counts(0, 0, 1, 0);
    assert Entries(m) == [Entry([0x61], [0x62], MemItem(Limits(1, 0, false, false)))];
    hide Entries;
  }

  lemma SampleFuncs()
    ensures FuncsOk(Sample())
  {
    var f := Sample().funcs[0];
    assert BodyOf(f).code[0].op == 0x20 && BodyOf(f).code[1].op == 0x0B;
    hide CodeEnv;
  }

  lemma SampleSpaces()
    ensures SpacesOk(Sample())
  {
    SampleInit();
    hide InitOk;
  }

  /** The constant 42 with its `end`. */
  lemma {:induction false} SampleInit()
    ensures InitOk([0x41, 0x2A, 0x0B])
  {
    var bs: seq<byte> := [0x41, 0x2A, 0x0B];
    SampleConst();
    InitSound(bs);
    hide InitOk, RdInit;
  }

  lemma {:induction false} SampleConst()
    ensures RdInit([0x41, 0x2A, 0x0B]) == Got([0x41, 0x2A, 0x0B], [])
  {
    var bs: seq<byte> := [0x41, 0x2A, 0x0B];
    assert bs == [0x41] + [0x2A, 0x0B] && [0x0B] + [] == [0x0B] && [0x2A] + [0x0B] == [0x2A, 0x0B];
    ShortOpcode(0x41, [0x2A, 0x0B]);
    ShortOpcode(0x0B, []);
    assert EncS(42) == [0x2A] == Enc(I32, 42);
    SignedReads(I32, 42, [0x0B]);
    hide RdOpcode, RdLeb, Enc, EncS;
    assert bs[..3] == bs;
  }

  lemma SampleRefs()
    ensures RefsOk(Sample())
  {
  }

  lemma SampleCustoms()
    ensures forall c :: c in Sample().customs ==> CustomOk(|Sample().funcs|, c)
  {
  }

  lemma {:induction false} SampleGood()
    ensures Good(Sample())
  {
    SampleImports();
    SampleFuncs();
    SampleSpaces();
    SampleRefs();
    SampleCustoms();
    SampleSizes();
    hide ImportsOk, FuncsOk, SpacesOk, RefsOk, CustomOk, SizesFit, Sample;
  }

  lemma {:induction false} SampleSizes()
    ensures Resolved(Sample()) && NumsFit(Sample()) && SizesFit(Sample())
  {
    ImportsAre();
    hide Contents, BodyBytes, WrCustomBody, WrAssocs, Resolved, NumsFit;
    BodyIs();
    NamesAre();
    AssocsAre();
    forall id: byte ensures |Contents(Sample(), id)| < TWO32 { SmallContents(id); }
  }

  lemma SmallContents(id: byte)
    ensures Resolved(Sample()) && NumsFit(Sample()) && |Contents(Sample(), id)| < 128
  {
    ContentsAre();
    hide Contents, Sample, Resolved, NumsFit;
    if id < 1 || id > 12 { OtherContents(Sample(), id); }
  }

  lemma OtherContents(m: Mod, id: byte)
    requires Resolved(m) && NumsFit(m) && (id < 1 || id > 12)
    ensures Contents(m, id) == []
  {
  }

  /** The bytes are what the module is written as, and they are read as the module. */
  lemma {:induction false} SampleExact()
    ensures EncodeModule(Sample()) == Some(SampleBytes()) && DecodeModule(SampleBytes()) == Some(Sample())
  {
    hide *;
    SampleWritten();
    SampleGood();
    RoundTrips(Sample());
  }
}
