/** Decoding an encoded module gives the module. */
module CodecTrip {
  import opened Bytes
  import opened Leb128
  import opened LebProof
  import opened Codec
  import opened CodecInst
  import opened CodecModule
  import opened CodecParts
  import opened CodecSections
  import opened CodecRound
  import opened CodecStages
  import opened CodecSteps

  // ----- imports -----

  /** The module when the first `j` imports have been read. */
  function ImportStage(m: Mod, j: nat): Mod
    requires j <= |m.imports|
  {
    var n := NumsOf(m.imports[..j]);
    Stage(m, 1).m.(
      imports := m.imports[..j], nums := n,
      funcs := Upto(Bared(m.funcs), false, true, n.funcs), tables := Upto(m.tables, false, true, n.tables),
      mems := Upto(m.mems, false, true, n.mems), globals := Upto(m.globals, false, true, n.globals))
  }

  /** The imports so far are no more than the declarations of their kind. */
  predicate Covered(m: Mod, j: nat)
    requires j <= |m.imports|
  {
    var n := NumsOf(m.imports[..j]);
    n.funcs <= |m.funcs| && n.tables <= |m.tables| && n.mems <= |m.mems| && n.globals <= |m.globals|
  }

  lemma NumsStep(imports: seq<Import<nat>>, j: nat)
    requires j < |imports|
    ensures NumsOf(imports[..j + 1]) == Bump(NumsOf(imports[..j]), imports[j].kind)
  {
    assert imports[..j + 1][..j] == imports[..j];
    hide Bump;
  }

  lemma {:induction false} ImportAdded(m: Mod, j: nat)
    requires j < |m.imports| && Covered(m, j) && InSpace(m, m.imports[j])
    requires m.imports[j].desc == CountOf(NumsOf(m.imports[..j]), m.imports[j].kind)
    ensures Covered(m, j + 1)
    ensures AddEntry(ImportStage(m, j), EntryOf(m, m.imports[j])) == ImportStage(m, j + 1)
  {
    hide NumsOf, Bared, Stage, Upto;
    NumsStep(m.imports, j);
    assert m.imports[..j + 1] == m.imports[..j] + [m.imports[j]];
    ImportsUpto(m, j);
    var d := m.imports[j].desc;
    match m.imports[j].kind
    case FuncK => BaredNext(m.funcs, d); UptoIs(Bared(m.funcs), d + 1);
    case TableK => TakeNext(m.tables, d); UptoIs(m.tables, d + 1);
    case MemK => TakeNext(m.mems, d); UptoIs(m.mems, d + 1);
    case GlobalK => TakeNext(m.globals, d); UptoIs(m.globals, d + 1);
  }

  lemma ImportsUpto(m: Mod, j: nat)
    requires j < |m.imports| && Covered(m, j)
    ensures var n := NumsOf(m.imports[..j]);
      && Upto(Bared(m.funcs), false, true, n.funcs) == Bared(m.funcs)[..n.funcs] && Upto(m.tables, false, true, n.tables) == m.tables[..n.tables]
      && Upto(m.mems, false, true, n.mems) == m.mems[..n.mems] && Upto(m.globals, false, true, n.globals) == m.globals[..n.globals]
  {
    hide NumsOf;
  }

  lemma UptoIs<T>(xs: seq<T>, n: nat)
    requires n <= |xs|
    ensures Upto(xs, false, true, n) == xs[..n]
  {
  }

  lemma BaredNext(fs: seq<Func<nat>>, d: nat)
    requires d < |fs|
    ensures Bared(fs)[..d + 1] == Bared(fs)[..d] + [Func(fs[d].sig, [], [])]
  {
  }

  lemma TakeNext<T>(xs: seq<T>, d: nat)
    requires d < |xs|
    ensures xs[..d + 1] == xs[..d] + [xs[d]]
  {
  }

  lemma {:induction false} ImportsAdded(m: Mod, j: nat)
    requires j <= |m.imports| && ImportsInOrder(m.imports) && Resolved(m)
    ensures Covered(m, j) && AddEntries(Stage(m, 1).m, Entries(m)[..j]) == ImportStage(m, j)
  {
    hide AddEntry, EntryOf, InSpace, CountOf;
    if j == 0 {
      NoImports(m);
    } else {
      ImportsAdded(m, j - 1);
      ImportAdded(m, j - 1);
      hide ImportStage, Covered, Stage;
      assert Entries(m)[..j][..j - 1] == Entries(m)[..j - 1];
    }
  }

  lemma NoImports(m: Mod)
    requires Resolved(m)
    ensures Covered(m, 0) && AddEntries(Stage(m, 1).m, Entries(m)[..0]) == ImportStage(m, 0)
  {
    hide Bared;
    assert m.imports[..0] == [] && Entries(m)[..0] == [];
    assert Bared(m.funcs)[..0] == [] && m.tables[..0] == [] && m.mems[..0] == [] && m.globals[..0] == [];
  }

  lemma StageImports(m: Mod)
    requires m.nums == NumsOf(m.imports) && NumsFit(m)
    ensures ImportStage(m, |m.imports|) == Stage(m, 2).m && Stage(m, 2).declared == Stage(m, 1).declared == 0
    ensures m.imports == [] ==> Stage(m, 2) == Stage(m, 1)
  {
    hide Bared;
    assert m.imports[..|m.imports|] == m.imports;
    assert Bared(m.funcs)[..0] == [] && m.tables[..0] == [] && m.mems[..0] == [] && m.globals[..0] == [];
  }

  lemma CanonImports(m: Mod)
    requires Good(m)
    ensures |m.imports| < TWO32 && ImportsInOrder(m.imports) && m.nums == NumsOf(m.imports) && NumsFit(m) && Resolved(m)
    ensures forall e :: e in Entries(m) ==> EntryOk(|m.sigs|, e)
  {
    hide FuncsOk, SpacesOk, RefsOk, SizesFit, CustomOk, EntryOk, ImportsInOrder, NumsOf, NumsFit, Resolved;
  }

  lemma Step2(m: Mod)
    requires Good(m)
    ensures Resolved(m) && Moves(m, 2, 2, Counted(WrEntry, Entries(m)))
  {
    hide *;
    CanonImports(m);
    ImportsAdded(m, |m.imports|);
    StageImports(m);
    var es := Entries(m);
    assert es[..|m.imports|] == es;
    StageSigs(m);
    EntriesBack(|m.sigs|, es);
    BackEmpty((b: seq<byte>) => RdEntry(|m.sigs|, b), WrEntry, es);
    if es != [] { ImportsDecode(Stage(m, 1), es); }
    MovesBy(m, 2, 2, Counted(WrEntry, es));
  }

  lemma StageSigs(m: Mod)
    ensures Stage(m, 1).m.sigs == m.sigs
  {
  }

  // ----- all sections -----

  lemma ContentsAre(m: Mod)
    requires Resolved(m) && NumsFit(m)
    ensures Contents(m, 1) == Counted(WrSig, m.sigs) && Contents(m, 2) == Counted(WrEntry, Entries(m))
    ensures Contents(m, 3) == Counted(WrU32, SigsOf(m.funcs[m.nums.funcs..]))
    ensures Contents(m, 4) == Counted(WrTable, m.tables[m.nums.tables..])
    ensures Contents(m, 5) == Counted(WrLimits, m.mems[m.nums.mems..])
    ensures Contents(m, 6) == Counted(WrGlobal, m.globals[m.nums.globals..])
    ensures Contents(m, 7) == Counted(WrExport, m.exports)
    ensures Contents(m, 8) == if m.start.Some? then WrU32(m.start.value) else []
    ensures Contents(m, 9) == Counted(WrElem, m.elems)
    ensures Contents(m, 10) == Counted(WrBody, Bodies(m.funcs[m.nums.funcs..]))
    ensures Contents(m, 11) == Counted(WrData, m.datas)
    ensures Contents(m, 12) == if m.hasDatacount then WrU32(|m.datas|) else []
  {
    hide Counted, SigsOf, Bodies, Entries, WrU32, NumsFit, Resolved;
  }

  lemma OrderIs()
    ensures |ORDER| == 12
    ensures ORDER[0] == 1 && ORDER[1] == 2 && ORDER[2] == 3 && ORDER[3] == 4 && ORDER[4] == 5 && ORDER[5] == 6
    ensures ORDER[6] == 7 && ORDER[7] == 8 && ORDER[8] == 9 && ORDER[9] == 12 && ORDER[10] == 10 && ORDER[11] == 11
  {
  }

  lemma AllMove(m: Mod, k: nat)
    requires Good(m) && 1 <= k <= 12
    ensures Resolved(m) && NumsFit(m) && Moves(m, k, ORDER[k - 1], Contents(m, ORDER[k - 1]))
  {
    OrderIs();
    hide *;
    Step2(m);
    Step3(m);
    FitNums(m);
    ContentsAre(m);
    if k == 1 { Step1(m); }
    if k == 4 { Step4(m); }
    if k == 5 { Step5(m); }
    if k == 6 { Step6(m); }
    if k == 7 { Step7(m); }
    if k == 8 { Step8(m); }
    if k == 9 { Step9(m); }
    if k == 10 { Step10(m); }
    if k == 11 { Step11(m); }
    if k == 12 { Step12(m); }
  }

  lemma MoveRead(m: Mod, k: nat, id: byte, body: seq<byte>, rest: seq<byte>)
    requires k > 0 && Moves(m, k, id, body) && |body| < TWO32
    ensures RdSections(Stage(m, k - 1), WrSection(id, body) + rest) == RdSections(Stage(m, k), rest)
  {
    hide Stage, Section, RdSections;
    if body == [] {
      assert WrSection(id, body) + rest == rest;
    } else {
      SectionReads(Stage(m, k - 1), id, body, rest);
    }
  }

  lemma {:induction false} SectionsRead(m: Mod, k: nat, rest: seq<byte>)
    requires Good(m) && k <= 12 && Resolved(m) && NumsFit(m)
    ensures RdSections(Stage(m, 0), WrSections(m, k) + rest) == RdSections(Stage(m, k), rest)
  {
    OrderIs();
    hide *;
    if k == 0 {
      NoSections(m, rest);
    } else {
      AllMove(m, k);
      SizeOf(m, ORDER[k - 1]);
      SectionsRead(m, k - 1, WrSection(ORDER[k - 1], Contents(m, ORDER[k - 1])) + rest);
      MoveRead(m, k, ORDER[k - 1], Contents(m, ORDER[k - 1]), rest);
      SectionsStep(m, k, rest);
    }
  }

  lemma NoSections(m: Mod, rest: seq<byte>)
    requires Resolved(m) && NumsFit(m)
    ensures WrSections(m, 0) + rest == rest
  {
  }

  lemma SectionsStep(m: Mod, k: nat, rest: seq<byte>)
    requires Resolved(m) && NumsFit(m) && 1 <= k <= 12
    ensures WrSections(m, k) + rest
         == WrSections(m, k - 1) + (WrSection(ORDER[k - 1], Contents(m, ORDER[k - 1])) + rest)
  {
    hide Contents, WrSection;
  }

  lemma SizeOf(m: Mod, id: byte)
    requires Good(m) && Resolved(m) && NumsFit(m)
    ensures |Contents(m, id)| < TWO32
  {
    hide Canonical, Contents;
  }

  // ----- custom sections -----

  lemma {:induction false} CustomReads(m: Mod, c: Custom<nat>)
    requires CustomOk(|m.funcs|, c) && |c.names| < TWO32 && |WrAssocs(c.names)| < TWO32
    ensures WrCustomBody(c) != []
    ensures DecodeCustom(m, WrCustomBody(c)) == Some(m.(customs := m.customs + [c]))
  {
    U32Written(|c.name|);
    if c.name == NAME_SECTION {
      var nm := NameMap(c.subs, c.names);
      NameReads(c.name, WrNames(nm));
      NamesRead(|m.funcs|, nm);
    } else {
      NameReads(c.name, c.bytes);
    }
    hide RdName, RdNames, WrNames, WrU32, NamesOk;
  }

  lemma CustomSection(st: State, c: Custom<nat>)
    requires CustomOk(|st.m.funcs|, c) && |c.names| < TWO32 && |WrAssocs(c.names)| < TWO32
    ensures WrCustomBody(c) != []
    ensures Section(0, st, WrCustomBody(c)) == Some(st.(m := st.m.(customs := st.m.customs + [c])))
  {
    CustomReads(st.m, c);
    hide DecodeCustom, WrCustomBody, CustomOk, WrAssocs;
  }

  predicate CustomFits(funcs: nat, c: Custom<nat>) {
    CustomOk(funcs, c) && |WrCustomBody(c)| < TWO32 && |c.names| < TWO32 && |WrAssocs(c.names)| < TWO32
  }

  function WithCustoms(st: State, cs: seq<Custom<nat>>): State {
    st.(m := st.m.(customs := st.m.customs + cs))
  }

  lemma {:induction false} CustomsRead(st: State, cs: seq<Custom<nat>>)
    requires forall c :: c in cs ==> CustomFits(|st.m.funcs|, c)
    ensures RdSections(st, WrCustoms(cs)) == Some(WithCustoms(st, cs))
    decreases |cs|
  {
    if cs == [] {
      assert st.m.customs + cs == st.m.customs;
    } else {
      CustomStep(st, cs);
      hide *;
      CustomsRead(WithCustoms(st, [cs[0]]), cs[1..]);
    }
  }

  lemma CustomStep(st: State, cs: seq<Custom<nat>>)
    requires cs != [] && forall c :: c in cs ==> CustomFits(|st.m.funcs|, c)
    ensures var st' := WithCustoms(st, [cs[0]]);
      && RdSections(st, WrCustoms(cs)) == RdSections(st', WrCustoms(cs[1..]))
      && WithCustoms(st', cs[1..]) == WithCustoms(st, cs)
      && forall c :: c in cs[1..] ==> CustomFits(|st'.m.funcs|, c)
  {
    hide CustomOk, WrCustomBody, WrAssocs, Section, RdSections, WrSection;
    assert CustomFits(|st.m.funcs|, cs[0]);
    CustomSection(st, cs[0]);
    SectionReads(st, 0, WrCustomBody(cs[0]), WrCustoms(cs[1..]));
    assert st.m.customs + [cs[0]] + cs[1..] == st.m.customs + cs;
    hide CustomFits, WrCustoms;
  }

  // ----- the round trip -----

  lemma CanonCustoms(m: Mod)
    requires Good(m)
    ensures Resolved(m) && NumsFit(m) && forall c :: c in m.customs ==> CustomFits(|m.funcs|, c)
  {
    hide FuncsOk, SpacesOk, RefsOk, CustomOk, ImportsInOrder, NumsFit, Resolved, EntryOk, Contents, BodyBytes;
    hide WrCustomBody, WrAssocs;
  }

  lemma StageEnd(m: Mod)
    ensures Stage(m, 0) == State(EMPTY, 0) && Stage(m, 12).m == m.(customs := [])
    ensures WithCustoms(Stage(m, 12), m.customs).m == m
  {
    assert [] + m.customs == m.customs;
    hide Bared;
  }

  lemma CanonEncodes(m: Mod)
    requires Canonical(m)
    ensures Encodable(m)
  {
    NumsTotal(m.imports);
    hide SpacesOk, CustomOk, ImportsInOrder, NumsFit, Resolved, EntryOk, ImmOk, LocalsOk, KindOf, Entries;
    forall f: Func<nat> | f in m.funcs
      ensures forall k :: 0 <= k < |f.code| ==> KindOf(f.code[k].op).Some?
    {
      var b := BodyOf(f);
      assert BodyOk(CodeEnv(m), b);
      assert forall k :: 0 <= k < |b.code| ==> InstOk(CodeEnv(m), b.code[k]);
    }
  }

  lemma {:induction false} NumsTotal(imports: seq<Import<nat>>)
    ensures var n := NumsOf(imports); |imports| == n.funcs + n.tables + n.mems + n.globals
  {
    if imports != [] { NumsTotal(imports[..|imports| - 1]); }
  }

  /** A well-formed module can be encoded, and decoding the bytes gives the same module. */
  lemma {:induction false} RoundTrips(m: Mod)
    requires Good(m)
    ensures EncodeModule(m).Some? && DecodeModule(EncodeModule(m).value) == Some(m)
  {
    GoodIsCanonical(m);
    CanonEncodes(m);
    CanonCustoms(m);
    hide *;
    var customs := WrCustoms(m.customs);
    var body := WrSections(m, 12) + customs;
    SectionsRead(m, 12, customs);
    StageEnd(m);
    CustomsRead(Stage(m, 12), m.customs);
    HeaderRead(m, body);
  }

  lemma GoodIsCanonical(m: Mod)
    requires Good(m)
    ensures Canonical(m)
  {
    hide Canonical, SizesFit;
  }

  lemma HeaderRead(m: Mod, body: seq<byte>)
    requires Encodable(m) && body == WrSections(m, 12) + WrCustoms(m.customs)
    requires RdSections(State(EMPTY, 0), body).Some?
    ensures EncodeModule(m).Some?
    ensures DecodeModule(EncodeModule(m).value) == Some(RdSections(State(EMPTY, 0), body).value.m)
  {
    hide WrSections, WrCustoms, RdSections, Encodable, RdU32Raw, ToLE;
    PowerTable();
    assert EncodeModule(m).value == ToLE(MAGIC, 4) + (ToLE(VERSION, 4) + body);
    RawReads(MAGIC, 4, ToLE(VERSION, 4) + body);
    RawReads(VERSION, 4, body);
  }
}
