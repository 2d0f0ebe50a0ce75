/** Each written section takes the decoder from one stage of a module to the next. */
module CodecSteps {
  import opened Bytes
  import opened Leb128
  import opened LebProof
  import opened Codec
  import opened CodecInst
  import opened CodecModule
  import opened CodecParts
  import opened CodecSections
  import opened CodecRound
  import opened CodecStages

  lemma TypesDecode(st: State, sigs: seq<Sig>)
    requires sigs != [] && Back(RdSig, WrSig, sigs)
    ensures Section(1, st, Counted(WrSig, sigs)) == Some(st.(m := st.m.(sigs := st.m.sigs + sigs)))
  {
    hide RdVec, Whole, Counted;
  }

  lemma ImportsDecode(st: State, es: seq<Entry>)
    requires es != [] && Back((b: seq<byte>) => RdEntry(|st.m.sigs|, b), WrEntry, es)
    ensures Section(2, st, Counted(WrEntry, es)) == Some(st.(m := AddEntries(st.m, es)))
  {
    hide RdVec, Whole, Counted, AddEntries, RdEntry;
  }

  lemma FunctionsDecode(st: State, sigs: seq<nat>)
    requires sigs != [] && Back((b: seq<byte>) => RdIdx(|st.m.sigs|, b), WrU32, sigs)
    requires st.m.nums.funcs == |st.m.funcs|
    ensures Section(3, st, Counted(WrU32, sigs)) == Some(st.(m := st.m.(funcs := st.m.funcs + BareFuncs(sigs))))
  {
    hide RdVec, Whole, Counted, BareFuncs, RdIdx;
  }

  lemma TablesDecode(st: State, ts: seq<Table>)
    requires ts != [] && Back(RdTable, WrTable, ts) && st.m.nums.tables == |st.m.tables|
    ensures Section(4, st, Counted(WrTable, ts)) == Some(st.(m := st.m.(tables := st.m.tables + ts)))
  {
    hide RdVec, Whole, Counted;
  }

  lemma {:induction false} MemoryDecode(st: State, l: Limits)
    requires LimitsOk(l) && st.m.mems == []
    ensures Counted(WrLimits, [l]) != []
    ensures Section(5, st, Counted(WrLimits, [l])) == Some(st.(m := st.m.(mems := [l])))
  {
    var body := WrLimits(l);
    assert WrMany(WrLimits, [l]) == body by {
      assert [l][1..] == [];
      assert body + [] == body;
    }
    U32Reads(1, body);
    LimitsRead(l, []);
    assert body + [] == body;
    hide RdU32, WrU32, RdLimits, WrLimits, WrMany;
  }

  lemma GlobalsDecode(st: State, gs: seq<Global>)
    requires gs != [] && Back(RdGlobal, WrGlobal, gs) && st.m.nums.globals == |st.m.globals|
    ensures Section(6, st, Counted(WrGlobal, gs)) == Some(st.(m := st.m.(globals := st.m.globals + gs)))
  {
    hide RdVec, Whole, Counted;
  }

  lemma ExportsDecode(st: State, es: seq<Export<nat>>)
    requires es != [] && Back((b: seq<byte>) => RdExport(EnvOf(st.m), b), WrExport, es)
    ensures Section(7, st, Counted(WrExport, es)) == Some(st.(m := st.m.(exports := st.m.exports + es)))
  {
    hide RdVec, Whole, Counted, RdExport;
  }

  lemma StartDecode(st: State, f: nat)
    requires f < |st.m.funcs| && f < TWO32
    ensures Section(8, st, WrU32(f)) == Some(st.(m := st.m.(start := Some(f))))
  {
    IdxReads(|st.m.funcs|, f, []);
    assert WrU32(f) + [] == WrU32(f);
    hide RdIdx, WrU32;
  }

  lemma ElemsDecode(st: State, es: seq<Elem<nat>>)
    requires es != [] && Back((b: seq<byte>) => RdElem(|st.m.funcs|, b), WrElem, es)
    ensures Section(9, st, Counted(WrElem, es)) == Some(st.(m := st.m.(elems := st.m.elems + es)))
  {
    hide RdVec, Whole, Counted, RdElem;
  }

  lemma DatacountDecode(st: State, n: nat)
    requires n < TWO32
    ensures Section(12, st, WrU32(n)) == Some(State(st.m.(hasDatacount := true, datas := st.m.datas + Unreads(n)), n))
  {
    U32Reads(n, []);
    assert WrU32(n) + [] == WrU32(n);
    hide RdU32, WrU32, Unreads;
  }

  lemma Dispatch(st: State, bs: seq<byte>)
    ensures DecodeCode(st.m, bs).Some? ==> Section(10, st, bs) == Some(st.(m := DecodeCode(st.m, bs).value))
    ensures DecodeData(st, bs).Some? ==> Section(11, st, bs) == Some(st.(m := DecodeData(st, bs).value))
  {
    hide DecodeCode, DecodeData;
  }

  lemma CodeDecodes(m: Mod, bodies: seq<Body<nat>>, bs: seq<byte>)
    requires |m.funcs| == m.nums.funcs + |bodies|
    requires Whole(RdMany((b: seq<byte>) => RdBody(EnvOf(m), b), |bodies|, RdU32(bs).rest)) == Some(bodies)
    ensures DecodeCode(m, bs) == Some(m.(funcs := WithBodies(m.funcs, m.nums.funcs, bodies)))
  {
    hide RdMany, Whole, WithBodies, RdBody, RdU32, EnvOf;
  }

  lemma CodeDecode(st: State, bodies: seq<Body<nat>>)
    requires bodies != [] && Back((b: seq<byte>) => RdBody(EnvOf(st.m), b), WrBody, bodies) && |bodies| < TWO32
    requires |st.m.funcs| == st.m.nums.funcs + |bodies|
    ensures Section(10, st, Counted(WrBody, bodies))
         == Some(st.(m := st.m.(funcs := WithBodies(st.m.funcs, st.m.nums.funcs, bodies))))
  {
    hide *;
    var bs := Counted(WrBody, bodies);
    VecIsMany((b: seq<byte>) => RdBody(EnvOf(st.m), b), WrBody, bodies);
    CodeDecodes(st.m, bodies, bs);
    Dispatch(st, bs);
  }

  lemma DataDecodes(st: State, ds: seq<Data<nat>>, bs: seq<byte>)
    requires if st.m.hasDatacount then st.declared == |ds| == |st.m.datas| else st.m.datas == []
    requires RdU32(bs).val == |ds|
    requires Whole(RdMany((b: seq<byte>) => RdData(|st.m.mems|, b), |ds|, RdU32(bs).rest)) == Some(ds)
    ensures DecodeData(st, bs) == Some(st.m.(datas := ds))
  {
    hide RdMany, Whole, RdData, RdU32;
  }

  lemma DataDecode(st: State, ds: seq<Data<nat>>)
    requires ds != [] && Back((b: seq<byte>) => RdData(|st.m.mems|, b), WrData, ds) && |ds| < TWO32
    requires if st.m.hasDatacount then st.declared == |ds| == |st.m.datas| else st.m.datas == []
    ensures Section(11, st, Counted(WrData, ds)) == Some(st.(m := st.m.(datas := ds)))
  {
    hide *;
    var bs := Counted(WrData, ds);
    VecIsMany((b: seq<byte>) => RdData(|st.m.mems|, b), WrData, ds);
    DataDecodes(st, ds, bs);
    Dispatch(st, bs);
  }

  /** A counted list starts with its count. */
  lemma {:induction false} VecIsMany<T(!new)>(rd: seq<byte> -> Res<T>, wr: T -> seq<byte>, xs: seq<T>)
    requires xs != [] && |xs| < TWO32 && Back(rd, wr, xs)
    ensures var n := RdU32(Counted(wr, xs)); n.val == |xs| && Whole(RdMany(rd, |xs|, n.rest)) == Some(xs)
  {
    U32Reads(|xs|, WrMany(wr, xs));
    hide RdU32, WrU32, RdMany, WrMany;
  }

  // ----- stage by stage -----

  lemma MovesBy(m: Mod, k: nat, id: byte, body: seq<byte>)
    requires k > 0 && (body == [] ==> Stage(m, k) == Stage(m, k - 1))
    requires body != [] ==> Section(id, Stage(m, k - 1), body) == Some(Stage(m, k))
    ensures Moves(m, k, id, body)
  {
    hide Stage, Section;
  }

  /** A stage with one field longer. */
  lemma StageTypes(m: Mod)
    ensures Stage(m, 1) == Stage(m, 0).(m := Stage(m, 0).m.(sigs := Stage(m, 0).m.sigs + m.sigs))
    ensures m.sigs == [] ==> Stage(m, 1) == Stage(m, 0)
  {
    assert [] + m.sigs == m.sigs;
  }

  lemma CanonSigs(m: Mod)
    requires Good(m)
    ensures |m.sigs| < TWO32 && forall s :: s in m.sigs ==> SigOk(s)
  {
    hide ImportsOk, FuncsOk, RefsOk, SizesFit, CustomOk, SigOk, TableOk, LimitsOk, InitOk;
  }

  lemma Step1(m: Mod)
    requires Good(m)
    ensures Moves(m, 1, 1, Counted(WrSig, m.sigs))
  {
    hide *;
    CanonSigs(m);
    SigsBack(m.sigs);
    StageTypes(m);
    BackEmpty(RdSig, WrSig, m.sigs);
    if m.sigs != [] { TypesDecode(Stage(m, 0), m.sigs); }
    MovesBy(m, 1, 1, Counted(WrSig, m.sigs));
  }

  lemma BackEmpty<T(!new)>(rd: seq<byte> -> Res<T>, wr: T -> seq<byte>, xs: seq<T>)
    requires Back(rd, wr, xs)
    ensures Counted(wr, xs) == [] <==> xs == []
  {
    hide RdVec, Whole, WrVec;
  }

  lemma StageFuncs(m: Mod)
    requires m.nums.funcs <= |m.funcs|
    ensures var st, sigs := Stage(m, 2), SigsOf(m.funcs[m.nums.funcs..]);
      && st.m.nums.funcs == |st.m.funcs| && st.m.sigs == m.sigs
      && Stage(m, 3) == st.(m := st.m.(funcs := st.m.funcs + BareFuncs(sigs)))
      && (sigs == [] ==> Stage(m, 3) == st)
  {
    BareSplit(m.funcs, m.nums.funcs);
    hide Bared, BareFuncs;
    assert m.nums.funcs == |m.funcs| ==> Bared(m.funcs)[..|m.funcs|] == Bared(m.funcs);
  }

  lemma BareSplit(fs: seq<Func<nat>>, n: nat)
    requires n <= |fs|
    ensures Bared(fs)[..n] + BareFuncs(SigsOf(fs[n..])) == Bared(fs)
  {
  }

  lemma CanonFuncs(m: Mod)
    requires Good(m)
    ensures NumsFit(m) && Resolved(m) && |m.funcs| - m.nums.funcs < TWO32
    ensures forall i :: i in SigsOf(m.funcs[m.nums.funcs..]) ==> i < |m.sigs| && i < TWO32
  {
    hide SpacesOk, RefsOk, SizesFit, CustomOk, BodyOk, EntryOk, ImportsInOrder;
    var fs := m.funcs[m.nums.funcs..];
    assert forall f :: f in fs ==> f in m.funcs;
    assert forall j :: 0 <= j < |fs| ==> fs[j] in m.funcs;
  }

  lemma Step3(m: Mod)
    requires Good(m)
    ensures NumsFit(m) && Moves(m, 3, 3, Counted(WrU32, SigsOf(m.funcs[m.nums.funcs..])))
  {
    hide *;
    CanonFuncs(m);
    FitNums(m);
    var sigs := SigsOf(m.funcs[m.nums.funcs..]);
    StageFuncs(m);
    IdxsBack(|m.sigs|, sigs);
    BackEmpty((b: seq<byte>) => RdIdx(|m.sigs|, b), WrU32, sigs);
    if sigs != [] { FunctionsDecode(Stage(m, 2), sigs); }
    MovesBy(m, 3, 3, Counted(WrU32, sigs));
  }

  lemma FitNums(m: Mod)
    requires NumsFit(m)
    ensures m.nums.funcs <= |m.funcs| && m.nums.tables <= |m.tables|
    ensures m.nums.mems <= |m.mems| && m.nums.globals <= |m.globals|
  {
  }

  lemma SplitAt<T>(xs: seq<T>, n: nat)
    requires n <= |xs|
    ensures xs[..n] + xs[n..] == xs && (xs[n..] == [] ==> xs[..n] == xs)
  {
  }

  lemma StageTables(m: Mod)
    requires m.nums.tables <= |m.tables|
    ensures var st, ts := Stage(m, 3), m.tables[m.nums.tables..];
      && st.m.nums.tables == |st.m.tables|
      && Stage(m, 4) == st.(m := st.m.(tables := st.m.tables + ts)) && (ts == [] ==> Stage(m, 4) == st)
  {
    hide Bared;
    SplitAt(m.tables, m.nums.tables);
  }

  lemma CanonTables(m: Mod)
    requires Good(m)
    ensures NumsFit(m) && |m.tables| - m.nums.tables < TWO32 && forall t :: t in m.tables[m.nums.tables..] ==> TableOk(t)
  {
    hide FuncsOk, RefsOk, SizesFit, CustomOk, SigOk, TableOk, LimitsOk, InitOk, EntryOk, ImportsInOrder;
  }

  lemma Step4(m: Mod)
    requires Good(m)
    ensures NumsFit(m) && Moves(m, 4, 4, Counted(WrTable, m.tables[m.nums.tables..]))
  {
    hide *;
    CanonTables(m);
    FitNums(m);
    var ts := m.tables[m.nums.tables..];
    StageTables(m);
    TablesBack(ts);
    BackEmpty(RdTable, WrTable, ts);
    if ts != [] { TablesDecode(Stage(m, 3), ts); }
    MovesBy(m, 4, 4, Counted(WrTable, ts));
  }

  lemma StageMems(m: Mod)
    requires m.nums.mems <= |m.mems|
    ensures m.mems[m.nums.mems..] == [] ==> Stage(m, 5) == Stage(m, 4)
    ensures m.nums.mems == 0 && |m.mems| == 1 ==>
      Stage(m, 4).m.mems == [] && Stage(m, 5) == Stage(m, 4).(m := Stage(m, 4).m.(mems := [m.mems[0]]))
  {
    hide Bared;
    SplitAt(m.mems, m.nums.mems);
    assert |m.mems| == 1 ==> m.mems == [m.mems[0]];
  }

  lemma CanonMems(m: Mod)
    requires Good(m)
    ensures NumsFit(m) && (m.nums.mems == |m.mems| || (m.nums.mems == 0 && |m.mems| == 1))
    ensures forall l :: l in m.mems ==> LimitsOk(l)
  {
    hide FuncsOk, RefsOk, SizesFit, CustomOk, SigOk, TableOk, LimitsOk, InitOk, EntryOk, ImportsInOrder;
  }

  lemma Step5(m: Mod)
    requires Good(m)
    ensures NumsFit(m) && Moves(m, 5, 5, Counted(WrLimits, m.mems[m.nums.mems..]))
  {
    hide *;
    CanonMems(m);
    FitNums(m);
    StageMems(m);
    var ls := m.mems[m.nums.mems..];
    if ls != [] {
      assert ls == [m.mems[0]];
      MemoryDecode(Stage(m, 4), m.mems[0]);
    } else {
      NothingCounted(WrLimits);
    }
    MovesBy(m, 5, 5, Counted(WrLimits, ls));
  }

  lemma NothingCounted<T>(wr: T -> seq<byte>)
    ensures Counted(wr, []) == []
  {
  }

  lemma StageGlobals(m: Mod)
    requires m.nums.globals <= |m.globals|
    ensures var st, gs := Stage(m, 5), m.globals[m.nums.globals..];
      && st.m.nums.globals == |st.m.globals|
      && Stage(m, 6) == st.(m := st.m.(globals := st.m.globals + gs)) && (gs == [] ==> Stage(m, 6) == st)
  {
    hide Bared;
    SplitAt(m.globals, m.nums.globals);
  }

  lemma CanonGlobals(m: Mod)
    requires Good(m)
    ensures NumsFit(m) && |m.globals| - m.nums.globals < TWO32 && forall g :: g in m.globals[m.nums.globals..] ==> InitOk(g.init)
  {
    hide FuncsOk, RefsOk, SizesFit, CustomOk, SigOk, TableOk, LimitsOk, InitOk, EntryOk, ImportsInOrder;
    var n := m.nums.globals;
    assert forall j :: 0 <= j < |m.globals[n..]| ==> m.globals[n..][j] == m.globals[n + j];
  }

  lemma Step6(m: Mod)
    requires Good(m)
    ensures NumsFit(m) && Moves(m, 6, 6, Counted(WrGlobal, m.globals[m.nums.globals..]))
  {
    hide *;
    CanonGlobals(m);
    FitNums(m);
    var gs := m.globals[m.nums.globals..];
    StageGlobals(m);
    GlobalsBack(gs);
    BackEmpty(RdGlobal, WrGlobal, gs);
    if gs != [] { GlobalsDecode(Stage(m, 5), gs); }
    MovesBy(m, 6, 6, Counted(WrGlobal, gs));
  }

  /** After the sections that declare things all index spaces but that of data segments are complete. */
  lemma SameSpaces(m: Mod, k: nat)
    requires 6 <= k <= 12
    ensures var e, f := EnvOf(Stage(m, k).m), EnvOf(m);
      e.sigs == f.sigs && e.funcs == f.funcs && e.tables == f.tables && e.mems == f.mems && e.globals == f.globals
    ensures k == 10 ==> EnvOf(Stage(m, k).m) == CodeEnv(m)
    ensures |Stage(m, k).m.funcs| == |m.funcs| && |Stage(m, k).m.mems| == |m.mems|
  {
  }

  lemma ExportsSame(e: Env, f: Env, es: seq<Export<nat>>)
    requires e.funcs == f.funcs && e.tables == f.tables && e.mems == f.mems && e.globals == f.globals
    requires forall x :: x in es ==> ExportOk(e, x)
    ensures forall x :: x in es ==> ExportOk(f, x)
  {
  }

  lemma StageExports(m: Mod)
    ensures Stage(m, 7) == Stage(m, 6).(m := Stage(m, 6).m.(exports := Stage(m, 6).m.exports + m.exports))
    ensures m.exports == [] ==> Stage(m, 7) == Stage(m, 6)
  {
    hide Bared;
    assert [] + m.exports == m.exports;
  }

  lemma CanonRefs(m: Mod)
    requires Good(m)
    ensures RefsOk(m)
  {
    hide ImportsOk, SpacesOk, RefsOk, SizesFit, CustomOk, BodyOk;
  }

  lemma RefLists(m: Mod)
    requires RefsOk(m)
    ensures |m.exports| < TWO32 && (forall e :: e in m.exports ==> ExportOk(EnvOf(m), e))
    ensures m.start.Some? ==> m.start.value < |m.funcs| && m.start.value < TWO32
    ensures |m.elems| < TWO32 && (forall e :: e in m.elems ==> ElemOk(|m.funcs|, e))
    ensures |m.datas| < TWO32 && (forall d :: d in m.datas ==> DataOk(|m.mems|, d))
  {
    hide ExportOk, ElemOk, DataOk;
  }

  lemma Step7(m: Mod)
    requires Good(m)
    ensures Moves(m, 7, 7, Counted(WrExport, m.exports))
  {
    hide *;
    CanonRefs(m);
    RefLists(m);
    StageExports(m);
    SameSpaces(m, 6);
    var env := EnvOf(Stage(m, 6).m);
    ExportsSame(EnvOf(m), env, m.exports);
    ExportsBack(env, m.exports);
    BackEmpty((b: seq<byte>) => RdExport(env, b), WrExport, m.exports);
    if m.exports != [] { ExportsDecode(Stage(m, 6), m.exports); }
    MovesBy(m, 7, 7, Counted(WrExport, m.exports));
  }

  lemma StageStart(m: Mod)
    ensures m.start.Some? ==> Stage(m, 8) == Stage(m, 7).(m := Stage(m, 7).m.(start := Some(m.start.value)))
    ensures m.start.None? ==> Stage(m, 8) == Stage(m, 7)
  {
    hide Bared;
  }

  lemma U32Written(f: nat)
    ensures WrU32(f) != []
  {
  }

  lemma Step8(m: Mod)
    requires Good(m)
    ensures Moves(m, 8, 8, if m.start.Some? then WrU32(m.start.value) else [])
  {
    hide *;
    CanonRefs(m);
    RefLists(m);
    StageStart(m);
    SameSpaces(m, 7);
    if m.start.Some? {
      U32Written(m.start.value);
      StartDecode(Stage(m, 7), m.start.value);
    }
    MovesBy(m, 8, 8, if m.start.Some? then WrU32(m.start.value) else []);
  }

  lemma StageElems(m: Mod)
    ensures Stage(m, 9) == Stage(m, 8).(m := Stage(m, 8).m.(elems := Stage(m, 8).m.elems + m.elems))
    ensures m.elems == [] ==> Stage(m, 9) == Stage(m, 8)
  {
    hide Bared;
    assert [] + m.elems == m.elems;
  }

  lemma Step9(m: Mod)
    requires Good(m)
    ensures Moves(m, 9, 9, Counted(WrElem, m.elems))
  {
    hide *;
    CanonRefs(m);
    RefLists(m);
    StageElems(m);
    SameSpaces(m, 8);
    ElemsBack(|m.funcs|, m.elems);
    BackEmpty((b: seq<byte>) => RdElem(|m.funcs|, b), WrElem, m.elems);
    if m.elems != [] { ElemsDecode(Stage(m, 8), m.elems); }
    MovesBy(m, 9, 9, Counted(WrElem, m.elems));
  }

  lemma StageCount(m: Mod)
    ensures var st, n := Stage(m, 9), |m.datas|;
      && (m.hasDatacount ==>
            Stage(m, 10) == State(st.m.(hasDatacount := true, datas := st.m.datas + Unreads(n)), n))
      && (!m.hasDatacount ==> Stage(m, 10) == st)
  {
    hide Bared;
    assert [] + Unreads(|m.datas|) == Unreads(|m.datas|);
    hide Unreads;
  }

  lemma Step10(m: Mod)
    requires Good(m)
    ensures Moves(m, 10, 12, if m.hasDatacount then WrU32(|m.datas|) else [])
  {
    hide *;
    CanonRefs(m);
    RefLists(m);
    StageCount(m);
    U32Written(|m.datas|);
    if m.hasDatacount { DatacountDecode(Stage(m, 9), |m.datas|); }
    MovesBy(m, 10, 12, if m.hasDatacount then WrU32(|m.datas|) else []);
  }

  // ----- bodies -----

  lemma CanonBodies(m: Mod)
    requires Good(m)
    ensures NumsFit(m) && |m.funcs| - m.nums.funcs < TWO32
    ensures forall b :: b in Bodies(m.funcs[m.nums.funcs..]) ==> BodyOk(CodeEnv(m), b) && |BodyBytes(b)| < TWO32
    ensures forall i :: 0 <= i < m.nums.funcs ==> BodyOf(m.funcs[i]) == Body([], [])
  {
    hide SpacesOk, RefsOk, CustomOk, BodyOk, EntryOk, ImportsInOrder, BodyBytes, Contents, WrCustomBody, WrAssocs;
    var fs := m.funcs[m.nums.funcs..];
    assert forall j :: 0 <= j < |fs| ==> fs[j] in m.funcs && Bodies(fs)[j] == BodyOf(fs[j]);
  }

  lemma StageBodies(m: Mod)
    requires m.nums.funcs <= |m.funcs|
    requires forall i :: 0 <= i < m.nums.funcs ==> BodyOf(m.funcs[i]) == Body([], [])
    ensures var st, bodies := Stage(m, 10), Bodies(m.funcs[m.nums.funcs..]);
      && |st.m.funcs| == st.m.nums.funcs + |bodies|
      && Stage(m, 11) == st.(m := st.m.(funcs := WithBodies(st.m.funcs, st.m.nums.funcs, bodies)))
      && (bodies == [] ==> Stage(m, 11) == st)
  {
    BodiesPut(m.funcs, m.nums.funcs);
    hide Bared, WithBodies, Unreads, Bodies;
  }

  lemma BodiesPut(fs: seq<Func<nat>>, n: nat)
    requires n <= |fs| && forall i :: 0 <= i < n ==> BodyOf(fs[i]) == Body([], [])
    ensures WithBodies(Bared(fs), n, Bodies(fs[n..])) == fs
    ensures n == |fs| ==> Bared(fs) == fs
  {
    forall i | 0 <= i < |fs| ensures Bared(fs)[i] == Func(fs[i].sig, [], []) {}
    forall i | 0 <= i < n ensures fs[i] == Bared(fs)[i] {
      assert BodyOf(fs[i]) == Body([], []);
    }
  }

  lemma Step11(m: Mod)
    requires Good(m)
    ensures NumsFit(m) && Moves(m, 11, 10, Counted(WrBody, Bodies(m.funcs[m.nums.funcs..])))
  {
    hide *;
    CanonBodies(m);
    FitNums(m);
    var bodies := Bodies(m.funcs[m.nums.funcs..]);
    StageBodies(m);
    SameSpaces(m, 10);
    BodiesBack(CodeEnv(m), bodies);
    BackEmpty((b: seq<byte>) => RdBody(CodeEnv(m), b), WrBody, bodies);
    if bodies != [] { CodeDecode(Stage(m, 10), bodies); }
    MovesBy(m, 11, 10, Counted(WrBody, bodies));
  }

  lemma StageData(m: Mod)
    ensures var st := Stage(m, 11);
      && (if st.m.hasDatacount then st.declared == |m.datas| == |st.m.datas| else st.m.datas == [])
      && Stage(m, 12) == st.(m := st.m.(datas := m.datas))
      && (m.datas == [] ==> Stage(m, 12) == st)
  {
    hide Bared;
    assert m.datas == [] ==> Unreads(|m.datas|) == [];
  }

  lemma Step12(m: Mod)
    requires Good(m)
    ensures Moves(m, 12, 11, Counted(WrData, m.datas))
  {
    hide *;
    CanonRefs(m);
    RefLists(m);
    StageData(m);
    SameSpaces(m, 11);
    DatasBack(|m.mems|, m.datas);
    BackEmpty((b: seq<byte>) => RdData(|m.mems|, b), WrData, m.datas);
    if m.datas != [] { DataDecode(Stage(m, 11), m.datas); }
    MovesBy(m, 12, 11, Counted(WrData, m.datas));
  }
}
