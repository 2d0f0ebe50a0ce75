/**
 * What the decoder accepts is well-formed, provided the sections come in their order: then encoding
 * and decoding again gives the same module.
 */
module CodecSound {
  import opened Bytes
  import opened Leb128
  import opened LebProof
  import opened Codec
  import opened CodecInst
  import opened CodecModule
  import opened CodecParts
  import opened CodecSections
  import opened CodecRound

  // ----- the order of sections -----

  /** The place of a section in the order they must come in. */
  function Rank(id: byte): nat {
    if id == 12 then 10 else if id == 10 then 11 else if id == 11 then 12 else id
  }

  /** Custom sections anywhere, every other section at most once and in its order. */
  predicate InOrder(bs: seq<byte>, last: nat)
    decreases |bs|
  {
    if bs == [] then true
    else
      var len := RdU32(bs[1..]);
      if len.val > |len.rest| then true
      else (bs[0] == 0 || Rank(bs[0]) > last) && InOrder(len.rest[len.val..], if bs[0] == 0 then last else Rank(bs[0]))
  }

  /** One section in front, if it is there whole. */
  lemma InOrderStep(bs: seq<byte>, last: nat, n: nat, tail: seq<byte>)
    requires bs != [] && RdU32(bs[1..]) == Got(n, tail) && n <= |tail| < |bs|
    ensures InOrder(bs, last) <==>
      (bs[0] == 0 || Rank(bs[0]) > last) && InOrder(tail[n..], if bs[0] == 0 then last else Rank(bs[0]))
  {
    hide RdU32, Rank;
  }

  // ----- the parts of a module, when the sections up to rank `r` have been read -----

  predicate SigsInv(sigs: seq<Sig>, r: nat) {
    |sigs| < TWO32 && (forall s :: s in sigs ==> SigOk(s)) && (r < 1 ==> sigs == [])
  }

  predicate ImportsInv(m: Mod, r: nat) {
    ImportsOk(m) && (r < 2 ==> m.imports == [])
  }

  predicate FuncsInv(env: Env, funcs: seq<Func<nat>>, n: nat, r: nat) {
    && |funcs| - n < TWO32
    && (forall f :: f in funcs ==> f.sig < env.sigs && f.sig < TWO32 && BodyOk(env, BodyOf(f)))
    && (r < 3 ==> |funcs| == n)
    && (r < 11 ==> forall f :: f in funcs ==> BodyOf(f) == Body([], []))
  }

  predicate TablesInv(tables: seq<Table>, n: nat, r: nat) {
    |tables| - n < TWO32 && (forall t :: t in tables ==> TableOk(t)) && (r < 4 ==> |tables| == n)
  }

  predicate MemsInv(mems: seq<Limits>, n: nat, r: nat) {
    && (|mems| == n || (n == 0 && |mems| == 1)) && (forall l :: l in mems ==> LimitsOk(l))
    && (r < 5 ==> |mems| == n)
  }

  ghost predicate GlobalsInv(globals: seq<Global>, n: nat, r: nat) {
    && |globals| - n < TWO32 && (forall i :: 0 <= n <= i < |globals| ==> InitOk(globals[i].init))
    && (r < 6 ==> |globals| == n)
  }

  predicate RefsInv(env: Env, exports: seq<Export<nat>>, start: Option<nat>, elems: seq<Elem<nat>>, r: nat) {
    && |exports| < TWO32 && (forall e :: e in exports ==> ExportOk(env, e)) && (r < 7 ==> exports == [])
    && (start.Some? ==> start.value < env.funcs && start.value < TWO32) && (r < 8 ==> start.None?)
    && |elems| < TWO32 && (forall e :: e in elems ==> ElemOk(env.funcs, e)) && (r < 9 ==> elems == [])
  }

  /** Announced segments are there but not read until the data section comes. */
  predicate DatasInv(has: bool, declared: nat, datas: seq<Data<nat>>, mems: nat, r: nat) {
    && |datas| < TWO32
    && (r < 10 ==> !has)
    && (has ==> declared == |datas|)
    && (r < 12 ==> datas == if has then Unreads(|datas|) else [])
    && (forall d :: d in datas ==> d.Unread? || DataOk(mems, d))
  }

  /** A custom section, which the encoder drops if it is empty. */
  predicate CustomSound(funcs: nat, c: Custom<nat>) {
    && |c.name| < TWO32
    && (c.name == NAME_SECTION ==> c.bytes == [] && NamesOk(funcs, NameMap(c.subs, c.names)))
    && (c.name != NAME_SECTION ==> c.subs == [] && c.names == [])
  }

  predicate CustomsInv(funcs: nat, customs: seq<Custom<nat>>) {
    forall c :: c in customs ==> CustomSound(funcs, c)
  }

  ghost predicate Inv(st: State, r: nat) {
    var m := st.m;
    && SigsInv(m.sigs, r) && ImportsInv(m, r) && FuncsInv(CodeEnv(m), m.funcs, m.nums.funcs, r)
    && TablesInv(m.tables, m.nums.tables, r) && MemsInv(m.mems, m.nums.mems, r)
    && GlobalsInv(m.globals, m.nums.globals, r) && RefsInv(EnvOf(m), m.exports, m.start, m.elems, r)
    && DatasInv(m.hasDatacount, st.declared, m.datas, |m.mems|, r) && CustomsInv(|m.funcs|, m.customs)
  }

  lemma NothingYet()
    ensures Inv(State(EMPTY, 0), 0)
  {
    assert Unreads(0) == [];
  }

  lemma Later(st: State, r: nat, q: nat)
    requires Inv(st, r) && r <= q
    ensures Inv(st, q)
  {
    hide ImportsOk, BodyOk, SigOk, TableOk, LimitsOk, InitOk, ExportOk, ElemOk, DataOk, CustomSound, Unreads, BodyOf;
  }

  /** Every item of a list that was read whole is well-formed. */
  lemma {:induction false} VecHas<T(!new)>(rd: seq<byte> -> Res<T>, good: T -> bool, bs: seq<byte>)
    requires forall b: seq<byte> :: rd(b).Got? ==> good(rd(b).val)
    ensures var w := Whole(RdVec(rd, bs)); w.Some? ==> |w.value| < TWO32 && forall x :: x in w.value ==> good(x)
  {
    var n := RdU32(bs);
    ManyHave(rd, good, n.val, n.rest);
    hide RdU32, RdMany;
  }

  // ----- one section after the other -----

  /** Before the imports there is nothing. */
  lemma Bare0(st: State)
    requires Inv(st, 1)
    ensures st.m.imports == [] && st.m.nums == Counts(0, 0, 0, 0) && st.m.funcs == [] && st.m.tables == []
    ensures st.m.mems == [] && st.m.globals == [] && st.m.exports == [] && st.m.start.None? && st.m.elems == []
    ensures !st.m.hasDatacount && st.m.datas == []
  {
    hide BodyOk, SigOk, TableOk, LimitsOk, InitOk, ExportOk, ElemOk, DataOk, CustomSound, BodyOf, EntryOk;
  }

  lemma {:induction false} TypesSound(st: State, bs: seq<byte>)
    requires Inv(st, 0) && DecodeTypes(st.m, bs).Some?
    ensures Inv(st.(m := DecodeTypes(st.m, bs).value), 1)
  {
    forall b: seq<byte> | RdSig(b).Got? ensures SigOk(RdSig(b).val) { SigSound(b); }
    VecHas(RdSig, SigOk, bs);
    Later(st, 0, 1);
    Bare0(st);
    hide RdVec, Whole, RdSig, SigOk, CustomsInv, DatasInv, GlobalsInv, MemsInv, TablesInv;
    TypesAdded(st, DecodeTypes(st.m, bs).value.sigs);
  }

  lemma TypesAdded(st: State, ss: seq<Sig>)
    requires Inv(st, 0) && Inv(st, 1) && |ss| < TWO32 && forall s :: s in ss ==> SigOk(s)
    requires st.m.imports == [] && st.m.funcs == [] && st.m.exports == [] && st.m.elems == [] && st.m.start.None?
    ensures st.m.sigs + ss == ss && Inv(st.(m := st.m.(sigs := ss)), 1)
  {
    hide CustomsInv, DatasInv, GlobalsInv, MemsInv, TablesInv, SigOk;
    assert [] + ss == ss;
  }

  // ----- imports -----

  /** All declarations so far are imported ones. */
  predicate OnlyImports(m: Mod) {
    && m.nums.funcs == |m.funcs| && m.nums.tables == |m.tables| && m.nums.mems == |m.mems|
    && m.nums.globals == |m.globals|
  }

  lemma {:induction false} OrderSnoc(imports: seq<Import<nat>>, imp: Import<nat>)
    requires ImportsInOrder(imports) && imp.desc == CountOf(NumsOf(imports), imp.kind)
    ensures ImportsInOrder(imports + [imp]) && NumsOf(imports + [imp]) == Bump(NumsOf(imports), imp.kind)
  {
    var all := imports + [imp];
    assert all[..|imports|] == imports;
    hide Bump;
    forall j | 0 <= j < |all| ensures all[j].desc == CountOf(NumsOf(all[..j]), all[j].kind) {
      if j < |imports| { assert all[..j] == imports[..j]; }
    }
  }

  lemma {:induction false} EntryKept(m: Mod, e: Entry, imp: Import<nat>)
    requires InSpace(m, imp)
    ensures InSpace(AddEntry(m, e), imp) && EntryOf(AddEntry(m, e), imp) == EntryOf(m, imp)
  {
  }

  lemma {:induction false} EntryNew(sigs: nat, m: Mod, e: Entry)
    requires OnlyImports(m) && EntryOk(sigs, e)
    ensures var m' := AddEntry(m, e);
      && OnlyImports(m') && m'.imports != []
      && var imp := m'.imports[|m'.imports| - 1];
         InSpace(m', imp) && EntryOf(m', imp) == e && imp.desc == CountOf(m.nums, imp.kind) && imp.kind == ItemKind(e.item)
  {
    hide SigOk, TableOk, LimitsOk;
  }

  lemma {:induction false} EntriesKept(m: Mod, e: Entry)
    requires Resolved(m) && OnlyImports(m) && EntryOk(|m.sigs|, e)
    requires forall x :: x in Entries(m) ==> EntryOk(|m.sigs|, x)
    ensures Resolved(AddEntry(m, e)) && forall x :: x in Entries(AddEntry(m, e)) ==> EntryOk(|m.sigs|, x)
  {
    var m' := AddEntry(m, e);
    EntryNew(|m.sigs|, m, e);
    assert m'.imports[..|m.imports|] == m.imports && |m'.imports| == |m.imports| + 1;
    hide AddEntry, EntryOf, EntryOk, InSpace, OnlyImports, Entries;
    forall j | 0 <= j < |m'.imports|
      ensures InSpace(m', m'.imports[j]) && EntryOk(|m.sigs|, EntryOf(m', m'.imports[j]))
    {
      if j < |m.imports| {
        OldEntry(m, j);
        assert m'.imports[j] == m.imports[j];
        EntryKept(m, e, m.imports[j]);
      }
    }
    EntriesAre(m');
  }

  lemma OldEntry(m: Mod, j: nat)
    requires Resolved(m) && j < |m.imports|
    ensures InSpace(m, m.imports[j]) && EntryOf(m, m.imports[j]) in Entries(m)
  {
    assert Entries(m)[j] == EntryOf(m, m.imports[j]);
  }

  lemma EntriesAre(m: Mod)
    requires Resolved(m)
    ensures forall x :: x in Entries(m) ==> exists j: nat :: j < |m.imports| && EntryAt(m, j, x)
  {
    hide EntryOf;
    forall x | x in Entries(m) ensures exists j: nat :: j < |m.imports| && EntryAt(m, j, x) {
      var j: nat :| j < |m.imports| && Entries(m)[j] == x;
      assert EntryAt(m, j, x);
    }
  }

  predicate EntryAt(m: Mod, j: nat, x: Entry) {
    j < |m.imports| && InSpace(m, m.imports[j]) && EntryOf(m, m.imports[j]) == x
  }

  lemma {:induction false} AddedImports(m: Mod, e: Entry)
    requires ImportsOk(m) && OnlyImports(m) && EntryOk(|m.sigs|, e) && |m.imports| + 1 < TWO32
    ensures ImportsOk(AddEntry(m, e)) && OnlyImports(AddEntry(m, e))
  {
    EntryNew(|m.sigs|, m, e);
    AddedShape(m, e);
    var m' := AddEntry(m, e);
    hide AddEntry, EntryOf, EntryOk, NumsOf, ImportsInOrder, InSpace, Bump, BodyOf, Entries, Resolved, OnlyImports;
    OrderSnoc(m.imports, m'.imports[|m.imports|]);
    AddedBare(m, e);
    EntriesKept(m, e);
    OnlyFits(m');
  }

  lemma AddedShape(m: Mod, e: Entry)
    ensures var m' := AddEntry(m, e);
      && |m'.imports| == |m.imports| + 1 && m'.imports == m.imports + [m'.imports[|m.imports|]]
      && m'.nums == Bump(m.nums, ItemKind(e.item)) && m'.sigs == m.sigs
  {
  }

  lemma OnlyFits(m: Mod)
    requires OnlyImports(m)
    ensures NumsFit(m) && m.nums.funcs == |m.funcs|
  {
  }

  lemma AddedBare(m: Mod, e: Entry)
    requires OnlyImports(m) && forall i :: 0 <= i < m.nums.funcs ==> BodyOf(m.funcs[i]) == Body([], [])
    ensures forall i :: 0 <= i < |AddEntry(m, e).funcs| ==> BodyOf(AddEntry(m, e).funcs[i]) == Body([], [])
  {
  }

  lemma CustomsGrow(m: nat, n: nat, cs: seq<Custom<nat>>)
    requires CustomsInv(m, cs) && m <= n
    ensures CustomsInv(n, cs)
  {
  }

  lemma EmptyBodies(env: Env, funcs: seq<Func<nat>>, n: nat, r: nat)
    requires |funcs| - n < TWO32 && (r < 3 ==> |funcs| == n)
    requires forall f :: f in funcs ==> f.sig < env.sigs && f.sig < TWO32 && BodyOf(f) == Body([], [])
    ensures FuncsInv(env, funcs, n, r)
  {
    assert BodyOk(env, Body([], []));
    hide BodyOk;
  }

  /** Nothing but imported declarations so far. */
  ghost predicate ImportPhase(st: State) {
    && Inv(st, 2) && OnlyImports(st.m)
    && st.m.exports == [] && st.m.start.None? && st.m.elems == [] && st.m.datas == [] && !st.m.hasDatacount
  }

  lemma AddFunctions(m: Mod, e: Entry)
    requires OnlyImports(m) && EntryOk(|m.sigs|, e) && FuncsInv(CodeEnv(m), m.funcs, m.nums.funcs, 2)
    ensures var m' := AddEntry(m, e); FuncsInv(CodeEnv(m'), m'.funcs, m'.nums.funcs, 2)
  {
    var m' := AddEntry(m, e);
    EmptyBodies(CodeEnv(m'), m'.funcs, m'.nums.funcs, 2);
    hide BodyOk, TableOk, LimitsOk;
  }

  lemma AddSpaces(m: Mod, e: Entry)
    requires OnlyImports(m) && EntryOk(|m.sigs|, e)
    requires TablesInv(m.tables, m.nums.tables, 2) && MemsInv(m.mems, m.nums.mems, 2)
    requires GlobalsInv(m.globals, m.nums.globals, 2)
    ensures var m' := AddEntry(m, e);
      && TablesInv(m'.tables, m'.nums.tables, 2) && MemsInv(m'.mems, m'.nums.mems, 2)
      && GlobalsInv(m'.globals, m'.nums.globals, 2)
  {
    hide TableOk, LimitsOk, InitOk;
  }

  lemma AddKeeps(st: State, e: Entry)
    requires ImportPhase(st) && EntryOk(|st.m.sigs|, e) && |st.m.imports| + 1 < TWO32
    ensures ImportPhase(st.(m := AddEntry(st.m, e)))
  {
    AddedImports(st.m, e);
    AddFunctions(st.m, e);
    AddSpaces(st.m, e);
    CustomsGrow(|st.m.funcs|, |AddEntry(st.m, e).funcs|, st.m.customs);
    hide ImportsOk, FuncsInv, TablesInv, MemsInv, GlobalsInv, CustomsInv, SigsInv, EntryOk;
    AddRest(st, e);
  }

  /** What an import does not touch. */
  lemma AddRest(st: State, e: Entry)
    ensures var m, m' := st.m, AddEntry(st.m, e);
      && m'.sigs == m.sigs && m'.exports == m.exports && m'.start == m.start && m'.elems == m.elems
      && m'.datas == m.datas && m'.hasDatacount == m.hasDatacount && m'.customs == m.customs
      && |m'.imports| == |m.imports| + 1
  {
  }

  lemma {:induction false} AddAll(st: State, es: seq<Entry>)
    requires ImportPhase(st) && |st.m.imports| + |es| < TWO32 && forall e :: e in es ==> EntryOk(|st.m.sigs|, e)
    ensures ImportPhase(st.(m := AddEntries(st.m, es)))
    ensures AddEntries(st.m, es).sigs == st.m.sigs && |AddEntries(st.m, es).imports| == |st.m.imports| + |es|
    decreases |es|
  {
    hide ImportPhase, EntryOk, AddEntry;
    if es != [] {
      var init := es[..|es| - 1];
      AddAll(st, init);
      var st' := st.(m := AddEntries(st.m, init));
      AddKeeps(st', es[|es| - 1]);
      AddRest(st', es[|es| - 1]);
    }
  }

  lemma StartImports(st: State)
    requires Inv(st, 1)
    ensures ImportPhase(st)
  {
    Later(st, 1, 2);
    Bare0(st);
    hide Inv;
  }

  lemma {:induction false} ImportsSound(st: State, bs: seq<byte>)
    requires Inv(st, 1) && DecodeImports(st.m, bs).Some?
    ensures Inv(st.(m := DecodeImports(st.m, bs).value), 2)
  {
    var n := |st.m.sigs|;
    forall b: seq<byte> | RdEntry(n, b).Got? ensures EntryOk(n, RdEntry(n, b).val) { EntrySound(n, b); }
    VecHas((b: seq<byte>) => RdEntry(n, b), (e: Entry) => EntryOk(n, e), bs);
    StartImports(st);
    Bare0(st);
    hide RdVec, Whole, RdEntry, EntryOk, AddEntries, Inv;
    AddAll(st, Whole(RdVec((b: seq<byte>) => RdEntry(n, b), bs)).value);
  }

  // ----- definitions -----

  /** Every index space of `m` is the front of that of `n`, bodies aside. */
  predicate Extends(m: Mod, n: Mod) {
    && n.imports == m.imports && n.nums == m.nums && n.sigs == m.sigs
    && |m.funcs| <= |n.funcs| && (forall i :: 0 <= i < |m.funcs| ==> n.funcs[i].sig == m.funcs[i].sig)
    && (forall i :: 0 <= i < m.nums.funcs && i < |m.funcs| ==> n.funcs[i] == m.funcs[i])
    && m.tables <= n.tables && m.mems <= n.mems && m.globals <= n.globals
  }

  lemma {:induction false} ExtendsEntry(m: Mod, n: Mod, imp: Import<nat>)
    requires Extends(m, n) && InSpace(m, imp)
    ensures InSpace(n, imp) && EntryOf(n, imp) == EntryOf(m, imp)
  {
  }

  lemma {:induction false} ImportsExtend(m: Mod, n: Mod)
    requires ImportsOk(m) && Extends(m, n)
    ensures ImportsOk(n)
  {
    hide EntryOf, EntryOk, NumsOf, ImportsInOrder, BodyOf, Entries;
    assert NumsFit(n);
    forall j | 0 <= j < |n.imports| ensures InSpace(n, n.imports[j]) && EntryOk(|n.sigs|, EntryOf(n, n.imports[j])) {
      OldEntry(m, j);
      ExtendsEntry(m, n, m.imports[j]);
    }
    hide Extends, InSpace;
    assert Resolved(n) by { assert forall j :: 0 <= j < |n.imports| ==> InSpace(n, n.imports[j]); }
    EntriesAre(n);
  }

  lemma {:induction false} FunctionsSound(st: State, bs: seq<byte>)
    requires Inv(st, 2) && DecodeFunctions(st.m, bs).Some?
    ensures Inv(st.(m := DecodeFunctions(st.m, bs).value), 3)
  {
    var n := |st.m.sigs|;
    VecHas((b: seq<byte>) => RdIdx(n, b), (i: nat) => i < n && i < TWO32, bs);
    var sigs := Whole(RdVec((b: seq<byte>) => RdIdx(n, b), bs)).value;
    hide RdVec, Whole, RdIdx, Inv, BareFuncs;
    FunctionsAdded(st, sigs);
  }

  lemma FunctionsAdded(st: State, sigs: seq<nat>)
    requires Inv(st, 2) && |sigs| < TWO32 && forall s :: s in sigs ==> s < |st.m.sigs| && s < TWO32
    requires st.m.nums.funcs == |st.m.funcs|
    ensures Inv(st.(m := st.m.(funcs := st.m.funcs + BareFuncs(sigs))), 3)
  {
    Later(st, 2, 3);
    var m := st.m;
    var n := m.(funcs := m.funcs + BareFuncs(sigs));
    assert Extends(m, n);
    FunctionsBare(m, n, sigs);
    NoRefs(m, n, 2);
    hide FuncsInv, RefsInv, ImportsOk, Extends, SigsInv, TablesInv, MemsInv, GlobalsInv, DatasInv, CustomsInv, BareFuncs;
    ImportsExtend(m, n);
    CustomsGrow(|m.funcs|, |n.funcs|, m.customs);
  }

  lemma FunctionsBare(m: Mod, n: Mod, sigs: seq<nat>)
    requires FuncsInv(CodeEnv(m), m.funcs, m.nums.funcs, 2) && n == m.(funcs := m.funcs + BareFuncs(sigs))
    requires |sigs| < TWO32 && forall s :: s in sigs ==> s < |m.sigs| && s < TWO32
    ensures FuncsInv(CodeEnv(n), n.funcs, n.nums.funcs, 3)
  {
    forall f | f in n.funcs ensures f.sig < |m.sigs| && f.sig < TWO32 && BodyOf(f) == Body([], []) {
      if f in BareFuncs(sigs) {
        var i: nat :| i < |sigs| && BareFuncs(sigs)[i] == f;
        assert sigs[i] in sigs;
      }
    }
    EmptyBodies(CodeEnv(n), n.funcs, n.nums.funcs, 3);
  }

  /** Nothing refers to anything before the exports. */
  lemma NoRefs(m: Mod, n: Mod, r: nat)
    requires RefsInv(EnvOf(m), m.exports, m.start, m.elems, r) && r < 7
    requires n.exports == m.exports && n.start == m.start && n.elems == m.elems
    ensures RefsInv(EnvOf(n), n.exports, n.start, n.elems, r + 1)
  {
  }

  /** Bodies are empty before the code section, so they suit any index spaces. */
  lemma NoBodies(m: Mod, n: Mod, r: nat)
    requires FuncsInv(CodeEnv(m), m.funcs, m.nums.funcs, r) && 3 <= r < 11
    requires n.funcs == m.funcs && n.nums == m.nums && |n.sigs| == |m.sigs|
    ensures FuncsInv(CodeEnv(n), n.funcs, n.nums.funcs, r)
  {
    EmptyBodies(CodeEnv(n), n.funcs, n.nums.funcs, r);
    hide BodyOk;
  }

  lemma {:induction false} TablesSound(st: State, bs: seq<byte>)
    requires Inv(st, 3) && DecodeTables(st.m, bs).Some?
    ensures Inv(st.(m := DecodeTables(st.m, bs).value), 4)
  {
    forall b: seq<byte> | RdTable(b).Got? ensures TableOk(RdTable(b).val) { TableSound(b); }
    VecHas(RdTable, TableOk, bs);
    var ts := Whole(RdVec(RdTable, bs)).value;
    hide RdVec, Whole, RdTable, Inv, TableOk;
    TablesAdded(st, ts);
  }

  lemma TablesAdded(st: State, ts: seq<Table>)
    requires Inv(st, 3) && |ts| < TWO32 && (forall t :: t in ts ==> TableOk(t)) && st.m.nums.tables == |st.m.tables|
    ensures Inv(st.(m := st.m.(tables := st.m.tables + ts)), 4)
  {
    Later(st, 3, 4);
    var m := st.m;
    var n := m.(tables := m.tables + ts);
    assert Extends(m, n);
    assert TablesInv(n.tables, n.nums.tables, 4);
    NoRefs(m, n, 3);
    hide FuncsInv, RefsInv, ImportsOk, Extends, SigsInv, TablesInv, MemsInv, GlobalsInv, DatasInv, CustomsInv;
    ImportsExtend(m, n);
    NoBodies(m, n, 4);
  }

  lemma {:induction false} MemorySound(st: State, bs: seq<byte>)
    requires Inv(st, 4) && DecodeMemory(st.m, bs).Some?
    ensures Inv(st.(m := DecodeMemory(st.m, bs).value), 5)
  {
    LimitsSound(RdU32(bs).rest);
    hide RdU32, Whole, RdLimits, Inv, LimitsOk;
    MemoryAdded(st, Whole(RdLimits(RdU32(bs).rest)).value);
  }

  lemma MemoryAdded(st: State, l: Limits)
    requires Inv(st, 4) && LimitsOk(l) && st.m.mems == []
    ensures Inv(st.(m := st.m.(mems := [l])), 5)
  {
    Later(st, 4, 5);
    var m := st.m;
    var n := m.(mems := [l]);
    assert Extends(m, n);
    assert MemsInv(n.mems, n.nums.mems, 5);
    NoRefs(m, n, 4);
    assert m.datas == [];
    assert DatasInv(n.hasDatacount, st.declared, n.datas, |n.mems|, 5);
    hide FuncsInv, RefsInv, ImportsOk, Extends, SigsInv, TablesInv, MemsInv, GlobalsInv, DatasInv, CustomsInv;
    ImportsExtend(m, n);
    NoBodies(m, n, 5);
  }

  lemma {:induction false} GlobalsSound(st: State, bs: seq<byte>)
    requires Inv(st, 5) && DecodeGlobals(st.m, bs).Some?
    ensures Inv(st.(m := DecodeGlobals(st.m, bs).value), 6)
  {
    var w := Whole(RdVec(RdGlobal, bs));
    GlobalsHave(RdU32(bs).val, RdU32(bs).rest);
    hide RdMany, RdU32, RdGlobal, Inv, InitOk;
    GlobalsAdded(st, w.value);
  }

  lemma {:induction false} GlobalsHave(n: nat, bs: seq<byte>)
    ensures RdMany(RdGlobal, n, bs).Got? ==> forall g :: g in RdMany(RdGlobal, n, bs).val ==> InitOk(g.init)
    decreases n
  {
    hide InitOk, RdGlobal;
    if n > 0 {
      GlobalSound(bs);
      if RdGlobal(bs).Got? { GlobalsHave(n - 1, RdGlobal(bs).rest); }
    }
  }

  lemma GlobalsAdded(st: State, gs: seq<Global>)
    requires Inv(st, 5) && |gs| < TWO32 && (forall g :: g in gs ==> InitOk(g.init)) && st.m.nums.globals == |st.m.globals|
    ensures Inv(st.(m := st.m.(globals := st.m.globals + gs)), 6)
  {
    Later(st, 5, 6);
    var m := st.m;
    var n := m.(globals := m.globals + gs);
    hide InitOk;
    assert Extends(m, n);
    assert GlobalsInv(n.globals, n.nums.globals, 6);
    NoRefs(m, n, 5);
    hide FuncsInv, RefsInv, ImportsOk, Extends, SigsInv, TablesInv, MemsInv, GlobalsInv, DatasInv, CustomsInv;
    ImportsExtend(m, n);
    NoBodies(m, n, 6);
  }

  // ----- references -----

  lemma {:induction false} ExportsSound(st: State, bs: seq<byte>)
    requires Inv(st, 6) && DecodeExports(st.m, bs).Some?
    ensures Inv(st.(m := DecodeExports(st.m, bs).value), 7)
  {
    var env := EnvOf(st.m);
    forall b: seq<byte> | RdExport(env, b).Got? ensures ExportOk(env, RdExport(env, b).val) { ExportSound(env, b); }
    VecHas((b: seq<byte>) => RdExport(env, b), (e: Export<nat>) => ExportOk(env, e), bs);
    hide RdVec, Whole, RdExport, Inv, ExportOk;
    ExportsAdded(st, Whole(RdVec((b: seq<byte>) => RdExport(EnvOf(st.m), b), bs)).value);
  }

  lemma ExportsAdded(st: State, es: seq<Export<nat>>)
    requires Inv(st, 6) && |es| < TWO32 && forall e :: e in es ==> ExportOk(EnvOf(st.m), e)
    ensures Inv(st.(m := st.m.(exports := st.m.exports + es)), 7)
  {
    Later(st, 6, 7);
    assert st.m.exports == [];
    assert [] + es == es;
    var n := st.m.(exports := es);
    assert Extends(st.m, n);
    hide FuncsInv, ImportsOk, Extends, SigsInv, TablesInv, MemsInv, GlobalsInv, DatasInv, CustomsInv, ExportOk;
    ImportsExtend(st.m, n);
  }

  lemma {:induction false} StartSound(st: State, bs: seq<byte>)
    requires Inv(st, 7) && DecodeStart(st.m, bs).Some?
    ensures Inv(st.(m := DecodeStart(st.m, bs).value), 8)
  {
    Later(st, 7, 8);
    var n := DecodeStart(st.m, bs).value;
    assert Extends(st.m, n);
    hide FuncsInv, ImportsOk, Extends, SigsInv, TablesInv, MemsInv, GlobalsInv, DatasInv, CustomsInv, ExportOk, RdIdx;
    ImportsExtend(st.m, n);
  }

  lemma {:induction false} ElemsSound(st: State, bs: seq<byte>)
    requires Inv(st, 8) && DecodeElems(st.m, bs).Some?
    ensures Inv(st.(m := DecodeElems(st.m, bs).value), 9)
  {
    var n := |st.m.funcs|;
    forall b: seq<byte> | RdElem(n, b).Got? ensures ElemOk(n, RdElem(n, b).val) { ElemSound(n, b); }
    VecHas((b: seq<byte>) => RdElem(n, b), (e: Elem<nat>) => ElemOk(n, e), bs);
    hide RdVec, Whole, RdElem, Inv, ElemOk;
    ElemsAdded(st, Whole(RdVec((b: seq<byte>) => RdElem(n, b), bs)).value);
  }

  lemma ElemsAdded(st: State, es: seq<Elem<nat>>)
    requires Inv(st, 8) && |es| < TWO32 && forall e :: e in es ==> ElemOk(|st.m.funcs|, e)
    ensures Inv(st.(m := st.m.(elems := st.m.elems + es)), 9)
  {
    Later(st, 8, 9);
    assert st.m.elems == [];
    assert [] + es == es;
    var n := st.m.(elems := es);
    assert Extends(st.m, n);
    hide FuncsInv, ImportsOk, Extends, SigsInv, TablesInv, MemsInv, GlobalsInv, DatasInv, CustomsInv, ElemOk, ExportOk;
    ImportsExtend(st.m, n);
  }

  // ----- data and code -----

  lemma ExportsIgnoreDatas(e: Env, f: Env, exports: seq<Export<nat>>, start: Option<nat>, elems: seq<Elem<nat>>, r: nat)
    requires RefsInv(e, exports, start, elems, r) && f == e.(datas := f.datas)
    ensures RefsInv(f, exports, start, elems, r)
  {
    hide ElemOk;
    forall x | x in exports ensures ExportOk(f, x) {
      assert ExportOk(e, x);
    }
  }

  lemma {:induction false} DatacountSound(st: State, bs: seq<byte>)
    requires Inv(st, 9) && DecodeDatacount(st, bs).Some?
    ensures Inv(DecodeDatacount(st, bs).value, 10)
  {
    Later(st, 9, 10);
    var k := Whole(RdU32(bs)).value;
    var n := DecodeDatacount(st, bs).value;
    assert st.m.datas == [] && !st.m.hasDatacount;
    assert [] + Unreads(k) == Unreads(k);
    assert Extends(st.m, n.m);
    assert forall d :: d in Unreads(k) ==> d.Unread?;
    assert DatasInv(n.m.hasDatacount, n.declared, n.m.datas, |n.m.mems|, 10);
    hide Whole, RdU32, FuncsInv, ImportsOk, Extends, SigsInv, TablesInv, MemsInv, GlobalsInv, DatasInv, CustomsInv,
      RefsInv, Unreads;
    ImportsExtend(st.m, n.m);
    NoBodies(st.m, n.m, 10);
    ExportsIgnoreDatas(EnvOf(st.m), EnvOf(n.m), n.m.exports, n.m.start, n.m.elems, 10);
  }

  lemma BodiesIn(funcs: seq<Func<nat>>, first: nat, bodies: seq<Body<nat>>, env: Env, n: nat)
    requires first + |bodies| == |funcs| && FuncsInv(env, funcs, first, 10) && (forall b :: b in bodies ==> BodyOk(env, b))
    ensures FuncsInv(env, WithBodies(funcs, first, bodies), first, 11)
    ensures var r := WithBodies(funcs, first, bodies);
      && (forall i :: 0 <= i < |funcs| ==> r[i].sig == funcs[i].sig)
      && (forall i :: 0 <= i < first ==> r[i] == funcs[i])
  {
    hide BodyOk;
    var r := WithBodies(funcs, first, bodies);
    forall i | 0 <= i < |r| ensures r[i].sig == funcs[i].sig && BodyOk(env, BodyOf(r[i])) {
      assert funcs[i] in funcs;
      if i >= first {
        assert BodyOf(r[i]) == bodies[i - first];
      } else {
        assert r[i] == funcs[i];
      }
    }
    assert forall i :: 0 <= i < |r| ==> funcs[i] in funcs;
  }

  lemma BodiesHave(env: Env, k: nat, bs: seq<byte>)
    ensures var w := Whole(RdMany((b: seq<byte>) => RdBody(env, b), k, bs));
      w.Some? ==> |w.value| == k && forall b :: b in w.value ==> BodyOk(env, b)
  {
    forall b: seq<byte> | RdBody(env, b).Got? ensures BodyOk(env, RdBody(env, b).val) { BodySound(env, b); }
    hide RdBody, BodyOk;
    ManyHave((b: seq<byte>) => RdBody(env, b), (b: Body<nat>) => BodyOk(env, b), k, bs);
    hide RdMany;
  }

  lemma CodeRead(m: Mod, bs: seq<byte>) returns (bodies: seq<Body<nat>>)
    requires DecodeCode(m, bs).Some?
    ensures m.nums.funcs + |bodies| == |m.funcs| && forall b :: b in bodies ==> BodyOk(EnvOf(m), b)
    ensures DecodeCode(m, bs) == Some(m.(funcs := WithBodies(m.funcs, m.nums.funcs, bodies)))
  {
    hide RdMany, RdBody, RdU32, BodyOk, WithBodies, EnvOf, Whole;
    var k := |m.funcs| - m.nums.funcs;
    BodiesHave(EnvOf(m), k, RdU32(bs).rest);
    bodies := Whole(RdMany((b: seq<byte>) => RdBody(EnvOf(m), b), k, RdU32(bs).rest)).value;
  }

  lemma {:induction false} CodeSound(st: State, bs: seq<byte>)
    requires Inv(st, 10) && DecodeCode(st.m, bs).Some?
    ensures Inv(st.(m := DecodeCode(st.m, bs).value), 11)
  {
    hide *;
    var bodies := CodeRead(st.m, bs);
    CodeAdded(st, bodies);
  }

  lemma CodeAdded(st: State, bodies: seq<Body<nat>>)
    requires Inv(st, 10) && st.m.nums.funcs + |bodies| == |st.m.funcs| && forall b :: b in bodies ==> BodyOk(EnvOf(st.m), b)
    ensures Inv(st.(m := st.m.(funcs := WithBodies(st.m.funcs, st.m.nums.funcs, bodies))), 11)
  {
    Later(st, 10, 11);
    var m := st.m;
    var n := m.(funcs := WithBodies(m.funcs, m.nums.funcs, bodies));
    assert CodeEnv(m) == EnvOf(m);
    BodiesIn(m.funcs, m.nums.funcs, bodies, EnvOf(m), |bodies|);
    assert Extends(m, n) && EnvOf(n) == EnvOf(m) && CodeEnv(n) == CodeEnv(m);
    hide FuncsInv, ImportsOk, Extends, SigsInv, TablesInv, MemsInv, GlobalsInv, DatasInv, CustomsInv, RefsInv, WithBodies,
      BodyOk;
    ImportsExtend(m, n);
  }

  lemma DatasHave(mems: nat, k: nat, bs: seq<byte>)
    ensures var w := Whole(RdMany((b: seq<byte>) => RdData(mems, b), k, bs));
      w.Some? ==> |w.value| == k && forall d :: d in w.value ==> DataOk(mems, d)
  {
    forall b: seq<byte> | RdData(mems, b).Got? ensures DataOk(mems, RdData(mems, b).val) { DataSound(mems, b); }
    hide RdData, DataOk;
    ManyHave((b: seq<byte>) => RdData(mems, b), (d: Data<nat>) => DataOk(mems, d), k, bs);
    hide RdMany;
  }

  lemma DataRead(st: State, bs: seq<byte>) returns (ds: seq<Data<nat>>)
    requires DecodeData(st, bs).Some? && DatasInv(st.m.hasDatacount, st.declared, st.m.datas, |st.m.mems|, 11)
    ensures |ds| < TWO32 && (forall d :: d in ds ==> DataOk(|st.m.mems|, d))
    ensures st.m.hasDatacount ==> |ds| == |st.m.datas| == st.declared
    ensures DecodeData(st, bs) == Some(st.m.(datas := ds))
  {
    hide RdMany, RdData, RdU32, DataOk, Whole, Unreads;
    var n := RdU32(bs);
    var k := |st.m.datas| + (if st.m.hasDatacount then 0 else n.val);
    DatasHave(|st.m.mems|, k, n.rest);
    ds := Whole(RdMany((b: seq<byte>) => RdData(|st.m.mems|, b), k, n.rest)).value;
  }

  lemma {:induction false} DataSectionSound(st: State, bs: seq<byte>)
    requires Inv(st, 11) && DecodeData(st, bs).Some?
    ensures Inv(st.(m := DecodeData(st, bs).value), 12)
  {
    SegmentsInv(st);
    hide *;
    var ds := DataRead(st, bs);
    DataAdded(st, ds);
  }

  lemma SegmentsInv(st: State)
    requires Inv(st, 11)
    ensures DatasInv(st.m.hasDatacount, st.declared, st.m.datas, |st.m.mems|, 11)
  {
    hide ImportsOk, FuncsInv, TablesInv, MemsInv, GlobalsInv, RefsInv, DatasInv, CustomsInv, SigsInv;
  }

  lemma DataAdded(st: State, ds: seq<Data<nat>>)
    requires Inv(st, 11) && |ds| < TWO32 && (forall d :: d in ds ==> DataOk(|st.m.mems|, d))
    requires st.m.hasDatacount ==> |ds| == |st.m.datas| == st.declared
    ensures Inv(st.(m := st.m.(datas := ds)), 12)
  {
    Later(st, 11, 12);
    var m := st.m;
    var n := m.(datas := ds);
    assert Extends(m, n) && CodeEnv(n) == CodeEnv(m);
    assert DatasInv(n.hasDatacount, st.declared, n.datas, |n.mems|, 12);
    hide FuncsInv, ImportsOk, Extends, SigsInv, TablesInv, MemsInv, GlobalsInv, DatasInv, CustomsInv, RefsInv;
    ImportsExtend(m, n);
    ExportsIgnoreDatas(EnvOf(m), EnvOf(n), n.exports, n.start, n.elems, 12);
  }

  // ----- custom sections -----

  lemma {:induction false} CustomSectionSound(st: State, r: nat, bs: seq<byte>)
    requires Inv(st, r) && DecodeCustom(st.m, bs).Some?
    ensures Inv(st.(m := DecodeCustom(st.m, bs).value), r)
  {
    var m := st.m;
    var n := DecodeCustom(m, bs).value;
    var rest := RdName(bs).rest;
    NamesSound(|m.funcs|, rest, NameMap([], []));
    CustomAdded(m, n.customs[|m.customs|]);
    assert Extends(m, n);
    hide RdName, RdNames, NamesOk, FuncsInv, ImportsOk, Extends, SigsInv, TablesInv, MemsInv, GlobalsInv, DatasInv,
      CustomsInv, RefsInv;
    ImportsExtend(m, n);
  }

  lemma CustomAdded(m: Mod, c: Custom<nat>)
    ensures CustomsInv(|m.funcs|, m.customs) && CustomSound(|m.funcs|, c) ==> CustomsInv(|m.funcs|, m.customs + [c])
  {
  }

  // ----- all sections -----

  lemma {:induction false} SectionSound(id: byte, st: State, r: nat, bs: seq<byte>)
    requires Inv(st, r) && (id == 0 || Rank(id) > r) && Section(id, st, bs).Some?
    ensures Inv(Section(id, st, bs).value, if id == 0 then r else Rank(id))
  {
    hide Inv, DecodeTypes, DecodeImports, DecodeFunctions, DecodeTables, DecodeMemory, DecodeGlobals, DecodeExports,
      DecodeStart, DecodeElems, DecodeDatacount, DecodeCode, DecodeData, DecodeCustom;
    if id != 0 { Later(st, r, Rank(id) - 1); }
    if id == 0 {
      CustomSectionSound(st, r, bs);
    } else if id == 1 {
      TypesSound(st, bs);
    } else if id == 2 {
      ImportsSound(st, bs);
    } else if id == 3 {
      FunctionsSound(st, bs);
    } else if id == 4 {
      TablesSound(st, bs);
    } else if id == 5 {
      MemorySound(st, bs);
    } else if id == 6 {
      GlobalsSound(st, bs);
    } else if id == 7 {
      ExportsSound(st, bs);
    } else if id == 8 {
      StartSound(st, bs);
    } else if id == 9 {
      ElemsSound(st, bs);
    } else if id == 10 {
      CodeSound(st, bs);
    } else if id == 11 {
      DataSectionSound(st, bs);
    } else {
      DatacountSound(st, bs);
    }
  }

  lemma {:induction false} SectionsSound(st: State, r: nat, bs: seq<byte>)
    requires Inv(st, r) && InOrder(bs, r) && RdSections(st, bs).Some?
    ensures exists q: nat :: Inv(RdSections(st, bs).value, q)
    decreases |bs|
  {
    if bs == [] {
      assert Inv(RdSections(st, bs).value, r);
    } else {
      var len := RdU32(bs[1..]);
      SectionSound(bs[0], st, r, len.rest[..len.val]);
      hide Inv, Section, Rank, RdU32;
      var st' := Section(bs[0], st, len.rest[..len.val]).value;
      SectionsSound(st', if bs[0] == 0 then r else Rank(bs[0]), len.rest[len.val..]);
    }
  }

  // ----- the round trip of whatever is accepted -----

  /** Nothing was announced and then left out, and no custom section is empty. */
  predicate Complete(m: Mod) {
    (forall d :: d in m.datas ==> !d.Unread?) && (forall c :: c in m.customs ==> c.name != [] || c.bytes != [])
  }

  lemma {:induction false} CompleteIsCanonical(st: State, r: nat)
    requires Inv(st, r)
    ensures Canonical(st.m) <==> Complete(st.m)
  {
    hide ImportsOk, BodyOk, SigOk, TableOk, LimitsOk, InitOk, ExportOk, ElemOk, NamesOk, NAME_SECTION, Unreads, BodyOf;
  }

  /** The sections behind the header. */
  predicate Ordered(bs: seq<byte>) { |bs| >= 8 && InOrder(bs[8..], 0) }

  lemma {:induction false} DecodedInv(bs: seq<byte>)
    requires Ordered(bs) && DecodeModule(bs).Some?
    ensures exists st: State, r: nat :: Inv(st, r) && st.m == DecodeModule(bs).value
  {
    hide Inv, RdSections, InOrder, FromLE;
    assert bs[4..][4..] == bs[8..];
    NothingYet();
    SectionsSound(State(EMPTY, 0), 0, bs[8..]);
  }

  /**
   * For input whose sections come in their order: what the decoder accepts is well-formed if and only
   * if announced data segments are there and no custom section is empty.
   */
  lemma {:induction false} AcceptedIsCanonical(bs: seq<byte>)
    requires Ordered(bs) && DecodeModule(bs).Some?
    ensures Canonical(DecodeModule(bs).value) <==> Complete(DecodeModule(bs).value)
  {
    DecodedInv(bs);
    hide *;
    var st: State, r: nat :| Inv(st, r) && st.m == DecodeModule(bs).value;
    CompleteIsCanonical(st, r);
  }
}
