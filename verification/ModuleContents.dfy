/**
 * What an address denotes.  Edits leave every declaration that stays with its contents, put new contents
 * at new addresses, and leave the rest of the module alone.
 */
module ModuleContents {
  import opened Bytes
  import opened Codec
  import opened CodecInst
  import opened CodecModule
  import opened CodecParts
  import opened CodecSections
  import opened CodecRound
  import opened ModuleRefs
  import opened Addresses
  import opened DeepCopy
  import opened ModuleEdit
  import opened ModuleKeeps
  import opened ModuleAdds
  import opened ModuleRemoves
  import opened ModuleRuns

  datatype Content =
    | Nothing | SigC(sig: Sig) | FuncC(f: Func<Addr>) | TableC(t: Table) | MemC(l: Limits) | GlobalC(g: Global) | DataC(d: Data<Addr>)

  function ContentAt(m: Module<Addr>, s: Space, i: nat): Content {
    match s
    case SigS => if i < |m.sigs| then SigC(m.sigs[i]) else Nothing
    case FuncS => if i < |m.funcs| then FuncC(m.funcs[i]) else Nothing
    case TableS => if i < |m.tables| then TableC(m.tables[i]) else Nothing
    case MemS => if i < |m.mems| then MemC(m.mems[i]) else Nothing
    case GlobalS => if i < |m.globals| then GlobalC(m.globals[i]) else Nothing
    case DataS => if i < |m.datas| then DataC(m.datas[i]) else Nothing
  }

  /** The declaration at an address. */
  function ContentOf(o: Obj, s: Space, a: Addr): Content { ContentAt(o.m, s, IndexOf(At(o.sp, s), a)) }

  function Declared(d: Decl): Content {
    match d case FuncD(f) => FuncC(f) case TableD(t) => TableC(t) case MemD(l) => MemC(l) case GlobalD(g) => GlobalC(g)
  }

  // ----- additions -----

  predicate SameContent(o: Obj, r: Obj, s: Space, a: Addr) {
    Resolves(r.sp, s, a) && ContentOf(r, s, a) == ContentOf(o, s, a)
  }

  /** Everything that was there is there, and is what it was. */
  ghost predicate Contents(o: Obj, r: Obj) {
    forall s: Space, a: Addr :: Resolves(o.sp, s, a) ==> SameContent(o, r, s, a)
  }

  predicate SameButNames(c: Custom<Addr>, d: Custom<Addr>) { c.name == d.name && c.bytes == d.bytes && c.subs == d.subs }

  ghost predicate CustomsKept(o: Obj, r: Obj) {
    && |r.m.customs| == |o.m.customs| && r.names == o.names
    && (forall k :: 0 <= k < |o.m.customs| ==> SameButNames(o.m.customs[k], r.m.customs[k]))
    && (forall k :: 0 <= k < |o.m.customs| && o.names != Some(k) ==> r.m.customs[k].names == o.m.customs[k].names)
  }

  predicate OthersKept(o: Obj, r: Obj) {
    && r.m.start == o.m.start && r.m.elems == o.m.elems && r.m.datas == o.m.datas && r.m.hasDatacount == o.m.hasDatacount
    && o.m.exports <= r.m.exports
  }

  /** Besides what is new, the module is as it was: new imports are in front, new exports behind. */
  ghost predicate RestKept(o: Obj, r: Obj) {
    && OthersKept(o, r) && CustomsKept(o, r)
    && |r.m.imports| >= |o.m.imports| && r.m.imports[|r.m.imports| - |o.m.imports|..] == o.m.imports
    && (forall n <- NamesOf(o) :: n in NamesOf(r))
  }

  ghost predicate Adds(o: Obj, r: Obj) { Contents(o, r) && RestKept(o, r) }

  lemma AddsIf(o: Obj, r: Obj)
    requires Contents(o, r) && RestKept(o, r)
    ensures Adds(o, r)
  {
    hide Contents, RestKept;
  }

  lemma {:induction false} AddsTrans(a: Obj, b: Obj, c: Obj)
    requires Adds(a, b) && Adds(b, c)
    ensures Adds(a, c)
  {
    ContentsTrans(a, b, c);
    RestTrans(a, b, c);
    hide Contents, RestKept;
  }

  lemma ContentsTrans(a: Obj, b: Obj, c: Obj)
    requires Contents(a, b) && Contents(b, c)
    ensures Contents(a, c)
  {
    hide ContentOf, Resolves;
    forall s: Space, x: Addr | Resolves(a.sp, s, x) ensures SameContent(a, c, s, x) {
      assert SameContent(a, b, s, x);
      assert SameContent(b, c, s, x);
    }
  }

  lemma RestTrans(a: Obj, b: Obj, c: Obj)
    requires RestKept(a, b) && RestKept(b, c)
    ensures RestKept(a, c)
  {
    hide NamesOf;
    var n, k := |c.m.imports| - |b.m.imports|, |b.m.imports| - |a.m.imports|;
    assert c.m.imports[n..][k..] == c.m.imports[n + k..];
  }

  lemma {:induction false} PutContent<T>(xs: seq<Addr>, cs: seq<T>, node: Addr, c: T, front: bool, a: Addr)
    requires |xs| == |cs| && node !in xs
    ensures var j := IndexOf(Put(xs, node, front), node); j < |Put(cs, c, front)| && Put(cs, c, front)[j] == c
    ensures a in xs ==> var i, j := IndexOf(xs, a), IndexOf(Put(xs, node, front), a); j < |Put(cs, c, front)| && Put(cs, c, front)[j] == cs[i]
  {
    hide IndexOf;
    if a in xs {
      IndexPut(xs, node, front, a);
    } else {
      var n := if front then 0 else |xs|;
      IsFirst(Put(xs, node, front), node, n);
    }
    if xs != [] { IndexPut(xs, node, front, xs[0]); }
  }

  lemma {:induction false} GrowContent(o: Obj, d: Decl, node: Addr, front: bool, s: Space, a: Addr)
    requires Shaped(o.m, o.sp) && Fresh(o.sp, node)
    ensures ContentOf(Grow(o, d, node, front), SpaceOfDecl(d), node) == Declared(d)
    ensures Resolves(o.sp, s, a) ==> SameContent(o, Grow(o, d, node, front), s, a)
  {
    hide *;
    var t := SpaceOfDecl(d);
    GrowHere(o, d, node, front, if s == t then a else node);
    if s != t { GrowElsewhere(o, d, node, front, s); }
    GrownResolves(o.sp, t, node, front);
    SameIf(o, Grow(o, d, node, front), s, a);
    GrowIs(o, d, node, front);
    ContentIs(o, s, a);
    ContentIs(Grow(o, d, node, front), s, a);
  }

  lemma GrowIs(o: Obj, d: Decl, node: Addr, front: bool)
    ensures Grow(o, d, node, front).sp == Grown(o.sp, SpaceOfDecl(d), node, front)
  {
  }

  lemma ContentIs(o: Obj, s: Space, a: Addr)
    ensures ContentOf(o, s, a) == ContentAt(o.m, s, IndexOf(At(o.sp, s), a))
  {
    hide ContentAt, IndexOf;
  }

  lemma SameIf(o: Obj, r: Obj, s: Space, a: Addr)
    ensures Resolves(r.sp, s, a) && ContentOf(r, s, a) == ContentOf(o, s, a) ==> SameContent(o, r, s, a)
  {
    hide ContentOf, Resolves;
  }

  /** In the space that grows. */
  lemma {:induction false} GrowHere(o: Obj, d: Decl, node: Addr, front: bool, a: Addr)
    requires Shaped(o.m, o.sp) && Fresh(o.sp, node)
    ensures ContentOf(Grow(o, d, node, front), SpaceOfDecl(d), node) == Declared(d)
    ensures Resolves(o.sp, SpaceOfDecl(d), a) ==>
      ContentOf(Grow(o, d, node, front), SpaceOfDecl(d), a) == ContentOf(o, SpaceOfDecl(d), a)
  {
    hide IndexOf, Put;
    assert node !in At(o.sp, SpaceOfDecl(d));
    match d
    case FuncD(f) => PutContent(o.sp.funcs, o.m.funcs, node, f, front, a);
    case TableD(x) => PutContent(o.sp.tables, o.m.tables, node, x, front, a);
    case MemD(l) => PutContent(o.sp.mems, o.m.mems, node, l, front, a);
    case GlobalD(g) => PutContent(o.sp.globals, o.m.globals, node, g, front, a);
  }

  /** The other spaces do not change. */
  lemma GrowElsewhere(o: Obj, d: Decl, node: Addr, front: bool, s: Space)
    requires s != SpaceOfDecl(d)
    ensures At(Grow(o, d, node, front).sp, s) == At(o.sp, s)
    ensures forall i: nat :: ContentAt(Grow(o, d, node, front).m, s, i) == ContentAt(o.m, s, i)
  {
    hide Put;
  }

  lemma {:induction false} GrowAdds(o: Obj, d: Decl, node: Addr, front: bool)
    requires Shaped(o.m, o.sp) && Fresh(o.sp, node)
    ensures Adds(o, Grow(o, d, node, front)) && ContentOf(Grow(o, d, node, front), SpaceOfDecl(d), node) == Declared(d)
    ensures Resolves(Grow(o, d, node, front).sp, SpaceOfDecl(d), node)
  {
    var r := Grow(o, d, node, front);
    GrowContent(o, d, node, front, FuncS, node);
    forall s: Space, a: Addr | Resolves(o.sp, s, a) ensures SameContent(o, r, s, a) {
      GrowContent(o, d, node, front, s, a);
    }
    GrownResolves(o.sp, SpaceOfDecl(d), node, front);
    GrowRest(o, d, node, front);
    hide ContentOf, SameContent, RestKept, Fresh, Resolves;
  }

  lemma GrowRest(o: Obj, d: Decl, node: Addr, front: bool)
    ensures RestKept(o, Grow(o, d, node, front))
  {
    hide Put;
    var r := Grow(o, d, node, front);
    assert r.m.imports == o.m.imports && r.m.customs == o.m.customs && r.m.exports == o.m.exports;
  }

  /** Where nothing but lists outside the index spaces changes, every address denotes what it did. */
  lemma SpacesSame(o: Obj, r: Obj)
    requires r.sp == o.sp && r.m.sigs == o.m.sigs && r.m.funcs == o.m.funcs && r.m.tables == o.m.tables
    requires r.m.mems == o.m.mems && r.m.globals == o.m.globals && r.m.datas == o.m.datas
    ensures Contents(o, r) && forall s: Space, a: Addr :: ContentOf(r, s, a) == ContentOf(o, s, a)
  {
    hide IndexOf;
  }

  lemma ExportAdds(o: Obj, name: seq<byte>, k: CodecModule.Kind, a: Addr)
    ensures Adds(o, AddExport(o, name, k, a)) && AddExport(o, name, k, a).m.exports == o.m.exports + [Export(name, k, a)]
    ensures AddExport(o, name, k, a).sp == o.sp && forall s: Space, b: Addr :: ContentOf(AddExport(o, name, k, a), s, b) == ContentOf(o, s, b)
  {
    SpacesSame(o, AddExport(o, name, k, a));
    hide Contents, ContentOf;
  }

  /** Adding a field: its declaration is at the new address. */
  lemma {:induction false} FieldAdds(o: Obj, d: Decl, node: Addr, export_: Option<seq<byte>>)
    requires Shaped(o.m, o.sp) && Fresh(o.sp, node)
    ensures var r := AddField(o, d, node, export_);
      && Adds(o, r) && ContentOf(r, SpaceOfDecl(d), node) == Declared(d) && Resolves(r.sp, SpaceOfDecl(d), node)
      && r.m.exports == o.m.exports + (if export_.Some? then [Export(export_.value, KindOfDecl(d), node)] else [])
      && r.m.imports == o.m.imports && NamesOf(r) == NamesOf(o)
  {
    hide Adds, ContentOf, Shaped, Fresh, Resolves;
    var g := Grow(o, d, node, false);
    GrowAdds(o, d, node, false);
    hide Put;
    if export_.Some? {
      ExportAdds(g, export_.value, KindOfDecl(d), node);
      AddsTrans(o, g, AddField(o, d, node, export_));
    }
  }

  lemma {:induction false} NameAdds(o: Obj, a: NameAssoc<Addr>, front: bool)
    ensures var r := AddName(o, a, front);
      && Adds(o, r) && r.sp == o.sp && r.m.imports == o.m.imports && r.m.exports == o.m.exports
      && (forall s: Space, b: Addr :: ContentOf(r, s, b) == ContentOf(o, s, b))
      && (o.names.Some? && o.names.value < |o.m.customs| ==> NamesOf(r) == Put(NamesOf(o), a, front))
  {
    var r := AddName(o, a, front);
    SpacesSame(o, r);
    hide Contents, ContentOf;
    assert forall n <- NamesOf(o) :: n in NamesOf(r);
  }

  /** The counts and the import list of a new import. */
  lemma ImportedRest(o: Obj, modName: seq<byte>, member: seq<byte>, d: Decl, node: Addr)
    ensures var g, r := Grow(o, d, node, true), Imported(o, modName, member, d, node);
      && Adds(g, r) && r.sp == g.sp && (forall s: Space, b: Addr :: ContentOf(r, s, b) == ContentOf(g, s, b))
      && r.m.imports == [Import(modName, member, KindOfDecl(d), node)] + o.m.imports
  {
    var g, r := Grow(o, d, node, true), Imported(o, modName, member, d, node);
    SpacesSame(g, r);
    hide Contents, ContentOf, Put;
    assert g.m.imports == o.m.imports;
    assert r.m.imports[1..] == g.m.imports;
    assert NamesOf(r) == NamesOf(g);
  }

  /** Adding an import of any kind: its declaration is at the new address, and so is the import. */
  lemma {:induction false} ImportAdds(o: Obj, modName: seq<byte>, member: seq<byte>, d: Decl, node: Addr)
    requires Shaped(o.m, o.sp) && Fresh(o.sp, node)
    ensures var r := AddImport(o, modName, member, d, node);
      && Adds(o, r) && ContentOf(r, SpaceOfDecl(d), node) == Declared(d) && Resolves(r.sp, SpaceOfDecl(d), node)
      && r.m.imports == [Import(modName, member, KindOfDecl(d), node)] + o.m.imports
  {
    hide *;
    var g, r := Grow(o, d, node, true), Imported(o, modName, member, d, node);
    GrowAdds(o, d, node, true);
    ImportedRest(o, modName, member, d, node);
    AddsTrans(o, g, r);
    AddImportIs(o, modName, member, d, node);
    NameAdds(r, NameAssoc(node, member), true);
    if d.FuncD? { AddsTrans(o, r, AddName(r, NameAssoc(node, member), true)); }
  }

  lemma {:induction false} AddSigAdds(o: Obj, sig: Sig, node: Addr)
    requires Shaped(o.m, o.sp) && Fresh(o.sp, node)
    ensures Adds(o, AddSig(o, sig, node)) && ContentOf(AddSig(o, sig, node), SigS, node) == SigC(sig)
    ensures Resolves(AddSig(o, sig, node).sp, SigS, node)
  {
    hide *;
    var r := AddSig(o, sig, node);
    SigHere(o, sig, node, node);
    forall s: Space, a: Addr | Resolves(o.sp, s, a) ensures SameContent(o, r, s, a) {
      SigHere(o, sig, node, a);
      SigElsewhere(o, sig, node, s);
      ContentIs(o, s, a);
      ContentIs(r, s, a);
      SigResolves(o, sig, node, s, a);
      SameIf(o, r, s, a);
    }
    ContentsIf(o, r);
    SigRest(o, sig, node);
    AddsIf(o, r);
  }

  lemma ContentsIf(o: Obj, r: Obj)
    requires forall s: Space, a: Addr :: Resolves(o.sp, s, a) ==> SameContent(o, r, s, a)
    ensures Contents(o, r)
  {
    hide SameContent, Resolves;
  }

  lemma {:induction false} SigHere(o: Obj, sig: Sig, node: Addr, a: Addr)
    requires Shaped(o.m, o.sp) && Fresh(o.sp, node)
    ensures ContentOf(AddSig(o, sig, node), SigS, node) == SigC(sig) && Resolves(AddSig(o, sig, node).sp, SigS, node)
    ensures Resolves(o.sp, SigS, a) ==> ContentOf(AddSig(o, sig, node), SigS, a) == ContentOf(o, SigS, a)
  {
    hide IndexOf;
    assert node !in At(o.sp, SigS);
    PutContent(o.sp.sigs, o.m.sigs, node, sig, false, a);
  }

  lemma SigElsewhere(o: Obj, sig: Sig, node: Addr, s: Space)
    ensures s != SigS ==> At(AddSig(o, sig, node).sp, s) == At(o.sp, s)
    ensures s != SigS ==> forall i: nat :: ContentAt(AddSig(o, sig, node).m, s, i) == ContentAt(o.m, s, i)
  {
  }

  lemma SigResolves(o: Obj, sig: Sig, node: Addr, s: Space, a: Addr)
    requires Resolves(o.sp, s, a)
    ensures Resolves(AddSig(o, sig, node).sp, s, a)
  {
  }

  lemma SigRest(o: Obj, sig: Sig, node: Addr)
    ensures RestKept(o, AddSig(o, sig, node))
  {
    var r := AddSig(o, sig, node);
    assert NamesOf(r) == NamesOf(o) && r.m.imports == o.m.imports && r.m.customs == o.m.customs;
    hide NamesOf;
  }

  /** The signature found or added is the one asked for. */
  lemma {:induction false} SigAdds(o: Obj, sig: Sig, node: Addr)
    requires Shaped(o.m, o.sp) && Distinct(o.sp) && Fresh(o.sp, node)
    ensures var r := WithSig(o, sig, node);
      Adds(o, r) && Resolves(r.sp, SigS, SigAt(o, sig, node)) && ContentOf(r, SigS, SigAt(o, sig, node)) == SigC(sig)
    ensures WithSig(o, sig, node).m.imports == o.m.imports && WithSig(o, sig, node).m.exports == o.m.exports
  {
    hide FindSig, IndexOf;
    var i := FindSig(o.m.sigs, sig);
    if i < |o.m.sigs| {
      DistinctIndex(o.sp, SigS, i);
      AddsSame(o);
    } else {
      AddSigAdds(o, sig, node);
    }
    hide Adds, Distinct;
  }

  lemma AddsSame(o: Obj)
    ensures Adds(o, o)
  {
    hide ContentOf;
  }

  /** After an edit the lists are as long as their spaces, which is all that the next one needs. */
  lemma ShapedNow(o: Obj)
    requires Inv(o)
    ensures Shaped(o.m, o.sp) && Distinct(o.sp) && NamesKnown(o)
  {
    hide Shaped, Distinct, AllRefs, ImportsFront, NamesKnown;
  }

  /** Adding a function: its signature, its code, its export and its name. */
  lemma {:induction false} FuncAdds(o: Obj, sig: Sig, locals: seq<LocalRun>, code: seq<Inst<Addr>>, export_: Option<seq<byte>>,
                                    debug: seq<byte>, sigNode: Addr, node: Addr)
    requires Inv(o) && Fresh(o.sp, sigNode) && Fresh(o.sp, node) && node != sigNode
    ensures var r, s := AddFunc(o, sig, locals, code, export_, debug, sigNode, node), SigAt(o, sig, sigNode);
      && Adds(o, r) && ContentOf(r, SigS, s) == SigC(sig) && ContentOf(r, FuncS, node) == FuncC(Func(s, locals, code))
      && r.m.exports == o.m.exports + (if export_.Some? then [Export(export_.value, FuncK, node)] else [])
      && (o.names.Some? ==> NameAssoc(node, debug) in NamesOf(r))
  {
    hide *;
    var s := SigAt(o, sig, sigNode);
    var d := FuncD(Func(s, locals, code));
    var o1 := WithSig(o, sig, sigNode);
    var o2 := AddField(o1, d, node, export_);
    var r := AddName(o2, NameAssoc(node, debug), false);
    ShapedNow(o);
    SigAdds(o, sig, sigNode);
    SigKeeps(o, sig, sigNode);
    KeptInv(o, o1);
    ShapedNow(o1);
    FreshIn(o, sig, sigNode, node);
    FieldAdds(o1, d, node, export_);
    NameAdds(o2, NameAssoc(node, debug), false);
    AddFuncIs(o, sig, locals, code, export_, debug, sigNode, node);
    AddsTrans(o, o1, o2);
    AddsTrans(o, o2, r);
    AddsTrans(o1, o2, r);
    AddsAt(o1, r, SigS, s);
    FuncIs(d, o, o2);
    NamesAfter(o, o2, NameAssoc(node, debug));
  }

  lemma FuncIs(d: Decl, o: Obj, r: Obj)
    requires d.FuncD?
    ensures SpaceOfDecl(d) == FuncS && KindOfDecl(d) == FuncK && Declared(d) == FuncC(d.f)
  {
  }

  lemma NamesAfter(o: Obj, r: Obj, a: NameAssoc<Addr>)
    requires Adds(o, r) && NamesKnown(o)
    ensures o.names.Some? ==> r.names.Some? && r.names.value < |r.m.customs| && a in Put(NamesOf(r), a, false)
  {
  }

  lemma AddsAt(o: Obj, r: Obj, s: Space, a: Addr)
    requires Adds(o, r) && Resolves(o.sp, s, a)
    ensures ContentOf(r, s, a) == ContentOf(o, s, a)
  {
    hide ContentOf, RestKept, Resolves;
    assert SameContent(o, r, s, a);
  }

  // ----- removals -----

  /** Every declaration that is still there is what it was. */
  ghost predicate ContentsLeft(o: Obj, r: Obj) {
    forall s: Space, a: Addr :: Resolves(o.sp, s, a) && Resolves(r.sp, s, a) ==> ContentOf(r, s, a) == ContentOf(o, s, a)
  }

  predicate ImportLeft(o: Obj, r: Obj, i: Import<Addr>) { Resolves(r.sp, SpaceOf(i.kind), i.desc) ==> i in r.m.imports }

  predicate NameLeft(o: Obj, r: Obj, n: NameAssoc<Addr>) { Resolves(r.sp, FuncS, n.func) ==> n in NamesOf(r) }

  /** Imports and names go only with their declarations, and everything else stays. */
  ghost predicate Unharmed(o: Obj, r: Obj) {
    && ContentsLeft(o, r) && OthersKept(o, r) && CustomsKept(o, r)
    && (forall i <- o.m.imports :: ImportLeft(o, r, i)) && (forall n <- NamesOf(o) :: NameLeft(o, r, n))
  }

  lemma UnharmedIf(o: Obj, r: Obj)
    requires ContentsLeft(o, r) && OthersKept(o, r) && CustomsKept(o, r)
    requires (forall i <- o.m.imports :: ImportLeft(o, r, i)) && (forall n <- NamesOf(o) :: NameLeft(o, r, n))
    ensures Unharmed(o, r)
  {
    hide ContentsLeft, OthersKept, CustomsKept, ImportLeft, NameLeft, NamesOf;
  }

  lemma {:induction false} AddsUnharmed(o: Obj, r: Obj)
    requires Adds(o, r)
    ensures Unharmed(o, r)
  {
    hide ContentOf, Resolves, NamesOf, OthersKept, CustomsKept;
    forall s: Space, a: Addr | Resolves(o.sp, s, a) && Resolves(r.sp, s, a) ensures ContentOf(r, s, a) == ContentOf(o, s, a) {
      assert SameContent(o, r, s, a);
    }
    forall i | i in o.m.imports ensures ImportLeft(o, r, i) {
      assert i in r.m.imports[|r.m.imports| - |o.m.imports|..];
    }
  }

  lemma {:induction false} CutContent<T>(xs: seq<Addr>, cs: seq<T>, i: nat, a: Addr)
    requires |xs| == |cs| && i < |xs| && a in xs && a != xs[i]
    ensures var k := IndexOf(Cut(xs, i), a); k < |Cut(cs, i)| && Cut(cs, i)[k] == cs[IndexOf(xs, a)]
  {
    IndexCut(xs, i, a);
    hide IndexOf;
  }

  lemma NotCut(sp: Spaces, idx: nat)
    requires Distinct(sp) && idx < |sp.funcs|
    ensures sp.funcs[idx] !in Cut(sp.funcs, idx) && forall b :: b in Cut(sp.funcs, idx) ==> b in sp.funcs
  {
    forall j | 0 <= j < |Cut(sp.funcs, idx)| ensures Cut(sp.funcs, idx)[j] != sp.funcs[idx] {
      assert At(sp, FuncS)[if j < idx then j else j + 1] != At(sp, FuncS)[idx];
    }
  }

  lemma {:induction false} RemovedContents(o: Obj, idx: nat)
    requires Inv(o) && idx < |o.m.funcs| && idx < |o.sp.funcs|
    ensures ContentsLeft(o, Removed(o, idx))
  {
    hide *;
    var r := Removed(o, idx);
    RemovedIs(o, idx);
    InvShape(o);
    forall s: Space, a: Addr | Resolves(o.sp, s, a) && Resolves(r.sp, s, a) ensures ContentOf(r, s, a) == ContentOf(o, s, a) {
      if s == FuncS { RemovedFuncs(o, r, idx, a); } else { RemovedElsewhere(o, r, s, a); }
    }
    LeftIf(o, r);
  }

  lemma LeftIf(o: Obj, r: Obj)
    requires forall s: Space, a: Addr :: Resolves(o.sp, s, a) && Resolves(r.sp, s, a) ==> ContentOf(r, s, a) == ContentOf(o, s, a)
    ensures ContentsLeft(o, r)
  {
    hide ContentOf, Resolves;
  }

  lemma {:induction false} RemovedFuncs(o: Obj, r: Obj, idx: nat, a: Addr)
    requires idx < |o.m.funcs| == |o.sp.funcs| && Distinct(o.sp)
    requires r.sp == o.sp.(funcs := Cut(o.sp.funcs, idx)) && r.m.funcs == Cut(o.m.funcs, idx)
    requires Resolves(o.sp, FuncS, a) && Resolves(r.sp, FuncS, a)
    ensures ContentOf(r, FuncS, a) == ContentOf(o, FuncS, a)
  {
    NotCut(o.sp, idx);
    CutContent(o.sp.funcs, o.m.funcs, idx, a);
    hide Cut, IndexOf, Distinct;
  }

  /** The other spaces do not change. */
  lemma RemovedElsewhere(o: Obj, r: Obj, s: Space, a: Addr)
    requires s != FuncS && r.sp == o.sp.(funcs := r.sp.funcs)
    requires r.m == o.m.(imports := r.m.imports, nums := r.m.nums, funcs := r.m.funcs, customs := r.m.customs)
    ensures ContentOf(r, s, a) == ContentOf(o, s, a)
  {
    hide IndexOf;
  }

  lemma StaysInCut<T>(xs: seq<T>, j: nat, x: T)
    requires j < |xs| && x in xs && x != xs[j]
    ensures x in Cut(xs, j)
  {
    var k :| 0 <= k < |xs| && xs[k] == x;
    assert Cut(xs, j)[if k < j then k else k - 1] == x;
  }

  lemma {:induction false} RemovedImports(o: Obj, idx: nat, i: Import<Addr>)
    requires Inv(o) && idx < |o.m.funcs| && idx < |o.sp.funcs| && i in o.m.imports
    ensures ImportLeft(o, Removed(o, idx), i)
  {
    RemovedIs(o, idx);
    InvShape(o);
    NotCut(o.sp, idx);
    UnimportedNow(o, idx);
    hide Inv, Removed, Unimported, CutName, Cut, NamesOf, Distinct, FindImport;
    var j := FindImport(o.m.imports, FuncK, o.sp.funcs[idx]);
    if idx < o.m.nums.funcs && i != o.m.imports[j] { StaysInCut(o.m.imports, j, i); }
  }

  lemma {:induction false} RemovedNames(o: Obj, idx: nat, n: NameAssoc<Addr>)
    requires Inv(o) && idx < |o.m.funcs| && idx < |o.sp.funcs| && n in NamesOf(o)
    ensures NameLeft(o, Removed(o, idx), n)
  {
    RemovedIs(o, idx);
    InvShape(o);
    NotCut(o.sp, idx);
    hide Inv, Removed, Unimported, Cut, Distinct, FindName;
    var a := o.sp.funcs[idx];
    var j := FindName(NamesOf(o), a);
    if j < |NamesOf(o)| && n != NamesOf(o)[j] { StaysInCut(NamesOf(o), j, n); }
  }

  lemma {:induction false} RemovedUnharmed(o: Obj, idx: nat)
    requires Inv(o) && idx < |o.m.funcs| && idx < |o.sp.funcs|
    ensures Unharmed(o, Removed(o, idx))
  {
    hide *;
    var r := Removed(o, idx);
    RemovedContents(o, idx);
    RemovedRest(o, idx);
    forall i | i in o.m.imports ensures ImportLeft(o, r, i) { RemovedImports(o, idx, i); }
    forall n | n in NamesOf(o) ensures NameLeft(o, r, n) { RemovedNames(o, idx, n); }
    UnharmedIf(o, r);
  }

  lemma RemovedRest(o: Obj, idx: nat)
    requires Inv(o) && idx < |o.m.funcs| && idx < |o.sp.funcs|
    ensures OthersKept(o, Removed(o, idx)) && CustomsKept(o, Removed(o, idx))
  {
    RemovedIs(o, idx);
    CutNameIs(o, o.sp.funcs[idx]);
    hide Inv, Removed, Unimported, CutName, Cut, FindName, NamesOf;
  }

  // ----- any edit, any run -----

  /** Whatever is edited: what stays is what it was, and so is everything else. */
  lemma {:induction false} EditUnharmed(o: Obj, e: Edit)
    requires Inv(o) && Allowed(o, e)
    ensures Unharmed(o, Apply(o, e))
  {
    ShapedNow(o);
    hide Inv, Adds, Unharmed, Fresh, CodeAll, Resolves, Unreferenced, ContentOf, Shaped, Distinct, NamesKnown, NamesOf;
    hide AddSig, WithSig, AddField, AddFunc, AddImport, AddImportFunc, AddExport, RemoveFunc, SigAt;
    match e
    case SigE(sig, dup, node) =>
      if dup { AddSigAdds(o, sig, node); } else { SigAdds(o, sig, node); }
      AddsUnharmed(o, Apply(o, e));
    case FieldE(d, node, x) => FieldAdds(o, d, node, x); AddsUnharmed(o, Apply(o, e));
    case FuncE(sig, ls, code, x, debug, sigNode, node) =>
      FuncAdds(o, sig, ls, code, x, debug, sigNode, node);
      AddsUnharmed(o, Apply(o, e));
    case ImportE(mn, mm, d, node) => ImportAdds(o, mn, mm, d, node); AddsUnharmed(o, Apply(o, e));
    case ImportFuncE(mn, mm, sig, sigNode, node) => ImportFuncAdds(o, mn, mm, sig, sigNode, node); AddsUnharmed(o, Apply(o, e));
    case ExportE(n, k, a) => ExportAdds(o, n, k, a); AddsUnharmed(o, Apply(o, e));
    case RemoveE(idx) => RemoveUnharmed(o, idx);
  }

  lemma {:induction false} ImportFuncAdds(o: Obj, modName: seq<byte>, member: seq<byte>, sig: Sig, sigNode: Addr, node: Addr)
    requires Inv(o) && Fresh(o.sp, sigNode) && Fresh(o.sp, node) && node != sigNode
    ensures var r, s := AddImportFunc(o, modName, member, sig, sigNode, node), SigAt(o, sig, sigNode);
      && Adds(o, r) && ContentOf(r, SigS, s) == SigC(sig) && ContentOf(r, FuncS, node) == FuncC(Func(s, [], []))
      && r.m.imports == [Import(modName, member, FuncK, node)] + o.m.imports
  {
    hide *;
    var s := SigAt(o, sig, sigNode);
    var d := FuncD(Func(s, [], []));
    var o1 := WithSig(o, sig, sigNode);
    var r := AddImport(o1, modName, member, d, node);
    ShapedNow(o);
    SigAdds(o, sig, sigNode);
    SigKeeps(o, sig, sigNode);
    KeptInv(o, o1);
    ShapedNow(o1);
    FreshIn(o, sig, sigNode, node);
    ImportAdds(o1, modName, member, d, node);
    ImportFuncIs(o, modName, member, sig, sigNode, node);
    AddsTrans(o, o1, r);
    AddsAt(o1, r, SigS, s);
    FuncIs(d, o, r);
  }

  lemma {:induction false} RemoveUnharmed(o: Obj, idx: nat)
    requires Inv(o) && (idx < |o.m.funcs| && idx < |o.sp.funcs| ==> Unreferenced(o, idx))
    ensures Unharmed(o, Apply(o, RemoveE(idx)))
  {
    hide *;
    InvShape(o);
    RemoveApplied(o, idx);
    if idx < |o.m.funcs| {
      RemoveKeeps(o, idx);
      RemovedUnharmed(o, idx);
    } else {
      RemoveNone(o, idx);
      AddsSame(o);
      AddsUnharmed(o, o);
    }
  }

  /** Over any run of edits, an address that stays denotes the same declaration. */
  lemma {:induction false} ContentOverRuns(o: Obj, es: seq<Edit>, s: Space, a: Addr)
    requires Inv(o) && AllAllowed(o, es) && Stays(o, es, s, a)
    ensures ContentOf(After(o, es), s, a) == ContentOf(o, s, a)
    decreases |es|
  {
    hide Inv, Apply, Allowed, Resolves, ContentOf, OrderKept, Sorted;
    if es != [] {
      var o1 := Apply(o, es[0]);
      EditKeeps(o, es[0]);
      EditUnharmed(o, es[0]);
      ContentOverRuns(o1, es[1..], s, a);
      StaysNow(o1, es[1..], s, a);
      ContentStays(o, o1, s, a);
    }
  }

  lemma ContentStays(o: Obj, r: Obj, s: Space, a: Addr)
    requires Unharmed(o, r) && Resolves(o.sp, s, a) && Resolves(r.sp, s, a)
    ensures ContentOf(r, s, a) == ContentOf(o, s, a)
  {
    hide ContentOf, Resolves, OthersKept, CustomsKept, NamesOf;
  }

  /** Over any run of edits, exports stay, and start, segments and foreign custom sections are untouched. */
  lemma {:induction false} RestOverRuns(o: Obj, es: seq<Edit>)
    requires Inv(o) && AllAllowed(o, es)
    ensures OthersKept(o, After(o, es)) && CustomsKept(o, After(o, es))
    decreases |es|
  {
    hide Inv, Apply, Allowed, Resolves, ContentOf, OrderKept, Sorted, ContentsLeft, NamesOf;
    if es != [] {
      EditKeeps(o, es[0]);
      EditUnharmed(o, es[0]);
      RestOverRuns(Apply(o, es[0]), es[1..]);
    }
  }
}
