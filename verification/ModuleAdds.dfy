/** Exports, names, fields and imports: each keeps the module in order. */
module ModuleAdds {
  import opened Bytes
  import opened Codec
  import opened CodecInst
  import opened CodecModule
  import opened CodecParts
  import opened CodecSections
  import opened CodecRound
  import opened ModuleRefs
  import opened Addresses
  import opened DeepCopy
  import opened ModuleEdit
  import opened ModuleKeeps

  /** Everything that resolved still resolves. */
  ghost predicate Grows(sp: Spaces, sp': Spaces) {
    forall t: Space, a: Addr :: Resolves(sp, t, a) ==> Resolves(sp', t, a)
  }

  predicate Sorted(o: Obj) { SortedBy(o.sp, NamesOf(o)) }

  lemma {:induction false} OrderTrans(a: Spaces, b: Spaces, c: Spaces)
    requires OrderKept(a, b) && OrderKept(b, c) && Grows(a, b)
    ensures OrderKept(a, c)
  {
    hide IndexOf;
    forall s: Space, x: Addr, y: Addr | x in At(a, s) && y in At(a, s) && x in At(c, s) && y in At(c, s)
      ensures IndexOf(At(a, s), x) < IndexOf(At(a, s), y) <==> IndexOf(At(c, s), x) < IndexOf(At(c, s), y)
    {
      assert Resolves(a, s, x) && Resolves(a, s, y);
      assert Resolves(b, s, x) && Resolves(b, s, y);
    }
  }

  lemma NameResolves(o: Obj)
    requires Inv(o)
    ensures forall i :: 0 <= i < |NamesOf(o)| ==> Resolves(o.sp, FuncS, NamesOf(o)[i].func)
  {
    if o.names.Some? {
      assert NamesAll(ResolvesIn(o.sp), o.m.customs[o.names.value].names);
    }
    hide Shaped, Distinct, NamesInPlace, ImportsFront, FuncsAll, ImportsAll, ExportsAll, ElemsAll, DatasAll, StartAll;
  }

  lemma {:induction false} SortedStays(sp: Spaces, sp': Spaces, xs: seq<NameAssoc<Addr>>)
    requires SortedBy(sp, xs) && OrderKept(sp, sp')
    requires forall i :: 0 <= i < |xs| ==> Resolves(sp, FuncS, xs[i].func) && Resolves(sp', FuncS, xs[i].func)
    ensures SortedBy(sp', xs)
  {
    hide IndexOf;
    forall i, j | 0 <= i < j < |xs| ensures IndexOf(sp'.funcs, xs[i].func) < IndexOf(sp'.funcs, xs[j].func) {
      var a, b := xs[i].func, xs[j].func;
      assert Resolves(sp, FuncS, a) && Resolves(sp, FuncS, b) && Resolves(sp', FuncS, a) && Resolves(sp', FuncS, b);
      assert IndexOf(At(sp', FuncS), a) < IndexOf(At(sp', FuncS), b);
    }
  }

  // ----- exports -----

  /**
   * An export keeps the module in order if and only if what it names is there; by index it is the last
   * export, and refers to the place of what it names.
   */
  lemma {:induction false} ExportIffResolves(o: Obj, name: seq<byte>, k: CodecModule.Kind, a: Addr)
    requires Inv(o)
    ensures var r := AddExport(o, name, k, a);
      && (Inv(r) <==> Resolves(o.sp, SpaceOf(k), a))
      && View(r.m, r.sp) == View(o.m, o.sp).(exports := View(o.m, o.sp).exports
                                             + [Export(name, k, IndexOf(At(o.sp, SpaceOf(k)), a))])
  {
    ExportSeen(o, name, k, a);
    ExportResolves(o, name, k, a);
    hide *;
    if Resolves(o.sp, SpaceOf(k), a) { ExportKeeps(o, name, k, a); }
  }

  lemma ExportResolves(o: Obj, name: seq<byte>, k: CodecModule.Kind, a: Addr)
    ensures Inv(AddExport(o, name, k, a)) ==> Resolves(o.sp, SpaceOf(k), a)
  {
    var r := AddExport(o, name, k, a);
    hide Resolves, Distinct, NamesInPlace, ImportsFront, FuncsAll, ImportsAll, ElemsAll, DatasAll, CustomsAll, StartAll;
    if Inv(r) {
      var e := r.m.exports[|o.m.exports|];
      assert ResolvesIn(r.sp)(SpaceOf(e.kind), e.desc);
    }
  }

  lemma ExportSeen(o: Obj, name: seq<byte>, k: CodecModule.Kind, a: Addr)
    ensures var r := AddExport(o, name, k, a);
      View(r.m, r.sp) == View(o.m, o.sp).(exports := View(o.m, o.sp).exports
                                          + [Export(name, k, IndexOf(At(o.sp, SpaceOf(k)), a))])
  {
    hide IndexOf, MapImports, MapFuncs, MapElems, MapDatas, MapCustoms, MapStart;
    var r := AddExport(o, name, k, a);
    assert View(r.m, r.sp).exports == View(o.m, o.sp).exports + [Export(name, k, IndexOf(At(o.sp, SpaceOf(k)), a))];
  }

  lemma {:induction false} ExportKeeps(o: Obj, name: seq<byte>, k: CodecModule.Kind, a: Addr)
    requires Inv(o) && Resolves(o.sp, SpaceOf(k), a)
    ensures Inv(AddExport(o, name, k, a))
  {
    var p := ResolvesIn(o.sp);
    var es := o.m.exports + [Export(name, k, a)];
    assert p(SpaceOf(k), a);
    assert ExportsAll(p, es);
    var m := o.m.(exports := es);
    assert ImportsFront(m, o.sp) by {
      hide DescsOf, Linked;
      forall j: CodecModule.Kind ensures FrontOfKind(m, o.sp, j) { assert FrontOfKind(o.m, o.sp, j); }
    }
    hide Distinct, NamesInPlace, ImportsFront, FuncsAll, ImportsAll, ExportsAll, ElemsAll, DatasAll, CustomsAll;
    hide StartAll, NAME_SECTION, ResolvesIn, Resolves;
  }

  // ----- names -----

  /** Replacing the names of the section that is kept up. */
  lemma {:induction false} RenameKeeps(o: Obj, ns: seq<NameAssoc<Addr>>)
    requires Inv(o) && o.names.Some? && NamesAll(ResolvesIn(o.sp), ns)
    ensures o.names.value < |o.m.customs|
    ensures var cs := o.m.customs[o.names.value := o.m.customs[o.names.value].(names := ns)];
      var r := o.(m := o.m.(customs := cs)); Inv(r) && NamesOf(r) == ns
  {
    var n := o.names.value;
    var cs := o.m.customs[n := o.m.customs[n].(names := ns)];
    var m := o.m.(customs := cs);
    assert ImportsFront(m, o.sp) by {
      hide DescsOf, Linked, NamesKnown;
      forall j: CodecModule.Kind ensures FrontOfKind(m, o.sp, j) { assert FrontOfKind(o.m, o.sp, j); }
    }
    assert CustomsAll(ResolvesIn(o.sp), cs) by {
      hide NamesAll, ResolvesIn, ImportsFront, Distinct, Shaped, NamesInPlace, FuncsAll, ImportsAll, ExportsAll, ElemsAll, DatasAll, StartAll;
    }
    hide Distinct, ImportsFront, FuncsAll, ImportsAll, ExportsAll, ElemsAll, DatasAll, CustomsAll;
    hide StartAll, NAME_SECTION, ResolvesIn, Resolves, NamesAll;
  }

  lemma {:induction false} NameKeeps(o: Obj, a: NameAssoc<Addr>, front: bool)
    requires Inv(o) && Resolves(o.sp, FuncS, a.func)
    ensures Inv(AddName(o, a, front)) && AddName(o, a, front).sp == o.sp
    ensures NamesOf(AddName(o, a, front)) == if o.names.Some? then Put(NamesOf(o), a, front) else []
  {
    if o.names.Some? {
      NameResolves(o);
      assert NamesAll(ResolvesIn(o.sp), Put(NamesOf(o), a, front));
      hide Inv, NamesAll, ResolvesIn, Resolves;
      RenameKeeps(o, Put(NamesOf(o), a, front));
      hide Put;
    }
  }

  // ----- fields -----

  lemma {:induction false} BackKeeps(o: Obj, d: Decl, node: Addr)
    requires Inv(o) && Fresh(o.sp, node) && (d.FuncD? ==> FuncAll(ResolvesIn(o.sp), d.f))
    ensures var r := Grow(o, d, node, false);
      Inv(r) && OrderKept(o.sp, r.sp) && Grows(o.sp, r.sp) && Resolves(r.sp, SpaceOfDecl(d), node)
    ensures NamesOf(Grow(o, d, node, false)) == NamesOf(o)
  {
    GrowLinked(o, d, node, false);
    GrownResolves(o.sp, SpaceOfDecl(d), node, false);
    var r := Grow(o, d, node, false);
    assert r.m.imports == o.m.imports && r.m.nums == o.m.nums && r.m.customs == o.m.customs;
    hide Linked, FuncAll, OrderKept, Resolves, Fresh, PushDecl, NAME_SECTION, DescsOf;
    forall k: CodecModule.Kind ensures FrontOfKind(r.m, r.sp, k) { assert FrontOfKind(o.m, o.sp, k); }
  }

  lemma {:induction false} FieldKeeps(o: Obj, d: Decl, node: Addr, export_: Option<seq<byte>>)
    requires Inv(o) && Fresh(o.sp, node) && (d.FuncD? ==> FuncAll(ResolvesIn(o.sp), d.f))
    ensures var r := AddField(o, d, node, export_);
      Inv(r) && OrderKept(o.sp, r.sp) && Grows(o.sp, r.sp) && Resolves(r.sp, SpaceOfDecl(d), node)
    ensures AddField(o, d, node, export_).sp == Grow(o, d, node, false).sp
    ensures NamesOf(AddField(o, d, node, export_)) == NamesOf(o)
  {
    BackKeeps(o, d, node);
    hide Inv, FuncAll, OrderKept, Grows, Resolves, Fresh, Grow;
    match export_
    case None =>
    case Some(n) => ExportKeeps(Grow(o, d, node, false), n, KindOfDecl(d), node);
  }

  /** The new function's name goes behind all others, as the function does. */
  lemma {:induction false} SortedBack(sp: Spaces, xs: seq<NameAssoc<Addr>>, node: Addr, name: seq<byte>)
    requires SortedBy(sp, xs) && Fresh(sp, node)
    requires forall i :: 0 <= i < |xs| ==> Resolves(sp, FuncS, xs[i].func)
    ensures SortedBy(Grown(sp, FuncS, node, false), xs + [NameAssoc(node, name)])
  {
    hide IndexOf;
    var ys := xs + [NameAssoc(node, name)];
    var g := Grown(sp, FuncS, node, false);
    assert node !in sp.funcs by { assert node !in At(sp, FuncS); }
    forall i, j | 0 <= i < j < |ys| ensures IndexOf(g.funcs, ys[i].func) < IndexOf(g.funcs, ys[j].func) {
      assert Resolves(sp, FuncS, xs[i].func);
      IndexPut(sp.funcs, node, false, xs[i].func);
      if j < |xs| {
        assert Resolves(sp, FuncS, xs[j].func);
        IndexPut(sp.funcs, node, false, xs[j].func);
      }
    }
  }

  /** The new import's name goes before all others, as the function does. */
  lemma {:induction false} SortedFront(sp: Spaces, xs: seq<NameAssoc<Addr>>, node: Addr, name: seq<byte>)
    requires SortedBy(sp, xs) && Fresh(sp, node)
    requires forall i :: 0 <= i < |xs| ==> Resolves(sp, FuncS, xs[i].func)
    ensures SortedBy(Grown(sp, FuncS, node, true), [NameAssoc(node, name)] + xs)
  {
    hide IndexOf, Grown, Resolves, Fresh;
    var ys := [NameAssoc(node, name)] + xs;
    var g := Grown(sp, FuncS, node, true);
    forall i, j | 0 <= i < j < |ys| ensures IndexOf(g.funcs, ys[i].func) < IndexOf(g.funcs, ys[j].func) {
      FrontIndex(sp, node, xs[j - 1].func);
      if i > 0 { FrontIndex(sp, node, xs[i - 1].func); }
    }
  }

  /** In front of all others. */
  lemma FrontIndex(sp: Spaces, node: Addr, a: Addr)
    requires Fresh(sp, node) && Resolves(sp, FuncS, a)
    ensures var g := Grown(sp, FuncS, node, true); IndexOf(g.funcs, a) == IndexOf(sp.funcs, a) + 1 && IndexOf(g.funcs, node) == 0
  {
    hide IndexOf;
    assert node !in At(sp, FuncS);
    IndexPut(sp.funcs, node, true, a);
  }

  // ----- imports -----

  /** A new import in front of the list, and its declaration in front of its space. */
  lemma {:induction false} ImportFront(o: Obj, modName: seq<byte>, member: seq<byte>, d: Decl, node: Addr)
    requires ImportsFront(o.m, o.sp)
    ensures var g := Grow(o, d, node, true);
      ImportsFront(g.m.(nums := Bump(g.m.nums, KindOfDecl(d)), imports := [Import(modName, member, KindOfDecl(d), node)] + g.m.imports), g.sp)
  {
    var g := Grow(o, d, node, true);
    var k := KindOfDecl(d);
    var imp := Import(modName, member, k, node);
    assert g.m.imports == o.m.imports && g.m.nums == o.m.nums;
    var m := g.m.(nums := Bump(g.m.nums, k), imports := [imp] + g.m.imports);
    hide PushDecl;
    forall j: CodecModule.Kind ensures FrontOfKind(m, g.sp, j) {
      assert FrontOfKind(o.m, o.sp, j);
      DescsCons(imp, o.m.imports, j);
      BumpCount(o.m.nums, k, j);
      hide DescsOf, CountOf, Bump;
      if j == k { FrontCons(At(o.sp, SpaceOf(j)), node, CountOf(o.m.nums, j)); }
    }
  }

  lemma FrontCons(xs: seq<Addr>, node: Addr, n: nat)
    requires n <= |xs|
    ensures ([node] + xs)[..n + 1] == [node] + xs[..n]
  {
  }

  lemma DescsCons(imp: Import<Addr>, xs: seq<Import<Addr>>, k: CodecModule.Kind)
    ensures DescsOf([imp] + xs, k) == (if imp.kind == k then [imp.desc] else []) + DescsOf(xs, k)
  {
    assert ([imp] + xs)[1..] == xs;
  }

  lemma BumpCount(c: Counts, k: CodecModule.Kind, j: CodecModule.Kind)
    ensures CountOf(Bump(c, k), j) == CountOf(c, j) + if j == k then 1 else 0
  {
  }

  lemma {:induction false} ImportLinked(g: Obj, modName: seq<byte>, member: seq<byte>, k: CodecModule.Kind, node: Addr)
    requires Linked(g.m, g.sp) && Resolves(g.sp, SpaceOf(k), node)
    ensures Linked(g.m.(nums := Bump(g.m.nums, k), imports := [Import(modName, member, k, node)] + g.m.imports), g.sp)
  {
    var p := ResolvesIn(g.sp);
    assert p(SpaceOf(k), node);
    assert ImportsAll(p, [Import(modName, member, k, node)] + g.m.imports);
    hide Distinct, NamesInPlace, FuncsAll, ImportsAll, ExportsAll, ElemsAll, DatasAll, CustomsAll, StartAll, ResolvesIn;
  }

  /** What an import adds before its name is added. */
  function Imported(o: Obj, modName: seq<byte>, member: seq<byte>, d: Decl, node: Addr): Obj {
    var g := Grow(o, d, node, true);
    var k := KindOfDecl(d);
    g.(m := g.m.(nums := Bump(g.m.nums, k), imports := [Import(modName, member, k, node)] + g.m.imports))
  }

  lemma {:induction false} ImportedKeeps(o: Obj, modName: seq<byte>, member: seq<byte>, d: Decl, node: Addr)
    requires Inv(o) && Fresh(o.sp, node) && (d.FuncD? ==> FuncAll(ResolvesIn(o.sp), d.f))
    ensures var r := Imported(o, modName, member, d, node);
      Inv(r) && OrderKept(o.sp, r.sp) && Grows(o.sp, r.sp) && Resolves(r.sp, SpaceOfDecl(d), node)
    ensures NamesOf(Imported(o, modName, member, d, node)) == NamesOf(o)
  {
    GrowLinked(o, d, node, true);
    GrownResolves(o.sp, SpaceOfDecl(d), node, true);
    ImportFront(o, modName, member, d, node);
    var g := Grow(o, d, node, true);
    assert g.m.customs == o.m.customs && g.sp == Grown(o.sp, SpaceOfDecl(d), node, true);
    ImportLinked(g, modName, member, KindOfDecl(d), node);
    hide Linked, ImportsFront, FuncAll, OrderKept, Resolves, Fresh, PushDecl, NAME_SECTION, Grow, Grown;
  }

  lemma {:induction false} AddImportIs(o: Obj, modName: seq<byte>, member: seq<byte>, d: Decl, node: Addr)
    ensures AddImport(o, modName, member, d, node)
         == if d.FuncD? then AddName(Imported(o, modName, member, d, node), NameAssoc(node, member), true)
            else Imported(o, modName, member, d, node)
  {
    hide AddName, Grow, Bump;
  }

  ghost predicate Kept(o: Obj, r: Obj) {
    Inv(r) && OrderKept(o.sp, r.sp) && Grows(o.sp, r.sp) && (Sorted(o) ==> Sorted(r))
  }

  /** Imports of any kind. */
  lemma {:induction false} AddImportKeeps(o: Obj, modName: seq<byte>, member: seq<byte>, d: Decl, node: Addr)
    requires Inv(o) && Fresh(o.sp, node) && (d.FuncD? ==> FuncAll(ResolvesIn(o.sp), d.f))
    ensures Kept(o, AddImport(o, modName, member, d, node))
  {
    hide Inv, OrderKept, FuncAll, Fresh, AddImport, Imported, AddName, SortedBy, Resolves, Put;
    var r := Imported(o, modName, member, d, node);
    ImportedKeeps(o, modName, member, d, node);
    AddImportIs(o, modName, member, d, node);
    NameResolves(o);
    if d.FuncD? {
      NameKeeps(r, NameAssoc(node, member), true);
      if Sorted(o) { FrontNames(o, modName, member, d, node); }
    } else if Sorted(o) {
      SortedStays(o.sp, r.sp, NamesOf(o));
    }
  }

  lemma {:induction false} FrontNames(o: Obj, modName: seq<byte>, member: seq<byte>, d: Decl, node: Addr)
    requires Sorted(o) && Inv(o) && d.FuncD? && Fresh(o.sp, node)
    ensures SortedBy(Imported(o, modName, member, d, node).sp, Put(NamesOf(o), NameAssoc(node, member), true))
    ensures SortedBy(Imported(o, modName, member, d, node).sp, [])
  {
    NameResolves(o);
    assert Imported(o, modName, member, d, node).sp == Grown(o.sp, FuncS, node, true);
    hide Inv, Fresh, SortedBy, Imported, Grown;
    SortedFront(o.sp, NamesOf(o), node, member);
    SortedNone(Grown(o.sp, FuncS, node, true));
  }

  lemma SortedNone(sp: Spaces)
    ensures SortedBy(sp, [])
  {
  }

  /** A field with or without an export. */
  lemma {:induction false} AddFieldKeeps(o: Obj, d: Decl, node: Addr, export_: Option<seq<byte>>)
    requires Inv(o) && Fresh(o.sp, node) && (d.FuncD? ==> FuncAll(ResolvesIn(o.sp), d.f))
    ensures Kept(o, AddField(o, d, node, export_))
  {
    hide Inv, OrderKept, FuncAll, Fresh, AddField, SortedBy, Resolves;
    FieldKeeps(o, d, node, export_);
    NameResolves(o);
    if Sorted(o) { SortedStays(o.sp, AddField(o, d, node, export_).sp, NamesOf(o)); }
  }

  lemma {:induction false} SigKeeps(o: Obj, sig: Sig, node: Addr)
    requires Inv(o) && Fresh(o.sp, node)
    ensures Kept(o, WithSig(o, sig, node)) && Resolves(WithSig(o, sig, node).sp, SigS, SigAt(o, sig, node))
    ensures NamesOf(WithSig(o, sig, node)) == NamesOf(o) && WithSig(o, sig, node).names == o.names
  {
    SigLinked(o, sig, node);
    NameResolves(o);
    hide Inv, OrderKept, Fresh, SortedBy, Resolves, SigAt, FindSig;
    if Sorted(o) { SortedStays(o.sp, WithSig(o, sig, node).sp, NamesOf(o)); }
  }

  lemma FreshIn(o: Obj, sig: Sig, sigNode: Addr, node: Addr)
    requires Fresh(o.sp, node) && node != sigNode
    ensures Fresh(WithSig(o, sig, sigNode).sp, node)
  {
    hide FindSig;
    forall s: Space ensures node !in At(WithSig(o, sig, sigNode).sp, s) { assert node !in At(o.sp, s); }
  }

  lemma {:induction false} NewFunc(o: Obj, sig: Sig, locals: seq<LocalRun>, code: seq<Inst<Addr>>, sigNode: Addr)
    requires Inv(o) && Fresh(o.sp, sigNode) && CodeAll(ResolvesIn(o.sp), code)
    ensures FuncAll(ResolvesIn(WithSig(o, sig, sigNode).sp), Func(SigAt(o, sig, sigNode), locals, code))
  {
    SigLinked(o, sig, sigNode);
    var sp := WithSig(o, sig, sigNode).sp;
    var p, q := ResolvesIn(o.sp), ResolvesIn(sp);
    assert forall t: Space, a: Addr :: p(t, a) ==> q(t, a);
    assert q(SigS, SigAt(o, sig, sigNode));
    hide Inv, WithSig, SigAt, Fresh, OrderKept, Resolves, ResolvesIn;
    forall k | 0 <= k < |code| ensures ImmAll(q, code[k].imm) { assert ImmAll(p, code[k].imm); }
  }

  lemma {:induction false} KeptTrans(a: Obj, b: Obj, c: Obj)
    requires Kept(a, b) && Kept(b, c)
    ensures Kept(a, c)
  {
    OrderTrans(a.sp, b.sp, c.sp);
    hide Inv, OrderKept, Sorted, Resolves;
  }

  /** A function: its signature found or added, itself at the end, its name behind the others. */
  lemma {:induction false} AddFuncKeeps(o: Obj, sig: Sig, locals: seq<LocalRun>, code: seq<Inst<Addr>>,
                                        export_: Option<seq<byte>>, debug: seq<byte>, sigNode: Addr, node: Addr)
    requires Inv(o) && Fresh(o.sp, sigNode) && Fresh(o.sp, node) && node != sigNode && CodeAll(ResolvesIn(o.sp), code)
    ensures Kept(o, AddFunc(o, sig, locals, code, export_, debug, sigNode, node))
  {
    var f := Func(SigAt(o, sig, sigNode), locals, code);
    var o1 := WithSig(o, sig, sigNode);
    var o2 := AddField(o1, FuncD(f), node, export_);
    hide *;
    SigKeeps(o, sig, sigNode);
    FreshIn(o, sig, sigNode, node);
    NewFunc(o, sig, locals, code, sigNode);
    KeptInv(o, o1);
    NamedField(o1, f, node, export_, debug);
    AddFuncIs(o, sig, locals, code, export_, debug, sigNode, node);
    KeptTrans(o, o1, AddName(o2, NameAssoc(node, debug), false));
  }

  lemma KeptInv(o: Obj, r: Obj)
    requires Kept(o, r)
    ensures Inv(r)
  {
    hide Inv, OrderKept, Grows, Sorted;
  }

  lemma AddFuncIs(o: Obj, sig: Sig, locals: seq<LocalRun>, code: seq<Inst<Addr>>, export_: Option<seq<byte>>,
                  debug: seq<byte>, sigNode: Addr, node: Addr)
    ensures AddFunc(o, sig, locals, code, export_, debug, sigNode, node)
         == AddName(AddField(WithSig(o, sig, sigNode), FuncD(Func(SigAt(o, sig, sigNode), locals, code)), node, export_),
                    NameAssoc(node, debug), false)
  {
    hide AddName, AddField, WithSig, SigAt;
  }

  lemma {:induction false} NamedField(o: Obj, f: Func<Addr>, node: Addr, export_: Option<seq<byte>>, debug: seq<byte>)
    requires Inv(o) && Fresh(o.sp, node) && FuncAll(ResolvesIn(o.sp), f)
    ensures Kept(o, AddName(AddField(o, FuncD(f), node, export_), NameAssoc(node, debug), false))
  {
    var o2 := AddField(o, FuncD(f), node, export_);
    hide Inv, OrderKept, FuncAll, Fresh, AddField, AddName, SortedBy, Resolves, Grow;
    FieldKeeps(o, FuncD(f), node, export_);
    NameKeeps(o2, NameAssoc(node, debug), false);
    if Sorted(o) { BackNames(o, f, node, debug); }
  }

  lemma {:induction false} BackNames(o: Obj, f: Func<Addr>, node: Addr, debug: seq<byte>)
    requires Sorted(o) && Inv(o) && Fresh(o.sp, node)
    ensures SortedBy(Grow(o, FuncD(f), node, false).sp, Put(NamesOf(o), NameAssoc(node, debug), false))
    ensures SortedBy(Grow(o, FuncD(f), node, false).sp, [])
  {
    NameResolves(o);
    assert Grow(o, FuncD(f), node, false).sp == Grown(o.sp, FuncS, node, false);
    hide Inv, Fresh, SortedBy, Grow, Grown;
    SortedBack(o.sp, NamesOf(o), node, debug);
    SortedNone(Grown(o.sp, FuncS, node, false));
  }
}
