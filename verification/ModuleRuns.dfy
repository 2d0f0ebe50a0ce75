/** Any sequence of edits, and what the edited module looks like when it is written out. */
module ModuleRuns {
  import opened Bytes
  import opened Codec
  import opened CodecInst
  import opened CodecModule
  import opened CodecParts
  import opened CodecSections
  import opened CodecRound
  import opened ModuleRefs
  import opened Addresses
  import opened DeepCopy
  import opened ModuleEdit
  import opened ModuleKeeps
  import opened ModuleAdds
  import opened ModuleRemoves

  datatype Edit =
    | SigE(sig: Sig, duplicate: bool, node: Addr)
    | FieldE(d: Decl, node: Addr, export_: Option<seq<byte>>)
    | FuncE(sig: Sig, locals: seq<LocalRun>, code: seq<Inst<Addr>>, export_: Option<seq<byte>>, debug: seq<byte>,
            sigNode: Addr, node: Addr)
    | ImportE(modName: seq<byte>, member: seq<byte>, d: Decl, node: Addr)
    | ImportFuncE(modName: seq<byte>, member: seq<byte>, sig: Sig, sigNode: Addr, node: Addr)
    | ExportE(name: seq<byte>, k: CodecModule.Kind, a: Addr)
    | RemoveE(idx: nat)

  /** New list elements get new addresses, and what is handed in refers to what is there. */
  predicate Allowed(o: Obj, e: Edit) {
    match e
    case SigE(_, _, node) => Fresh(o.sp, node)
    case FieldE(d, node, _) => Fresh(o.sp, node) && !d.FuncD?
    case FuncE(_, _, code, _, _, sigNode, node) =>
      Fresh(o.sp, sigNode) && Fresh(o.sp, node) && node != sigNode && CodeAll(ResolvesIn(o.sp), code)
    case ImportE(_, _, d, node) => Fresh(o.sp, node) && !d.FuncD?
    case ImportFuncE(_, _, _, sigNode, node) => Fresh(o.sp, sigNode) && Fresh(o.sp, node) && node != sigNode
    case ExportE(_, k, a) => Resolves(o.sp, SpaceOf(k), a)
    case RemoveE(idx) => idx < |o.m.funcs| && idx < |o.sp.funcs| ==> Unreferenced(o, idx)
  }

  function Apply(o: Obj, e: Edit): Obj {
    match e
    case SigE(sig, dup, node) => if dup then AddSig(o, sig, node) else WithSig(o, sig, node)
    case FieldE(d, node, x) => AddField(o, d, node, x)
    case FuncE(sig, ls, code, x, debug, sigNode, node) => AddFunc(o, sig, ls, code, x, debug, sigNode, node)
    case ImportE(mn, mm, d, node) => AddImport(o, mn, mm, d, node)
    case ImportFuncE(mn, mm, sig, sigNode, node) => AddImportFunc(o, mn, mm, sig, sigNode, node)
    case ExportE(n, k, a) => AddExport(o, n, k, a)
    case RemoveE(idx) =>
      if |o.sp.funcs| != |o.m.funcs| then o
      else match RemoveFunc(o, idx) case None => o case Some(r) => r
  }

  /** The module is in order, and what was in order before is in the same order after. */
  predicate Steady(o: Obj, r: Obj) { Inv(r) && OrderKept(o.sp, r.sp) && (Sorted(o) ==> Sorted(r)) }

  lemma SteadyIf(o: Obj, r: Obj)
    requires Inv(r) && OrderKept(o.sp, r.sp) && (Sorted(o) ==> Sorted(r))
    ensures Steady(o, r)
  {
  }

  lemma KeptSteady(o: Obj, r: Obj)
    requires Kept(o, r)
    ensures Steady(o, r)
  {
    hide Inv, OrderKept, Sorted, Grows;
  }

  lemma OrderSame(sp: Spaces)
    ensures OrderKept(sp, sp)
  {
  }

  lemma {:induction false} ImportFuncKeeps(o: Obj, modName: seq<byte>, member: seq<byte>, sig: Sig, sigNode: Addr, node: Addr)
    requires Inv(o) && Fresh(o.sp, sigNode) && Fresh(o.sp, node) && node != sigNode
    ensures Kept(o, AddImportFunc(o, modName, member, sig, sigNode, node))
  {
    var o1 := WithSig(o, sig, sigNode);
    var d := FuncD(Func(SigAt(o, sig, sigNode), [], []));
    EmptyCode(ResolvesIn(o.sp));
    hide *;
    SigKeeps(o, sig, sigNode);
    KeptInv(o, o1);
    FreshIn(o, sig, sigNode, node);
    NewFunc(o, sig, [], [], sigNode);
    AddImportKeeps(o1, modName, member, d, node);
    KeptTrans(o, o1, AddImport(o1, modName, member, d, node));
    ImportFuncIs(o, modName, member, sig, sigNode, node);
  }

  lemma EmptyCode(p: (Space, Addr) -> bool)
    ensures CodeAll(p, [])
  {
  }

  lemma ImportFuncIs(o: Obj, modName: seq<byte>, member: seq<byte>, sig: Sig, sigNode: Addr, node: Addr)
    ensures AddImportFunc(o, modName, member, sig, sigNode, node)
         == AddImport(WithSig(o, sig, sigNode), modName, member, FuncD(Func(SigAt(o, sig, sigNode), [], [])), node)
  {
    hide AddImport, WithSig, SigAt;
  }

  lemma {:induction false} DuplicateSig(o: Obj, sig: Sig, node: Addr)
    requires Inv(o) && Fresh(o.sp, node)
    ensures Steady(o, AddSig(o, sig, node))
  {
    AddSigKeeps(o, sig, node);
    var r := AddSig(o, sig, node);
    assert NamesOf(r) == NamesOf(o);
    NameResolves(o);
    hide Inv, OrderKept, AddSig, SortedBy, Resolves, NamesOf;
    if Sorted(o) { SortedStays(o.sp, r.sp, NamesOf(o)); }
  }

  lemma {:induction false} ExportSteady(o: Obj, name: seq<byte>, k: CodecModule.Kind, a: Addr)
    requires Inv(o) && Resolves(o.sp, SpaceOf(k), a)
    ensures Steady(o, AddExport(o, name, k, a))
  {
    ExportKeeps(o, name, k, a);
    OrderSame(o.sp);
    hide Inv, OrderKept, SortedBy, Resolves;
  }

  lemma {:induction false} RemoveSteady(o: Obj, idx: nat)
    requires Inv(o) && (idx < |o.m.funcs| && idx < |o.sp.funcs| ==> Unreferenced(o, idx))
    ensures Steady(o, Apply(o, RemoveE(idx)))
  {
    hide *;
    InvShape(o);
    OrderSame(o.sp);
    if idx < |o.m.funcs| { RemoveKeeps(o, idx); } else { RemoveNone(o, idx); }
    RemoveApplied(o, idx);
    SteadyIf(o, Apply(o, RemoveE(idx)));
  }

  lemma RemoveNone(o: Obj, idx: nat)
    requires idx >= |o.m.funcs| && |o.sp.funcs| == |o.m.funcs|
    ensures RemoveFunc(o, idx) == None
  {
  }

  lemma RemoveApplied(o: Obj, idx: nat)
    requires |o.sp.funcs| == |o.m.funcs|
    ensures Apply(o, RemoveE(idx)) == match RemoveFunc(o, idx) case None => o case Some(r) => r
  {
    hide RemoveFunc;
  }

  /** One edit. */
  lemma {:induction false} EditKeeps(o: Obj, e: Edit)
    requires Inv(o) && Allowed(o, e)
    ensures Steady(o, Apply(o, e))
  {
    hide Inv, Steady, Fresh, CodeAll, Resolves, Unreferenced, Kept;
    hide AddSig, WithSig, AddField, AddFunc, AddImport, AddImportFunc, AddExport, RemoveFunc;
    match e
    case SigE(sig, dup, node) =>
      if dup { DuplicateSig(o, sig, node); } else { SigKeeps(o, sig, node); KeptSteady(o, WithSig(o, sig, node)); }
    case FieldE(d, node, x) => AddFieldKeeps(o, d, node, x); KeptSteady(o, AddField(o, d, node, x));
    case FuncE(sig, ls, code, x, debug, sigNode, node) =>
      AddFuncKeeps(o, sig, ls, code, x, debug, sigNode, node);
      KeptSteady(o, AddFunc(o, sig, ls, code, x, debug, sigNode, node));
    case ImportE(mn, mm, d, node) =>
      AddImportKeeps(o, mn, mm, d, node);
      KeptSteady(o, AddImport(o, mn, mm, d, node));
    case ImportFuncE(mn, mm, sig, sigNode, node) =>
      ImportFuncKeeps(o, mn, mm, sig, sigNode, node);
      KeptSteady(o, AddImportFunc(o, mn, mm, sig, sigNode, node));
    case ExportE(n, k, a) => ExportSteady(o, n, k, a);
    case RemoveE(idx) => RemoveSteady(o, idx);
  }

  // ----- runs -----

  function After(o: Obj, es: seq<Edit>): Obj
    decreases |es|
  {
    if es == [] then o else After(Apply(o, es[0]), es[1..])
  }

  predicate AllAllowed(o: Obj, es: seq<Edit>)
    decreases |es|
  {
    es == [] || (Allowed(o, es[0]) && AllAllowed(Apply(o, es[0]), es[1..]))
  }

  /** The declaration is there all the time. */
  predicate Stays(o: Obj, es: seq<Edit>, s: Space, a: Addr)
    decreases |es|
  {
    Resolves(o.sp, s, a) && (es == [] || Stays(Apply(o, es[0]), es[1..], s, a))
  }

  predicate Before(sp: Spaces, s: Space, a: Addr, b: Addr) { IndexOf(At(sp, s), a) < IndexOf(At(sp, s), b) }

  lemma BeforeKept(sp: Spaces, sp': Spaces, s: Space, a: Addr, b: Addr)
    requires OrderKept(sp, sp') && Resolves(sp, s, a) && Resolves(sp, s, b) && Resolves(sp', s, a) && Resolves(sp', s, b)
    ensures Before(sp, s, a, b) <==> Before(sp', s, a, b)
  {
    hide IndexOf;
  }

  /**
   * After any sequence of edits every reference resolves, the imports of each kind are the front of
   * their index space, and names that were sorted by index still are.
   */
  lemma {:induction false} EveryRun(o: Obj, es: seq<Edit>)
    requires Inv(o) && AllAllowed(o, es)
    ensures Inv(After(o, es)) && (Sorted(o) ==> Sorted(After(o, es)))
    decreases |es|
  {
    hide Inv, Apply, Allowed, OrderKept, Sorted;
    if es != [] {
      EditKeeps(o, es[0]);
      EveryRun(Apply(o, es[0]), es[1..]);
    }
  }

  /** Declarations that are never removed keep their relative order over any run. */
  lemma {:induction false} OrderOverRuns(o: Obj, es: seq<Edit>, s: Space, a: Addr, b: Addr)
    requires Inv(o) && AllAllowed(o, es) && Stays(o, es, s, a) && Stays(o, es, s, b)
    ensures Resolves(After(o, es).sp, s, a) && Resolves(After(o, es).sp, s, b)
    ensures Before(o.sp, s, a, b) <==> Before(After(o, es).sp, s, a, b)
    decreases |es|
  {
    hide Inv, Apply, Allowed, OrderKept, Sorted, Before, Resolves;
    if es != [] {
      var o1 := Apply(o, es[0]);
      EditKeeps(o, es[0]);
      OrderOverRuns(o1, es[1..], s, a, b);
      StaysNow(o1, es[1..], s, a);
      StaysNow(o1, es[1..], s, b);
      BeforeKept(o.sp, o1.sp, s, a, b);
    }
  }

  lemma StaysNow(o: Obj, es: seq<Edit>, s: Space, a: Addr)
    requires Stays(o, es, s, a)
    ensures Resolves(o.sp, s, a)
  {
  }

  // ----- written out -----

  lemma {:induction false} NumsCount(imports: seq<Import<Addr>>, k: CodecModule.Kind)
    ensures CountOf(NumsOf(imports), k) == |DescsOf(imports, k)|
    decreases |imports|
  {
    if imports == [] {
    } else {
      var n := |imports| - 1;
      NumsCount(imports[..n], k);
      assert imports == imports[..n] + [imports[n]];
      DescsAppend(imports[..n], [imports[n]], k);
      BumpCount(NumsOf(imports[..n]), imports[n].kind, k);
      OneDesc(imports[n], k);
      hide DescsOf, CountOf, Bump;
    }
  }

  lemma OneDesc(imp: Import<Addr>, k: CodecModule.Kind)
    ensures DescsOf([imp], k) == if imp.kind == k then [imp.desc] else []
  {
    DescsCons(imp, [], k);
    assert [imp] + [] == [imp];
  }

  lemma SameCounts(c: Counts, d: Counts)
    requires forall k: CodecModule.Kind :: CountOf(c, k) == CountOf(d, k)
    ensures c == d
  {
    assert CountOf(c, FuncK) == CountOf(d, FuncK) && CountOf(c, TableK) == CountOf(d, TableK);
    assert CountOf(c, MemK) == CountOf(d, MemK) && CountOf(c, GlobalK) == CountOf(d, GlobalK);
  }

  lemma {:induction false} SameKinds(xs: seq<Import<Addr>>, ys: seq<Import<nat>>)
    requires |xs| == |ys| && forall i :: 0 <= i < |xs| ==> xs[i].kind == ys[i].kind
    ensures NumsOf(xs) == NumsOf(ys)
    decreases |xs|
  {
    if xs != [] { SameKinds(xs[..|xs| - 1], ys[..|ys| - 1]); }
  }

  /** The import at `j` is at the place in its space that the imports of its kind before it leave. */
  lemma {:induction false} ImportPlace(o: Obj, j: nat)
    requires Inv(o) && j < |o.m.imports|
    ensures var imp := o.m.imports[j]; var n := CountOf(NumsOf(o.m.imports[..j]), imp.kind);
      n < CountOf(o.m.nums, imp.kind) && n < |At(o.sp, SpaceOf(imp.kind))| && At(o.sp, SpaceOf(imp.kind))[n] == imp.desc
      && IndexOf(At(o.sp, SpaceOf(imp.kind)), imp.desc) == n
  {
    var imp := o.m.imports[j];
    var n := CountOf(NumsOf(o.m.imports[..j]), imp.kind);
    assert FrontOfKind(o.m, o.sp, imp.kind) && Distinct(o.sp);
    hide *;
    NumsCount(o.m.imports[..j], imp.kind);
    DescsAround(o.m.imports, j, imp.kind);
    FrontIs(o.m, o.sp, imp.kind);
    assert DescsOf(o.m.imports, imp.kind)[n] == imp.desc;
    DistinctIndex(o.sp, SpaceOf(imp.kind), n);
  }

  lemma FrontIs(m: Module<Addr>, sp: Spaces, k: CodecModule.Kind)
    requires FrontOfKind(m, sp, k)
    ensures CountOf(m.nums, k) <= |At(sp, SpaceOf(k))|
    ensures DescsOf(m.imports, k) == At(sp, SpaceOf(k))[..CountOf(m.nums, k)]
  {
    hide DescsOf, CountOf, At;
  }

  /** Written out, the imports are in order as the decoder expects them, and the counts are right. */
  lemma {:induction false} WrittenInOrder(o: Obj)
    requires Inv(o)
    ensures var v := View(o.m, o.sp); ImportsInOrder(v.imports) && v.nums == NumsOf(v.imports)
  {
    var v := View(o.m, o.sp);
    forall k: CodecModule.Kind ensures CountOf(o.m.nums, k) == CountOf(NumsOf(o.m.imports), k) {
      assert FrontOfKind(o.m, o.sp, k);
      hide *;
      FrontIs(o.m, o.sp, k);
      NumsCount(o.m.imports, k);
    }
    SameCounts(o.m.nums, NumsOf(o.m.imports));
    ViewImports(o.m, o.sp);
    hide Inv, View, NumsOf, Bump, At;
    SameKinds(o.m.imports, v.imports);
    forall j | 0 <= j < |v.imports| ensures v.imports[j].desc == CountOf(NumsOf(v.imports[..j]), v.imports[j].kind) {
      ImportPlace(o, j);
      SameKinds(o.m.imports[..j], v.imports[..j]);
    }
  }

  lemma ViewImports(m: Module<Addr>, sp: Spaces)
    ensures |View(m, sp).imports| == |m.imports| && View(m, sp).nums == m.nums
    ensures forall j :: 0 <= j < |m.imports| ==> View(m, sp).imports[j].kind == m.imports[j].kind
    ensures forall j :: 0 <= j < |m.imports| ==>
      View(m, sp).imports[j].desc == IndexOf(At(sp, SpaceOf(m.imports[j].kind)), m.imports[j].desc)
  {
    hide MapFuncs, MapExports, MapElems, MapDatas, MapCustoms, IndexOf;
  }

  // ----- a copy is in order, too -----

  lemma {:induction false} DescsMoved(f: (Space, Addr) -> Addr, xs: seq<Import<Addr>>, k: CodecModule.Kind)
    ensures DescsOf(MapImports(f, xs), k) == MapList(f, SpaceOf(k), DescsOf(xs, k))
    decreases |xs|
  {
    var ys := MapImports(f, xs);
    if xs != [] {
      assert ys[1..] == MapImports(f, xs[1..]);
      DescsMoved(f, xs[1..], k);
      DescsStep(xs, k);
      DescsStep(ys, k);
      hide DescsOf;
      var ds, es := DescsOf(xs, k), MapList(f, SpaceOf(k), DescsOf(xs, k));
      assert |es| == |ds| && forall i :: 0 <= i < |ds| ==> es[i] == f(SpaceOf(k), ds[i]);
      if xs[0].kind == k { assert MapList(f, SpaceOf(k), ds) == [f(SpaceOf(k), ds[0])] + MapList(f, SpaceOf(k), ds[1..]); }
    }
  }

  lemma {:induction false} MovedAt(sp: Spaces, nodes: Spaces, s: Space, n: nat)
    requires Distinct(sp) && SameShape(sp, nodes) && n <= |At(sp, s)|
    ensures n <= |At(nodes, s)| && MapList(To(sp, nodes), s, At(sp, s)[..n]) == At(nodes, s)[..n]
  {
    assert |At(nodes, s)| == |At(sp, s)|;
    forall i | 0 <= i < n ensures Moved(sp, nodes, s, At(sp, s)[i]) == At(nodes, s)[i] { DistinctIndex(sp, s, i); }
    hide Moved, IndexOf, At, Distinct, SameShape;
  }

  lemma {:induction false} CopyFront(o: Obj, nodes: Spaces)
    requires Inv(o) && SameShape(o.sp, nodes)
    ensures ImportsFront(MapModule(To(o.sp, nodes), o.m), nodes)
  {
    var f := To(o.sp, nodes);
    var c := MapModule(f, o.m);
    CopyLists(f, o.m);
    assert Distinct(o.sp);
    hide MapModule, Linked, To, DescsOf, NamesKnown, Distinct, SameShape;
    forall k: CodecModule.Kind ensures FrontOfKind(c, nodes, k) {
      assert FrontOfKind(o.m, o.sp, k);
      DescsMoved(f, o.m.imports, k);
      MovedAt(o.sp, nodes, SpaceOf(k), CountOf(o.m.nums, k));
    }
  }

  lemma CopyLists(f: (Space, Addr) -> Addr, m: Module<Addr>)
    ensures MapModule(f, m).imports == MapImports(f, m.imports) && MapModule(f, m).nums == m.nums
    ensures |MapModule(f, m).customs| == |m.customs|
    ensures forall i :: 0 <= i < |m.customs| ==> MapModule(f, m).customs[i].name == m.customs[i].name
  {
    hide MapFuncs, MapExports, MapElems, MapDatas, MapImports;
  }

  /**
   * A copy of a module in order is in order if and only if its name pointer was null or there is a
   * name section to point it to: otherwise the pointer the copy was made over stays behind.
   */
  lemma {:induction false} CopyInOrder(o: Obj, nodes: Spaces, was: Option<nat>)
    requires Inv(o) && SameShape(o.sp, nodes) && Distinct(nodes)
    ensures Inv(Obj(MapModule(To(o.sp, nodes), o.m), nodes, NamesAt(o.m.customs, was)))
      <==> was.None? || exists i :: 0 <= i < |o.m.customs| && o.m.customs[i].name == NAME_SECTION
  {
    var c := Obj(MapModule(To(o.sp, nodes), o.m), nodes, NamesAt(o.m.customs, was));
    CopyLinked(o.m, o.sp, nodes);
    CopyFront(o, nodes);
    CopyLists(To(o.sp, nodes), o.m);
    NamesAtOwn(o.m.customs, was);
    hide MapModule, Linked, ImportsFront, NamesAt, To, NAME_SECTION;
    assert Inv(c) <==> NamesKnown(c);
  }

  /** A module without sections is copied over one whose name pointer is set: the pointer is left behind. */
  lemma {:induction false} PointerLeftBehind()
    ensures var o := Obj(EMPTY, NOWHERE, None);
      Inv(o) && !Inv(Obj(MapModule(To(o.sp, NOWHERE), o.m), NOWHERE, NamesAt(o.m.customs, Some(0))))
  {
    EmptyInv();
    NothingDistinct();
    hide Inv, Distinct, SameShape, MapModule, NamesAt, To;
    CopyInOrder(Obj(EMPTY, NOWHERE, None), NOWHERE, Some(0));
  }

  lemma NothingDistinct()
    ensures Distinct(NOWHERE) && SameShape(NOWHERE, NOWHERE)
  {
  }

  lemma EmptyInv()
    ensures Inv(Obj(EMPTY, NOWHERE, None))
  {
    var o := Obj(EMPTY, NOWHERE, None);
    forall k: CodecModule.Kind ensures FrontOfKind(o.m, o.sp, k) {
      assert CountOf(o.m.nums, k) == 0 && DescsOf(o.m.imports, k) == [];
      assert At(o.sp, SpaceOf(k))[..0] == [];
    }
  }
}
