/** Copying a module: lists are copied to new addresses, then every reference is moved over. */
module DeepCopy {
  import opened Bytes
  import opened Codec
  import opened CodecInst
  import opened CodecModule
  import opened CodecParts
  import opened CodecSections
  import opened CodecRound
  import opened ModuleRefs
  import opened Addresses

  /** The declaration of the copy with the index that `a` has in the original. */
  function Moved(sp: Spaces, nodes: Spaces, s: Space, a: Addr): Addr {
    var i := IndexOf(At(sp, s), a);
    if i < |At(nodes, s)| then At(nodes, s)[i] else 0
  }

  function To(sp: Spaces, nodes: Spaces): (Space, Addr) -> Addr { (s: Space, a: Addr) => Moved(sp, nodes, s, a) }

  // ----- the cache -----

  /** What was looked up already; 0 stands for the null pointer of a new entry. */
  class Cache {
    var entries: map<Addr, Addr>

    constructor ()
      ensures entries == map[]
    {
      entries := map[];
    }
  }

  /** Every entry is what looking it up again would give, in whatever space its address lies. */
  predicate Coherent(entries: map<Addr, Addr>, sp: Spaces, nodes: Spaces) {
    forall a: Addr, s: Space :: a in entries && Resolves(sp, s, a) && entries[a] != 0 ==> entries[a] == Moved(sp, nodes, s, a)
  }

  lemma {:induction false} CoherentAdd(entries: map<Addr, Addr>, sp: Spaces, nodes: Spaces, s: Space, a: Addr)
    requires Coherent(entries, sp, nodes) && Distinct(sp) && Resolves(sp, s, a)
    ensures Coherent(entries[a := Moved(sp, nodes, s, a)], sp, nodes)
  {
    var e := entries[a := Moved(sp, nodes, s, a)];
    hide Moved, Distinct;
    forall b: Addr, t: Space | b in e && Resolves(sp, t, b) && e[b] != 0 ensures e[b] == Moved(sp, nodes, t, b) {
      if a == b { OneSpace(sp, s, t, a); }
    }
  }

  lemma OneSpace(sp: Spaces, s: Space, t: Space, a: Addr)
    requires Distinct(sp) && Resolves(sp, s, a) && Resolves(sp, t, a)
    ensures s == t
  {
    var i: nat :| i < |At(sp, s)| && At(sp, s)[i] == a;
    var j: nat :| j < |At(sp, t)| && At(sp, t)[j] == a;
  }

  ghost predicate Ready(cache: Cache, sp: Spaces, nodes: Spaces)
    reads cache
  {
    Distinct(sp) && SameShape(sp, nodes) && Coherent(cache.entries, sp, nodes)
  }

  lemma IndexFits(sp: Spaces, nodes: Spaces, s: Space, a: Addr)
    requires SameShape(sp, nodes) && Resolves(sp, s, a)
    ensures IndexOf(At(sp, s), a) < |At(nodes, s)|
    ensures Moved(sp, nodes, s, a) == At(nodes, s)[IndexOf(At(sp, s), a)]
  {
    hide IndexOf;
  }

  /** With the cache as without it: the declaration with the same index. */
  method Reassign(cache: Cache, sp: Spaces, nodes: Spaces, s: Space, a: Addr) returns (r: Addr)
    requires Ready(cache, sp, nodes) && Resolves(sp, s, a)
    modifies cache
    ensures Ready(cache, sp, nodes)
    ensures r == To(sp, nodes)(s, a)
  {
    hide Coherent, Distinct, SameShape, Moved, At;
    if a !in cache.entries || cache.entries[a] == 0 {
      var i := GetListIdx(At(sp, s), a);
      IndexFits(sp, nodes, s, a);
      CoherentAdd(cache.entries, sp, nodes, s, a);
      cache.entries := cache.entries[a := At(nodes, s)[i.value]];
    } else {
      CoherentAt(cache.entries, sp, nodes, s, a);
    }
    r := cache.entries[a];
  }

  lemma CoherentAt(entries: map<Addr, Addr>, sp: Spaces, nodes: Spaces, s: Space, a: Addr)
    requires Coherent(entries, sp, nodes) && a in entries && entries[a] != 0 && Resolves(sp, s, a)
    ensures entries[a] == Moved(sp, nodes, s, a)
  {
  }

  // ----- patching lists -----

  method PatchImports(cache: Cache, sp: Spaces, nodes: Spaces, xs: seq<Import<Addr>>) returns (list: seq<Import<Addr>>)
    requires Ready(cache, sp, nodes) && ImportsAll(ResolvesIn(sp), xs)
    modifies cache
    ensures Ready(cache, sp, nodes) && list == MapImports(To(sp, nodes), xs)
  {
    hide Ready, Resolves, To;
    list := xs;
    for k := 0 to |xs|
      invariant Ready(cache, sp, nodes)
      invariant |list| == |xs| && (forall i :: k <= i < |xs| ==> list[i] == xs[i])
      invariant forall i :: 0 <= i < k ==> list[i] == MapImport(To(sp, nodes), xs[i])
    {
      assert ResolvesIn(sp)(SpaceOf(xs[k].kind), xs[k].desc);
      var r := Reassign(cache, sp, nodes, SpaceOf(xs[k].kind), xs[k].desc);
      list := list[k := xs[k].(desc := r)];
    }
    assert list == MapImports(To(sp, nodes), xs);
  }

  method PatchExports(cache: Cache, sp: Spaces, nodes: Spaces, xs: seq<Export<Addr>>) returns (list: seq<Export<Addr>>)
    requires Ready(cache, sp, nodes) && ExportsAll(ResolvesIn(sp), xs)
    modifies cache
    ensures Ready(cache, sp, nodes) && list == MapExports(To(sp, nodes), xs)
  {
    hide Ready, Resolves, To;
    list := xs;
    for k := 0 to |xs|
      invariant Ready(cache, sp, nodes)
      invariant |list| == |xs| && (forall i :: k <= i < |xs| ==> list[i] == xs[i])
      invariant forall i :: 0 <= i < k ==> list[i] == MapExport(To(sp, nodes), xs[i])
    {
      assert ResolvesIn(sp)(SpaceOf(xs[k].kind), xs[k].desc);
      var r := Reassign(cache, sp, nodes, SpaceOf(xs[k].kind), xs[k].desc);
      list := list[k := xs[k].(desc := r)];
    }
    assert list == MapExports(To(sp, nodes), xs);
  }

  /** A new instruction of the same kind, its references moved. */
  method PatchImm(cache: Cache, sp: Spaces, nodes: Spaces, m: Imm<Addr>) returns (r: Imm<Addr>)
    requires Ready(cache, sp, nodes) && ImmAll(ResolvesIn(sp), m)
    modifies cache
    ensures Ready(cache, sp, nodes) && r == MapImm(To(sp, nodes), m)
  {
    hide Ready, Resolves, To;
    match m
    case FuncRef(x) =>
      var y := Reassign(cache, sp, nodes, FuncS, x);
      r := FuncRef(y);
    case SigTable(s, t) =>
      var s' := Reassign(cache, sp, nodes, SigS, s);
      var t' := Reassign(cache, sp, nodes, TableS, t);
      r := SigTable(s', t');
    case GlobalRef(x) =>
      var y := Reassign(cache, sp, nodes, GlobalS, x);
      r := GlobalRef(y);
    case Memarg(a, x, o) =>
      var y := Reassign(cache, sp, nodes, MemS, x);
      r := Memarg(a, y, o);
    case MemoryRef(x) =>
      var y := Reassign(cache, sp, nodes, MemS, x);
      r := MemoryRef(y);
    case DataMemory(d, x) =>
      var d' := Reassign(cache, sp, nodes, DataS, d);
      var y := Reassign(cache, sp, nodes, MemS, x);
      r := DataMemory(d', y);
    case DataRef(d) =>
      var y := Reassign(cache, sp, nodes, DataS, d);
      r := DataRef(y);
    case Memorycp(d, s) =>
      var d' := Reassign(cache, sp, nodes, MemS, d);
      var s' := Reassign(cache, sp, nodes, MemS, s);
      r := Memorycp(d', s');
    case MemargLane(a, x, o, b) =>
      var y := Reassign(cache, sp, nodes, MemS, x);
      r := MemargLane(a, y, o, b);
    case _ => r := m;
  }

  method PatchCode(cache: Cache, sp: Spaces, nodes: Spaces, code: seq<Inst<Addr>>) returns (list: seq<Inst<Addr>>)
    requires Ready(cache, sp, nodes) && CodeAll(ResolvesIn(sp), code)
    modifies cache
    ensures Ready(cache, sp, nodes) && list == MapCode(To(sp, nodes), code)
  {
    hide Ready, Resolves, To, ImmAll, MapImm;
    list := code;
    for k := 0 to |code|
      invariant Ready(cache, sp, nodes)
      invariant |list| == |code| && (forall i :: k <= i < |code| ==> list[i] == code[i])
      invariant forall i :: 0 <= i < k ==> list[i] == MapInst(To(sp, nodes), code[i])
    {
      var imm := PatchImm(cache, sp, nodes, code[k].imm);
      list := list[k := Inst(code[k].op, imm)];
    }
    assert list == MapCode(To(sp, nodes), code);
  }

  method PatchFuncs(cache: Cache, sp: Spaces, nodes: Spaces, fs: seq<Func<Addr>>) returns (list: seq<Func<Addr>>)
    requires Ready(cache, sp, nodes) && FuncsAll(ResolvesIn(sp), fs)
    modifies cache
    ensures Ready(cache, sp, nodes) && list == MapFuncs(To(sp, nodes), fs)
  {
    hide Ready, Resolves, To, CodeAll, MapCode;
    list := fs;
    for k := 0 to |fs|
      invariant Ready(cache, sp, nodes)
      invariant |list| == |fs| && (forall i :: k <= i < |fs| ==> list[i] == fs[i])
      invariant forall i :: 0 <= i < k ==> list[i] == MapFunc(To(sp, nodes), fs[i])
    {
      assert FuncAll(ResolvesIn(sp), fs[k]);
      var sig := Reassign(cache, sp, nodes, SigS, fs[k].sig);
      var code := PatchCode(cache, sp, nodes, fs[k].code);
      list := list[k := Func(sig, fs[k].locals, code)];
    }
    assert list == MapFuncs(To(sp, nodes), fs);
  }

  method PatchRefs(cache: Cache, sp: Spaces, nodes: Spaces, xs: seq<Addr>) returns (list: seq<Addr>)
    requires Ready(cache, sp, nodes) && ListAll(ResolvesIn(sp), FuncS, xs)
    modifies cache
    ensures Ready(cache, sp, nodes) && list == MapList(To(sp, nodes), FuncS, xs)
  {
    hide Ready, Resolves, To;
    list := xs;
    for k := 0 to |xs|
      invariant Ready(cache, sp, nodes)
      invariant |list| == |xs| && (forall i :: k <= i < |xs| ==> list[i] == xs[i])
      invariant forall i :: 0 <= i < k ==> list[i] == To(sp, nodes)(FuncS, xs[i])
    {
      assert ResolvesIn(sp)(FuncS, xs[k]);
      var r := Reassign(cache, sp, nodes, FuncS, xs[k]);
      list := list[k := r];
    }
    assert list == MapList(To(sp, nodes), FuncS, xs);
  }

  method PatchElems(cache: Cache, sp: Spaces, nodes: Spaces, xs: seq<Elem<Addr>>) returns (list: seq<Elem<Addr>>)
    requires Ready(cache, sp, nodes) && ElemsAll(ResolvesIn(sp), xs)
    modifies cache
    ensures Ready(cache, sp, nodes) && list == MapElems(To(sp, nodes), xs)
  {
    hide Ready, Resolves, To, ListAll, MapList;
    list := xs;
    for k := 0 to |xs|
      invariant Ready(cache, sp, nodes)
      invariant |list| == |xs| && (forall i :: k <= i < |xs| ==> list[i] == xs[i])
      invariant forall i :: 0 <= i < k ==> list[i] == MapElem(To(sp, nodes), xs[i])
    {
      var fs := PatchRefs(cache, sp, nodes, xs[k].funcs);
      list := list[k := Elem(xs[k].offset, fs)];
    }
    assert list == MapElems(To(sp, nodes), xs);
  }

  /** Every segment announced by the count has been read. */
  predicate AllRead<R>(xs: seq<Data<R>>) { forall i :: 0 <= i < |xs| ==> !xs[i].Unread? }

  /**
   * Passive segments refer to no memory.  A segment that was announced and never read is not passive, and
   * its null pointer is in no list: the copy is abandoned.
   */
  method PatchDatas(cache: Cache, sp: Spaces, nodes: Spaces, xs: seq<Data<Addr>>) returns (ok: bool, list: seq<Data<Addr>>)
    requires Ready(cache, sp, nodes) && DatasAll(ResolvesIn(sp), xs)
    modifies cache
    ensures ok <==> AllRead(xs)
    ensures ok ==> Ready(cache, sp, nodes) && list == MapDatas(To(sp, nodes), xs)
  {
    hide Ready, Resolves, To;
    ok, list := true, xs;
    for k := 0 to |xs|
      invariant Ready(cache, sp, nodes) && ok && (forall i :: 0 <= i < k ==> !xs[i].Unread?)
      invariant |list| == |xs| && (forall i :: k <= i < |xs| ==> list[i] == xs[i])
      invariant forall i :: 0 <= i < k ==> list[i] == MapData(To(sp, nodes), xs[i])
    {
      assert DataAll(ResolvesIn(sp), xs[k]);
      match xs[k]
      case Active0(o, x, b) =>
        var y := Reassign(cache, sp, nodes, MemS, x);
        list := list[k := Active0(o, y, b)];
      case Active2(x, o, b) =>
        var y := Reassign(cache, sp, nodes, MemS, x);
        list := list[k := Active2(y, o, b)];
      case Passive(_) =>
      case Unread =>
        ok := false;
        return;
    }
    assert list == MapDatas(To(sp, nodes), xs);
  }

  method PatchNames(cache: Cache, sp: Spaces, nodes: Spaces, xs: seq<NameAssoc<Addr>>) returns (list: seq<NameAssoc<Addr>>)
    requires Ready(cache, sp, nodes) && NamesAll(ResolvesIn(sp), xs)
    modifies cache
    ensures Ready(cache, sp, nodes) && list == MapNames(To(sp, nodes), xs)
  {
    hide Ready, Resolves, To;
    list := xs;
    for k := 0 to |xs|
      invariant Ready(cache, sp, nodes)
      invariant |list| == |xs| && (forall i :: k <= i < |xs| ==> list[i] == xs[i])
      invariant forall i :: 0 <= i < k ==> list[i] == MapName(To(sp, nodes), xs[i])
    {
      assert ResolvesIn(sp)(FuncS, xs[k].func);
      var r := Reassign(cache, sp, nodes, FuncS, xs[k].func);
      list := list[k := NameAssoc(r, xs[k].name)];
    }
    assert list == MapNames(To(sp, nodes), xs);
  }

  /** The name section whose function names the module's name pointer refers to: the last one. */
  function NamesAt(customs: seq<Custom<Addr>>, otherwise: Option<nat>): (r: Option<nat>) {
    if customs == [] then otherwise
    else if customs[|customs| - 1].name == NAME_SECTION then Some(|customs| - 1)
    else NamesAt(customs[..|customs| - 1], otherwise)
  }

  /** Only sections called "name" hold function names. */
  predicate NamesInPlace(customs: seq<Custom<Addr>>) {
    forall i :: 0 <= i < |customs| ==> customs[i].name == NAME_SECTION || customs[i].names == []
  }

  lemma MapNoNames(f: (Space, Addr) -> Addr, c: Custom<Addr>)
    requires c.names == []
    ensures MapCustom(f, c) == c
  {
  }

  lemma NamesStep(customs: seq<Custom<Addr>>, k: nat, otherwise: Option<nat>)
    requires k < |customs|
    ensures NamesAt(customs[..k + 1], otherwise)
         == if customs[k].name == NAME_SECTION then Some(k) else NamesAt(customs[..k], otherwise)
  {
    assert customs[..k + 1][..k] == customs[..k];
  }

  lemma WholeCustoms(xs: seq<Custom<Addr>>)
    ensures xs[..|xs|] == xs
  {
  }

  method PatchCustoms(cache: Cache, sp: Spaces, nodes: Spaces, xs: seq<Custom<Addr>>, was: Option<nat>)
    returns (list: seq<Custom<Addr>>, names: Option<nat>)
    requires Ready(cache, sp, nodes) && CustomsAll(ResolvesIn(sp), xs) && NamesInPlace(xs)
    modifies cache
    ensures Ready(cache, sp, nodes) && list == MapCustoms(To(sp, nodes), xs)
    ensures names == NamesAt(xs, was)
  {
    hide *;
    list, names := xs, was;
    NoNamesYet(xs, was);
    WholeCustoms(xs);
    for k := 0 to |xs|
      invariant Ready(cache, sp, nodes) && names == NamesAt(xs[..k], was)
      invariant |list| == |xs| && (forall i :: k <= i < |xs| ==> list[i] == xs[i])
      invariant forall i :: 0 <= i < k ==> list[i] == MapCustom(To(sp, nodes), xs[i])
    {
      NamesStep(xs, k, was);
      CustomNow(ResolvesIn(sp), xs, k);
      if xs[k].name == NAME_SECTION {
        var ns := PatchNames(cache, sp, nodes, xs[k].names);
        CustomIs(To(sp, nodes), xs[k]);
        list := list[k := Custom(xs[k].name, xs[k].bytes, xs[k].subs, ns)];
        names := Some(k);
      } else {
        MapNoNames(To(sp, nodes), xs[k]);
      }
    }
    assert list == MapCustoms(To(sp, nodes), xs);
  }

  lemma NoNamesYet(xs: seq<Custom<Addr>>, was: Option<nat>)
    ensures NamesAt(xs[..0], was) == was
  {
  }

  lemma CustomNow(p: (Space, Addr) -> bool, xs: seq<Custom<Addr>>, k: nat)
    requires CustomsAll(p, xs) && NamesInPlace(xs) && k < |xs|
    ensures NamesAll(p, xs[k].names) && (xs[k].name == NAME_SECTION || xs[k].names == [])
  {
    hide NamesAll, NAME_SECTION;
  }

  lemma CustomIs(f: (Space, Addr) -> Addr, c: Custom<Addr>)
    ensures MapCustom(f, c) == Custom(c.name, c.bytes, c.subs, MapNames(f, c.names))
  {
  }

  // ----- the whole copy -----

  predicate Linked(m: Module<Addr>, sp: Spaces) {
    Shaped(m, sp) && Distinct(sp) && AllRefs(ResolvesIn(sp), m) && NamesInPlace(m.customs)
  }

  lemma ReadyAtFirst(cache: Cache, sp: Spaces, nodes: Spaces)
    requires cache.entries == map[] && Distinct(sp) && SameShape(sp, nodes)
    ensures Ready(cache, sp, nodes)
  {
  }

  lemma Starts(m: Module<Addr>, sp: Spaces, nodes: Spaces)
    requires Linked(m, sp)
    ensures m.start.Some? ==> Resolves(sp, FuncS, m.start.value)
    ensures Distinct(sp) && NamesInPlace(m.customs) && AllRefs(ResolvesIn(sp), m)
  {
    assert StartAll(ResolvesIn(sp), m.start);
    hide Shaped, NamesInPlace, Distinct, ImportsAll, FuncsAll, ExportsAll, ElemsAll, DatasAll, CustomsAll;
  }

  lemma FromParts(m: Module<Addr>, sp: Spaces)
    requires AllRefs(ResolvesIn(sp), m)
    ensures ImportsAll(ResolvesIn(sp), m.imports) && FuncsAll(ResolvesIn(sp), m.funcs)
    ensures ExportsAll(ResolvesIn(sp), m.exports) && ElemsAll(ResolvesIn(sp), m.elems)
    ensures DatasAll(ResolvesIn(sp), m.datas) && CustomsAll(ResolvesIn(sp), m.customs)
  {
    hide ImportsAll, FuncsAll, ExportsAll, ElemsAll, DatasAll, CustomsAll;
  }

  lemma MappedIs(f: (Space, Addr) -> Addr, m: Module<Addr>)
    ensures MapModule(f, m) == Module(m.sigs, MapImports(f, m.imports), m.nums, MapFuncs(f, m.funcs), m.tables, m.mems,
      m.globals, MapExports(f, m.exports), if m.start.None? then None else Some(f(FuncS, m.start.value)),
      MapElems(f, m.elems), m.hasDatacount, MapDatas(f, m.datas), MapCustoms(f, m.customs))
  {
    hide MapImports, MapFuncs, MapExports, MapElems, MapDatas, MapCustoms;
  }

  // ----- what a copy is -----

  lemma MovedBack(sp: Spaces, nodes: Spaces, s: Space, a: Addr)
    requires SameShape(sp, nodes) && Distinct(nodes) && Resolves(sp, s, a)
    ensures Resolves(nodes, s, Moved(sp, nodes, s, a))
    ensures IndexOf(At(nodes, s), Moved(sp, nodes, s, a)) == IndexOf(At(sp, s), a)
    ensures Moved(nodes, sp, s, Moved(sp, nodes, s, a)) == a
  {
    IndexFits(sp, nodes, s, a);
    DistinctIndex(nodes, s, IndexOf(At(sp, s), a));
    hide IndexOf, Distinct;
  }

  /** Every index of the copy is the index of the original. */
  lemma {:induction false} CopyView(m: Module<Addr>, sp: Spaces, nodes: Spaces)
    requires Linked(m, sp) && SameShape(sp, nodes) && Distinct(nodes)
    ensures View(MapModule(To(sp, nodes), m), nodes) == View(m, sp)
  {
    var p := ResolvesIn(sp);
    forall s: Space, a: Addr | p(s, a) ensures Idx(nodes)(s, To(sp, nodes)(s, a)) == Idx(sp)(s, a) {
      MovedBack(sp, nodes, s, a);
    }
    AgreeOn(p, To(sp, nodes), Idx(nodes), Idx(sp));
    Starts(m, sp, nodes);
    hide *;
    ModuleTwice(p, To(sp, nodes), Idx(nodes), Idx(sp), m);
    ViewIs(m, sp);
    ViewIs(MapModule(To(sp, nodes), m), nodes);
  }

  lemma ViewIs(m: Module<Addr>, sp: Spaces)
    ensures View(m, sp) == MapModule(Idx(sp), m)
  {
  }

  lemma AgreeOn<R(!new), S, T>(p: (Space, R) -> bool, g: (Space, R) -> S, h: (Space, S) -> T, f: (Space, R) -> T)
    requires forall s: Space, r: R :: p(s, r) ==> h(s, g(s, r)) == f(s, r)
    ensures Agree(p, g, h, f)
  {
  }

  /** All references of the copy resolve within the copy. */
  lemma {:induction false} CopyLinked(m: Module<Addr>, sp: Spaces, nodes: Spaces)
    requires Linked(m, sp) && SameShape(sp, nodes) && Distinct(nodes)
    ensures Linked(MapModule(To(sp, nodes), m), nodes)
  {
    var p, q := ResolvesIn(sp), ResolvesIn(nodes);
    forall s: Space, a: Addr | p(s, a) ensures q(s, To(sp, nodes)(s, a)) {
      MovedBack(sp, nodes, s, a);
    }
    Starts(m, sp, nodes);
    CopyShape(m, sp, nodes);
    hide *;
    MappedAll(p, To(sp, nodes), q, m);
    LinkedIf(MapModule(To(sp, nodes), m), nodes);
  }

  lemma LinkedIf(m: Module<Addr>, sp: Spaces)
    requires Shaped(m, sp) && Distinct(sp) && AllRefs(ResolvesIn(sp), m) && NamesInPlace(m.customs)
    ensures Linked(m, sp)
  {
  }

  lemma CopyShape(m: Module<Addr>, sp: Spaces, nodes: Spaces)
    requires Linked(m, sp) && SameShape(sp, nodes)
    ensures Shaped(MapModule(To(sp, nodes), m), nodes)
    ensures NamesInPlace(MapModule(To(sp, nodes), m).customs)
  {
    hide AllRefs, Distinct, NAME_SECTION;
    assert forall s: Space :: |At(sp, s)| == |At(nodes, s)|;
    assert |At(nodes, SigS)| == |nodes.sigs| && |At(nodes, FuncS)| == |nodes.funcs| && |At(nodes, TableS)| == |nodes.tables|;
    assert |At(nodes, MemS)| == |nodes.mems| && |At(nodes, GlobalS)| == |nodes.globals| && |At(nodes, DataS)| == |nodes.datas|;
  }

  /** No reference of the copy is an address of the original. */
  lemma {:induction false} CopyIsApart(m: Module<Addr>, sp: Spaces, nodes: Spaces)
    requires Linked(m, sp) && SameShape(sp, nodes) && Distinct(nodes) && Apart(sp, nodes)
    ensures AllRefs((s: Space, a: Addr) => forall t: Space :: !Resolves(sp, t, a), MapModule(To(sp, nodes), m))
  {
    var q, apart := ResolvesIn(nodes), (s: Space, a: Addr) => forall t: Space :: !Resolves(sp, t, a);
    assert forall s: Space, a: Addr :: q(s, a) ==> apart(s, a);
    CopyLinked(m, sp, nodes);
    Starts(MapModule(To(sp, nodes), m), nodes, nodes);
    hide Linked, AllRefs, Distinct, SameShape, Apart, MapModule, To;
    AllWeaken(q, apart, MapModule(To(sp, nodes), m));
  }

  /** The copy is encoded to the same bytes. */
  lemma {:induction false} CopyEncodesAlike(m: Module<Addr>, sp: Spaces, nodes: Spaces)
    requires Linked(m, sp) && SameShape(sp, nodes) && Distinct(nodes)
    ensures EncodeModule(View(MapModule(To(sp, nodes), m), nodes)) == EncodeModule(View(m, sp))
  {
    CopyView(m, sp, nodes);
    hide *;
  }

  lemma {:induction false} MapSame(m: Module<Addr>, f: (Space, Addr) -> Addr, p: (Space, Addr) -> bool)
    requires AllRefs(p, m) && forall s: Space, a: Addr :: p(s, a) ==> f(s, a) == a
    ensures MapModule(f, m) == m
  {
    SameFuncs(m.funcs, f, p);
    SameLists(m, f, p);
    hide FuncsAll, MapFuncs, MapImports, MapExports, MapElems, MapDatas, MapCustoms, MapStart;
    hide ImportsAll, ExportsAll, ElemsAll, DatasAll, CustomsAll, StartAll;
  }

  lemma {:induction false} SameFuncs(fs: seq<Func<Addr>>, f: (Space, Addr) -> Addr, p: (Space, Addr) -> bool)
    requires FuncsAll(p, fs) && forall s: Space, a: Addr :: p(s, a) ==> f(s, a) == a
    ensures MapFuncs(f, fs) == fs
  {
    forall i | 0 <= i < |fs| ensures MapFunc(f, fs[i]) == fs[i] {
      assert FuncAll(p, fs[i]);
      SameCode(fs[i].code, f, p);
    }
    hide MapFunc, FuncAll;
  }

  lemma {:induction false} SameCode(code: seq<Inst<Addr>>, f: (Space, Addr) -> Addr, p: (Space, Addr) -> bool)
    requires CodeAll(p, code) && forall s: Space, a: Addr :: p(s, a) ==> f(s, a) == a
    ensures MapCode(f, code) == code
  {
    forall k | 0 <= k < |code| ensures MapInst(f, code[k]) == code[k] {
      assert ImmAll(p, code[k].imm);
    }
    hide ImmAll, MapInst;
  }

  lemma {:induction false} SameLists(m: Module<Addr>, f: (Space, Addr) -> Addr, p: (Space, Addr) -> bool)
    requires AllRefs(p, m) && forall s: Space, a: Addr :: p(s, a) ==> f(s, a) == a
    ensures MapImports(f, m.imports) == m.imports && MapExports(f, m.exports) == m.exports
    ensures MapStart(f, m.start) == m.start && MapElems(f, m.elems) == m.elems
    ensures MapDatas(f, m.datas) == m.datas && MapCustoms(f, m.customs) == m.customs
  {
    hide FuncsAll;
    forall i | 0 <= i < |m.elems| ensures MapElem(f, m.elems[i]) == m.elems[i] {
      assert ListAll(p, FuncS, m.elems[i].funcs);
      assert MapList(f, FuncS, m.elems[i].funcs) == m.elems[i].funcs;
    }
    forall i | 0 <= i < |m.customs| ensures MapCustom(f, m.customs[i]) == m.customs[i] {
      assert NamesAll(p, m.customs[i].names);
      assert MapNames(f, m.customs[i].names) == m.customs[i].names;
    }
    forall i | 0 <= i < |m.datas| ensures MapData(f, m.datas[i]) == m.datas[i] { assert DataAll(p, m.datas[i]); }
  }

  /** Copying a copy back gives the original: nothing is lost. */
  lemma {:induction false} CopyBack(m: Module<Addr>, sp: Spaces, nodes: Spaces)
    requires Linked(m, sp) && SameShape(sp, nodes) && Distinct(nodes)
    ensures MapModule(To(nodes, sp), MapModule(To(sp, nodes), m)) == m
  {
    var p := ResolvesIn(sp);
    var id := (s: Space, a: Addr) => a;
    forall s: Space, a: Addr | p(s, a) ensures To(nodes, sp)(s, To(sp, nodes)(s, a)) == id(s, a) {
      MovedBack(sp, nodes, s, a);
    }
    AgreeOn(p, To(sp, nodes), To(nodes, sp), id);
    Starts(m, sp, nodes);
    assert forall s: Space, a: Addr :: p(s, a) ==> id(s, a) == a;
    hide Agree, AllRefs, MapModule, Linked, To, Distinct, SameShape, ResolvesIn;
    ModuleTwice(p, To(sp, nodes), To(nodes, sp), id, m);
    MapSame(m, id, p);
  }

  // ----- the name pointer -----

  /** The copy's name pointer is its own if and only if the original has a name section. */
  lemma {:induction false} NamesAtOwn(customs: seq<Custom<Addr>>, was: Option<nat>)
    ensures var r := NamesAt(customs, was);
      if exists i :: 0 <= i < |customs| && customs[i].name == NAME_SECTION
      then r.Some? && r.value < |customs| && customs[r.value].name == NAME_SECTION
        && forall i :: r.value < i < |customs| ==> customs[i].name != NAME_SECTION
      else r == was
    decreases |customs|
  {
    hide NAME_SECTION;
    if customs != [] {
      var n := |customs| - 1;
      NamesAtOwn(customs[..n], was);
      assert forall i :: 0 <= i < n ==> customs[..n][i] == customs[i];
    }
  }
}
