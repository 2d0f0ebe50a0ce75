/** Adding to and removing from the index spaces of a module whose declarations are held by address. */
module ModuleEdit {
  import opened Bytes
  import opened Codec
  import opened CodecInst
  import opened CodecModule
  import opened CodecParts
  import opened CodecSections
  import opened CodecRound
  import opened ModuleRefs
  import opened Addresses
  import opened DeepCopy

  /** A module, where its declarations live, and the custom section whose function names are kept up. */
  datatype Obj = Obj(m: Module<Addr>, sp: Spaces, names: Option<nat>)

  datatype Decl = FuncD(f: Func<Addr>) | TableD(t: Table) | MemD(l: Limits) | GlobalD(g: Global)

  function KindOfDecl(d: Decl): CodecModule.Kind {
    match d case FuncD(_) => FuncK case TableD(_) => TableK case MemD(_) => MemK case GlobalD(_) => GlobalK
  }

  function SpaceOfDecl(d: Decl): Space { SpaceOf(KindOfDecl(d)) }

  // ----- the operations -----

  function Put<T>(xs: seq<T>, x: T, front: bool): seq<T> { if front then [x] + xs else xs + [x] }

  function PushDecl(m: Module<Addr>, d: Decl, front: bool): Module<Addr> {
    match d
    case FuncD(f) => m.(funcs := Put(m.funcs, f, front))
    case TableD(t) => m.(tables := Put(m.tables, t, front))
    case MemD(l) => m.(mems := Put(m.mems, l, front))
    case GlobalD(g) => m.(globals := Put(m.globals, g, front))
  }

  function With(sp: Spaces, s: Space, xs: seq<Addr>): (r: Spaces)
    ensures forall t: Space :: At(r, t) == if t == s then xs else At(sp, t)
  {
    match s
    case SigS => sp.(sigs := xs) case FuncS => sp.(funcs := xs) case TableS => sp.(tables := xs)
    case MemS => sp.(mems := xs) case GlobalS => sp.(globals := xs) case DataS => sp.(datas := xs)
  }

  /** A declaration at a new address, at either end of its index space. */
  function Grow(o: Obj, d: Decl, node: Addr, front: bool): Obj {
    var s := SpaceOfDecl(d);
    Obj(PushDecl(o.m, d, front), With(o.sp, s, Put(At(o.sp, s), node, front)), o.names)
  }

  function FindSig(sigs: seq<Sig>, sig: Sig): (i: nat)
    ensures i <= |sigs| && (i < |sigs| ==> sigs[i] == sig)
    ensures forall j :: 0 <= j < i ==> sigs[j] != sig
  {
    if sigs == [] || sigs[0] == sig then 0
    else
      var i := FindSig(sigs[1..], sig);
      assert forall j :: 0 <= j < i ==> sigs[1..][j] == sigs[j + 1];
      i + 1
  }

  function AddSig(o: Obj, sig: Sig, node: Addr): Obj {
    Obj(o.m.(sigs := o.m.sigs + [sig]), With(o.sp, SigS, o.sp.sigs + [node]), o.names)
  }

  /** An equal signature that is there already, or a new one. */
  function WithSig(o: Obj, sig: Sig, node: Addr): Obj {
    if FindSig(o.m.sigs, sig) < |o.m.sigs| then o else AddSig(o, sig, node)
  }

  function SigAt(o: Obj, sig: Sig, node: Addr): Addr {
    var i := FindSig(o.m.sigs, sig);
    if i < |o.m.sigs| && i < |o.sp.sigs| then o.sp.sigs[i] else node
  }

  function AddExport(o: Obj, name: seq<byte>, k: CodecModule.Kind, a: Addr): Obj {
    o.(m := o.m.(exports := o.m.exports + [Export(name, k, a)]))
  }

  function AddField(o: Obj, d: Decl, node: Addr, export_: Option<seq<byte>>): Obj {
    var o1 := Grow(o, d, node, false);
    match export_ case None => o1 case Some(n) => AddExport(o1, n, KindOfDecl(d), node)
  }

  /** A function name in the section the module keeps up, if it keeps up one. */
  function AddName(o: Obj, a: NameAssoc<Addr>, front: bool): Obj {
    match o.names
    case None => o
    case Some(n) =>
      if n >= |o.m.customs| then o
      else
        var c := o.m.customs[n];
        o.(m := o.m.(customs := o.m.customs[n := c.(names := Put(c.names, a, front))]))
  }

  function AddFunc(o: Obj, sig: Sig, locals: seq<LocalRun>, code: seq<Inst<Addr>>, export_: Option<seq<byte>>,
                   debug: seq<byte>, sigNode: Addr, node: Addr): Obj
  {
    var f := Func(SigAt(o, sig, sigNode), locals, code);
    AddName(AddField(WithSig(o, sig, sigNode), FuncD(f), node, export_), NameAssoc(node, debug), false)
  }

  /** The declaration and the import both go to the front. */
  function AddImport(o: Obj, modName: seq<byte>, member: seq<byte>, d: Decl, node: Addr): Obj {
    var o1 := Grow(o, d, node, true);
    var k := KindOfDecl(d);
    var m := o1.m.(nums := Bump(o1.m.nums, k), imports := [Import(modName, member, k, node)] + o1.m.imports);
    if d.FuncD? then AddName(o1.(m := m), NameAssoc(node, member), true) else o1.(m := m)
  }

  function AddImportFunc(o: Obj, modName: seq<byte>, member: seq<byte>, sig: Sig, sigNode: Addr, node: Addr): Obj {
    AddImport(WithSig(o, sig, sigNode), modName, member, FuncD(Func(SigAt(o, sig, sigNode), [], [])), node)
  }

  function Cut<T>(xs: seq<T>, i: nat): seq<T>
    requires i < |xs|
  {
    xs[..i] + xs[i + 1..]
  }

  function FindImport(imports: seq<Import<Addr>>, k: CodecModule.Kind, a: Addr): (j: nat)
    ensures j <= |imports| && (j < |imports| ==> imports[j].kind == k && imports[j].desc == a)
    ensures forall i :: 0 <= i < j ==> imports[i].kind != k || imports[i].desc != a
  {
    if imports == [] || (imports[0].kind == k && imports[0].desc == a) then 0
    else
      var j := FindImport(imports[1..], k, a);
      assert forall i :: 0 <= i < j ==> imports[1..][i] == imports[i + 1];
      j + 1
  }

  function FindName(names: seq<NameAssoc<Addr>>, a: Addr): (j: nat)
    ensures j <= |names| && (j < |names| ==> names[j].func == a)
    ensures forall i :: 0 <= i < j ==> names[i].func != a
  {
    if names == [] || names[0].func == a then 0
    else
      var j := FindName(names[1..], a);
      assert forall i :: 0 <= i < j ==> names[1..][i] == names[i + 1];
      j + 1
  }

  /** Only the first name of a function is removed. */
  function CutName(o: Obj, a: Addr): Obj {
    match o.names
    case None => o
    case Some(n) =>
      if n >= |o.m.customs| then o
      else
        var c := o.m.customs[n];
        var j := FindName(c.names, a);
        if j < |c.names| then o.(m := o.m.(customs := o.m.customs[n := c.(names := Cut(c.names, j))])) else o
  }

  function CutImport(m: Module<Addr>, j: nat): Module<Addr>
    requires j < |m.imports| && m.nums.funcs > 0
  {
    m.(imports := Cut(m.imports, j), nums := m.nums.(funcs := m.nums.funcs - 1))
  }

  function CutFunc(o: Obj, idx: nat): Obj
    requires idx < |o.m.funcs| && idx < |o.sp.funcs|
  {
    o.(m := o.m.(funcs := Cut(o.m.funcs, idx)), sp := o.sp.(funcs := Cut(o.sp.funcs, idx)))
  }

  /** `None`: nothing is removed. */
  function RemoveFunc(o: Obj, idx: nat): Option<Obj>
    requires |o.sp.funcs| == |o.m.funcs|
  {
    if idx >= |o.m.funcs| then None
    else
      var a := o.sp.funcs[idx];
      var j := FindImport(o.m.imports, FuncK, a);
      if idx < o.m.nums.funcs && j == |o.m.imports| then None
      else
        var o1 := if idx < o.m.nums.funcs then o.(m := CutImport(o.m, j)) else o;
        Some(CutFunc(CutName(o1, a), idx))
  }

  // ----- what every operation keeps -----

  /** The addresses of the imports of one kind, in list order. */
  function DescsOf(imports: seq<Import<Addr>>, k: CodecModule.Kind): seq<Addr> {
    if imports == [] then []
    else (if imports[0].kind == k then [imports[0].desc] else []) + DescsOf(imports[1..], k)
  }

  predicate FrontOfKind(m: Module<Addr>, sp: Spaces, k: CodecModule.Kind) {
    var xs := At(sp, SpaceOf(k));
    CountOf(m.nums, k) <= |xs| && DescsOf(m.imports, k) == xs[..CountOf(m.nums, k)]
  }

  /** The imports of each kind, in list order, are exactly the front of its index space. */
  predicate ImportsFront(m: Module<Addr>, sp: Spaces) {
    forall k: CodecModule.Kind :: FrontOfKind(m, sp, k)
  }

  predicate NamesKnown(o: Obj) {
    o.names.Some? ==> o.names.value < |o.m.customs| && o.m.customs[o.names.value].name == NAME_SECTION
  }

  predicate Inv(o: Obj) { Linked(o.m, o.sp) && ImportsFront(o.m, o.sp) && NamesKnown(o) }

  predicate Fresh(sp: Spaces, node: Addr) { forall s: Space :: node !in At(sp, s) }

  /** Two declarations that are there before and after stay in their order. */
  predicate OrderKept(sp: Spaces, sp': Spaces) {
    forall s: Space, a: Addr, b: Addr {:trigger IndexOf(At(sp', s), a), IndexOf(At(sp', s), b)} ::
      a in At(sp, s) && b in At(sp, s) && a in At(sp', s) && b in At(sp', s) ==>
        (IndexOf(At(sp, s), a) < IndexOf(At(sp, s), b) <==> IndexOf(At(sp', s), a) < IndexOf(At(sp', s), b))
  }

  /** Names in the order of their functions' indices, one for a function. */
  predicate SortedBy(sp: Spaces, xs: seq<NameAssoc<Addr>>) {
    forall i, j :: 0 <= i < j < |xs| ==> IndexOf(sp.funcs, xs[i].func) < IndexOf(sp.funcs, xs[j].func)
  }

  function NamesOf(o: Obj): seq<NameAssoc<Addr>> {
    if o.names.Some? && o.names.value < |o.m.customs| then o.m.customs[o.names.value].names else []
  }

  // ----- lists of addresses -----

  lemma {:induction false} IndexPut(xs: seq<Addr>, node: Addr, front: bool, a: Addr)
    requires a in xs && node !in xs
    ensures IndexOf(Put(xs, node, front), a) == IndexOf(xs, a) + if front then 1 else 0
    ensures IndexOf(Put(xs, node, front), node) == if front then 0 else |xs|
  {
    hide IndexOf;
    var ys := Put(xs, node, front);
    var k := IndexOf(xs, a) + if front then 1 else 0;
    assert ys[k] == a;
    forall j | 0 <= j < k ensures ys[j] != a {
      if front && j > 0 { assert ys[j] == xs[j - 1]; }
    }
    IsFirst(ys, a, k);
    var n := if front then 0 else |xs|;
    assert forall j :: 0 <= j < n ==> ys[j] == xs[j];
    IsFirst(ys, node, n);
  }

  lemma IsFirst(xs: seq<Addr>, a: Addr, k: nat)
    requires k < |xs| && xs[k] == a && forall j :: 0 <= j < k ==> xs[j] != a
    ensures IndexOf(xs, a) == k
  {
    hide IndexOf;
  }

  lemma {:induction false} IndexCut(xs: seq<Addr>, i: nat, a: Addr)
    requires i < |xs| && a in xs && a != xs[i]
    ensures a in Cut(xs, i)
    ensures IndexOf(Cut(xs, i), a) == if IndexOf(xs, a) < i then IndexOf(xs, a) else IndexOf(xs, a) - 1
  {
    hide IndexOf;
    var k := IndexOf(xs, a);
    var n := if k < i then k else k - 1;
    assert Cut(xs, i)[n] == a;
    forall j | 0 <= j < n ensures Cut(xs, i)[j] != a {
      assert Cut(xs, i)[j] == if j < i then xs[j] else xs[j + 1];
    }
    IsFirst(Cut(xs, i), a, n);
  }
}
