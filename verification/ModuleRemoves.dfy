/** Removing a function: exactly when nothing is left dangling, and what is kept. */
module ModuleRemoves {
  import opened Bytes
  import opened Codec
  import opened CodecInst
  import opened CodecModule
  import opened CodecParts
  import opened CodecSections
  import opened CodecRound
  import opened ModuleRefs
  import opened Addresses
  import opened DeepCopy
  import opened ModuleEdit
  import opened ModuleKeeps
  import opened ModuleAdds

  /** Any reference but one to the function at `a`. */
  predicate Other(a: Addr, s: Space, x: Addr) { s != FuncS || x != a }

  function OtherThan(a: Addr): (Space, Addr) -> bool { (s: Space, x: Addr) => Other(a, s, x) }

  /**
   * Nothing but its own code, its import and its first name refers to function `idx`: the code of no
   * other function, no export, no element, not the start, and no second name.
   */
  predicate Unreferenced(o: Obj, idx: nat)
    requires idx < |o.m.funcs| && idx < |o.sp.funcs|
  {
    var p := OtherThan(o.sp.funcs[idx]);
    && FuncsAll(p, Cut(o.m.funcs, idx)) && ExportsAll(p, o.m.exports) && StartAll(p, o.m.start)
    && ElemsAll(p, o.m.elems) && CustomsAll(p, CutName(o, o.sp.funcs[idx]).m.customs)
  }

  // ----- the function's address is gone, all others stay -----

  lemma {:induction false} CutResolves(sp: Spaces, idx: nat)
    requires Distinct(sp) && idx < |sp.funcs|
    ensures var g := sp.(funcs := Cut(sp.funcs, idx));
      forall s: Space, x: Addr :: Resolves(g, s, x) <==> Resolves(sp, s, x) && Other(sp.funcs[idx], s, x)
  {
    var g := sp.(funcs := Cut(sp.funcs, idx));
    var a := sp.funcs[idx];
    forall s: Space, x: Addr ensures Resolves(g, s, x) <==> Resolves(sp, s, x) && Other(a, s, x) {
      if s == FuncS {
        InCut(sp, idx, x);
      }
    }
  }

  lemma InCut(sp: Spaces, idx: nat, x: Addr)
    requires Distinct(sp) && idx < |sp.funcs|
    ensures x in Cut(sp.funcs, idx) <==> x in sp.funcs && x != sp.funcs[idx]
  {
    var xs := sp.funcs;
    forall i: nat, j: nat | i < |xs| && j < |xs| && xs[i] == xs[j] ensures i == j {
      assert At(sp, FuncS)[i] == At(sp, FuncS)[j];
    }
    if x in xs && x != xs[idx] {
      var i: nat :| i < |xs| && xs[i] == x;
      assert Cut(xs, idx)[if i < idx then i else i - 1] == x;
    }
  }

  lemma CutElem(xs: seq<Addr>, idx: nat, i: nat)
    requires idx < |xs| && i < |Cut(xs, idx)|
    ensures Cut(xs, idx)[i] == xs[if i < idx then i else i + 1]
  {
  }

  lemma {:induction false} CutDistinct(sp: Spaces, idx: nat)
    requires Distinct(sp) && idx < |sp.funcs|
    ensures Distinct(sp.(funcs := Cut(sp.funcs, idx)))
  {
    var g := sp.(funcs := Cut(sp.funcs, idx));
    forall t: Space, u: Space, i: nat, j: nat | i < |At(g, t)| && j < |At(g, u)| && At(g, t)[i] == At(g, u)[j]
      ensures t == u && i == j
    {
      if t == FuncS { CutElem(sp.funcs, idx, i); }
      if u == FuncS { CutElem(sp.funcs, idx, j); }
      var i' := if t == FuncS && i >= idx then i + 1 else i;
      var j' := if u == FuncS && j >= idx then j + 1 else j;
      assert At(g, t)[i] == At(sp, t)[i'] && At(g, u)[j] == At(sp, u)[j'];
      hide Distinct, Cut, At;
      SamePlace(sp, t, u, i', j');
    }
  }

  lemma {:induction false} CutOrder(sp: Spaces, idx: nat)
    requires Distinct(sp) && idx < |sp.funcs|
    ensures OrderKept(sp, sp.(funcs := Cut(sp.funcs, idx)))
  {
    var g := sp.(funcs := Cut(sp.funcs, idx));
    CutResolves(sp, idx);
    DistinctIndex(sp, FuncS, idx);
    hide IndexOf, Cut, Distinct;
    forall s: Space, x: Addr, y: Addr | x in At(sp, s) && y in At(sp, s) && x in At(g, s) && y in At(g, s)
      ensures IndexOf(At(sp, s), x) < IndexOf(At(sp, s), y) <==> IndexOf(At(g, s), x) < IndexOf(At(g, s), y)
    {
      if s == FuncS {
        assert Resolves(g, FuncS, x) && Resolves(g, FuncS, y);
        IndexCut(sp.funcs, idx, x);
        IndexCut(sp.funcs, idx, y);
        IndexDiffers(sp.funcs, idx, x);
        IndexDiffers(sp.funcs, idx, y);
      }
    }
  }

  lemma IndexDiffers(xs: seq<Addr>, idx: nat, x: Addr)
    requires idx < |xs| && x in xs && x != xs[idx]
    ensures IndexOf(xs, x) != idx
  {
    hide IndexOf;
  }

  // ----- the import -----

  lemma {:induction false} DescsAppend(xs: seq<Import<Addr>>, ys: seq<Import<Addr>>, k: CodecModule.Kind)
    ensures DescsOf(xs + ys, k) == DescsOf(xs, k) + DescsOf(ys, k)
    decreases |xs|
  {
    hide *;
    if xs == [] {
      assert xs + ys == ys;
      DescsStep(xs, k);
    } else {
      assert (xs + ys)[1..] == xs[1..] + ys;
      DescsAppend(xs[1..], ys, k);
      DescsStep(xs, k);
      DescsStep(xs + ys, k);
    }
  }

  lemma DescsStep(xs: seq<Import<Addr>>, k: CodecModule.Kind)
    ensures DescsOf(xs, k) == if xs == [] then []
      else if xs[0].kind == k then [xs[0].desc] + DescsOf(xs[1..], k) else DescsOf(xs[1..], k)
  {
  }

  lemma {:induction false} DescsAround(xs: seq<Import<Addr>>, j: nat, k: CodecModule.Kind)
    requires j < |xs|
    ensures DescsOf(xs, k) == DescsOf(xs[..j], k) + (if xs[j].kind == k then [xs[j].desc] else []) + DescsOf(xs[j + 1..], k)
    ensures DescsOf(Cut(xs, j), k) == DescsOf(xs[..j], k) + DescsOf(xs[j + 1..], k)
  {
    assert xs == xs[..j] + ([xs[j]] + xs[j + 1..]);
    DescsAppend(xs[..j], [xs[j]] + xs[j + 1..], k);
    DescsCons(xs[j], xs[j + 1..], k);
    DescsAppend(xs[..j], xs[j + 1..], k);
    hide DescsOf;
  }

  lemma {:induction false} InDescs(xs: seq<Import<Addr>>, i: nat)
    requires i < |xs|
    ensures xs[i].desc in DescsOf(xs, xs[i].kind)
  {
    DescsAround(xs, i, xs[i].kind);
    hide DescsOf;
  }

  predicate NoRepeats(xs: seq<Addr>) { forall i, j :: 0 <= i < j < |xs| ==> xs[i] != xs[j] }

  lemma SpaceNoRepeats(sp: Spaces, s: Space)
    requires Distinct(sp)
    ensures NoRepeats(At(sp, s))
  {
    forall i, j | 0 <= i < j < |At(sp, s)| ensures At(sp, s)[i] != At(sp, s)[j] { SamePlace(sp, s, s, i, j); }
  }

  lemma Split(xs: seq<Addr>, n: nat, a: seq<Addr>, x: Addr, b: seq<Addr>, idx: nat)
    requires NoRepeats(xs) && n <= |xs| && xs[..n] == a + [x] + b && idx < |xs| && xs[idx] == x
    ensures idx == |a| && idx < n && x !in a && x !in b && Cut(xs, idx)[..n - 1] == a + b
  {
    assert xs[..n][|a|] == x && xs[|a|] == x;
    forall i | 0 <= i < |a| ensures a[i] != x { assert xs[..n][i] == a[i] && xs[i] == a[i]; }
    forall i | 0 <= i < |b| ensures b[i] != x {
      assert xs[..n][|a| + 1 + i] == b[i] && xs[|a| + 1 + i] == b[i];
    }
    assert xs[..n][..|a|] == a && xs[..n][|a| + 1..] == b;
  }

  /** The import of the function is the only one with its address. */
  lemma {:induction false} OneImport(o: Obj, idx: nat, j: nat)
    requires Linked(o.m, o.sp) && ImportsFront(o.m, o.sp) && idx < |o.sp.funcs| && j < |o.m.imports|
    requires o.m.imports[j].kind == FuncK && o.m.imports[j].desc == o.sp.funcs[idx]
    ensures idx < o.m.nums.funcs <= |o.sp.funcs| && ImportsAll(OtherThan(o.sp.funcs[idx]), Cut(o.m.imports, j))
    ensures DescsOf(Cut(o.m.imports, j), FuncK) == Cut(o.sp.funcs, idx)[..o.m.nums.funcs - 1]
  {
    var imports, a := o.m.imports, o.sp.funcs[idx];
    DescsAround(imports, j, FuncK);
    SpaceNoRepeats(o.sp, FuncS);
    assert FrontOfKind(o.m, o.sp, FuncK);
    var p, q := DescsOf(imports[..j], FuncK), DescsOf(imports[j + 1..], FuncK);
    hide DescsOf, Linked, NoRepeats, ImportsFront;
    Split(o.sp.funcs, o.m.nums.funcs, p, a, q, idx);
    hide FrontOfKind;
    NoneLeft(imports, j, a);
  }

  lemma {:induction false} NoneLeft(imports: seq<Import<Addr>>, j: nat, a: Addr)
    requires j < |imports| && a !in DescsOf(imports[..j], FuncK) && a !in DescsOf(imports[j + 1..], FuncK)
    ensures ImportsAll(OtherThan(a), Cut(imports, j))
  {
    hide DescsOf;
    forall i | 0 <= i < |Cut(imports, j)| ensures OtherThan(a)(SpaceOf(Cut(imports, j)[i].kind), Cut(imports, j)[i].desc) {
      if i < j { InDescs(imports[..j], i); } else { InDescs(imports[j + 1..], i - j); }
    }
  }

  /** A function that is not an import is named by no import. */
  lemma {:induction false} NoImport(o: Obj, idx: nat)
    requires Linked(o.m, o.sp) && ImportsFront(o.m, o.sp) && o.m.nums.funcs <= idx < |o.sp.funcs|
    ensures ImportsAll(OtherThan(o.sp.funcs[idx]), o.m.imports)
  {
    var imports, a := o.m.imports, o.sp.funcs[idx];
    SpaceNoRepeats(o.sp, FuncS);
    assert FrontOfKind(o.m, o.sp, FuncK);
    assert a !in o.sp.funcs[..o.m.nums.funcs];
    hide DescsOf, Linked, NoRepeats, ImportsFront;
    forall i | 0 <= i < |imports| ensures OtherThan(a)(SpaceOf(imports[i].kind), imports[i].desc) {
      InDescs(imports, i);
    }
  }

  /** An imported function has an import. */
  lemma {:induction false} HasImport(o: Obj, idx: nat)
    requires ImportsFront(o.m, o.sp) && idx < o.m.nums.funcs && idx < |o.sp.funcs|
    ensures FindImport(o.m.imports, FuncK, o.sp.funcs[idx]) < |o.m.imports|
  {
    assert FrontOfKind(o.m, o.sp, FuncK);
    var a := o.sp.funcs[idx];
    assert o.sp.funcs[..o.m.nums.funcs][idx] == a;
    assert a in DescsOf(o.m.imports, FuncK);
    FromDescs(o.m.imports, FuncK, a);
    hide FindImport;
  }

  lemma {:induction false} FromDescs(xs: seq<Import<Addr>>, k: CodecModule.Kind, a: Addr)
    requires a in DescsOf(xs, k)
    ensures exists i :: 0 <= i < |xs| && xs[i].kind == k && xs[i].desc == a
    decreases |xs|
  {
    if xs[0].kind == k && xs[0].desc == a {
    } else {
      FromDescs(xs[1..], k, a);
      var i :| 0 <= i < |xs[1..]| && xs[1..][i].kind == k && xs[1..][i].desc == a;
      assert xs[i + 1] == xs[1..][i];
    }
  }

  /** A function is an import if and only if its index says so. */
  lemma {:induction false} ImportedIffFront(o: Obj, idx: nat)
    requires Inv(o) && idx < |o.sp.funcs|
    ensures idx < o.m.nums.funcs <==>
      exists j :: 0 <= j < |o.m.imports| && o.m.imports[j].kind == FuncK && o.m.imports[j].desc == o.sp.funcs[idx]
  {
    var a := o.sp.funcs[idx];
    if idx < o.m.nums.funcs {
      HasImport(o, idx);
    } else {
      NoImport(o, idx);
      hide FindImport, Linked, ImportsFront, NamesKnown;
      forall j | 0 <= j < |o.m.imports| ensures o.m.imports[j].kind != FuncK || o.m.imports[j].desc != a {
        assert OtherThan(a)(SpaceOf(o.m.imports[j].kind), o.m.imports[j].desc);
      }
    }
  }

  // ----- the steps -----

  /** After the import is taken out. */
  function Unimported(o: Obj, idx: nat): Obj
    requires idx < |o.sp.funcs|
  {
    var j := FindImport(o.m.imports, FuncK, o.sp.funcs[idx]);
    if idx < o.m.nums.funcs && j < |o.m.imports| then o.(m := CutImport(o.m, j)) else o
  }

  lemma {:induction false} RemoveIs(o: Obj, idx: nat)
    requires Inv(o) && |o.sp.funcs| == |o.m.funcs|
    ensures RemoveFunc(o, idx) == if idx < |o.m.funcs|
      then Some(CutFunc(CutName(Unimported(o, idx), o.sp.funcs[idx]), idx)) else None
  {
    if idx < |o.m.funcs| {
      if idx < o.m.nums.funcs { HasImport(o, idx); }
    }
    hide FindImport, CutName, CutImport, CutFunc, Linked, ImportsFront, NamesKnown;
  }

  lemma {:induction false} CutNameIs(o: Obj, a: Addr)
    requires NamesKnown(o)
    ensures var r := CutName(o, a);
      r.sp == o.sp && r.names == o.names && r.m == o.m.(customs := r.m.customs) && |r.m.customs| == |o.m.customs|
    ensures var r := CutName(o, a);
      forall i :: 0 <= i < |o.m.customs| ==> r.m.customs[i] == o.m.customs[i].(names := r.m.customs[i].names)
    ensures var ns := NamesOf(o); NamesOf(CutName(o, a)) == if FindName(ns, a) < |ns| then Cut(ns, FindName(ns, a)) else ns
    ensures forall i :: 0 <= i < |o.m.customs| && o.names != Some(i) ==> CutName(o, a).m.customs[i] == o.m.customs[i]
  {
    hide FindName, NAME_SECTION;
  }

  /** What the removal leaves of everything but functions and imports refers to what was there. */
  lemma {:induction false} CutCustoms(o: Obj, a: Addr, p: (Space, Addr) -> bool)
    requires NamesKnown(o) && CustomsAll(p, o.m.customs)
    ensures CustomsAll(p, CutName(o, a).m.customs)
  {
    CutNameIs(o, a);
    var cs := CutName(o, a).m.customs;
    hide CutName, FindName, NAME_SECTION;
    forall i | 0 <= i < |cs| ensures NamesAll(p, cs[i].names) {
      assert NamesAll(p, o.m.customs[i].names);
      if o.names == Some(i) { CutNamesAll(p, o.m.customs[i].names, cs[i].names, FindName(NamesOf(o), a)); }
    }
  }

  lemma CutNamesAll(p: (Space, Addr) -> bool, xs: seq<NameAssoc<Addr>>, ys: seq<NameAssoc<Addr>>, j: nat)
    requires NamesAll(p, xs) && (ys == if j < |xs| then Cut(xs, j) else xs)
    ensures NamesAll(p, ys)
  {
  }

  lemma CutAll(p: (Space, Addr) -> bool, fs: seq<Func<Addr>>, idx: nat)
    requires FuncsAll(p, fs) && idx < |fs|
    ensures FuncsAll(p, Cut(fs, idx))
  {
    hide FuncAll;
  }

  lemma CutImportsAll(p: (Space, Addr) -> bool, xs: seq<Import<Addr>>, j: nat)
    requires ImportsAll(p, xs) && j < |xs|
    ensures ImportsAll(p, Cut(xs, j))
  {
  }

  /** Two conditions on all references are one. */
  lemma {:induction false} AllBoth(p: (Space, Addr) -> bool, q: (Space, Addr) -> bool, both: (Space, Addr) -> bool, m: Module<Addr>)
    requires forall s: Space, a: Addr :: both(s, a) <==> p(s, a) && q(s, a)
    requires AllRefs(p, m) && AllRefs(q, m)
    ensures AllRefs(both, m)
  {
    BothFuncs(p, q, both, m.funcs);
    BothLists(p, q, both, m);
    hide FuncsAll, ImportsAll, ExportsAll, ElemsAll, DatasAll, CustomsAll, StartAll;
  }

  lemma {:induction false} BothFuncs(p: (Space, Addr) -> bool, q: (Space, Addr) -> bool, both: (Space, Addr) -> bool, fs: seq<Func<Addr>>)
    requires forall s: Space, a: Addr :: both(s, a) <==> p(s, a) && q(s, a)
    requires FuncsAll(p, fs) && FuncsAll(q, fs)
    ensures FuncsAll(both, fs)
  {
    forall i | 0 <= i < |fs| ensures FuncAll(both, fs[i]) {
      assert FuncAll(p, fs[i]) && FuncAll(q, fs[i]);
      forall k | 0 <= k < |fs[i].code| ensures ImmAll(both, fs[i].code[k].imm) {
        assert ImmAll(p, fs[i].code[k].imm) && ImmAll(q, fs[i].code[k].imm);
      }
    }
  }

  lemma {:induction false} BothLists(p: (Space, Addr) -> bool, q: (Space, Addr) -> bool, both: (Space, Addr) -> bool, m: Module<Addr>)
    requires forall s: Space, a: Addr :: both(s, a) <==> p(s, a) && q(s, a)
    requires AllRefs(p, m) && AllRefs(q, m)
    ensures ImportsAll(both, m.imports) && ExportsAll(both, m.exports) && StartAll(both, m.start)
    ensures ElemsAll(both, m.elems) && DatasAll(both, m.datas) && CustomsAll(both, m.customs)
  {
    hide FuncsAll;
    forall i | 0 <= i < |m.elems| ensures ListAll(both, FuncS, m.elems[i].funcs) {
      assert ListAll(p, FuncS, m.elems[i].funcs) && ListAll(q, FuncS, m.elems[i].funcs);
    }
    forall i | 0 <= i < |m.customs| ensures NamesAll(both, m.customs[i].names) {
      assert NamesAll(p, m.customs[i].names) && NamesAll(q, m.customs[i].names);
    }
    forall i | 0 <= i < |m.datas| ensures DataAll(both, m.datas[i]) {
      assert DataAll(p, m.datas[i]) && DataAll(q, m.datas[i]);
    }
  }

  /** The removed function's module, whatever still refers to the function. */
  function Removed(o: Obj, idx: nat): Obj
    requires idx < |o.m.funcs| && idx < |o.sp.funcs|
  {
    var o2 := CutName(Unimported(o, idx), o.sp.funcs[idx]);
    if idx < |o2.m.funcs| && idx < |o2.sp.funcs| then CutFunc(o2, idx) else o2
  }

  lemma {:induction false} UnimportedIs(o: Obj, idx: nat)
    requires Inv(o) && idx < |o.sp.funcs|
    ensures var r := Unimported(o, idx);
      r.sp == o.sp && r.names == o.names && r.m == o.m.(imports := r.m.imports, nums := r.m.nums)
    ensures ImportsAll(OtherThan(o.sp.funcs[idx]), Unimported(o, idx).m.imports)
    ensures forall p: (Space, Addr) -> bool :: ImportsAll(p, o.m.imports) ==> ImportsAll(p, Unimported(o, idx).m.imports)
  {
    var j := FindImport(o.m.imports, FuncK, o.sp.funcs[idx]);
    hide FindImport, ImportsAll, Linked, ImportsFront, Cut, OtherThan;
    if idx < o.m.nums.funcs {
      HasImport(o, idx);
      OneImport(o, idx, j);
      forall p: (Space, Addr) -> bool | ImportsAll(p, o.m.imports) ensures ImportsAll(p, Cut(o.m.imports, j)) {
        CutImportsAll(p, o.m.imports, j);
      }
    } else {
      NoImport(o, idx);
    }
  }

  lemma {:induction false} RemovedIs(o: Obj, idx: nat)
    requires Inv(o) && idx < |o.m.funcs| && idx < |o.sp.funcs|
    ensures var r := Removed(o, idx); var u := Unimported(o, idx);
      && r.sp == o.sp.(funcs := Cut(o.sp.funcs, idx)) && r.names == o.names
      && r.m == o.m.(imports := u.m.imports, nums := u.m.nums, funcs := Cut(o.m.funcs, idx),
                     customs := CutName(o, o.sp.funcs[idx]).m.customs)
    ensures NamesOf(Removed(o, idx)) == NamesOf(CutName(o, o.sp.funcs[idx]))
  {
    var a := o.sp.funcs[idx];
    UnimportedIs(o, idx);
    var u := Unimported(o, idx);
    hide Unimported, Linked, ImportsFront, FindName, Cut, ImportsAll, NAME_SECTION;
    assert NamesKnown(u);
    CutNameIs(u, a);
    SameCut(o, u, a);
    hide CutName;
  }

  lemma SameCut(o: Obj, u: Obj, a: Addr)
    requires u.names == o.names && u.m.customs == o.m.customs
    ensures CutName(u, a).m.customs == CutName(o, a).m.customs
  {
    hide FindName, Cut;
  }

  /** Everything left refers to what was there before. */
  lemma {:induction false} LeftResolves(o: Obj, idx: nat)
    requires Inv(o) && idx < |o.m.funcs| && idx < |o.sp.funcs|
    ensures AllRefs(ResolvesIn(o.sp), Removed(o, idx).m)
  {
    var p := ResolvesIn(o.sp);
    RemovedIs(o, idx);
    UnimportedIs(o, idx);
    CutAll(p, o.m.funcs, idx);
    CutCustoms(o, o.sp.funcs[idx], p);
    hide Removed, Unimported, CutName, Cut, ImportsAll, FuncsAll, ExportsAll, ElemsAll, DatasAll, CustomsAll, StartAll;
    hide Distinct, Shaped, ImportsFront, NamesInPlace, ResolvesIn, NamesKnown;
  }

  lemma DatasOther(p: (Space, Addr) -> bool, xs: seq<Data<Addr>>)
    requires forall s: Space, x: Addr :: s != FuncS ==> p(s, x)
    ensures DatasAll(p, xs)
  {
  }

  /** Nothing left refers to the function exactly if nothing did that stays. */
  lemma {:induction false} LeftOther(o: Obj, idx: nat)
    requires Inv(o) && idx < |o.m.funcs| && idx < |o.sp.funcs|
    ensures AllRefs(OtherThan(o.sp.funcs[idx]), Removed(o, idx).m) <==> Unreferenced(o, idx)
  {
    var p := OtherThan(o.sp.funcs[idx]);
    RemovedIs(o, idx);
    UnimportedIs(o, idx);
    DatasOther(p, o.m.datas);
    hide Removed, Unimported, CutName, Cut, ImportsAll, FuncsAll, ExportsAll, ElemsAll, DatasAll, CustomsAll, StartAll;
    hide Linked, ImportsFront, OtherThan, NamesKnown;
  }

  /** After a removal every reference resolves if and only if the function was not referred to. */
  lemma {:induction false} DanglesIffReferenced(o: Obj, idx: nat)
    requires Inv(o) && idx < |o.m.funcs| && idx < |o.sp.funcs|
    ensures var r := Removed(o, idx); AllRefs(ResolvesIn(r.sp), r.m) <==> Unreferenced(o, idx)
  {
    var r := Removed(o, idx);
    var p, q, both := ResolvesIn(o.sp), OtherThan(o.sp.funcs[idx]), ResolvesIn(r.sp);
    RemovedIs(o, idx);
    assert Distinct(o.sp);
    CutResolves(o.sp, idx);
    assert forall s: Space, a: Addr :: both(s, a) <==> p(s, a) && q(s, a);
    LeftResolves(o, idx);
    LeftOther(o, idx);
    hide Removed, Unreferenced, AllRefs, Inv, ResolvesIn, OtherThan, Resolves, Other, Distinct;
    if AllRefs(q, r.m) { AllBoth(p, q, both, r.m); }
    if AllRefs(both, r.m) { AllWeaken(both, q, r.m); }
  }

  lemma UnimportedNow(o: Obj, idx: nat)
    requires Inv(o) && idx < |o.sp.funcs|
    ensures var j := FindImport(o.m.imports, FuncK, o.sp.funcs[idx]);
      if idx < o.m.nums.funcs
      then j < |o.m.imports| && Unimported(o, idx).m.imports == Cut(o.m.imports, j) && o.m.imports[j].kind == FuncK
        && Unimported(o, idx).m.nums == o.m.nums.(funcs := o.m.nums.funcs - 1)
      else Unimported(o, idx) == o
  {
    if idx < o.m.nums.funcs { HasImport(o, idx); }
    hide Linked, ImportsFront, NamesKnown, Cut;
  }

  lemma OtherSpace(o: Obj, sp: Spaces, n: Counts, k: CodecModule.Kind)
    requires k != FuncK
    ensures At(o.sp.(funcs := sp.funcs), SpaceOf(k)) == At(o.sp, SpaceOf(k))
    ensures CountOf(o.m.nums.(funcs := n.funcs), k) == CountOf(o.m.nums, k)
  {
  }

  lemma {:induction false} OtherDescs(o: Obj, idx: nat, k: CodecModule.Kind)
    requires Inv(o) && idx < |o.sp.funcs| && k != FuncK
    ensures DescsOf(Unimported(o, idx).m.imports, k) == DescsOf(o.m.imports, k)
    ensures Unimported(o, idx).m.nums == o.m.nums.(funcs := Unimported(o, idx).m.nums.funcs)
  {
    hide *;
    var j := FindImport(o.m.imports, FuncK, o.sp.funcs[idx]);
    UnimportedNow(o, idx);
    if idx < o.m.nums.funcs {
      DescsAround(o.m.imports, j, k);
      var a, b := DescsOf(o.m.imports[..j], k), DescsOf(o.m.imports[j + 1..], k);
      assert a + [] + b == a + b;
    }
  }

  lemma FrontIf(m: Module<Addr>, sp: Spaces, m': Module<Addr>, sp': Spaces, k: CodecModule.Kind)
    requires FrontOfKind(m, sp, k) && At(sp', SpaceOf(k)) == At(sp, SpaceOf(k))
    requires CountOf(m'.nums, k) == CountOf(m.nums, k) && DescsOf(m'.imports, k) == DescsOf(m.imports, k)
    ensures FrontOfKind(m', sp', k)
  {
    hide DescsOf, At, CountOf;
  }

  /** The imports of the other kinds and their spaces are untouched. */
  lemma {:induction false} FrontOther(o: Obj, idx: nat, k: CodecModule.Kind)
    requires Inv(o) && idx < |o.m.funcs| && idx < |o.sp.funcs| && k != FuncK
    ensures FrontOfKind(Removed(o, idx).m, Removed(o, idx).sp, k)
  {
    assert FrontOfKind(o.m, o.sp, k);
    hide *;
    var r := Removed(o, idx);
    RemovedIs(o, idx);
    OtherDescs(o, idx, k);
    OtherSpace(o, r.sp, r.m.nums, k);
    FrontIf(o.m, o.sp, r.m, r.sp, k);
  }

  /** A function behind the imports. */
  lemma {:induction false} FrontBehind(o: Obj, idx: nat)
    requires Inv(o) && idx < |o.m.funcs| && idx < |o.sp.funcs| && idx >= o.m.nums.funcs
    ensures FrontOfKind(Removed(o, idx).m, Removed(o, idx).sp, FuncK)
  {
    RemovedIs(o, idx);
    UnimportedNow(o, idx);
    assert FrontOfKind(o.m, o.sp, FuncK);
    hide Removed, Unimported, CutName, FindImport, DescsOf, Linked, NamesKnown, ImportsFront;
  }

  lemma {:induction false} FrontFuncs(o: Obj, idx: nat)
    requires Inv(o) && idx < |o.m.funcs| && idx < |o.sp.funcs| && idx < o.m.nums.funcs
    ensures FrontOfKind(Removed(o, idx).m, Removed(o, idx).sp, FuncK)
  {
    RemovedIs(o, idx);
    var j := FindImport(o.m.imports, FuncK, o.sp.funcs[idx]);
    HasImport(o, idx);
    OneImport(o, idx, j);
    hide Removed, CutName, FindImport, DescsOf, Linked, NamesKnown, ImportsFront, ImportsAll, Cut;
    CutLength(o.sp.funcs, idx);
  }

  lemma CutLength(xs: seq<Addr>, idx: nat)
    requires idx < |xs|
    ensures |Cut(xs, idx)| == |xs| - 1
  {
  }

  lemma {:induction false} RemovedFront(o: Obj, idx: nat)
    requires Inv(o) && idx < |o.m.funcs| && idx < |o.sp.funcs|
    ensures ImportsFront(Removed(o, idx).m, Removed(o, idx).sp)
  {
    hide Removed, FrontOfKind, Inv;
    forall k: CodecModule.Kind ensures FrontOfKind(Removed(o, idx).m, Removed(o, idx).sp, k) {
      if k == FuncK && idx < o.m.nums.funcs { FrontFuncs(o, idx); } else if k == FuncK { FrontBehind(o, idx); } else { FrontOther(o, idx, k); }
    }
  }

  lemma {:induction false} SortedCut(sp: Spaces, xs: seq<NameAssoc<Addr>>, j: nat)
    requires SortedBy(sp, xs) && j < |xs|
    ensures SortedBy(sp, Cut(xs, j))
  {
    hide IndexOf;
    var ys := Cut(xs, j);
    forall a, b | 0 <= a < b < |ys| ensures IndexOf(sp.funcs, ys[a].func) < IndexOf(sp.funcs, ys[b].func) {
      assert ys[a] == xs[if a < j then a else a + 1] && ys[b] == xs[if b < j then b else b + 1];
    }
  }

  lemma {:induction false} RemovedShape(o: Obj, idx: nat)
    requires Inv(o) && idx < |o.m.funcs| && idx < |o.sp.funcs|
    ensures var r := Removed(o, idx); Shaped(r.m, r.sp) && NamesInPlace(r.m.customs) && NamesKnown(r)
  {
    RemovedIs(o, idx);
    CutNameIs(o, o.sp.funcs[idx]);
    hide Removed, Unimported, CutName, FindName, Distinct, AllRefs, ImportsFront, NAME_SECTION;
  }

  /** Removing a function nothing refers to. */
  lemma {:induction false} RemoveKeeps(o: Obj, idx: nat)
    requires Inv(o) && idx < |o.m.funcs| && Unreferenced(o, idx)
    ensures RemoveFunc(o, idx) == Some(Removed(o, idx))
    ensures Inv(Removed(o, idx)) && OrderKept(o.sp, Removed(o, idx).sp)
    ensures Sorted(o) ==> Sorted(Removed(o, idx))
  {
    hide *;
    InvShape(o);
    RemoveIs(o, idx);
    RemovedIs(o, idx);
    RemovedNow(o, idx);
    RemovedShape(o, idx);
    RemovedFront(o, idx);
    DanglesIffReferenced(o, idx);
    CutDistinct(o.sp, idx);
    CutOrder(o.sp, idx);
    InvIf(Removed(o, idx));
    if Sorted(o) { RemovedSorted(o, idx); }
  }

  lemma InvShape(o: Obj)
    requires Inv(o)
    ensures |o.sp.funcs| == |o.m.funcs| && Distinct(o.sp)
  {
    hide Distinct, AllRefs, ImportsFront, NamesInPlace;
  }

  lemma RemovedNow(o: Obj, idx: nat)
    requires Inv(o) && idx < |o.m.funcs| && idx < |o.sp.funcs|
    ensures var o2 := CutName(Unimported(o, idx), o.sp.funcs[idx]);
      idx < |o2.m.funcs| && idx < |o2.sp.funcs| && Removed(o, idx) == CutFunc(o2, idx)
  {
    UnimportedIs(o, idx);
    var u := Unimported(o, idx);
    assert NamesKnown(u);
    CutNameIs(u, o.sp.funcs[idx]);
    hide Unimported, CutName, Linked, ImportsFront, ImportsAll, Cut;
  }

  lemma InvIf(o: Obj)
    requires Shaped(o.m, o.sp) && Distinct(o.sp) && AllRefs(ResolvesIn(o.sp), o.m) && NamesInPlace(o.m.customs)
    requires ImportsFront(o.m, o.sp) && NamesKnown(o)
    ensures Inv(o)
  {
    hide Shaped, Distinct, AllRefs, NamesInPlace, ImportsFront, NamesKnown;
  }

  lemma {:induction false} RemovedSorted(o: Obj, idx: nat)
    requires Inv(o) && idx < |o.m.funcs| && idx < |o.sp.funcs| && Unreferenced(o, idx) && Sorted(o)
    requires Inv(Removed(o, idx)) && OrderKept(o.sp, Removed(o, idx).sp)
    ensures Sorted(Removed(o, idx))
  {
    var r, a := Removed(o, idx), o.sp.funcs[idx];
    NameResolves(o);
    NameResolves(r);
    RemovedIs(o, idx);
    assert NamesKnown(o);
    CutNameIs(o, a);
    hide Inv, OrderKept, Removed, CutName, FindName, SortedBy, Unreferenced, Cut, Resolves, NamesOf;
    var ns := NamesOf(o);
    if FindName(ns, a) < |ns| {
      SortedCut(o.sp, ns, FindName(ns, a));
      CutSub(ns, FindName(ns, a));
    }
    SortedStays(o.sp, r.sp, NamesOf(r));
  }

  lemma CutSub(xs: seq<NameAssoc<Addr>>, j: nat)
    requires j < |xs|
    ensures forall i :: 0 <= i < |Cut(xs, j)| ==> Cut(xs, j)[i] == xs[if i < j then i else i + 1]
  {
  }

  // ----- a removal that leaves a reference behind -----

  const NOWHERE: Spaces := Spaces([], [], [], [], [], [])

  /** Function 3 calls function 2. */
  function Calling(): Obj {
    Obj(EMPTY.(sigs := [Sig([], [])], funcs := [Func(1, [], []), Func(1, [], [Inst(0x10, FuncRef(2))])]),
        NOWHERE.(sigs := [1], funcs := [2, 3]), None)
  }

  lemma {:induction false} CallDangles()
    ensures Inv(Calling()) && RemoveFunc(Calling(), 0) == Some(Removed(Calling(), 0))
    ensures var r := Removed(Calling(), 0); !AllRefs(ResolvesIn(r.sp), r.m)
  {
    CallingInv();
    CallReferred();
    hide *;
    CallingShape();
    DanglesIffReferenced(Calling(), 0);
    RemoveIs(Calling(), 0);
    RemovedNow(Calling(), 0);
  }

  lemma CallingShape()
    ensures |Calling().m.funcs| == |Calling().sp.funcs| == 2 && Calling().m.nums.funcs == 0
  {
  }

  lemma CallReferred()
    ensures !Unreferenced(Calling(), 0)
  {
    var o := Calling();
    var p := OtherThan(2);
    var f: Func<Addr> := Func(1, [], [Inst(0x10, FuncRef(2))]);
    assert Cut(o.m.funcs, 0) == [f];
    assert !ImmAll(p, f.code[0].imm);
    assert !CodeAll(p, f.code);
    assert !FuncAll(p, [f][0]);
  }

  lemma CallingInv()
    ensures Inv(Calling())
  {
    var o := Calling();
    var p := ResolvesIn(o.sp);
    CallingResolves();
    assert FuncAll(p, o.m.funcs[0]) && FuncAll(p, o.m.funcs[1]) by { hide ResolvesIn; }
    CallingDistinct();
    hide FuncAll, Resolves, Distinct;
    forall k: CodecModule.Kind ensures FrontOfKind(o.m, o.sp, k) {
      assert CountOf(o.m.nums, k) == 0 && DescsOf(o.m.imports, k) == [];
      assert At(o.sp, SpaceOf(k))[..0] == [];
    }
  }

  lemma CallingResolves()
    ensures ResolvesIn(Calling().sp)(SigS, 1) && ResolvesIn(Calling().sp)(FuncS, 2)
  {
    assert Calling().sp.sigs[0] == 1 && Calling().sp.funcs[0] == 2;
  }

  lemma CallingDistinct()
    ensures Distinct(Calling().sp)
  {
  }
}
