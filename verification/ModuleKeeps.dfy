/** What the editing operations keep: references resolve, imports come first, order and sorted names. */
module ModuleKeeps {
  import opened Bytes
  import opened Codec
  import opened CodecInst
  import opened CodecModule
  import opened CodecParts
  import opened CodecSections
  import opened CodecRound
  import opened ModuleRefs
  import opened Addresses
  import opened DeepCopy
  import opened ModuleEdit

  function Grown(sp: Spaces, s: Space, node: Addr, front: bool): Spaces { With(sp, s, Put(At(sp, s), node, front)) }

  // ----- a new address -----

  lemma PutElem(xs: seq<Addr>, node: Addr, front: bool, i: nat)
    requires i < |Put(xs, node, front)|
    ensures var k := if front then i - 1 else i;
      Put(xs, node, front)[i] == if 0 <= k < |xs| then xs[k] else node
  {
  }

  lemma {:induction false} GrownDistinct(sp: Spaces, s: Space, node: Addr, front: bool)
    requires Distinct(sp) && Fresh(sp, node)
    ensures Distinct(Grown(sp, s, node, front))
  {
    var g := Grown(sp, s, node, front);
    forall t: Space, u: Space, i: nat, j: nat | i < |At(g, t)| && j < |At(g, u)| && At(g, t)[i] == At(g, u)[j]
      ensures t == u && i == j
    {
      if t == s { PutElem(At(sp, s), node, front, i); }
      if u == s { PutElem(At(sp, s), node, front, j); }
      NotFresh(sp, node, t);
      NotFresh(sp, node, u);
      hide Put, Fresh, Distinct, At;
      SamePlace(sp, t, u, if t == s && front then i - 1 else i, if u == s && front then j - 1 else j);
    }
  }

  lemma NotFresh(sp: Spaces, node: Addr, t: Space)
    requires Fresh(sp, node)
    ensures forall i :: 0 <= i < |At(sp, t)| ==> At(sp, t)[i] != node
  {
  }

  lemma SamePlace(sp: Spaces, t: Space, u: Space, i: int, j: int)
    requires Distinct(sp)
    ensures 0 <= i < |At(sp, t)| && 0 <= j < |At(sp, u)| && At(sp, t)[i] == At(sp, u)[j] ==> t == u && i == j
  {
  }

  lemma GrownResolves(sp: Spaces, s: Space, node: Addr, front: bool)
    ensures forall t: Space, a: Addr :: Resolves(sp, t, a) ==> Resolves(Grown(sp, s, node, front), t, a)
    ensures Resolves(Grown(sp, s, node, front), s, node)
  {
    var g := Grown(sp, s, node, front);
    forall t: Space, a: Addr | Resolves(sp, t, a) ensures Resolves(g, t, a) {
      if t == s { InPut(At(sp, s), node, front, a); }
    }
    InPut(At(sp, s), node, front, node);
  }

  lemma InPut(xs: seq<Addr>, node: Addr, front: bool, a: Addr)
    ensures a in Put(xs, node, front) <==> a in xs || a == node
  {
    var ys := Put(xs, node, front);
    assert ys[if front then 0 else |xs|] == node;
    if a in xs {
      var i :| 0 <= i < |xs| && xs[i] == a;
      assert ys[if front then i + 1 else i] == a;
    }
  }

  lemma {:induction false} GrownOrder(sp: Spaces, s: Space, node: Addr, front: bool)
    requires Fresh(sp, node)
    ensures OrderKept(sp, Grown(sp, s, node, front))
  {
    var g := Grown(sp, s, node, front);
    hide IndexOf;
    forall t: Space, a: Addr, b: Addr | a in At(sp, t) && b in At(sp, t) && a in At(g, t) && b in At(g, t)
      ensures IndexOf(At(sp, t), a) < IndexOf(At(sp, t), b) <==> IndexOf(At(g, t), a) < IndexOf(At(g, t), b)
    {
      if t == s {
        IndexPut(At(sp, s), node, front, a);
        IndexPut(At(sp, s), node, front, b);
      }
    }
  }

  // ----- growing a space -----

  lemma PutFuncs(p: (Space, Addr) -> bool, fs: seq<Func<Addr>>, f: Func<Addr>, front: bool)
    requires FuncsAll(p, fs) && FuncAll(p, f)
    ensures FuncsAll(p, Put(fs, f, front))
  {
    hide FuncAll;
  }

  lemma PushShape(m: Module<Addr>, d: Decl, sp: Spaces, node: Addr, front: bool)
    requires Shaped(m, sp)
    ensures Shaped(PushDecl(m, d, front), Grown(sp, SpaceOfDecl(d), node, front))
    ensures PushDecl(m, d, front).customs == m.customs && PushDecl(m, d, front).imports == m.imports
    ensures PushDecl(m, d, front).nums == m.nums
  {
  }

  lemma {:induction false} PushRefs(m: Module<Addr>, d: Decl, front: bool, p: (Space, Addr) -> bool)
    requires AllRefs(p, m) && (d.FuncD? ==> FuncAll(p, d.f))
    ensures AllRefs(p, PushDecl(m, d, front))
  {
    if d.FuncD? { PutFuncs(p, m.funcs, d.f, front); }
    hide Put, FuncsAll, FuncAll, ImportsAll, ExportsAll, ElemsAll, DatasAll, CustomsAll, StartAll;
  }

  /** Wider spaces resolve whatever resolved before. */
  lemma {:induction false} StillResolve(m: Module<Addr>, sp: Spaces, sp': Spaces)
    requires AllRefs(ResolvesIn(sp), m) && forall t: Space, a: Addr :: Resolves(sp, t, a) ==> Resolves(sp', t, a)
    ensures AllRefs(ResolvesIn(sp'), m)
  {
    var p, q := ResolvesIn(sp), ResolvesIn(sp');
    assert forall t: Space, a: Addr :: p(t, a) ==> q(t, a);
    hide Resolves, ResolvesIn, AllRefs;
    AllWeaken(p, q, m);
  }

  lemma {:induction false} FuncResolves(f: Func<Addr>, sp: Spaces, sp': Spaces)
    requires FuncAll(ResolvesIn(sp), f) && forall t: Space, a: Addr :: Resolves(sp, t, a) ==> Resolves(sp', t, a)
    ensures FuncAll(ResolvesIn(sp'), f)
  {
    var p, q := ResolvesIn(sp), ResolvesIn(sp');
    assert forall t: Space, a: Addr :: p(t, a) ==> q(t, a);
    hide Resolves, ResolvesIn;
    assert FuncsAll(p, [f]);
    WeakenFuncs(p, q, [f]);
    assert FuncAll(q, [f][0]);
  }

  lemma {:induction false} GrowLinked(o: Obj, d: Decl, node: Addr, front: bool)
    requires Linked(o.m, o.sp) && Fresh(o.sp, node) && (d.FuncD? ==> FuncAll(ResolvesIn(o.sp), d.f))
    ensures var r := Grow(o, d, node, front); Linked(r.m, r.sp) && Resolves(r.sp, SpaceOfDecl(d), node)
    ensures OrderKept(o.sp, Grow(o, d, node, front).sp)
  {
    var s := SpaceOfDecl(d);
    var g := Grown(o.sp, s, node, front);
    GrownDistinct(o.sp, s, node, front);
    GrownResolves(o.sp, s, node, front);
    GrownOrder(o.sp, s, node, front);
    PushShape(o.m, d, o.sp, node, front);
    hide Distinct, Shaped, AllRefs, FuncAll, ResolvesIn, PushDecl, OrderKept, Resolves, Fresh, With, Put, NAME_SECTION;
    StillResolve(o.m, o.sp, g);
    if d.FuncD? { FuncResolves(d.f, o.sp, g); }
    PushRefs(o.m, d, front, ResolvesIn(g));
  }

  // ----- signatures -----

  lemma {:induction false} SigLinked(o: Obj, sig: Sig, node: Addr)
    requires Inv(o) && Fresh(o.sp, node)
    ensures Inv(WithSig(o, sig, node)) && Resolves(WithSig(o, sig, node).sp, SigS, SigAt(o, sig, node))
    ensures OrderKept(o.sp, WithSig(o, sig, node).sp)
    ensures forall t: Space, a: Addr :: Resolves(o.sp, t, a) ==> Resolves(WithSig(o, sig, node).sp, t, a)
  {
    if FindSig(o.m.sigs, sig) < |o.m.sigs| {
      SigFound(o, sig, node);
    } else {
      AddSigKeeps(o, sig, node);
      assert SigAt(o, sig, node) == node;
      hide AddSig, Inv, OrderKept, Resolves, Fresh;
    }
  }

  lemma SigFound(o: Obj, sig: Sig, node: Addr)
    requires Linked(o.m, o.sp) && FindSig(o.m.sigs, sig) < |o.m.sigs|
    ensures Resolves(o.sp, SigS, SigAt(o, sig, node))
    ensures OrderKept(o.sp, o.sp)
  {
    hide Distinct, AllRefs, NamesInPlace;
  }

  lemma {:induction false} AddSigKeeps(o: Obj, sig: Sig, node: Addr)
    requires Inv(o) && Fresh(o.sp, node)
    ensures Inv(AddSig(o, sig, node)) && Resolves(AddSig(o, sig, node).sp, SigS, node)
    ensures OrderKept(o.sp, AddSig(o, sig, node).sp)
    ensures forall t: Space, a: Addr :: Resolves(o.sp, t, a) ==> Resolves(AddSig(o, sig, node).sp, t, a)
  {
    var g := AddSig(o, sig, node).sp;
    assert g == Grown(o.sp, SigS, node, false);
    GrownDistinct(o.sp, SigS, node, false);
    GrownResolves(o.sp, SigS, node, false);
    GrownOrder(o.sp, SigS, node, false);
    StillResolve(o.m, o.sp, g);
    SigSide(o, sig, node);
    hide Distinct, AllRefs, ResolvesIn, OrderKept, Resolves, Fresh, With, NAME_SECTION, ImportsFront, NamesKnown;
    SigRefs(o, sig, node, ResolvesIn(g));
  }

  lemma SigSide(o: Obj, sig: Sig, node: Addr)
    requires ImportsFront(o.m, o.sp) && NamesKnown(o) && Shaped(o.m, o.sp) && NamesInPlace(o.m.customs)
    ensures var r := AddSig(o, sig, node);
      ImportsFront(r.m, r.sp) && NamesKnown(r) && Shaped(r.m, r.sp) && NamesInPlace(r.m.customs)
  {
    hide NAME_SECTION, DescsOf;
    var r := AddSig(o, sig, node);
    forall k: CodecModule.Kind ensures FrontOfKind(r.m, r.sp, k) { assert FrontOfKind(o.m, o.sp, k); }
  }

  lemma SigRefs(o: Obj, sig: Sig, node: Addr, p: (Space, Addr) -> bool)
    requires AllRefs(p, o.m)
    ensures AllRefs(p, AddSig(o, sig, node).m)
  {
    hide ImportsAll, FuncsAll, ExportsAll, StartAll, ElemsAll, DatasAll, CustomsAll, With;
  }
}
