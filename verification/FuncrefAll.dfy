/** All element segments: every entry gets its own wrapper. */
module FuncrefAll {
  import opened Bytes
  import opened Codec
  import opened CodecInst
  import opened CodecModule
  import opened CodecParts
  import opened CodecSections
  import opened CodecRound
  import opened ModuleRefs
  import opened Addresses
  import opened DeepCopy
  import opened ModuleEdit
  import opened ModuleKeeps
  import opened ModuleAdds
  import opened FuncrefObj

  predicate InElems(o: Obj, k: nat, i: nat) { k < |o.m.elems| && i < |o.m.elems[k].funcs| }

  /** A wrapper for entry `i` of segment `k`, and the entry refers to it. */
  function WrapEntry(o: Obj, k: nat, i: nat, tys: seq<byte>, c: nat, node: Nodes): Obj
    requires InElems(o, k, i)
  {
    var o1 := WrapOne(o, o.m.elems[k].funcs[i], tys, c, node);
    if InElems(o1, k, i) then SetEntry(o1, k, i, node(c).1) else o1
  }

  /** The entries still to come. */
  function Togo(elems: seq<Elem<Addr>>, k: nat, i: nat): nat
    decreases |elems| - k
  {
    if k >= |elems| then 0
    else (if i < |elems[k].funcs| then |elems[k].funcs| - i else 0) + 1 + Togo(elems, k + 1, 0)
  }

  /** From entry `i` of segment `k` on; `n` steps are enough. */
  function WrapFrom(o: Obj, k: nat, i: nat, tys: seq<byte>, c: nat, node: Nodes, n: nat): Obj
    decreases n
  {
    if n == 0 || k >= |o.m.elems| then o
    else if i >= |o.m.elems[k].funcs| then WrapFrom(o, k + 1, 0, tys, c, node, n - 1)
    else WrapFrom(WrapEntry(o, k, i, tys, c, node), k, i + 1, tys, c + 1, node, n - 1)
  }

  function WrapAll(o: Obj, tys: seq<byte>, node: Nodes): Obj {
    WrapFrom(o, 0, 0, tys, 0, node, Togo(o.m.elems, 0, 0))
  }

  /** The allocator's addresses from number `c` on are new and all different. */
  ghost predicate NodesFresh(sp: Spaces, node: Nodes, c: nat) {
    && (forall j: nat :: j >= c ==> Fresh(sp, node(j).0) && Fresh(sp, node(j).1) && node(j).0 != node(j).1)
    && (forall j: nat, h: nat :: c <= j < h ==>
          node(j).0 != node(h).0 && node(j).0 != node(h).1 && node(j).1 != node(h).0 && node(j).1 != node(h).1)
  }

  predicate SameLengths(a: seq<Elem<Addr>>, b: seq<Elem<Addr>>) {
    |a| == |b| && forall k :: 0 <= k < |a| ==> |a[k].funcs| == |b[k].funcs| && a[k].offset == b[k].offset
  }

  /** Entry `i` of segment `k` comes at or after entry `i0` of segment `k0`. */
  predicate From(k0: nat, i0: nat, k: nat, i: nat) { k > k0 || (k == k0 && i >= i0) }

  predicate EntryWrapped(o: Obj, r: Obj, tys: seq<byte>, k: nat, i: nat)
    requires InElems(o, k, i) && InElems(r, k, i)
  {
    var f := o.m.elems[k].funcs[i];
    f in o.sp.funcs && r.m.elems[k].funcs[i] !in o.sp.funcs && IsWrapper(r, r.m.elems[k].funcs[i], FuncSig(o, f), f, tys)
  }

  /** Entries from a place on are wrapped, those before it as they were. */
  ghost predicate WrappedFrom(o: Obj, r: Obj, tys: seq<byte>, k0: nat, i0: nat) {
    && SameLengths(o.m.elems, r.m.elems)
    && forall k: nat, i: nat :: InElems(o, k, i) ==> InElems(r, k, i) && EntryIs(o, r, tys, k0, i0, k, i)
  }

  predicate EntryIs(o: Obj, r: Obj, tys: seq<byte>, k0: nat, i0: nat, k: nat, i: nat)
    requires InElems(o, k, i) && InElems(r, k, i)
  {
    if From(k0, i0, k, i) then EntryWrapped(o, r, tys, k, i) else r.m.elems[k].funcs[i] == o.m.elems[k].funcs[i]
  }

  // ----- one entry -----

  lemma EntryResolves(o: Obj, k: nat, i: nat)
    requires Inv(o) && InElems(o, k, i)
    ensures o.m.elems[k].funcs[i] in o.sp.funcs
  {
    var f := o.m.elems[k].funcs[i];
    assert ListAll(ResolvesIn(o.sp), FuncS, o.m.elems[k].funcs);
    assert ResolvesIn(o.sp)(FuncS, f);
    hide Distinct, Shaped, NamesInPlace, ImportsFront, FuncsAll, ImportsAll, ExportsAll, DatasAll, CustomsAll, StartAll;
  }

  lemma {:induction false} WrapperResolves(sp: Spaces, n: nat, f: Addr)
    requires f in sp.funcs
    ensures CodeAll(ResolvesIn(sp), WrapperInsts(n, f))
  {
    var code := WrapperInsts(n, f);
    assert ResolvesIn(sp)(FuncS, f);
    hide Resolves, ResolvesIn;
    forall i | 0 <= i < |code| ensures ImmAll(ResolvesIn(sp), code[i].imm) {
      if i < n { assert code[i] == GetInsts(n)[i]; }
    }
  }

  lemma {:induction false} WrapOneKeeps(o: Obj, f: Addr, tys: seq<byte>, c: nat, node: Nodes)
    requires Inv(o) && f in o.sp.funcs && NodesFresh(o.sp, node, c)
    ensures var r := WrapOne(o, f, tys, c, node);
      && Kept(o, r) && Persists(o, r) && r.m.elems == o.m.elems
      && IsWrapper(r, node(c).1, FuncSig(o, f), f, tys)
  {
    var n := |FuncSig(o, f).params|;
    hide *;
    NodeFresh(o.sp, node, c);
    WrapperResolves(o.sp, n, f);
    AddFuncKeeps(o, Longer(FuncSig(o, f), tys), [], WrapperInsts(n, f), None, WrapName(o, f, c), node(c).0, node(c).1);
    AddFuncPersists(o, Longer(FuncSig(o, f), tys), WrapperInsts(n, f), WrapName(o, f, c), node(c).0, node(c).1);
    WrapOneIs(o, f, tys, c, node);
    WrapperIf(WrapOne(o, f, tys, c, node), node(c).1, FuncSig(o, f), f, tys);
  }

  lemma NodeFresh(sp: Spaces, node: Nodes, c: nat)
    requires NodesFresh(sp, node, c)
    ensures Fresh(sp, node(c).0) && Fresh(sp, node(c).1) && node(c).0 != node(c).1
  {
    hide Fresh;
  }

  lemma WrapOneIs(o: Obj, f: Addr, tys: seq<byte>, c: nat, node: Nodes)
    ensures WrapOne(o, f, tys, c, node)
         == AddFunc(o, Longer(FuncSig(o, f), tys), [], WrapperInsts(|FuncSig(o, f).params|, f), None, WrapName(o, f, c),
                    node(c).0, node(c).1)
  {
    hide AddFunc, FuncSig, WrapName, WrapperInsts, Longer;
  }

  lemma WrapperIf(r: Obj, w: Addr, s: Sig, f: Addr, tys: seq<byte>)
    requires w in r.sp.funcs && FuncAt(r, w).sig in r.sp.sigs && FuncSig(r, w) == Longer(s, tys)
    requires FuncAt(r, w).locals == [] && FuncAt(r, w).code == WrapperInsts(|s.params|, f)
    requires IndexOf(r.sp.funcs, w) >= r.m.nums.funcs
    ensures IsWrapper(r, w, s, f, tys)
  {
    hide FuncAt, FuncSig, Longer, WrapperInsts, IndexOf;
  }

  /** Changing an entry to a function that is there keeps everything in order. */
  lemma {:induction false} SetKeeps(o: Obj, k: nat, i: nat, a: Addr)
    requires Inv(o) && InElems(o, k, i) && a in o.sp.funcs
    ensures var r := SetEntry(o, k, i, a);
      Inv(r) && r.sp == o.sp && r.m == o.m.(elems := r.m.elems) && NamesOf(r) == NamesOf(o)
  {
    var p := ResolvesIn(o.sp);
    var r := SetEntry(o, k, i, a);
    assert p(FuncS, a);
    assert ElemsAll(p, r.m.elems) by {
      assert ListAll(p, FuncS, o.m.elems[k].funcs);
      assert ListAll(p, FuncS, r.m.elems[k].funcs);
      hide ListAll, Linked, ImportsFront, NamesKnown;
      assert Linked(o.m, o.sp);
      ElemsHold(o);
    }
    assert ImportsFront(r.m, o.sp) by {
      hide DescsOf, Linked;
      forall j: CodecModule.Kind ensures FrontOfKind(r.m, o.sp, j) { assert FrontOfKind(o.m, o.sp, j); }
    }
    hide Distinct, NamesInPlace, ImportsFront, FuncsAll, ImportsAll, ExportsAll, ElemsAll, DatasAll, CustomsAll;
    hide StartAll, NAME_SECTION, ResolvesIn, Resolves;
  }

  lemma ElemsHold(o: Obj)
    requires Linked(o.m, o.sp)
    ensures ElemsAll(ResolvesIn(o.sp), o.m.elems)
  {
    hide Distinct, Shaped, NamesInPlace, FuncsAll, ImportsAll, ExportsAll, ElemsAll, DatasAll, CustomsAll, StartAll;
  }

  /** Addresses in the module after a wrapper was added: those before and the two new ones. */
  lemma {:induction false} StillFresh(o: Obj, f: Addr, tys: seq<byte>, c: nat, node: Nodes)
    requires NodesFresh(o.sp, node, c)
    ensures NodesFresh(WrapOne(o, f, tys, c, node).sp, node, c + 1)
  {
    var r := WrapOne(o, f, tys, c, node);
    WrapSpaces(o, f, tys, c, node);
    hide WrapOne;
    forall j: nat | j >= c + 1 ensures Fresh(r.sp, node(j).0) && Fresh(r.sp, node(j).1) && node(j).0 != node(j).1 {
      NodeFresh(o.sp, node, j) by { LaterFresh(o.sp, node, c, j); }
      FreshStays(o.sp, r.sp, node(c), node(j).0);
      FreshStays(o.sp, r.sp, node(c), node(j).1);
    }
  }

  lemma LaterFresh(sp: Spaces, node: Nodes, c: nat, j: nat)
    requires NodesFresh(sp, node, c) && j >= c
    ensures NodesFresh(sp, node, j)
  {
    hide Fresh;
  }

  lemma FreshStays(sp: Spaces, sp': Spaces, two: (Addr, Addr), x: Addr)
    requires Fresh(sp, x) && x != two.0 && x != two.1
    requires forall s: Space, a: Addr :: a in At(sp', s) ==> a in At(sp, s) || a == two.0 || a == two.1
    ensures Fresh(sp', x)
  {
  }

  lemma {:induction false} WrapSpaces(o: Obj, f: Addr, tys: seq<byte>, c: nat, node: Nodes)
    ensures var r := WrapOne(o, f, tys, c, node);
      forall s: Space, a: Addr :: a in At(r.sp, s) ==> a in At(o.sp, s) || a == node(c).0 || a == node(c).1
  {
    var sig := Longer(FuncSig(o, f), tys);
    var code := WrapperInsts(|FuncSig(o, f).params|, f);
    var o1 := WithSig(o, sig, node(c).0);
    var g := Func(SigAt(o, sig, node(c).0), [], code);
    var o2 := Grow(o1, FuncD(g), node(c).1, false);
    WrapOneIs(o, f, tys, c, node);
    AddFuncNoExport(o, sig, code, WrapName(o, f, c), node(c).0, node(c).1);
    NamesAside(o2, NameAssoc(node(c).1, WrapName(o, f, c)));
    assert o1.sp == o.sp || o1.sp == o.sp.(sigs := o.sp.sigs + [node(c).0]);
    assert o2.sp == o1.sp.(funcs := o1.sp.funcs + [node(c).1]);
    hide WrapOne, WrapName, WrapperInsts, FuncSig, Longer, AddFunc, AddName, WithSig, SigAt, Grow;
  }

  // ----- all entries -----

  lemma {:induction false} EntryKeeps(o: Obj, k: nat, i: nat, tys: seq<byte>, c: nat, node: Nodes)
    requires Inv(o) && InElems(o, k, i) && NodesFresh(o.sp, node, c)
    ensures var r := WrapEntry(o, k, i, tys, c, node); var f := o.m.elems[k].funcs[i];
      && Inv(r) && Persists(o, r) && OrderKept(o.sp, r.sp) && Grows(o.sp, r.sp) && (Sorted(o) ==> Sorted(r))
      && NodesFresh(r.sp, node, c + 1)
      && r.m.elems == o.m.elems[k := o.m.elems[k].(funcs := o.m.elems[k].funcs[i := node(c).1])]
      && f in o.sp.funcs && IsWrapper(r, node(c).1, FuncSig(o, f), f, tys)
  {
    InRange(o, k, i);
    hide *;
    EntryResolves(o, k, i);
    var f := o.m.elems[k].funcs[i];
    var o1 := WrapOne(o, f, tys, c, node);
    var r := WrapEntry(o, k, i, tys, c, node);
    WrapOneKeeps(o, f, tys, c, node);
    StillFresh(o, f, tys, c, node);
    KeptParts(o, o1);
    SameElems(o, o1, k, i);
    InWrapper(o1, node(c).1, FuncSig(o, f), f, tys);
    SetKeeps(o1, k, i, node(c).1);
    WrapEntryIs(o, k, i, tys, c, node);
    ElemsAside(o1, r);
    PersistsTrans(o, o1, r);
    WrapperAside(o1, r, node(c).1, FuncSig(o, f), f, tys);
    SortedAside(o1, r);
  }

  lemma KeptParts(o: Obj, r: Obj)
    requires Kept(o, r)
    ensures Inv(r) && OrderKept(o.sp, r.sp) && Grows(o.sp, r.sp) && (Sorted(o) ==> Sorted(r))
  {
    hide Inv, OrderKept, Grows, Sorted;
  }

  lemma SameElems(o: Obj, r: Obj, k: nat, i: nat)
    requires InElems(o, k, i) && r.m.elems == o.m.elems
    ensures InElems(r, k, i)
  {
  }

  lemma InWrapper(r: Obj, w: Addr, s: Sig, f: Addr, tys: seq<byte>)
    requires IsWrapper(r, w, s, f, tys)
    ensures w in r.sp.funcs
  {
  }

  lemma WrapEntryIs(o: Obj, k: nat, i: nat, tys: seq<byte>, c: nat, node: Nodes)
    requires InElems(o, k, i) && InElems(WrapOne(o, o.m.elems[k].funcs[i], tys, c, node), k, i)
    ensures WrapEntry(o, k, i, tys, c, node) == SetEntry(WrapOne(o, o.m.elems[k].funcs[i], tys, c, node), k, i, node(c).1)
    ensures var o1 := WrapOne(o, o.m.elems[k].funcs[i], tys, c, node); var r := WrapEntry(o, k, i, tys, c, node);
      r.m.elems == o1.m.elems[k := o1.m.elems[k].(funcs := o1.m.elems[k].funcs[i := node(c).1])]
  {
    hide WrapOne;
  }

  lemma ElemsAside(o: Obj, r: Obj)
    requires r.sp == o.sp && r.m == o.m.(elems := r.m.elems)
    ensures Persists(o, r)
  {
    hide IndexOf;
  }

  lemma WrapperAside(o: Obj, r: Obj, w: Addr, s: Sig, f: Addr, tys: seq<byte>)
    requires r.sp == o.sp && r.m == o.m.(elems := r.m.elems) && IsWrapper(o, w, s, f, tys)
    ensures IsWrapper(r, w, s, f, tys)
  {
    hide IndexOf, WrapperInsts, Longer;
  }

  lemma SortedAside(o: Obj, r: Obj)
    requires r.sp == o.sp && NamesOf(r) == NamesOf(o)
    ensures Sorted(o) == Sorted(r)
  {
    hide NamesOf, SortedBy;
  }

  lemma InRange(o: Obj, k: nat, i: nat)
    requires InElems(o, k, i)
    ensures k < |o.m.elems| && i < |o.m.elems[k].funcs|
  {
  }

  /** A wrapper stays one. */
  lemma WrapperPersists(o: Obj, r: Obj, w: Addr, s: Sig, f: Addr, tys: seq<byte>)
    requires Persists(o, r) && IsWrapper(o, w, s, f, tys)
    ensures IsWrapper(r, w, s, f, tys)
  {
    assert FuncStays(o, r, w);
    assert SigContent(r, FuncAt(o, w).sig) == SigContent(o, FuncAt(o, w).sig);
    hide FuncAt, SigContent, WrapperInsts, Longer, IndexOf;
  }

  /** The type of a function that was there is the same. */
  lemma SigPersistsAt(o: Obj, r: Obj, f: Addr)
    requires Persists(o, r) && f in o.sp.funcs && FuncAt(o, f).sig in o.sp.sigs
    ensures FuncSig(r, f) == FuncSig(o, f)
  {
    assert FuncStays(o, r, f);
    hide FuncAt, SigContent, IndexOf;
  }

  lemma FuncsHaveSigs(o: Obj, f: Addr)
    requires Inv(o) && f in o.sp.funcs
    ensures FuncAt(o, f).sig in o.sp.sigs
  {
    var p := ResolvesIn(o.sp);
    var i := IndexOf(o.sp.funcs, f);
    assert i < |o.m.funcs|;
    assert FuncAll(p, o.m.funcs[i]);
    assert p(SigS, o.m.funcs[i].sig);
    hide IndexOf, Distinct, NamesInPlace, ImportsFront, ImportsAll, ExportsAll, ElemsAll, DatasAll, CustomsAll, StartAll;
  }

  // ----- counting down -----

  lemma {:induction false} TogoSame(a: seq<Elem<Addr>>, b: seq<Elem<Addr>>, k: nat, i: nat)
    requires SameLengths(a, b)
    ensures Togo(a, k, i) == Togo(b, k, i)
    decreases |a| - k
  {
    if k < |a| { TogoSame(a, b, k + 1, 0); }
  }

  lemma SetLengths(elems: seq<Elem<Addr>>, k: nat, i: nat, a: Addr)
    requires k < |elems| && i < |elems[k].funcs|
    ensures SameLengths(elems, elems[k := elems[k].(funcs := elems[k].funcs[i := a])])
  {
  }

  lemma LengthsTrans(a: seq<Elem<Addr>>, b: seq<Elem<Addr>>, c: seq<Elem<Addr>>)
    requires SameLengths(a, b) && SameLengths(b, c)
    ensures SameLengths(a, c)
  {
  }

  lemma TogoStep(elems: seq<Elem<Addr>>, k: nat, i: nat)
    requires k < |elems|
    ensures i < |elems[k].funcs| ==> Togo(elems, k, i) == 1 + Togo(elems, k, i + 1)
    ensures i >= |elems[k].funcs| ==> Togo(elems, k, i) == 1 + Togo(elems, k + 1, 0)
  {
  }

  // ----- what wrapping from a place on does -----

  lemma {:induction false} NothingWrapped(o: Obj, tys: seq<byte>, k: nat, i: nat)
    requires k >= |o.m.elems|
    ensures WrappedFrom(o, o, tys, k, i)
  {
    hide EntryWrapped;
  }

  lemma {:induction false} NextSegment(o: Obj, r: Obj, tys: seq<byte>, k: nat, i: nat)
    requires k < |o.m.elems| && i >= |o.m.elems[k].funcs| && WrappedFrom(o, r, tys, k + 1, 0)
    ensures WrappedFrom(o, r, tys, k, i)
  {
    hide EntryWrapped;
    forall k': nat, i': nat | InElems(o, k', i') ensures InElems(r, k', i') && EntryIs(o, r, tys, k, i, k', i') {
      assert EntryIs(o, r, tys, k + 1, 0, k', i');
    }
  }

  lemma EntryNow(o: Obj, r: Obj, tys: seq<byte>, k0: nat, i0: nat, k: nat, i: nat)
    requires WrappedFrom(o, r, tys, k0, i0) && InElems(o, k, i)
    ensures InElems(r, k, i) && EntryIs(o, r, tys, k0, i0, k, i)
  {
    hide EntryIs;
  }

  lemma EntryAside(elems: seq<Elem<Addr>>, k: nat, i: nat, a: Addr, k': nat, i': nat)
    requires k < |elems| && i < |elems[k].funcs| && k' < |elems| && i' < |elems[k'].funcs|
    ensures elems[k := elems[k].(funcs := elems[k].funcs[i := a])][k'].funcs[i']
         == if k == k' && i == i' then a else elems[k'].funcs[i']
  {
  }

  /** The entry just wrapped, and all others. */
  lemma {:induction false} ThisEntry(o: Obj, o1: Obj, r: Obj, tys: seq<byte>, k: nat, i: nat, w: Addr, k': nat, i': nat)
    requires Inv(o) && InElems(o, k, i) && InElems(o, k', i') && WrappedFrom(o1, r, tys, k, i + 1)
    requires Persists(o, o1) && Persists(o1, r)
    requires o1.m.elems == o.m.elems[k := o.m.elems[k].(funcs := o.m.elems[k].funcs[i := w])]
    requires o.m.elems[k].funcs[i] in o.sp.funcs
    requires IsWrapper(o1, w, FuncSig(o, o.m.elems[k].funcs[i]), o.m.elems[k].funcs[i], tys) && w !in o.sp.funcs
    ensures InElems(r, k', i') && EntryIs(o, r, tys, k, i, k', i')
  {
    hide Inv, Persists, WrappedFrom, IsWrapper, FuncSig;
    EntryAside(o.m.elems, k, i, w, k', i');
    assert InElems(o1, k', i');
    EntryNow(o1, r, tys, k, i + 1, k', i');
    if k' == k && i' == i {
      WrapperPersists(o1, r, w, FuncSig(o, o.m.elems[k].funcs[i]), o.m.elems[k].funcs[i], tys);
    } else if From(k, i, k', i') {
      EntryResolves(o, k', i');
      FuncsHaveSigs(o, o.m.elems[k'].funcs[i']);
      SigPersistsAt(o, o1, o.m.elems[k'].funcs[i']);
      NotBefore(o, o1, r.m.elems[k'].funcs[i']);
    }
  }

  lemma NotBefore(o: Obj, o1: Obj, a: Addr)
    requires Persists(o, o1) && a !in o1.sp.funcs
    ensures a !in o.sp.funcs
  {
    hide FuncAt, SigContent, IndexOf;
    assert a in o.sp.funcs ==> FuncStays(o, o1, a);
  }

  lemma {:induction false} OneMore(o: Obj, o1: Obj, r: Obj, tys: seq<byte>, k: nat, i: nat, w: Addr)
    requires Inv(o) && InElems(o, k, i) && WrappedFrom(o1, r, tys, k, i + 1)
    requires Persists(o, o1) && Persists(o1, r)
    requires o1.m.elems == o.m.elems[k := o.m.elems[k].(funcs := o.m.elems[k].funcs[i := w])]
    requires o.m.elems[k].funcs[i] in o.sp.funcs
    requires IsWrapper(o1, w, FuncSig(o, o.m.elems[k].funcs[i]), o.m.elems[k].funcs[i], tys) && w !in o.sp.funcs
    ensures WrappedFrom(o, r, tys, k, i)
  {
    SetLengths(o.m.elems, k, i, w);
    assert SameLengths(o1.m.elems, r.m.elems);
    hide *;
    LengthsTrans(o.m.elems, o1.m.elems, r.m.elems);
    forall k': nat, i': nat | InElems(o, k', i') ensures InElems(r, k', i') && EntryIs(o, r, tys, k, i, k', i') {
      ThisEntry(o, o1, r, tys, k, i, w, k', i');
    }
    WrappedIf(o, r, tys, k, i);
  }

  lemma WrappedIf(o: Obj, r: Obj, tys: seq<byte>, k0: nat, i0: nat)
    requires SameLengths(o.m.elems, r.m.elems)
    requires forall k: nat, i: nat :: InElems(o, k, i) ==> InElems(r, k, i) && EntryIs(o, r, tys, k0, i0, k, i)
    ensures WrappedFrom(o, r, tys, k0, i0)
  {
    hide SameLengths, InElems, EntryIs;
  }

  ghost predicate Wrapping(o: Obj, r: Obj, tys: seq<byte>, k: nat, i: nat) {
    Kept(o, r) && Persists(o, r) && WrappedFrom(o, r, tys, k, i)
  }

  lemma WrappingIf(o: Obj, r: Obj, tys: seq<byte>, k: nat, i: nat)
    requires Kept(o, r) && Persists(o, r) && WrappedFrom(o, r, tys, k, i)
    ensures Wrapping(o, r, tys, k, i)
  {
  }

  lemma WrappingNow(o: Obj, r: Obj, tys: seq<byte>, k: nat, i: nat)
    requires Wrapping(o, r, tys, k, i)
    ensures Kept(o, r) && Persists(o, r) && WrappedFrom(o, r, tys, k, i)
  {
  }

  lemma FreshFunc(sp: Spaces, a: Addr)
    requires Fresh(sp, a)
    ensures a !in sp.funcs
  {
    assert a !in At(sp, FuncS);
  }

  lemma KeptIf(o: Obj, r: Obj)
    requires Inv(r) && OrderKept(o.sp, r.sp) && Grows(o.sp, r.sp) && (Sorted(o) ==> Sorted(r))
    ensures Kept(o, r)
  {
    hide Inv, OrderKept, Grows, Sorted;
  }

  lemma Unchanged(o: Obj)
    requires Inv(o)
    ensures Kept(o, o) && Persists(o, o)
  {
    hide Inv, IndexOf, Sorted;
  }

  lemma WrapFromIs(o: Obj, k: nat, i: nat, tys: seq<byte>, c: nat, node: Nodes, n: nat)
    ensures WrapFrom(o, k, i, tys, c, node, n) == if n == 0 || k >= |o.m.elems| then o
      else if i >= |o.m.elems[k].funcs| then WrapFrom(o, k + 1, 0, tys, c, node, n - 1)
      else WrapFrom(WrapEntry(o, k, i, tys, c, node), k, i + 1, tys, c + 1, node, n - 1)
  {
    hide WrapEntry;
  }

  lemma InElemsIf(o: Obj, k: nat, i: nat)
    requires k < |o.m.elems| && i < |o.m.elems[k].funcs|
    ensures InElems(o, k, i)
  {
  }

  lemma TogoNone(elems: seq<Elem<Addr>>, k: nat, i: nat)
    requires Togo(elems, k, i) == 0
    ensures k >= |elems|
  {
  }

  lemma {:induction false} WrapFromKeeps(o: Obj, k: nat, i: nat, tys: seq<byte>, c: nat, node: Nodes, n: nat)
    requires Inv(o) && NodesFresh(o.sp, node, c) && n >= Togo(o.m.elems, k, i)
    ensures Wrapping(o, WrapFrom(o, k, i, tys, c, node, n), tys, k, i)
    decreases n
  {
    hide *;
    WrapFromIs(o, k, i, tys, c, node, n);
    var r := WrapFrom(o, k, i, tys, c, node, n);
    if n == 0 { TogoNone(o.m.elems, k, i); }
    if k >= |o.m.elems| {
      NothingWrapped(o, tys, k, i);
      Unchanged(o);
    } else if i >= |o.m.elems[k].funcs| {
      TogoStep(o.m.elems, k, i);
      WrapFromKeeps(o, k + 1, 0, tys, c, node, n - 1);
      WrappingNow(o, r, tys, k + 1, 0);
      NextSegment(o, r, tys, k, i);
    } else {
      TogoStep(o.m.elems, k, i);
      InElemsIf(o, k, i);
      var o1 := WrapEntry(o, k, i, tys, c, node);
      EntryKeeps(o, k, i, tys, c, node);
      SetLengths(o.m.elems, k, i, node(c).1);
      TogoSame(o.m.elems, o1.m.elems, k, i + 1);
      WrapFromKeeps(o1, k, i + 1, tys, c + 1, node, n - 1);
      WrappingNow(o1, r, tys, k, i + 1);
      NodeFresh(o.sp, node, c);
      FreshFunc(o.sp, node(c).1);
      OneMore(o, o1, r, tys, k, i, node(c).1);
      PersistsTrans(o, o1, r);
      KeptIf(o, o1);
      KeptTrans(o, o1, r);
    }
    WrappingIf(o, r, tys, k, i);
  }

  /**
   * Every entry of every element segment becomes a wrapper of the function it was, with the values
   * appended to its parameters; everything else persists and the module stays in order.
   */
  lemma {:induction false} AllWrapped(o: Obj, tys: seq<byte>, node: Nodes)
    requires Inv(o) && NodesFresh(o.sp, node, 0)
    ensures var r := WrapAll(o, tys, node);
      Inv(r) && Persists(o, r) && OrderKept(o.sp, r.sp) && (Sorted(o) ==> Sorted(r))
      && SameLengths(o.m.elems, r.m.elems)
      && forall k: nat, i: nat :: InElems(o, k, i) ==> InElems(r, k, i) && EntryWrapped(o, r, tys, k, i)
  {
    hide *;
    var r := WrapAll(o, tys, node);
    WrapAllIs(o, tys, node);
    WrapFromKeeps(o, 0, 0, tys, 0, node, Togo(o.m.elems, 0, 0));
    WrappingNow(o, r, tys, 0, 0);
    KeptParts(o, r);
    WrappedLengths(o, r, tys);
    forall k: nat, i: nat | InElems(o, k, i) ensures InElems(r, k, i) && EntryWrapped(o, r, tys, k, i) {
      EntryNow(o, r, tys, 0, 0, k, i);
      FirstFrom(o, r, tys, k, i);
    }
  }

  lemma WrapAllIs(o: Obj, tys: seq<byte>, node: Nodes)
    ensures WrapAll(o, tys, node) == WrapFrom(o, 0, 0, tys, 0, node, Togo(o.m.elems, 0, 0))
  {
    hide WrapFrom, Togo;
  }

  lemma WrappedLengths(o: Obj, r: Obj, tys: seq<byte>)
    requires WrappedFrom(o, r, tys, 0, 0)
    ensures SameLengths(o.m.elems, r.m.elems)
  {
    hide SameLengths, EntryIs;
  }

  lemma FirstFrom(o: Obj, r: Obj, tys: seq<byte>, k: nat, i: nat)
    requires InElems(o, k, i) && InElems(r, k, i) && EntryIs(o, r, tys, 0, 0, k, i)
    ensures EntryWrapped(o, r, tys, k, i)
  {
    hide EntryWrapped, InElems;
  }
}
