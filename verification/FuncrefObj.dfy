/** Wrapping the functions in the element segments of a module. */
module FuncrefObj {
  import opened Bytes
  import opened Codec
  import opened CodecInst
  import opened CodecModule
  import opened CodecParts
  import opened CodecSections
  import opened CodecRound
  import opened ModuleRefs
  import opened Addresses
  import opened DeepCopy
  import opened ModuleEdit
  import opened ModuleKeeps
  import opened ModuleAdds

  const OP_END: nat := 0x0B
  const OP_CALL: nat := 0x10
  const OP_CALL_INDIRECT: nat := 0x11
  const OP_LOCAL_GET: nat := 0x20
  const OP_LOCAL_SET: nat := 0x21

  /** "__funcref_wrapper" */
  const SUFFIX: seq<byte> :=
    [0x5F, 0x5F, 0x66, 0x75, 0x6E, 0x63, 0x72, 0x65, 0x66, 0x5F, 0x77, 0x72, 0x61, 0x70, 0x70, 0x65, 0x72]

  function Digits(n: nat): seq<byte> { if n < 10 then [0x30 + n] else Digits(n / 10) + [0x30 + n % 10] }

  /** The number that decimal digits spell. */
  function Decimal(bs: seq<byte>): int {
    if bs == [] then 0
    else
      var d: int := bs[|bs| - 1];
      10 * Decimal(bs[..|bs| - 1]) + d - 0x30
  }

  /** Wrappers of functions without a name are numbered in decimal: different numbers, different names. */
  lemma {:induction false} DigitsSpell(n: nat)
    ensures Decimal(Digits(n)) == n && Digits(n) != [] && forall b <- Digits(n) :: 0x30 <= b <= 0x39
  {
    if n >= 10 {
      DigitsSpell(n / 10);
      assert Digits(n)[..|Digits(n)| - 1] == Digits(n / 10);
    } else {
      assert Digits(n)[..0] == [] && Decimal([]) == 0;
    }
  }

  function SigContent(o: Obj, s: Addr): Sig {
    var i := IndexOf(o.sp.sigs, s);
    if i < |o.m.sigs| then o.m.sigs[i] else Sig([], [])
  }

  function FuncAt(o: Obj, f: Addr): Func<Addr> {
    var i := IndexOf(o.sp.funcs, f);
    if i < |o.m.funcs| then o.m.funcs[i] else Func(0, [], [])
  }

  function FuncSig(o: Obj, f: Addr): Sig { SigContent(o, FuncAt(o, f).sig) }

  function WrapName(o: Obj, f: Addr, c: nat): seq<byte> {
    var ns := NamesOf(o);
    (if FindName(ns, f) < |ns| then ns[FindName(ns, f)].name else Digits(c)) + SUFFIX
  }

  function GetInsts(n: nat): (r: seq<Inst<Addr>>)
    ensures |r| == n
  {
    seq(n, i requires 0 <= i < n => Inst(OP_LOCAL_GET, LocalIdx(i)))
  }

  /** The operands, the call, the end. */
  function WrapperInsts(n: nat, f: Addr): seq<Inst<Addr>> {
    GetInsts(n) + [Inst(OP_CALL, FuncRef(f)), Inst(OP_END, NoImm)]
  }

  /** Where list elements for wrapper number `c` go: its signature, if it is new, and the function. */
  type Nodes = nat -> (Addr, Addr)

  function WrapOne(o: Obj, f: Addr, tys: seq<byte>, c: nat, node: Nodes): Obj {
    AddFunc(o, Longer(FuncSig(o, f), tys), [], WrapperInsts(|FuncSig(o, f).params|, f), None, WrapName(o, f, c),
            node(c).0, node(c).1)
  }

  function SetEntry(o: Obj, k: nat, i: nat, a: Addr): Obj
    requires k < |o.m.elems| && i < |o.m.elems[k].funcs|
  {
    o.(m := o.m.(elems := o.m.elems[k := o.m.elems[k].(funcs := o.m.elems[k].funcs[i := a])]))
  }

  // ----- what wrapping one function does -----

  predicate FuncStays(o: Obj, r: Obj, a: Addr) {
    a in r.sp.funcs && FuncAt(r, a) == FuncAt(o, a) && IndexOf(r.sp.funcs, a) == IndexOf(o.sp.funcs, a)
  }

  /** What was there is as it was. */
  ghost predicate Persists(o: Obj, r: Obj) {
    && (forall a :: a in o.sp.funcs ==> FuncStays(o, r, a))
    && (forall s :: s in o.sp.sigs ==> s in r.sp.sigs && SigContent(r, s) == SigContent(o, s))
    && r.m.nums == o.m.nums && r.sp.tables == o.sp.tables && r.m.tables == o.m.tables
    && r.m.imports == o.m.imports && r.m.exports == o.m.exports && r.m.start == o.m.start
  }

  /** The function at `w` takes the operands of `f` and more, and calls `f` with its operands. */
  predicate IsWrapper(r: Obj, w: Addr, s: Sig, f: Addr, tys: seq<byte>) {
    && w in r.sp.funcs && FuncAt(r, w).sig in r.sp.sigs && FuncSig(r, w) == Longer(s, tys) && FuncAt(r, w).locals == []
    && FuncAt(r, w).code == WrapperInsts(|s.params|, f) && IndexOf(r.sp.funcs, w) >= r.m.nums.funcs
  }

  lemma PersistsTrans(a: Obj, b: Obj, c: Obj)
    requires Persists(a, b) && Persists(b, c)
    ensures Persists(a, c)
  {
    hide FuncAt, SigContent, IndexOf;
    forall x | x in a.sp.funcs ensures FuncStays(a, c, x) { assert FuncStays(a, b, x) && FuncStays(b, c, x); }
  }

  lemma {:induction false} SigPersists(o: Obj, sig: Sig, node: Addr)
    requires Inv(o) && Fresh(o.sp, node)
    ensures var r := WithSig(o, sig, node);
      r.m == o.m.(sigs := r.m.sigs) && r.sp == o.sp.(sigs := r.sp.sigs) && r.names == o.names
    ensures forall s :: s in o.sp.sigs ==> s in WithSig(o, sig, node).sp.sigs
    ensures forall s :: s in o.sp.sigs ==> SigContent(WithSig(o, sig, node), s) == SigContent(o, s)
    ensures SigAt(o, sig, node) in WithSig(o, sig, node).sp.sigs
    ensures SigContent(WithSig(o, sig, node), SigAt(o, sig, node)) == sig
  {
    assert |o.sp.sigs| == |o.m.sigs| && Distinct(o.sp);
    hide Inv, FindSig, IndexOf, Distinct;
    var i := FindSig(o.m.sigs, sig);
    if i < |o.m.sigs| {
      DistinctIndex(o.sp, SigS, i);
    } else {
      NewSig(o, sig, node);
    }
  }

  lemma {:induction false} NewSig(o: Obj, sig: Sig, node: Addr)
    requires |o.sp.sigs| == |o.m.sigs| && Fresh(o.sp, node)
    ensures var r := AddSig(o, sig, node);
      (forall s :: s in o.sp.sigs ==> s in r.sp.sigs && SigContent(r, s) == SigContent(o, s))
      && node in r.sp.sigs && SigContent(r, node) == sig
  {
    var r := AddSig(o, sig, node);
    assert node !in At(o.sp, SigS);
    assert r.sp.sigs == Put(o.sp.sigs, node, false);
    hide IndexOf;
    forall s | s in o.sp.sigs ensures SigContent(r, s) == SigContent(o, s) { IndexPut(o.sp.sigs, node, false, s); }
    IndexLast(o.sp.sigs, node);
  }

  lemma IndexLast(xs: seq<Addr>, node: Addr)
    requires node !in xs
    ensures IndexOf(xs + [node], node) == |xs|
  {
    IsFirst(xs + [node], node, |xs|);
    hide IndexOf;
  }

  lemma {:induction false} NewFuncAt(o: Obj, f: Func<Addr>, node: Addr)
    requires |o.sp.funcs| == |o.m.funcs| && Fresh(o.sp, node)
    ensures var r := Grow(o, FuncD(f), node, false);
      (forall a :: a in o.sp.funcs ==> FuncStays(o, r, a))
      && node in r.sp.funcs && FuncAt(r, node) == f && IndexOf(r.sp.funcs, node) == |o.sp.funcs|
  {
    var r := Grow(o, FuncD(f), node, false);
    assert node !in At(o.sp, FuncS);
    assert r.sp.funcs == Put(o.sp.funcs, node, false);
    hide IndexOf;
    forall a | a in o.sp.funcs ensures FuncStays(o, r, a) {
      InPut(o.sp.funcs, node, false, a);
      IndexPut(o.sp.funcs, node, false, a);
    }
    IndexLast(o.sp.funcs, node);
  }

  /** Names and exports do not matter to functions and signatures. */
  lemma NamesAside(o: Obj, a: NameAssoc<Addr>)
    ensures var r := AddName(o, a, false);
      r.sp == o.sp && r.m == o.m.(customs := r.m.customs) && r.names == o.names
  {
    hide Put;
  }

  lemma FuncsAside(o: Obj, r: Obj, a: Addr)
    requires r.sp == o.sp && r.m.funcs == o.m.funcs && r.m.sigs == o.m.sigs
    ensures FuncAt(r, a) == FuncAt(o, a) && SigContent(r, a) == SigContent(o, a) && FuncSig(r, a) == FuncSig(o, a)
  {
    hide IndexOf;
  }

  /** Sizes as the invariant has them. */
  lemma InvSizes(o: Obj)
    requires Inv(o)
    ensures |o.sp.funcs| == |o.m.funcs| && |o.sp.sigs| == |o.m.sigs| && o.m.nums.funcs <= |o.sp.funcs| && Distinct(o.sp)
  {
    assert FrontOfKind(o.m, o.sp, FuncK);
    hide Distinct, AllRefs, NamesInPlace, DescsOf;
  }

  /** A function is added: all others persist, and it is there. */
  lemma {:induction false} AddFuncPersists(o: Obj, sig: Sig, code: seq<Inst<Addr>>, debug: seq<byte>, sigNode: Addr, node: Addr)
    requires Inv(o) && Fresh(o.sp, sigNode) && Fresh(o.sp, node) && node != sigNode
    ensures var r := AddFunc(o, sig, [], code, None, debug, sigNode, node);
      && Persists(o, r) && r.m.elems == o.m.elems && node in r.sp.funcs && FuncAt(r, node).sig in r.sp.sigs
      && FuncSig(r, node) == sig && FuncAt(r, node).code == code && FuncAt(r, node).locals == []
      && IndexOf(r.sp.funcs, node) >= r.m.nums.funcs
  {
    hide *;
    var o1 := WithSig(o, sig, sigNode);
    var f := Func(SigAt(o, sig, sigNode), [], code);
    var o2 := Grow(o1, FuncD(f), node, false);
    var r := AddName(o2, NameAssoc(node, debug), false);
    InvSizes(o);
    SigPersists(o, sig, sigNode);
    FreshIn(o, sig, sigNode, node);
    NewFuncAt(o1, f, node);
    GrowAside(o1, f, node);
    NamesAside(o2, NameAssoc(node, debug));
    AddFuncNoExport(o, sig, code, debug, sigNode, node);
    PersistsIf(o, o1, o2, r);
    FuncsAside(o2, r, node);
    SigAside(o1, o2, f.sig);
    FuncSigIs(r, node);
    FuncsAside(o2, r, f.sig);
  }

  lemma AddFuncNoExport(o: Obj, sig: Sig, code: seq<Inst<Addr>>, debug: seq<byte>, sigNode: Addr, node: Addr)
    ensures AddFunc(o, sig, [], code, None, debug, sigNode, node)
         == AddName(Grow(WithSig(o, sig, sigNode), FuncD(Func(SigAt(o, sig, sigNode), [], code)), node, false),
                    NameAssoc(node, debug), false)
  {
    hide AddName, Grow, WithSig, SigAt;
  }

  lemma GrowAside(o: Obj, f: Func<Addr>, node: Addr)
    ensures var r := Grow(o, FuncD(f), node, false);
      r.m == o.m.(funcs := r.m.funcs) && r.sp == o.sp.(funcs := r.sp.funcs) && r.names == o.names
  {
  }

  lemma FuncSigIs(o: Obj, a: Addr)
    ensures FuncSig(o, a) == SigContent(o, FuncAt(o, a).sig)
  {
    hide SigContent, FuncAt;
  }

  lemma SigAside(o: Obj, r: Obj, s: Addr)
    requires r.sp.sigs == o.sp.sigs && r.m.sigs == o.m.sigs
    ensures SigContent(r, s) == SigContent(o, s)
  {
    hide IndexOf;
  }

  lemma FuncAside(o: Obj, r: Obj, a: Addr)
    requires r.sp.funcs == o.sp.funcs && r.m.funcs == o.m.funcs
    ensures FuncAt(r, a) == FuncAt(o, a)
  {
    hide IndexOf;
  }

  /** Signatures, then a function, then its name. */
  lemma {:induction false} PersistsIf(o: Obj, o1: Obj, o2: Obj, r: Obj)
    requires o1.m == o.m.(sigs := o1.m.sigs) && o1.sp == o.sp.(sigs := o1.sp.sigs)
    requires forall s :: s in o.sp.sigs ==> s in o1.sp.sigs && SigContent(o1, s) == SigContent(o, s)
    requires o2.m == o1.m.(funcs := o2.m.funcs) && o2.sp == o1.sp.(funcs := o2.sp.funcs)
    requires forall a :: a in o1.sp.funcs ==> FuncStays(o1, o2, a)
    requires r.sp == o2.sp && r.m == o2.m.(customs := r.m.customs)
    ensures Persists(o, r)
  {
    hide FuncAt, SigContent, IndexOf;
    forall a | a in o.sp.funcs ensures FuncStays(o, r, a) {
      assert FuncStays(o1, o2, a);
      FuncAside(o, o1, a);
      FuncAside(o2, r, a);
    }
    forall s | s in o.sp.sigs ensures s in r.sp.sigs && SigContent(r, s) == SigContent(o, s) {
      SigAside(o1, o2, s);
      SigAside(o2, r, s);
    }
  }
}
