/** From the wrapped module to the program it denotes: the rewriting loop, table contents, and the link. */
module FuncrefLink {
  import opened Bytes
  import opened Codec
  import opened CodecInst
  import opened CodecModule
  import opened CodecParts
  import opened CodecSections
  import opened CodecRound
  import opened ModuleRefs
  import opened Addresses
  import opened DeepCopy
  import opened ModuleEdit
  import opened ModuleKeeps
  import opened ModuleAdds
  import opened FuncrefObj
  import opened FuncrefAll
  import opened ModuleObject
  import opened IndirectCalls
  import opened FuncrefWrap
  import opened FuncrefGen
  import Wasm

  // ----- where the longer signatures are -----

  /** In module `r`, the first signature that is that of `s` in `o` with the values' types appended. */
  function ExtIn(o: Obj, r: Obj, tys: seq<byte>): Addr -> Addr {
    (s: Addr) => SigAt(r, Longer(SigContent(o, s), tys), 0)
  }

  predicate HasSig(r: Obj, sig: Sig) { FindSig(r.m.sigs, sig) < |r.m.sigs| && |r.sp.sigs| == |r.m.sigs| }

  /** All call sites of a list have their longer signature in the module. */
  predicate SitesHave(o: Obj, r: Obj, tys: seq<byte>, toks: Insts) {
    forall i :: 0 <= i < |toks| && toks[i].imm.SigTable? ==> HasSig(r, Longer(SigContent(o, toks[i].imm.sig), tys))
  }

  lemma {:induction false} FindStable(sigs: seq<Sig>, more: seq<Sig>, sig: Sig)
    requires FindSig(sigs, sig) < |sigs|
    ensures FindSig(sigs + more, sig) == FindSig(sigs, sig)
  {
    hide FindSig;
    var i, j := FindSig(sigs, sig), FindSig(sigs + more, sig);
    assert (sigs + more)[i] == sig;
    assert forall h :: 0 <= h < i ==> (sigs + more)[h] == sigs[h];
  }

  /** A signature that is there stays where it is. */
  lemma {:induction false} HasSigStays(r: Obj, sig: Sig, other: Sig, node: Addr)
    requires HasSig(r, sig)
    ensures HasSig(WithSig(r, other, node), sig)
    ensures SigAt(WithSig(r, other, node), sig, 0) == SigAt(r, sig, 0)
  {
    var r' := WithSig(r, other, node);
    if FindSig(r.m.sigs, other) >= |r.m.sigs| {
      FindStable(r.m.sigs, [other], sig);
      assert r'.sp.sigs == r.sp.sigs + [node];
    }
    hide FindSig;
  }

  lemma {:induction false} NowHasSig(r: Obj, sig: Sig, node: Addr)
    requires |r.sp.sigs| == |r.m.sigs|
    ensures HasSig(WithSig(r, sig, node), sig) && SigAt(WithSig(r, sig, node), sig, 0) == SigAt(r, sig, node)
  {
    hide FindSig;
    var n := |r.m.sigs|;
    if FindSig(r.m.sigs, sig) >= n {
      var sigs := r.m.sigs + [sig];
      assert sigs[n] == sig;
      assert forall j :: 0 <= j < n ==> sigs[j] == r.m.sigs[j];
      assert FindSig(sigs, sig) == n;
    }
  }

  /** Rewriting looks at the signatures of the sites only. */
  lemma {:induction false} FlatSame(p1: Plan, p2: Plan, d: nat, toks: Insts, k: nat)
    requires p1.tys == p2.tys && p1.mark == p2.mark && p1.kept == p2.kept
    requires forall i :: 0 <= i < |toks| && toks[i].imm.SigTable? ==> p1.ext(toks[i].imm.sig) == p2.ext(toks[i].imm.sig)
    ensures Flat(p1, d, toks, k) == Flat(p2, d, toks, k)
    decreases |toks|
  {
    hide Flat;
    if toks == [] {
      FlatNone(p1, d, k);
      FlatNone(p2, d, k);
    } else {
      FlatStep(p1, d, toks, k);
      FlatStep(p2, d, toks, k);
      assert forall i :: 0 <= i < |toks[1..]| ==> toks[1..][i] == toks[i + 1];
      FlatSame(p1, p2, d, toks[1..], if toks[0].imm.SigTable? then k + 1 else k);
    }
  }

  /** The plan the loop carries out. */
  function PlanFor(o: Obj, r: Obj, tys: seq<byte>, mark: nat -> seq<Val>): Plan {
    Plan(tys, mark, ExtIn(o, r, tys), [], 0, (a: Addr) => false, (k: nat) => false)
  }

  /** Another signature leaves what is rewritten so far as it is. */
  lemma {:induction false} FlatStays(o: Obj, r: Obj, tys: seq<byte>, mark: nat -> seq<Val>, d: nat, toks: Insts, k: nat, other: Sig, node: Addr)
    requires SitesHave(o, r, tys, toks)
    ensures SitesHave(o, WithSig(r, other, node), tys, toks)
    ensures Flat(PlanFor(o, WithSig(r, other, node), tys, mark), d, toks, k) == Flat(PlanFor(o, r, tys, mark), d, toks, k)
  {
    var r' := WithSig(r, other, node);
    hide WithSig, HasSig, SigAt, Longer, SigContent;
    forall i | 0 <= i < |toks| && toks[i].imm.SigTable?
      ensures HasSig(r', Longer(SigContent(o, toks[i].imm.sig), tys))
      ensures ExtIn(o, r', tys)(toks[i].imm.sig) == ExtIn(o, r, tys)(toks[i].imm.sig)
    {
      HasSigStays(r, Longer(SigContent(o, toks[i].imm.sig), tys), other, node);
    }
    FlatSame(PlanFor(o, r', tys, mark), PlanFor(o, r, tys, mark), d, toks, k);
  }

  lemma FlatNext(plan: Plan, d: nat, toks: Insts, n: nat, k: nat)
    requires n < |toks|
    ensures Flat(plan, d, toks[..n + 1], k) == Flat(plan, d, toks[..n], k) +
      if toks[n].imm.SigTable? then FlatSite(plan, d, toks[n], k + SitesIn(toks[..n])) else [toks[n]]
    ensures SitesIn(toks[..n + 1]) == SitesIn(toks[..n]) + if toks[n].imm.SigTable? then 1 else 0
  {
    hide *;
    assert toks[..n + 1] == toks[..n] + [toks[n]];
    FlatAppend(plan, d, toks[..n], [toks[n]], k);
    FlatOne(plan, d, toks[n], k + SitesIn(toks[..n]));
    SitesAppend(toks[..n], [toks[n]]);
  }

  /** New addresses, all different, from number `c` on. */
  ghost predicate SigNodes(sp: Spaces, spare: nat -> Addr, c: nat) {
    (forall j: nat :: j >= c ==> Fresh(sp, spare(j))) && forall j: nat, h: nat :: c <= j < h ==> spare(j) != spare(h)
  }

  lemma {:induction false} SigNodesNext(o: Obj, sig: Sig, spare: nat -> Addr, c: nat)
    requires SigNodes(o.sp, spare, c)
    ensures Fresh(o.sp, spare(c)) && SigNodes(WithSig(o, sig, spare(c)).sp, spare, c + 1)
  {
    hide Fresh, WithSig;
    forall j: nat | j >= c + 1 ensures Fresh(WithSig(o, sig, spare(c)).sp, spare(j)) { FreshIn(o, sig, spare(c), spare(j)); }
  }

  lemma SitesHaveNext(o: Obj, r: Obj, tys: seq<byte>, toks: Insts, n: nat)
    requires n < |toks| && SitesHave(o, r, tys, toks[..n])
    requires toks[n].imm.SigTable? ==> HasSig(r, Longer(SigContent(o, toks[n].imm.sig), tys))
    ensures SitesHave(o, r, tys, toks[..n + 1])
  {
    hide HasSig, Longer, SigContent;
    var ts := toks[..n + 1];
    forall i | 0 <= i < |ts| && ts[i].imm.SigTable? ensures HasSig(r, Longer(SigContent(o, ts[i].imm.sig), tys)) {
      if i < n { assert ts[i] == toks[..n][i]; }
    }
  }

  lemma SiteSigThere(o: Obj, toks: Insts, n: nat)
    requires n < |toks| && CodeAll(ResolvesIn(o.sp), toks) && toks[n].imm.SigTable?
    ensures toks[n].imm.sig in o.sp.sigs
  {
    assert ImmAll(ResolvesIn(o.sp), toks[n].imm);
  }

  lemma SitesNone(o: Obj, r: Obj, tys: seq<byte>)
    ensures SitesHave(o, r, tys, []) && SitesIn([]) == 0
  {
  }

  lemma PlanParts(o: Obj, r: Obj, tys: seq<byte>, mark: nat -> seq<Val>, s: Addr)
    ensures var plan := PlanFor(o, r, tys, mark);
      plan.tys == tys && plan.mark == mark && (forall k: nat :: !plan.kept(k)) && plan.ext(s) == SigAt(r, Longer(SigContent(o, s), tys), 0)
  {
    hide SigAt, Longer, SigContent;
  }

  lemma SigKeepsAll(o: Obj, r: Obj, sig: Sig, node: Addr)
    requires Inv(r) && Fresh(r.sp, node) && Persists(o, r)
    ensures Inv(WithSig(r, sig, node)) && Persists(o, WithSig(r, sig, node)) && |r.sp.sigs| == |r.m.sigs|
  {
    hide *;
    InvSizes(r);
    SigKeeps(r, sig, node);
    KeptInv(r, WithSig(r, sig, node));
    SigPersists(r, sig, node);
    SigOnly(r, WithSig(r, sig, node));
    PersistsTrans(o, r, WithSig(r, sig, node));
  }

  lemma SigOnly(r: Obj, r': Obj)
    requires r'.m == r.m.(sigs := r'.m.sigs) && r'.sp == r.sp.(sigs := r'.sp.sigs)
    requires forall s :: s in r.sp.sigs ==> s in r'.sp.sigs && SigContent(r', s) == SigContent(r, s)
    ensures Persists(r, r')
  {
    hide IndexOf, SigContent;
  }

  lemma PersistsSig(o: Obj, r: Obj, s: Addr)
    requires Persists(o, r) && s in o.sp.sigs
    ensures SigContent(r, s) == SigContent(o, s)
  {
    hide SigContent, FuncStays;
  }

  /** Signatures have been added at the end, and nothing else has changed. */
  predicate MoreSigs(o: Obj, r: Obj) {
    && r.m == o.m.(sigs := r.m.sigs) && r.sp == o.sp.(sigs := r.sp.sigs) && r.names == o.names
    && o.m.sigs <= r.m.sigs && o.sp.sigs <= r.sp.sigs
  }

  lemma MoreSigsSelf(o: Obj)
    ensures MoreSigs(o, o)
  {
  }

  lemma MoreSigsNext(o: Obj, r: Obj, sig: Sig, node: Addr)
    requires MoreSigs(o, r)
    ensures MoreSigs(o, WithSig(r, sig, node))
  {
    hide FindSig;
  }

  lemma PersistsSelf(o: Obj)
    ensures Persists(o, o)
  {
    hide IndexOf, SigContent;
  }

  /**
   * The loop over a function's instructions: at an indirect call the index is set aside, the values
   * are pushed, and the call gets a signature that takes them.
   */
  method ExtendCalls(mod: WasmModule, insts: Insts, tys: seq<byte>, mark: nat -> seq<Val>, d: nat, first: nat, spare: nat -> Addr)
    returns (list: Insts)
    requires Inv(mod.Val()) && CodeAll(ResolvesIn(mod.sp), insts) && SigNodes(mod.sp, spare, first)
    modifies mod
    ensures Inv(mod.Val()) && Persists(old(mod.Val()), mod.Val())
    ensures list == Flat(PlanFor(old(mod.Val()), mod.Val(), tys, mark), d, insts, first)
    ensures SitesHave(old(mod.Val()), mod.Val(), tys, insts)
    ensures MoreSigs(old(mod.Val()), mod.Val()) && SigNodes(mod.sp, spare, first + SitesIn(insts))
  {
    hide *;
    ghost var o := mod.Val();
    MoreSigsSelf(o);
    list := [];
    ghost var done := 0;
    ValIs(mod);
    PersistsSelf(o);
    SitesNone(o, o, tys);
    FlatNone(PlanFor(o, o, tys, mark), d, first);
    assert insts[..0] == [];
    var k := first;
    for n := 0 to |insts|
      invariant mod.Val() == Obj(mod.m, mod.sp, mod.names) && Inv(mod.Val()) && Persists(o, mod.Val())
      invariant k == first + SitesIn(insts[..n]) && SigNodes(mod.sp, spare, k) && MoreSigs(o, mod.Val())
      invariant SitesHave(o, mod.Val(), tys, insts[..n])
      invariant list == Flat(PlanFor(o, mod.Val(), tys, mark), d, insts[..n], first)
    {
      var i := insts[n];
      ghost var r := mod.Val();
      if i.imm.SigTable? {
        SiteSigThere(o, insts, n);
        PersistsSig(o, r, i.imm.sig);
        var sig := Longer(SigContent(mod.Val(), i.imm.sig), tys);
        SigNodesNext(r, sig, spare, k);
        SigKeepsAll(o, r, sig, spare(k));
        FlatStays(o, r, tys, mark, d, insts[..n], first, sig, spare(k));
        NowHasSig(r, sig, spare(k));
        MoreSigsNext(o, r, sig, spare(k));
        var s := mod.AddSignature(sig, false, spare(k));
        ValIs(mod);
        ghost var plan := PlanFor(o, mod.Val(), tys, mark);
        PlanParts(o, mod.Val(), tys, mark, i.imm.sig);
        FlatSiteIs(plan, d, i, k);
        assert !plan.kept(k);
        FlatNext(plan, d, insts, n, first);
        var call := Inst(i.op, SigTable(s, i.imm.table));
        if tys == [] {
          list := list + [call];
        } else {
          var pre := [Inst(OP_LOCAL_SET, LocalIdx(d))];
          var put := [Inst(OP_LOCAL_GET, LocalIdx(d))];
          list := list + (pre + (ConstInsts(mark(k)) + (put + [call])));
        }
        k := k + 1;
      } else {
        FlatNext(PlanFor(o, r, tys, mark), d, insts, n, first);
        list := list + [i];
      }
      SitesHaveNext(o, mod.Val(), tys, insts, n);
    }
    assert insts[..|insts|] == insts;
  }
}
