/** The whole pass: function references are wrapped, then the calls of all functions are rewritten. */
module FuncrefPass {
  import opened Bytes
  import opened Codec
  import opened CodecInst
  import opened CodecModule
  import opened CodecParts
  import opened CodecSections
  import opened CodecRound
  import opened ModuleRefs
  import opened Addresses
  import opened DeepCopy
  import opened ModuleEdit
  import opened ModuleKeeps
  import opened ModuleAdds
  import opened FuncrefObj
  import opened FuncrefAll
  import opened ModuleObject
  import opened IndirectCalls
  import opened FuncrefWrap
  import opened FuncrefGen
  import opened FuncrefLink
  import opened FuncrefProg
  import opened FuncrefKept
  import Wasm

  /** Types and values passed along, the pool of locals and the one for the index, and the functions left out. */
  datatype Pass = Pass(tys: seq<byte>, mark: nat -> seq<Val>, pool: seq<byte>, slot: nat, skip: Addr -> bool)

  // ----- a pool of locals -----

  /** One local more: a run of the same type at the end is lengthened. */
  function Appended(locals: seq<LocalRun>, ty: byte): seq<LocalRun> {
    var n := |locals| - 1;
    if n >= 0 && locals[n].ty == ty then locals[n := LocalRun(locals[n].count + 1, ty)] else locals + [LocalRun(1, ty)]
  }

  function Pooled(locals: seq<LocalRun>, tys: seq<byte>): seq<LocalRun>
    decreases |tys|
  {
    if tys == [] then locals else Appended(Pooled(locals, tys[..|tys| - 1]), tys[|tys| - 1])
  }

  function ZeroVals(tys: seq<byte>): seq<Val> { seq(|tys|, i requires 0 <= i < |tys| => Zero(tys[i])) }

  lemma {:induction false} ZerosCat(a: seq<LocalRun>, b: seq<LocalRun>)
    ensures Zeros(a + b) == Zeros(a) + Zeros(b)
    decreases |a|
  {
    hide Zero;
    if a == [] {
      assert a + b == b;
    } else {
      assert (a + b)[1..] == a[1..] + b;
      ZerosCat(a[1..], b);
    }
  }

  lemma ZerosOne(run: LocalRun)
    ensures Zeros([run]) == seq(run.count, _ => Zero(run.ty))
  {
    hide Zero;
    assert [run][1..] == [];
  }

  lemma {:induction false} ZerosAppended(locals: seq<LocalRun>, ty: byte)
    ensures Zeros(Appended(locals, ty)) == Zeros(locals) + [Zero(ty)]
  {
    var n := |locals| - 1;
    hide Zero, Zeros;
    if n >= 0 && locals[n].ty == ty {
      var c := locals[n].count;
      assert locals == locals[..n] + [locals[n]];
      assert Appended(locals, ty) == locals[..n] + [LocalRun(c + 1, ty)];
      ZerosCat(locals[..n], [locals[n]]);
      ZerosCat(locals[..n], [LocalRun(c + 1, ty)]);
      ZerosOne(locals[n]);
      ZerosOne(LocalRun(c + 1, ty));
      assert seq<Val>(c + 1, _ => Zero(ty)) == seq<Val>(c, _ => Zero(ty)) + [Zero(ty)];
    } else {
      ZerosCat(locals, [LocalRun(1, ty)]);
      ZerosOne(LocalRun(1, ty));
      assert seq<Val>(1, _ => Zero(ty)) == [Zero(ty)];
    }
  }

  /** The pool's locals are behind the function's own, and zero. */
  lemma {:induction false} ZerosPooled(locals: seq<LocalRun>, tys: seq<byte>)
    ensures Zeros(Pooled(locals, tys)) == Zeros(locals) + ZeroVals(tys)
    decreases |tys|
  {
    hide Zero, Zeros, Appended;
    if tys != [] {
      var n := |tys| - 1;
      ZerosPooled(locals, tys[..n]);
      ZerosAppended(Pooled(locals, tys[..n]), tys[n]);
      assert ZeroVals(tys) == ZeroVals(tys[..n]) + [Zero(tys[n])];
    }
  }

  // ----- signatures are added at the end -----

  /** The second module has the first one's signatures in front of its own. */
  predicate Grown(o: Obj, r: Obj) {
    o.m.sigs <= r.m.sigs && o.sp.sigs <= r.sp.sigs && |o.sp.sigs| == |o.m.sigs| && |r.sp.sigs| == |r.m.sigs|
  }

  lemma IndexPrefix(xs: seq<Addr>, ys: seq<Addr>, a: Addr)
    requires a in xs && xs <= ys
    ensures IndexOf(ys, a) == IndexOf(xs, a)
  {
    var i := IndexOf(xs, a);
    hide IndexOf;
    assert forall j :: 0 <= j < i ==> ys[j] == xs[j];
    IsFirst(ys, a, i);
  }

  lemma {:induction false} SigSame(o: Obj, r: Obj, s: Addr)
    requires Grown(o, r) && s in o.sp.sigs
    ensures s in r.sp.sigs && SigContent(r, s) == SigContent(o, s)
  {
    IndexPrefix(o.sp.sigs, r.sp.sigs, s);
    hide IndexOf;
  }

  lemma {:induction false} HasSigGrown(r: Obj, r': Obj, sig: Sig)
    requires HasSig(r, sig) && Grown(r, r')
    ensures HasSig(r', sig) && SigAt(r', sig, 0) == SigAt(r, sig, 0)
  {
    var more := r'.m.sigs[|r.m.sigs|..];
    assert r'.m.sigs == r.m.sigs + more;
    FindStable(r.m.sigs, more, sig);
    hide FindSig;
  }

  /** What is rewritten stays right when signatures are added. */
  lemma {:induction false} FlatGrown(o: Obj, r: Obj, r': Obj, x: Pass, d: nat, toks: Insts, k: nat)
    requires SitesHave(o, r, x.tys, toks) && Grown(r, r')
    ensures SitesHave(o, r', x.tys, toks)
    ensures Flat(PlanFor(o, r', x.tys, x.mark), d, toks, k) == Flat(PlanFor(o, r, x.tys, x.mark), d, toks, k)
  {
    hide Grown, HasSig, SigAt, Longer, SigContent;
    forall i | 0 <= i < |toks| && toks[i].imm.SigTable?
      ensures HasSig(r', Longer(SigContent(o, toks[i].imm.sig), x.tys))
      ensures ExtIn(o, r', x.tys)(toks[i].imm.sig) == ExtIn(o, r, x.tys)(toks[i].imm.sig)
    {
      HasSigGrown(r, r', Longer(SigContent(o, toks[i].imm.sig), x.tys));
    }
    FlatSame(PlanFor(o, r', x.tys, x.mark), PlanFor(o, r, x.tys, x.mark), d, toks, k);
  }

  /** It is also the same seen from any module in which the types that calls name are the same. */
  lemma {:induction false} FlatBased(o: Obj, o': Obj, r: Obj, x: Pass, d: nat, toks: Insts, k: nat)
    requires SitesHave(o, r, x.tys, toks)
    requires forall i :: 0 <= i < |toks| && toks[i].imm.SigTable? ==>
      SigContent(o', toks[i].imm.sig) == SigContent(o, toks[i].imm.sig)
    ensures SitesHave(o', r, x.tys, toks)
    ensures Flat(PlanFor(o', r, x.tys, x.mark), d, toks, k) == Flat(PlanFor(o, r, x.tys, x.mark), d, toks, k)
  {
    hide HasSig, SigAt, Longer, SigContent;
    FlatSame(PlanFor(o', r, x.tys, x.mark), PlanFor(o, r, x.tys, x.mark), d, toks, k);
  }

  // ----- references of a rewritten list -----

  lemma ResolvedSig(r: Obj, sig: Sig)
    requires HasSig(r, sig)
    ensures SigAt(r, sig, 0) in r.sp.sigs && ResolvesIn(r.sp)(SigS, SigAt(r, sig, 0))
  {
    hide FindSig;
    var i := FindSig(r.m.sigs, sig);
    assert r.sp.sigs[i] in r.sp.sigs;
  }

  lemma {:induction false} ConstsResolve(sp: Spaces, vs: seq<Val>)
    ensures CodeAll(ResolvesIn(sp), ConstInsts(vs))
  {
    hide ResolvesIn;
    assert forall i :: 0 <= i < |vs| ==> ConstInsts(vs)[i] == ConstInst(vs[i]);
  }

  lemma CodeCat(sp: Spaces, a: Insts, b: Insts)
    requires CodeAll(ResolvesIn(sp), a) && CodeAll(ResolvesIn(sp), b)
    ensures CodeAll(ResolvesIn(sp), a + b)
  {
    hide ImmAll, ResolvesIn;
    assert forall i :: 0 <= i < |a + b| ==> (a + b)[i] == if i < |a| then a[i] else b[i - |a|];
  }

  lemma CodeOne(sp: Spaces, i: Inst<Addr>)
    requires ImmAll(ResolvesIn(sp), i.imm)
    ensures CodeAll(ResolvesIn(sp), [i])
  {
    hide ImmAll, ResolvesIn;
  }

  lemma {:induction false} SiteResolves(o: Obj, r: Obj, x: Pass, d: nat, i: Inst<Addr>, k: nat)
    requires i.imm.SigTable? && ImmAll(ResolvesIn(r.sp), i.imm) && HasSig(r, Longer(SigContent(o, i.imm.sig), x.tys))
    ensures CodeAll(ResolvesIn(r.sp), FlatSite(PlanFor(o, r, x.tys, x.mark), d, i, k))
  {
    var plan := PlanFor(o, r, x.tys, x.mark);
    var sig := Longer(SigContent(o, i.imm.sig), x.tys);
    var call := Inst(i.op, SigTable(plan.ext(i.imm.sig), i.imm.table));
    PlanParts(o, r, x.tys, x.mark, i.imm.sig);
    ResolvedSig(r, sig);
    assert ImmAll(ResolvesIn(r.sp), call.imm);
    hide *;
    var set_: Inst<Addr> := Inst(OP_LOCAL_SET, LocalIdx(d));
    var get: Inst<Addr> := Inst(OP_LOCAL_GET, LocalIdx(d));
    LocalsResolve(r.sp, d);
    FlatSiteIs(plan, d, i, k);
    CodeOne(r.sp, i);
    CodeOne(r.sp, call);
    CodeOne(r.sp, set_);
    CodeOne(r.sp, get);
    ConstsResolve(r.sp, plan.mark(k));
    CodeCat(r.sp, [get], [call]);
    CodeCat(r.sp, ConstInsts(plan.mark(k)), [get] + [call]);
    CodeCat(r.sp, [set_], ConstInsts(plan.mark(k)) + ([get] + [call]));
  }

  lemma LocalsResolve(sp: Spaces, d: nat)
    ensures ImmAll(ResolvesIn(sp), LocalIdx(d))
  {
  }

  lemma {:induction false} FlatResolves(o: Obj, r: Obj, x: Pass, d: nat, toks: Insts, k: nat)
    requires CodeAll(ResolvesIn(r.sp), toks) && SitesHave(o, r, x.tys, toks)
    ensures CodeAll(ResolvesIn(r.sp), Flat(PlanFor(o, r, x.tys, x.mark), d, toks, k))
    decreases |toks|
  {
    var plan := PlanFor(o, r, x.tys, x.mark);
    hide *;
    if toks == [] {
      FlatNone(plan, d, k);
    } else {
      var tail := toks[1..];
      FlatStep(plan, d, toks, k);
      SplitFirst(o, r, x, toks);
      FlatResolves(o, r, x, d, tail, if toks[0].imm.SigTable? then k + 1 else k);
      if toks[0].imm.SigTable? {
        SiteResolves(o, r, x, d, toks[0], k);
        CodeCat(r.sp, FlatSite(plan, d, toks[0], k), Flat(plan, d, tail, k + 1));
      } else {
        CodeOne(r.sp, toks[0]);
        CodeCat(r.sp, [toks[0]], Flat(plan, d, tail, k));
      }
    }
  }

  lemma SplitFirst(o: Obj, r: Obj, x: Pass, toks: Insts)
    requires toks != [] && CodeAll(ResolvesIn(r.sp), toks) && SitesHave(o, r, x.tys, toks)
    ensures ImmAll(ResolvesIn(r.sp), toks[0].imm) && CodeAll(ResolvesIn(r.sp), toks[1..])
    ensures SitesHave(o, r, x.tys, toks[1..])
    ensures toks[0].imm.SigTable? ==> HasSig(r, Longer(SigContent(o, toks[0].imm.sig), x.tys))
  {
    hide ImmAll, ResolvesIn, HasSig, Longer, SigContent;
    assert forall i :: 0 <= i < |toks[1..]| ==> toks[1..][i] == toks[i + 1];
  }

  // ----- one function -----

  function SlotOf(x: Pass, o: Obj, f: Func<Addr>): nat {
    |SigContent(o, f.sig).params| + |Zeros(f.locals)| + x.slot
  }

  /** `g` is what function `f`, at `a`, becomes; its calls are counted from `first`. */
  predicate Passed(x: Pass, o: Obj, r: Obj, a: Addr, f: Func<Addr>, g: Func<Addr>, first: nat) {
    if x.skip(a) then g == f
    else
      && g.sig == f.sig && g.locals == Pooled(f.locals, x.pool) && SitesHave(o, r, x.tys, f.code)
      && g.code == Flat(PlanFor(o, r, x.tys, x.mark), SlotOf(x, o, f), f.code, first)
  }

  lemma PassedGrown(x: Pass, o: Obj, r: Obj, r': Obj, a: Addr, f: Func<Addr>, g: Func<Addr>, first: nat)
    requires Passed(x, o, r, a, f, g, first) && Grown(r, r')
    ensures Passed(x, o, r', a, f, g, first)
  {
    hide Grown, SitesHave, Flat, SlotOf, Pooled, PlanFor;
    if !x.skip(a) { FlatGrown(o, r, r', x, SlotOf(x, o, f), f.code, first); }
  }

  lemma {:induction false} PassedBased(x: Pass, o: Obj, o': Obj, r: Obj, a: Addr, f: Func<Addr>, g: Func<Addr>, first: nat)
    requires Passed(x, o, r, a, f, g, first) && Inv(o') && Resolved(o', f)
    requires forall s :: s in o'.sp.sigs ==> SigContent(o, s) == SigContent(o', s)
    ensures Passed(x, o', r, a, f, g, first)
  {
    hide SitesHave, Flat, Pooled, PlanFor, SigContent, Inv, Zeros, ResolvesIn, ImmAll;
    if !x.skip(a) {
      forall i | 0 <= i < |f.code| && f.code[i].imm.SigTable?
        ensures SigContent(o', f.code[i].imm.sig) == SigContent(o, f.code[i].imm.sig)
      {
        SiteSigThere(o', f.code, i);
      }
      FlatBased(o, o', r, x, SlotOf(x, o, f), f.code, first);
    }
  }

  /** All references of the function resolve. */
  predicate Resolved(o: Obj, f: Func<Addr>) { f.sig in o.sp.sigs && CodeAll(ResolvesIn(o.sp), f.code) }

  lemma FuncResolved(o: Obj, i: nat)
    requires Inv(o) && i < |o.m.funcs|
    ensures Resolved(o, o.m.funcs[i])
  {
    var p := ResolvesIn(o.sp);
    assert FuncAll(p, o.m.funcs[i]);
    assert p(SigS, o.m.funcs[i].sig);
    hide Distinct, NamesInPlace, ImportsFront, ImportsAll, ExportsAll, ElemsAll, DatasAll, CustomsAll, StartAll, CodeAll;
  }

  /** A function is replaced by one whose references resolve. */
  lemma {:induction false} SetFuncKeeps(o: Obj, i: nat, f: Func<Addr>)
    requires Inv(o) && i < |o.m.funcs| && Resolved(o, f)
    ensures Inv(o.(m := o.m.(funcs := o.m.funcs[i := f])))
  {
    var p := ResolvesIn(o.sp);
    var m := o.m.(funcs := o.m.funcs[i := f]);
    FuncIn(o.sp, f);
    assert FuncsAll(p, m.funcs) by {
      hide FuncAll, ImportsFront, Distinct, ResolvesIn;
      FuncsHold(o);
    }
    assert ImportsFront(m, o.sp) by {
      hide DescsOf, Linked;
      forall j: CodecModule.Kind ensures FrontOfKind(m, o.sp, j) { assert FrontOfKind(o.m, o.sp, j); }
    }
    hide Distinct, NamesInPlace, ImportsFront, FuncsAll, ImportsAll, ExportsAll, ElemsAll, DatasAll, CustomsAll, StartAll;
    hide NAME_SECTION, ResolvesIn, Resolves;
  }

  lemma FuncsHold(o: Obj)
    requires Inv(o)
    ensures FuncsAll(ResolvesIn(o.sp), o.m.funcs)
  {
    hide Distinct, Shaped, NamesInPlace, FuncsAll, ImportsAll, ExportsAll, ElemsAll, DatasAll, CustomsAll, StartAll;
    hide ImportsFront, NamesKnown;
  }

  lemma FuncIn(sp: Spaces, f: Func<Addr>)
    requires f.sig in sp.sigs && CodeAll(ResolvesIn(sp), f.code)
    ensures FuncAll(ResolvesIn(sp), f)
  {
    hide CodeAll;
  }

  /** Only signatures and functions have changed. */
  predicate Along(o: Obj, r: Obj) {
    && r.m == o.m.(sigs := r.m.sigs, funcs := r.m.funcs) && r.sp == o.sp.(sigs := r.sp.sigs) && r.names == o.names
    && |r.m.funcs| == |o.m.funcs| && Grown(o, r)
  }

  function Sites(x: Pass, a: Addr, f: Func<Addr>): nat { if x.skip(a) then 0 else SitesIn(f.code) }

  lemma MoreResolves(o: Obj, r: Obj, code: Insts)
    requires MoreSigs(o, r) && CodeAll(ResolvesIn(o.sp), code)
    ensures CodeAll(ResolvesIn(r.sp), code)
  {
    forall i | 0 <= i < |code| ensures ImmAll(ResolvesIn(r.sp), code[i].imm) { assert ImmAll(ResolvesIn(o.sp), code[i].imm); }
  }

  /** A rewritten function's references resolve. */
  lemma {:induction false} PassedResolves(x: Pass, o: Obj, r: Obj, a: Addr, f: Func<Addr>, g: Func<Addr>, first: nat)
    requires Passed(x, o, r, a, f, g, first) && Resolved(o, f) && MoreSigs(o, r)
    ensures Resolved(r, g)
  {
    hide SitesHave, Flat, SlotOf, Pooled, PlanFor, ResolvesIn, CodeAll;
    MoreResolves(o, r, f.code);
    if !x.skip(a) { FlatResolves(o, r, x, SlotOf(x, o, f), f.code, first); }
  }

  lemma AlongIf(o: Obj, r: Obj, i: nat, g: Func<Addr>)
    requires MoreSigs(o, r) && i < |o.m.funcs| && |o.sp.sigs| == |o.m.sigs| && |r.sp.sigs| == |r.m.sigs|
    ensures Along(o, r.(m := r.m.(funcs := r.m.funcs[i := g])))
  {
  }

  lemma PassedIf(x: Pass, o: Obj, r: Obj, a: Addr, f: Func<Addr>, g: Func<Addr>, first: nat)
    requires !x.skip(a) && g == Func(f.sig, Pooled(f.locals, x.pool), g.code) && SitesHave(o, r, x.tys, f.code)
    requires g.code == Flat(PlanFor(o, r, x.tys, x.mark), SlotOf(x, o, f), f.code, first)
    ensures Passed(x, o, r, a, f, g, first)
  {
    hide SitesHave, Flat, SlotOf, Pooled, PlanFor;
  }

  lemma SetIs(r: Obj, i: nat, g: Func<Addr>)
    requires i < |r.m.funcs|
    ensures var r' := r.(m := r.m.(funcs := r.m.funcs[i := g]));
      r'.m.funcs == r.m.funcs[i := g] && Grown(r, r') == (|r.sp.sigs| == |r.m.sigs|)
  {
  }

  /** One function: it gets its pool of locals, and its list is rewritten. */
  method ExtendOne(mod: WasmModule, x: Pass, i: nat, k: nat, spare: nat -> Addr) returns (k': nat)
    requires Inv(mod.Val()) && SigNodes(mod.sp, spare, k) && i < |mod.m.funcs| && i < |mod.sp.funcs|
    modifies mod
    ensures Inv(mod.Val()) && SigNodes(mod.sp, spare, k') && k' == k + Sites(x, old(mod.sp.funcs[i]), old(mod.m.funcs[i]))
    ensures Along(old(mod.Val()), mod.Val()) && i < |mod.m.funcs| && mod.m.funcs == old(mod.m.funcs)[i := mod.m.funcs[i]]
    ensures Passed(x, old(mod.Val()), mod.Val(), old(mod.sp.funcs[i]), old(mod.m.funcs[i]), mod.m.funcs[i], k)
  {
    hide *;
    ghost var o := mod.Val();
    ValIs(mod);
    InvSizes(o);
    var a, f := mod.sp.funcs[i], mod.m.funcs[i];
    if x.skip(a) {
      SkipOne(x, o, i, k);
      return k;
    }
    FuncResolved(o, i);
    ResolvedNow(o, f);
    var d: nat := SlotOf(x, mod.Val(), f);
    var list := ExtendCalls(mod, f.code, x.tys, x.mark, d, k, spare);
    ghost var r := mod.Val();
    ValIs(mod);
    InvSizes(r);
    MoreNow(o, r);
    var g := Func(f.sig, Pooled(f.locals, x.pool), list);
    PassedIf(x, o, r, a, f, g, k);
    PassedResolves(x, o, r, a, f, g, k);
    SetFuncKeeps(r, i, g);
    AlongIf(o, r, i, g);
    SetIs(r, i, g);
    mod.m := mod.m.(funcs := mod.m.funcs[i := g]);
    ValIs(mod);
    PassedGrown(x, o, r, mod.Val(), a, f, g, k);
    SitesAre(x, a, f);
    k' := k + SitesIn(f.code);
  }

  lemma MoreNow(o: Obj, r: Obj)
    requires MoreSigs(o, r)
    ensures r.m.funcs == o.m.funcs && r.sp.funcs == o.sp.funcs
  {
  }

  lemma ResolvedNow(o: Obj, f: Func<Addr>)
    requires Resolved(o, f)
    ensures f.sig in o.sp.sigs && CodeAll(ResolvesIn(o.sp), f.code)
  {
    hide CodeAll;
  }

  lemma SitesAre(x: Pass, a: Addr, f: Func<Addr>)
    ensures Sites(x, a, f) == if x.skip(a) then 0 else SitesIn(f.code)
  {
    hide SitesIn;
  }

  lemma SkipOne(x: Pass, o: Obj, i: nat, k: nat)
    requires i < |o.m.funcs| && i < |o.sp.funcs| && x.skip(o.sp.funcs[i]) && |o.sp.sigs| == |o.m.sigs|
    ensures Along(o, o) && Passed(x, o, o, o.sp.funcs[i], o.m.funcs[i], o.m.funcs[i], k)
    ensures Sites(x, o.sp.funcs[i], o.m.funcs[i]) == 0 && o.m.funcs == o.m.funcs[i := o.m.funcs[i]]
  {
    hide SitesIn, SitesHave, Flat, SlotOf, Pooled, PlanFor;
  }

  // ----- all functions -----

  /** The first `i` functions are done, the others as they were; calls have been counted up to `k`. */
  ghost predicate DoneTo(x: Pass, o: Obj, r: Obj, firsts: seq<nat>, i: nat, k: nat) {
    && i == |firsts| <= |o.m.funcs| == |r.m.funcs| == |o.sp.funcs|
    && (forall j :: 0 <= j < i ==> Passed(x, o, r, o.sp.funcs[j], o.m.funcs[j], r.m.funcs[j], firsts[j]))
    && (forall j :: 0 <= j < i ==> firsts[j] + Sites(x, o.sp.funcs[j], o.m.funcs[j]) <= k)
    && (forall j :: i <= j < |o.m.funcs| ==> r.m.funcs[j] == o.m.funcs[j])
  }

  lemma AlongTrans(o: Obj, r: Obj, r': Obj)
    requires Along(o, r) && Along(r, r')
    ensures Along(o, r') && Grown(r, r')
  {
  }

  lemma AlongSelf(o: Obj)
    requires |o.sp.sigs| == |o.m.sigs|
    ensures Along(o, o)
  {
  }

  lemma AlongNow(o: Obj, r: Obj)
    requires Along(o, r)
    ensures r.sp.funcs == o.sp.funcs && |r.m.funcs| == |o.m.funcs| && Grown(o, r)
  {
  }

  /** Seen from the module before the pass, too. */
  lemma {:induction false} PassedSince(x: Pass, o: Obj, r: Obj, r': Obj, i: nat, first: nat)
    requires Inv(o) && Along(o, r) && i < |o.m.funcs| == |o.sp.funcs| && r.m.funcs[i] == o.m.funcs[i]
    requires i < |r'.m.funcs| && Passed(x, r, r', o.sp.funcs[i], o.m.funcs[i], r'.m.funcs[i], first)
    ensures Passed(x, o, r', o.sp.funcs[i], o.m.funcs[i], r'.m.funcs[i], first)
  {
    hide *;
    AlongNow(o, r);
    FuncResolved(o, i);
    forall s | s in o.sp.sigs ensures SigContent(r, s) == SigContent(o, s) { SigSame(o, r, s); }
    PassedBased(x, r, o, r', o.sp.funcs[i], o.m.funcs[i], r'.m.funcs[i], first);
  }

  lemma {:induction false} DoneNext(x: Pass, o: Obj, r: Obj, r': Obj, firsts: seq<nat>, i: nat, k: nat, k': nat)
    requires Inv(o) && Along(o, r) && Along(r, r') && DoneTo(x, o, r, firsts, i, k)
    requires i < |o.m.funcs| && r'.m.funcs == r.m.funcs[i := r'.m.funcs[i]]
    requires Passed(x, r, r', o.sp.funcs[i], o.m.funcs[i], r'.m.funcs[i], k)
    requires k' == k + Sites(x, o.sp.funcs[i], o.m.funcs[i])
    ensures DoneTo(x, o, r', firsts + [k], i + 1, k')
  {
    hide Inv, Along, Passed, Sites;
    AlongTrans(o, r, r');
    PassedSince(x, o, r, r', i, k);
    forall j | 0 <= j < i ensures Passed(x, o, r', o.sp.funcs[j], o.m.funcs[j], r'.m.funcs[j], firsts[j]) {
      PassedGrown(x, o, r, r', o.sp.funcs[j], o.m.funcs[j], r.m.funcs[j], firsts[j]);
    }
  }

  lemma NoneDone(x: Pass, o: Obj)
    requires |o.m.funcs| == |o.sp.funcs|
    ensures DoneTo(x, o, o, [], 0, 0)
  {
    hide Passed, Sites;
  }

  lemma DoneSizes(x: Pass, o: Obj, r: Obj, firsts: seq<nat>, i: nat, k: nat)
    requires DoneTo(x, o, r, firsts, i, k)
    ensures |o.m.funcs| == |r.m.funcs| == |o.sp.funcs| && (i < |o.m.funcs| ==> r.m.funcs[i] == o.m.funcs[i])
  {
    hide Passed, Sites;
  }

  /** The loop over all functions, in the order of the list. */
  method ExtendAll(mod: WasmModule, x: Pass, spare: nat -> Addr) returns (total: nat, ghost firsts: seq<nat>)
    requires Inv(mod.Val()) && SigNodes(mod.sp, spare, 0)
    modifies mod
    ensures Inv(mod.Val()) && Along(old(mod.Val()), mod.Val())
    ensures DoneTo(x, old(mod.Val()), mod.Val(), firsts, |old(mod.m.funcs)|, total)
  {
    hide *;
    ghost var o := mod.Val();
    ValIs(mod);
    InvSizes(o);
    AlongSelf(o);
    NoneDone(x, o);
    var k := 0;
    firsts := [];
    for i := 0 to |mod.m.funcs|
      invariant Inv(mod.Val()) && mod.Val() == Obj(mod.m, mod.sp, mod.names) && Along(o, mod.Val())
      invariant SigNodes(mod.sp, spare, k) && |mod.m.funcs| == |o.m.funcs| && mod.sp.funcs == o.sp.funcs
      invariant DoneTo(x, o, mod.Val(), firsts, i, k)
    {
      ghost var r, was := mod.Val(), k;
      InvSizes(r);
      DoneSizes(x, o, r, firsts, i, k);
      k := ExtendOne(mod, x, i, k, spare);
      ValIs(mod);
      DoneNext(x, o, r, mod.Val(), firsts, i, was, k);
      AlongTrans(o, r, mod.Val());
      AlongNow(o, mod.Val());
      firsts := firsts + [was];
    }
    total := k;
  }

  // ----- wrapping and rewriting -----

  /** What function `a` of the module before has become. */
  predicate FuncDone(x: Pass, o: Obj, r: Obj, a: Addr, first: nat, total: nat) {
    && a in r.sp.funcs && IndexOf(r.sp.funcs, a) == IndexOf(o.sp.funcs, a) && FuncSig(r, a) == FuncSig(o, a)
    && Passed(x, o, r, a, FuncAt(o, a), FuncAt(r, a), first) && first + Sites(x, a, FuncAt(o, a)) <= total
  }

  /** What the two passes leave of the module `o`. */
  ghost predicate Done(x: Pass, o: Obj, r: Obj, first: Addr -> nat, total: nat) {
    && r.m.nums == o.m.nums && r.sp.tables == o.sp.tables && r.m.tables == o.m.tables
    && (forall a :: a in o.sp.funcs ==> FuncDone(x, o, r, a, first(a), total))
    && (forall s :: s in o.sp.sigs ==> SigContent(r, s) == SigContent(o, s))
    && (forall k: nat, i: nat :: InElems(o, k, i) ==> InElems(r, k, i) && EntryLeads(o, r, x.tys, k, i))
    && SameLengths(o.m.elems, r.m.elems)
  }

  lemma FuncAtIs(o: Obj, i: nat)
    requires Distinct(o.sp) && i < |o.m.funcs| == |o.sp.funcs|
    ensures FuncAt(o, o.sp.funcs[i]) == o.m.funcs[i] && IndexOf(o.sp.funcs, o.sp.funcs[i]) == i
  {
    hide Distinct, IndexOf;
    DistinctIndex(o.sp, FuncS, i);
  }

  lemma IndexBelow(xs: seq<Addr>, a: Addr)
    requires a in xs
    ensures IndexOf(xs, a) < |xs| && xs[IndexOf(xs, a)] == a
  {
  }

  /** The places from which the calls of the functions are counted. */
  function FirstOf(w: Obj, firsts: seq<nat>): Addr -> nat {
    (a: Addr) => var i := IndexOf(w.sp.funcs, a); if i < |firsts| then firsts[i] else 0
  }

  /** Any function of the wrapped module, after the loop. */
  lemma {:induction false} PassedAt(x: Pass, w: Obj, r: Obj, firsts: seq<nat>, total: nat, a: Addr)
    requires Inv(w) && Along(w, r) && DoneTo(x, w, r, firsts, |w.m.funcs|, total) && a in w.sp.funcs
    ensures a in r.sp.funcs && IndexOf(r.sp.funcs, a) == IndexOf(w.sp.funcs, a)
    ensures Passed(x, w, r, a, FuncAt(w, a), FuncAt(r, a), FirstOf(w, firsts)(a))
    ensures FirstOf(w, firsts)(a) + Sites(x, a, FuncAt(w, a)) <= total
    ensures FuncAt(r, a).sig == FuncAt(w, a).sig && FuncAt(w, a).sig in w.sp.sigs && Resolved(w, FuncAt(w, a))
  {
    var i := IndexOf(w.sp.funcs, a);
    IndexBelow(w.sp.funcs, a);
    assert FirstOf(w, firsts)(a) == if i < |firsts| then firsts[i] else 0;
    hide IndexOf, Passed, Sites, FirstOf, Inv, Along, FuncAt, Resolved;
    AlongNow(w, r);
    InvSizes(w);
    FuncAtIs(w, i);
    RFuncAt(w, r, i);
    FuncResolved(w, i);
    ResolvedNow(w, w.m.funcs[i]);
    PassedSig(x, w, r, a, w.m.funcs[i], r.m.funcs[i], firsts[i]);
  }

  lemma RFuncAt(w: Obj, r: Obj, i: nat)
    requires Distinct(w.sp) && r.sp.funcs == w.sp.funcs && i < |w.m.funcs| == |r.m.funcs| == |w.sp.funcs|
    ensures FuncAt(r, w.sp.funcs[i]) == r.m.funcs[i]
  {
    hide Distinct, IndexOf;
    DistinctIndex(w.sp, FuncS, i);
  }

  lemma PassedSig(x: Pass, o: Obj, r: Obj, a: Addr, f: Func<Addr>, g: Func<Addr>, first: nat)
    requires Passed(x, o, r, a, f, g, first)
    ensures g.sig == f.sig
  {
    hide SitesHave, Flat, SlotOf, Pooled, PlanFor;
  }

  lemma FuncSigIs2(o: Obj, a: Addr)
    ensures FuncSig(o, a) == SigContent(o, FuncAt(o, a).sig)
  {
    hide SigContent, FuncAt;
  }

  lemma PersistsNow(o: Obj, w: Obj, a: Addr)
    requires Persists(o, w) && a in o.sp.funcs
    ensures a in w.sp.funcs && FuncAt(w, a) == FuncAt(o, a) && IndexOf(w.sp.funcs, a) == IndexOf(o.sp.funcs, a)
    ensures forall s :: s in o.sp.sigs ==> s in w.sp.sigs && SigContent(w, s) == SigContent(o, s)
  {
    assert FuncStays(o, w, a);
    hide FuncAt, IndexOf, SigContent;
  }

  lemma {:induction false} FuncIsDone(x: Pass, o: Obj, w: Obj, r: Obj, firsts: seq<nat>, total: nat, a: Addr)
    requires Inv(o) && Persists(o, w) && a in o.sp.funcs
    requires Inv(w) && Along(w, r) && DoneTo(x, w, r, firsts, |w.m.funcs|, total)
    ensures FuncDone(x, o, r, a, FirstOf(w, firsts)(a), total)
  {
    hide *;
    PersistsNow(o, w, a);
    PassedAt(x, w, r, firsts, total, a);
    AlongNow(w, r);
    SigSame(w, r, FuncAt(w, a).sig);
    FuncSigIs2(o, a);
    FuncSigIs2(w, a);
    FuncSigIs2(r, a);
    FuncsHaveSigs(o, a);
    OwnResolved(o, a);
    PassedBased(x, w, o, r, a, FuncAt(o, a), FuncAt(r, a), FirstOf(w, firsts)(a));
    FuncDoneIf(x, o, r, a, FirstOf(w, firsts)(a), total);
  }

  lemma OwnResolved(o: Obj, a: Addr)
    requires Inv(o) && a in o.sp.funcs
    ensures Resolved(o, FuncAt(o, a))
  {
    hide *;
    InvSizes(o);
    IndexBelow(o.sp.funcs, a);
    FuncAtIs(o, IndexOf(o.sp.funcs, a));
    FuncResolved(o, IndexOf(o.sp.funcs, a));
  }

  lemma FuncDoneIf(x: Pass, o: Obj, r: Obj, a: Addr, first: nat, total: nat)
    requires a in r.sp.funcs && IndexOf(r.sp.funcs, a) == IndexOf(o.sp.funcs, a) && FuncSig(r, a) == FuncSig(o, a)
    requires Passed(x, o, r, a, FuncAt(o, a), FuncAt(r, a), first) && first + Sites(x, a, FuncAt(o, a)) <= total
    ensures FuncDone(x, o, r, a, first, total)
  {
    hide Passed, Sites, IndexOf, FuncSig, FuncAt;
  }

  lemma {:induction false} FlatPlain(plan: Plan, d: nat, toks: Insts, k: nat)
    requires forall i :: 0 <= i < |toks| ==> !toks[i].imm.SigTable?
    ensures Flat(plan, d, toks, k) == toks
    decreases |toks|
  {
    hide Flat;
    if toks == [] {
      FlatNone(plan, d, k);
    } else {
      FlatStep(plan, d, toks, k);
      assert forall i :: 0 <= i < |toks[1..]| ==> toks[1..][i] == toks[i + 1];
      FlatPlain(plan, d, toks[1..], k);
    }
  }

  lemma {:induction false} WrapperKept(x: Pass, o: Obj, r: Obj, a: Addr, f: Func<Addr>, g: Func<Addr>, first: nat, n: nat, h: Addr)
    requires Passed(x, o, r, a, f, g, first) && f.code == WrapperInsts(n, h)
    ensures g.code == f.code
  {
    hide SitesHave, Flat, SlotOf, Pooled, PlanFor;
    if !x.skip(a) { FlatPlain(PlanFor(o, r, x.tys, x.mark), SlotOf(x, o, f), f.code, first); }
  }

  lemma WrapperWas(w: Obj, a: Addr, s: Sig, f: Addr, tys: seq<byte>)
    requires IsWrapper(w, a, s, f, tys)
    ensures a in w.sp.funcs && FuncSig(w, a) == Longer(s, tys) && FuncAt(w, a).code == WrapperInsts(|s.params|, f)
    ensures IndexOf(w.sp.funcs, a) >= w.m.nums.funcs
  {
    hide FuncSig, FuncAt, WrapperInsts, Longer, IndexOf;
  }

  lemma LeadsIf(r: Obj, w: Addr, s: Sig, f: Addr, tys: seq<byte>)
    requires w in r.sp.funcs && FuncSig(r, w) == Longer(s, tys) && FuncAt(r, w).code == WrapperInsts(|s.params|, f)
    requires IndexOf(r.sp.funcs, w) >= r.m.nums.funcs
    ensures Leads(r, w, s, f, tys)
  {
    hide FuncSig, FuncAt, WrapperInsts, Longer, IndexOf;
  }

  /** A wrapper still leads to its function. */
  lemma {:induction false} StillLeads(x: Pass, w: Obj, r: Obj, firsts: seq<nat>, total: nat, a: Addr, s: Sig, f: Addr)
    requires Inv(w) && Along(w, r) && DoneTo(x, w, r, firsts, |w.m.funcs|, total)
    requires IsWrapper(w, a, s, f, x.tys) && r.m.nums == w.m.nums
    ensures Leads(r, a, s, f, x.tys)
  {
    hide *;
    WrapperWas(w, a, s, f, x.tys);
    PassedAt(x, w, r, firsts, total, a);
    WrapperKept(x, w, r, a, FuncAt(w, a), FuncAt(r, a), FirstOf(w, firsts)(a), |s.params|, f);
    AlongNow(w, r);
    SigSame(w, r, FuncAt(w, a).sig);
    FuncSigIs2(w, a);
    FuncSigIs2(r, a);
    LeadsIf(r, a, s, f, x.tys);
  }

  lemma EntryNow2(o: Obj, w: Obj, tys: seq<byte>, k: nat, i: nat)
    requires InElems(o, k, i) && InElems(w, k, i) && EntryWrapped(o, w, tys, k, i)
    ensures k < |o.m.elems| && i < |o.m.elems[k].funcs| && k < |w.m.elems| && i < |w.m.elems[k].funcs|
    ensures var f, a := o.m.elems[k].funcs[i], w.m.elems[k].funcs[i];
      f in o.sp.funcs && a !in o.sp.funcs && IsWrapper(w, a, FuncSig(o, f), f, tys)
  {
    hide IsWrapper, FuncSig;
  }

  lemma EntryLeadsIf(o: Obj, r: Obj, tys: seq<byte>, k: nat, i: nat)
    requires k < |o.m.elems| && i < |o.m.elems[k].funcs| && k < |r.m.elems| && i < |r.m.elems[k].funcs|
    requires var f, a := o.m.elems[k].funcs[i], r.m.elems[k].funcs[i];
      f in o.sp.funcs && a !in o.sp.funcs && Leads(r, a, FuncSig(o, f), f, tys)
    ensures InElems(o, k, i) && InElems(r, k, i) && EntryLeads(o, r, tys, k, i)
  {
    hide Leads, FuncSig;
  }

  lemma AlongAside(w: Obj, r: Obj)
    requires Along(w, r)
    ensures r.m.nums == w.m.nums && r.sp.tables == w.sp.tables && r.m.tables == w.m.tables && r.m.elems == w.m.elems
  {
  }

  lemma PersistsAside(o: Obj, w: Obj)
    requires Persists(o, w)
    ensures w.m.nums == o.m.nums && w.sp.tables == o.sp.tables && w.m.tables == o.m.tables
    ensures forall s :: s in o.sp.sigs ==> s in w.sp.sigs && SigContent(w, s) == SigContent(o, s)
  {
    hide FuncStays, SigContent;
  }

  lemma {:induction false} AllDone(x: Pass, o: Obj, w: Obj, r: Obj, firsts: seq<nat>, total: nat)
    requires Inv(o) && Persists(o, w) && SameLengths(o.m.elems, w.m.elems)
    requires forall k: nat, i: nat :: InElems(o, k, i) ==> InElems(w, k, i) && EntryWrapped(o, w, x.tys, k, i)
    requires Inv(w) && Along(w, r) && DoneTo(x, w, r, firsts, |w.m.funcs|, total)
    ensures Done(x, o, r, FirstOf(w, firsts), total)
  {
    hide *;
    PersistsAside(o, w);
    AlongAside(w, r);
    AlongNow(w, r);
    forall a | a in o.sp.funcs ensures FuncDone(x, o, r, a, FirstOf(w, firsts)(a), total) {
      FuncIsDone(x, o, w, r, firsts, total, a);
    }
    forall s | s in o.sp.sigs ensures SigContent(r, s) == SigContent(o, s) { SigSame(w, r, s); }
    forall k: nat, i: nat | InElems(o, k, i) ensures InElems(r, k, i) && EntryLeads(o, r, x.tys, k, i) {
      EntryNow2(o, w, x.tys, k, i);
      StillLeads(x, w, r, firsts, total, w.m.elems[k].funcs[i], FuncSig(o, o.m.elems[k].funcs[i]), o.m.elems[k].funcs[i]);
      EntryLeadsIf(o, r, x.tys, k, i);
    }
    DoneIf(x, o, r, FirstOf(w, firsts), total);
  }

  lemma DoneIf(x: Pass, o: Obj, r: Obj, first: Addr -> nat, total: nat)
    requires r.m.nums == o.m.nums && r.sp.tables == o.sp.tables && r.m.tables == o.m.tables
    requires forall a :: a in o.sp.funcs ==> FuncDone(x, o, r, a, first(a), total)
    requires forall s :: s in o.sp.sigs ==> SigContent(r, s) == SigContent(o, s)
    requires forall k: nat, i: nat :: InElems(o, k, i) ==> InElems(r, k, i) && EntryLeads(o, r, x.tys, k, i)
    requires SameLengths(o.m.elems, r.m.elems)
    ensures Done(x, o, r, first, total)
  {
    hide FuncDone, EntryLeads, SameLengths, InElems, SigContent;
  }

  /**
   * The two passes one after the other.  `node` and `spare` are the addresses of new list elements; the
   * later ones are not among those used before.
   */
  method WrapAndExtend(mod: WasmModule, x: Pass, node: Nodes, spare: nat -> Addr)
    returns (total: nat, ghost first: Addr -> nat)
    requires Inv(mod.Val()) && NodesFresh(mod.sp, node, 0) && SigNodes(WrapAll(mod.Val(), x.tys, node).sp, spare, 0)
    modifies mod
    ensures Inv(mod.Val()) && Done(x, old(mod.Val()), mod.Val(), first, total)
  {
    hide *;
    ghost var o := mod.Val();
    ValIs(mod);
    AllWrapped(o, x.tys, node);
    mod.FuncrefWrap(x.tys, node);
    ghost var w := mod.Val();
    ValIs(mod);
    ghost var firsts;
    total, firsts := ExtendAll(mod, x, spare);
    AllDone(x, o, w, mod.Val(), firsts, total);
    first := FirstOf(w, firsts);
  }

  // ----- what the passes leave is the rewritten program -----

  /** Calls counted by the pass are rewritten; those in functions left out carry higher numbers. */
  function PlanOf(x: Pass, o: Obj, r: Obj, total: nat): Plan {
    Plan(x.tys, x.mark, ExtIn(o, r, x.tys), ZeroVals(x.pool), x.slot, x.skip, (k: nat) => k >= total)
  }

  /** The bodies are those of the module, their indirect calls numbered as the pass counts them. */
  ghost predicate Bodied(x: Pass, o: Obj, r: Obj, first: Addr -> nat, total: nat, body: Bodies) {
    forall a :: a in o.sp.funcs ==> BodyOf(x, o, r, first(a), total, body, a)
  }

  predicate BodyOf(x: Pass, o: Obj, r: Obj, first: nat, total: nat, body: Bodies, a: Addr) {
    && Denotes(o, body, a)
    && (if x.skip(a) then AllKept(PlanOf(x, o, r, total), body(a)) else Numbered(body(a), first))
  }

  lemma {:induction false} FlatUnkept(p1: Plan, p2: Plan, d: nat, toks: Insts, k: nat)
    requires p1.tys == p2.tys && p1.mark == p2.mark && p1.ext == p2.ext
    requires forall j: nat :: j < k + SitesIn(toks) ==> !p1.kept(j) && !p2.kept(j)
    ensures Flat(p1, d, toks, k) == Flat(p2, d, toks, k)
    decreases |toks|
  {
    hide Flat, SitesIn;
    if toks == [] {
      FlatNone(p1, d, k);
      FlatNone(p2, d, k);
    } else {
      FlatStep(p1, d, toks, k);
      FlatStep(p2, d, toks, k);
      SitesStep(toks);
      FlatUnkept(p1, p2, d, toks[1..], if toks[0].imm.SigTable? then k + 1 else k);
    }
  }

  lemma {:induction false} ExtIsLonger(x: Pass, o: Obj, r: Obj, total: nat, s: Addr)
    requires Inv(r) && HasSig(r, Longer(SigContent(o, s), x.tys))
    ensures IsLonger(PlanOf(x, o, r, total), o, r, s)
  {
    hide Inv, FindSig, IndexOf, Longer;
    InvSizes(r);
    DistinctIndex(r.sp, SigS, FindSig(r.m.sigs, Longer(SigContent(o, s), x.tys)));
  }

  lemma {:induction false} AllLonger(x: Pass, o: Obj, r: Obj, total: nat, toks: Insts)
    requires Inv(r) && SitesHave(o, r, x.tys, toks)
    ensures SitesLonger(PlanOf(x, o, r, total), o, r, toks)
  {
    hide Inv, HasSig, IsLonger, Longer, SigContent, PlanOf;
    forall i | 0 <= i < |toks| && toks[i].imm.SigTable? ensures IsLonger(PlanOf(x, o, r, total), o, r, toks[i].imm.sig) {
      ExtIsLonger(x, o, r, total, toks[i].imm.sig);
    }
  }

  lemma DoneNow(x: Pass, o: Obj, r: Obj, a: Addr, first: nat, total: nat)
    requires FuncDone(x, o, r, a, first, total)
    ensures a in r.sp.funcs && IndexOf(r.sp.funcs, a) == IndexOf(o.sp.funcs, a) && FuncSig(r, a) == FuncSig(o, a)
    ensures Passed(x, o, r, a, FuncAt(o, a), FuncAt(r, a), first) && first + Sites(x, a, FuncAt(o, a)) <= total
  {
    hide Passed, Sites, IndexOf, FuncSig, FuncAt;
  }

  lemma PassedNow(x: Pass, o: Obj, r: Obj, a: Addr, f: Func<Addr>, g: Func<Addr>, first: nat)
    requires Passed(x, o, r, a, f, g, first)
    ensures x.skip(a) ==> g == f
    ensures !x.skip(a) ==> g.locals == Pooled(f.locals, x.pool) && SitesHave(o, r, x.tys, f.code)
    ensures !x.skip(a) ==> g.code == Flat(PlanFor(o, r, x.tys, x.mark), SlotOf(x, o, f), f.code, first)
  {
    hide SitesHave, Flat, SlotOf, Pooled, PlanFor;
  }

  lemma PlansAre(x: Pass, o: Obj, r: Obj, total: nat)
    ensures var p, q := PlanOf(x, o, r, total), PlanFor(o, r, x.tys, x.mark);
      && p.tys == q.tys == x.tys && p.mark == q.mark == x.mark && p.ext == q.ext && p.pool == ZeroVals(x.pool) && p.slot == x.slot
      && p.skip == x.skip && (forall j: nat :: p.kept(j) <==> j >= total) && (forall j: nat :: !q.kept(j))
  {
    hide ExtIn, ZeroVals;
  }

  lemma SlotIs2(x: Pass, o: Obj, r: Obj, total: nat, body: Bodies, a: Addr)
    requires IndexOf(o.sp.funcs, a) >= o.m.nums.funcs
    ensures PoolAt(PlanOf(x, o, r, total), FnOf(o, a, body)) == SlotOf(x, o, FuncAt(o, a))
  {
    hide FuncAt, SigContent, Zeros, IndexOf;
  }

  lemma RewrittenIf(plan: Plan, o: Obj, r: Obj, body: Bodies, a: Addr, first: nat)
    requires a in r.sp.funcs && IndexOf(r.sp.funcs, a) == IndexOf(o.sp.funcs, a) && FuncSig(r, a) == FuncSig(o, a)
    requires IndexOf(o.sp.funcs, a) >= o.m.nums.funcs && plan.skip(a) ==> FuncAt(r, a) == FuncAt(o, a)
    requires IndexOf(o.sp.funcs, a) >= o.m.nums.funcs && !plan.skip(a) ==>
      Numbered(body(a), first) && Zeros(FuncAt(r, a).locals) == Zeros(FuncAt(o, a).locals) + plan.pool
      && FuncAt(r, a).code == Flat(plan, PoolAt(plan, FnOf(o, a, body)), FuncAt(o, a).code, first)
    ensures FuncRewritten(plan, o, r, body, a, first)
  {
    hide IndexOf, FuncSig, FuncAt, Zeros, Flat, Numbered, PoolAt, FnOf;
  }

  lemma BodyNow(x: Pass, o: Obj, r: Obj, first: nat, total: nat, body: Bodies, a: Addr)
    requires BodyOf(x, o, r, first, total, body, a)
    ensures Denotes(o, body, a)
    ensures if x.skip(a) then AllKept(PlanOf(x, o, r, total), body(a)) else Numbered(body(a), first)
  {
    hide Denotes, AllKept, Numbered, PlanOf;
  }

  lemma {:induction false} FuncIsRewritten(x: Pass, o: Obj, r: Obj, a: Addr, first: nat, total: nat, body: Bodies)
    requires FuncDone(x, o, r, a, first, total) && BodyOf(x, o, r, first, total, body, a) && Inv(r)
    ensures FuncRewritten(PlanOf(x, o, r, total), o, r, body, a, first)
    ensures !x.skip(a) ==> SitesLonger(PlanOf(x, o, r, total), o, r, FuncAt(o, a).code)
  {
    hide *;
    var plan := PlanOf(x, o, r, total);
    var f, g := FuncAt(o, a), FuncAt(r, a);
    DoneNow(x, o, r, a, first, total);
    PassedNow(x, o, r, a, f, g, first);
    BodyNow(x, o, r, first, total, body, a);
    PlansAre(x, o, r, total);
    if !x.skip(a) {
      AllLonger(x, o, r, total, f.code);
      if IndexOf(o.sp.funcs, a) >= o.m.nums.funcs {
        SlotIs2(x, o, r, total, body, a);
        SitesAre(x, a, f);
        FlatUnkept(plan, PlanFor(o, r, x.tys, x.mark), SlotOf(x, o, f), f.code, first);
        ZerosPooled(f.locals, x.pool);
      }
    }
    RewrittenIf(plan, o, r, body, a, first);
  }

  lemma DoneParts(x: Pass, o: Obj, r: Obj, first: Addr -> nat, total: nat)
    requires Done(x, o, r, first, total)
    ensures r.m.nums == o.m.nums && r.sp.tables == o.sp.tables && r.m.tables == o.m.tables
    ensures forall a :: a in o.sp.funcs ==> FuncDone(x, o, r, a, first(a), total)
    ensures forall s :: s in o.sp.sigs ==> SigContent(r, s) == SigContent(o, s)
    ensures forall k: nat, i: nat :: InElems(o, k, i) ==> InElems(r, k, i) && EntryLeads(o, r, x.tys, k, i)
    ensures SameLengths(o.m.elems, r.m.elems)
  {
    hide FuncDone, EntryLeads, SameLengths, InElems, SigContent;
  }

  /** Marks have the types they say, and the index's local is in the pool. */
  ghost predicate PassOk(x: Pass) { x.slot < |x.pool| && forall k: nat :: |x.mark(k)| == |x.tys| }

  lemma PassPlan(x: Pass, o: Obj, r: Obj, total: nat)
    requires PassOk(x)
    ensures PlanOk(PlanOf(x, o, r, total)) && MarksOk(PlanOf(x, o, r, total))
  {
    hide ExtIn;
  }

  /** The module after both passes is the module before, rewritten. */
  lemma {:induction false} DoneIsRewritten(x: Pass, o: Obj, r: Obj, first: Addr -> nat, total: nat, body: Bodies, sigs: set<Addr>)
    requires PassOk(x) && Inv(r) && Done(x, o, r, first, total) && Bodied(x, o, r, first, total, body)
    requires forall s :: s in sigs ==> s in o.sp.sigs
    ensures Rewritten(PlanOf(x, o, r, total), o, r, body, first, sigs)
    ensures forall a :: a in o.sp.funcs ==> Denotes(o, body, a)
  {
    var plan := PlanOf(x, o, r, total);
    assert forall a :: a in o.sp.funcs ==> BodyOf(x, o, r, first(a), total, body, a);
    hide *;
    PassPlan(x, o, r, total);
    PlansAre(x, o, r, total);
    DoneParts(x, o, r, first, total);
    forall a | a in o.sp.funcs
      ensures FuncRewritten(plan, o, r, body, a, first(a)) && Denotes(o, body, a)
      ensures !plan.skip(a) ==> SitesLonger(plan, o, r, FuncAt(o, a).code)
      ensures plan.skip(a) ==> AllKept(plan, body(a))
    {
      FuncIsRewritten(x, o, r, a, first(a), total, body);
      BodyNow(x, o, r, first(a), total, body, a);
    }
    AllRewrittenIf(plan, o, r, body, first, sigs);
  }

  lemma AllRewrittenIf(plan: Plan, o: Obj, r: Obj, body: Bodies, first: Addr -> nat, sigs: set<Addr>)
    requires PlanOk(plan) && MarksOk(plan) && r.m.nums == o.m.nums && r.sp.tables == o.sp.tables && r.m.tables == o.m.tables
    requires forall a :: a in o.sp.funcs ==> FuncRewritten(plan, o, r, body, a, first(a))
    requires forall a :: a in o.sp.funcs && plan.skip(a) && IndexOf(o.sp.funcs, a) >= o.m.nums.funcs ==> AllKept(plan, body(a))
    requires forall a :: a in o.sp.funcs && !plan.skip(a) ==> SitesLonger(plan, o, r, FuncAt(o, a).code)
    requires forall s :: s in sigs ==> SigContent(r, s) == SigContent(o, s)
    requires SameLengths(o.m.elems, r.m.elems)
    requires forall k: nat, i: nat :: InElems(o, k, i) ==> InElems(r, k, i) && EntryLeads(o, r, plan.tys, k, i)
    ensures Rewritten(plan, o, r, body, first, sigs)
  {
    hide PlanOk, MarksOk, FuncRewritten, AllKept, SameLengths, EntryLeads, IndexOf, SigContent, SitesLonger, FuncAt;
  }

  /**
   * Wrapping and rewriting a module preserves what its functions do: same results in the same world, same
   * traps, same exits, unless the run comes to a call in a function left out whose type is not what it was.
   */
  lemma {:induction false} PassPreserves<W(!new)>(x: Pass, o: Obj, r: Obj, first: Addr -> nat, total: nat, body: Bodies, sigs: set<Addr>,
                                            env: Engine<W>, k: nat, f: Addr, args: Wasm.Stack, w: W)
    requires PassOk(x) && Inv(r) && Done(x, o, r, first, total) && Bodied(x, o, r, first, total, body)
    requires forall s :: s in sigs ==> s in o.sp.sigs
    requires f in o.sp.funcs && Wasm.Size(args) == |FuncSig(o, f).params|
    ensures var plan := PlanOf(x, o, r, total);
      var p, q := ProgOf(o, body, sigs), ProgOf(r, NewBodies(plan, o, r, body), NewSigs(plan, sigs));
      && Instrumented(plan, Guard(plan, p), q)
      && f in p.funcs && f in q.funcs && AlikeUpToSites(plan, p, q, env, k, f, args, w)
  {
    hide *;
    var plan := PlanOf(x, o, r, total);
    DoneIsRewritten(x, o, r, first, total, body, sigs);
    RewrittenIsInstrumented(plan, o, r, body, first, sigs);
    ProgNow(o, body, sigs);
    FnIs(o, f, body);
    KeptRuns(plan, ProgOf(o, body, sigs), ProgOf(r, NewBodies(plan, o, r, body), NewSigs(plan, sigs)), env, k, f, args, w);
  }
}
