/**
 * Which accesses the memory-access instrumentation numbers and which it instruments: the dry run,
 * and the walk that follows the sorted filter through all functions.
 */
module MemFilter {
  import opened Wasm
  import opened Flat
  import opened Locals
  import opened MemGuard

  /** An instruction: no memory operand, or a site. */
  datatype Inst = Other | Access(site: Site)

  /** What the rewritten function holds: its own instructions and guarded blocks. */
  datatype Out = Own(i: Inst) | Guard(idx: nat, code: seq<Tok>)

  predicate Numbered(i: Inst) { i.Access? && !i.site.shape.Skipped? }

  /** The seven added locals. */
  method AddSpare(f: FuncDecl) returns (l: Spare)
    requires f.Valid()
    modifies f
    ensures f.Valid() && SpareOk(l, |old(f.Types())|, |f.Types()|) && SpareTyped(l, f.Types())
    ensures f.Types() == old(f.Types()) + [TF64, TF32, TI64, TI64, TI32, TI32, TI32]
  {
    hide Expand;
    var a := f.AddLocal(TF64);
    var b := f.AddLocal(TF32);
    var c := f.AddLocal(TI64);
    var d := f.AddLocal(TI64);
    var e := f.AddLocal(TI32);
    var g := f.AddLocal(TI32);
    var h := f.AddLocal(TI32);
    l := Spare(a, b, c, d, e, g, h);
  }

  /** The tokens pushed for one access. */
  method SetupLogappendArgs(s: Site, l: Spare, idx: nat, base: nat) returns (addinst: seq<Tok>)
    ensures addinst == Flatten(LogAppend(s, l, base, idx))
  {
    hide Toks, Test, Report, Flatten;
    addinst := [];
    if s.shape.Skipped? {
      FlattenNone();
      return;
    }
    var ls := Parked(s.shape, l);
    addinst := [BlockT(BT(1 + |ls|, 1 + |ls|), NO_PC)];
    addinst := addinst + Toks(Test(s, base, idx));
    addinst := addinst + Toks(Park(ls));
    addinst := addinst + Toks(Report(s, l, idx));
    addinst := addinst + Toks(Unpark(ls));
    addinst := addinst + [EndT(NO_PC)];
    GuardToks(s, l, idx, base);
  }

  lemma GuardToks(s: Site, l: Spare, idx: nat, base: nat)
    requires !s.shape.Skipped?
    ensures var ls := Parked(s.shape, l);
      Flatten(LogAppend(s, l, base, idx))
      == [BlockT(BT(1 + |ls|, 1 + |ls|), NO_PC)] + Toks(Test(s, base, idx)) + Toks(Park(ls))
         + Toks(Report(s, l, idx)) + Toks(Unpark(ls)) + [EndT(NO_PC)]
  {
    hide *;
    var ls := Parked(s.shape, l);
    var t, p, r, u := Test(s, base, idx), Park(ls), Report(s, l, idx), Unpark(ls);
    var n := 1 + |ls|;
    GuardIs(s, l, base, idx);
    var x := Block(BT(n, n), Lift(Guarded(s, l, base, idx)), NO_PC, NO_PC);
    FlattenOne(x);
    BlockToks(x);
    FlattenLift(Guarded(s, l, base, idx));
    ToksAppend(t + p + r, u);
    ToksAppend(t + p, r);
    ToksAppend(t, p);
  }

  lemma GuardIs(s: Site, l: Spare, base: nat, idx: nat)
    requires !s.shape.Skipped?
    ensures var ls := Parked(s.shape, l);
      && Guarded(s, l, base, idx) == Test(s, base, idx) + Park(ls) + Report(s, l, idx) + Unpark(ls)
      && LogAppend(s, l, base, idx) == [Block(BT(1 + |ls|, 1 + |ls|), Lift(Guarded(s, l, base, idx)), NO_PC, NO_PC)]
  {
    hide Test, Park, Report, Unpark, Lift;
  }

  lemma BlockToks(x: Instr)
    requires x.Block?
    ensures FlattenI(x) == [BlockT(x.bt, x.pc)] + Flatten(x.body) + [EndT(x.end)]
  {
    hide Flatten;
  }

  /** An access is numbered just when there is a block for it. */
  lemma NumberedIff(i: Inst, l: Spare, base: nat, idx: nat)
    ensures Numbered(i) <==> i.Access? && Flatten(LogAppend(i.site, l, base, idx)) != []
  {
    if i.Access? && !i.site.shape.Skipped? { GuardToks(i.site, l, idx, base); }
    FlattenNone();
    hide Flatten;
  }

  // ----- numbers -----

  /** How many accesses `insts` numbers. */
  function Count(insts: seq<Inst>): nat {
    if insts == [] then 0
    else Count(insts[..|insts| - 1]) + (if Numbered(insts[|insts| - 1]) then 1 else 0)
  }

  function Total(funcs: seq<seq<Inst>>): nat {
    if funcs == [] then 0 else Total(funcs[..|funcs| - 1]) + Count(funcs[|funcs| - 1])
  }

  datatype Place = Place(func: nat, inst: nat)

  /** The number of the access at `p`: accesses are counted from 1 in the order of the code. */
  function NumberAt(funcs: seq<seq<Inst>>, p: Place): nat
    requires p.func < |funcs| && p.inst < |funcs[p.func]|
  {
    Total(funcs[..p.func]) + Count(funcs[p.func][..p.inst]) + 1
  }

  predicate IsAccess(funcs: seq<seq<Inst>>, p: Place) {
    p.func < |funcs| && p.inst < |funcs[p.func]| && Numbered(funcs[p.func][p.inst])
  }

  lemma CountStep(insts: seq<Inst>, j: nat)
    requires j < |insts|
    ensures Count(insts[..j + 1]) == Count(insts[..j]) + (if Numbered(insts[j]) then 1 else 0)
  {
    assert insts[..j + 1][..j] == insts[..j];
  }

  lemma TotalStep(funcs: seq<seq<Inst>>, f: nat)
    requires f < |funcs|
    ensures Total(funcs[..f + 1]) == Total(funcs[..f]) + Count(funcs[f])
  {
    assert funcs[..f + 1][..f] == funcs[..f];
    assert funcs[f][..|funcs[f]|] == funcs[f];
  }

  /** Code before `p`, in the order of the walk. */
  predicate Before(p: Place, f: nat, j: nat) { p.func < f || (p.func == f && p.inst < j) }

  /** The dry run: every numbered access with its number, and nothing else. */
  method MemaccessDryRun(funcs: seq<seq<Inst>>) returns (accessIdx: map<Place, nat>, total: nat)
    ensures forall p :: p in accessIdx <==> IsAccess(funcs, p)
    ensures forall p :: p in accessIdx ==> IsAccess(funcs, p) && accessIdx[p] == NumberAt(funcs, p)
    ensures total == Total(funcs)
  {
    hide Total, Count, LogAppend, Flatten;
    accessIdx, total := map[], 0;
    NoneCounted();
    assert funcs[..0] == [];
    for f := 0 to |funcs|
      invariant total == Total(funcs[..f])
      invariant forall p :: p in accessIdx <==> IsAccess(funcs, p) && p.func < f
      invariant forall p :: p in accessIdx ==> IsAccess(funcs, p) && accessIdx[p] == NumberAt(funcs, p)
    {
      var insts := funcs[f];
      assert insts[..0] == [];
      for j := 0 to |insts|
        invariant total == Total(funcs[..f]) + Count(insts[..j])
        invariant forall p :: p in accessIdx <==> IsAccess(funcs, p) && Before(p, f, j)
        invariant forall p :: p in accessIdx ==> IsAccess(funcs, p) && accessIdx[p] == NumberAt(funcs, p)
      {
        CountStep(insts, j);
        var l := Spare(0, 0, 0, 0, 0, 0, 0);
        NumberedIff(insts[j], l, 0, total);
        if insts[j].Access? {
          var addinst := SetupLogappendArgs(insts[j].site, l, total, 0);
          if addinst != [] {
            total := total + 1;
            accessIdx := accessIdx[Place(f, j) := total];
          }
        }
      }
      assert insts[..|insts|] == insts;
      TotalStep(funcs, f);
    }
    assert funcs[..|funcs|] == funcs;
  }

  lemma NoneCounted()
    ensures Total([]) == 0 && Count([]) == 0
  {
  }

  // ----- the instrumenting walk -----

  /** No filter, or the numbers asked for, in ascending order as a sorted set yields them. */
  datatype Filter = NoFilter | Only(idxs: seq<nat>)

  predicate Sorted(flt: Filter) {
    flt.Only? ==> forall i, j :: 0 <= i < j < |flt.idxs| ==> flt.idxs[i] < flt.idxs[j]
  }

  /** A filter that asks for access 0 never gets past it: accesses are counted from 1. */
  predicate Blocked(flt: Filter) { flt.Only? && flt.idxs != [] && flt.idxs[0] == 0 }

  /** Access `n` gets its block. */
  predicate Wanted(flt: Filter, n: nat) {
    flt.NoFilter? || (!Blocked(flt) && n in flt.idxs)
  }

  /** A function with the wanted blocks woven in; `n0` accesses were numbered before it. */
  function Woven(insts: seq<Inst>, n0: nat, l: Spare, base: nat, flt: Filter): seq<Out> {
    if insts == [] then []
    else
      var init, x := insts[..|insts| - 1], insts[|insts| - 1];
      Woven(init, n0, l, base, flt) + Piece(x, n0 + Count(init) + 1, l, base, flt)
  }

  function Piece(x: Inst, n: nat, l: Spare, base: nat, flt: Filter): seq<Out> {
    (if Numbered(x) && Wanted(flt, n) then [Guard(n, Flatten(LogAppend(x.site, l, base, n)))] else []) + [Own(x)]
  }

  function Owns(insts: seq<Inst>): (r: seq<Out>)
    ensures |r| == |insts| && forall i :: 0 <= i < |r| ==> r[i] == Own(insts[i])
  {
    seq(|insts|, i requires 0 <= i < |insts| => Own(insts[i]))
  }

  lemma WovenStep(insts: seq<Inst>, j: nat, n0: nat, l: Spare, base: nat, flt: Filter)
    requires j < |insts|
    ensures Woven(insts[..j + 1], n0, l, base, flt)
         == Woven(insts[..j], n0, l, base, flt) + Piece(insts[j], n0 + Count(insts[..j]) + 1, l, base, flt)
  {
    assert insts[..j + 1][..j] == insts[..j];
  }

  /** The filter iterator stands at `fi`, the running number is `access`, the next access is number `t`. */
  predicate Following(flt: Filter, fi: nat, access: nat, t: nat) {
    t > 0 &&
    match flt
    case NoFilter => access == t
    case Only(idxs) =>
      fi <= |idxs| &&
      if Blocked(flt) then fi == 0 && access == t
      else
        && (forall k :: 0 <= k < fi ==> idxs[k] < t)
        && (fi < |idxs| ==> access == t && forall k :: fi <= k < |idxs| ==> idxs[k] >= t)
  }

  /** The iterator is at its end: the walk gives up the rest of the function. */
  predicate Exhausted(flt: Filter, fi: nat) { flt.Only? && fi == |flt.idxs| }

  predicate Matches(flt: Filter, fi: nat, access: nat) {
    flt.NoFilter? || (fi < |flt.idxs| && flt.idxs[fi] == access)
  }

  lemma {:induction false} MatchIsWanted(flt: Filter, fi: nat, access: nat, t: nat)
    requires Sorted(flt) && Following(flt, fi, access, t) && !Exhausted(flt, fi)
    ensures access == t && (Matches(flt, fi, access) <==> Wanted(flt, t))
    ensures Following(flt, if flt.Only? && Matches(flt, fi, access) then fi + 1 else fi, access + 1, t + 1)
  {
    if flt.Only? && !Blocked(flt) {
      assert flt.idxs[fi] >= t;
      assert forall k :: fi < k < |flt.idxs| ==> flt.idxs[fi] < flt.idxs[k];
    }
  }

  lemma {:induction false} ExhaustedWantsNone(flt: Filter, fi: nat, access: nat, t: nat, n: nat)
    requires Following(flt, fi, access, t) && Exhausted(flt, fi) && n >= t
    ensures !Wanted(flt, n) && Following(flt, fi, access, n)
  {
  }

  lemma UnwantedPiece(x: Inst, n: nat, l: Spare, base: nat, flt: Filter)
    requires !Wanted(flt, n)
    ensures Piece(x, n, l, base, flt) == [Own(x)]
  {
  }

  lemma OwnsSnoc(insts: seq<Inst>, j: nat, m: nat)
    requires j < m <= |insts|
    ensures Owns(insts[j..m]) == Owns(insts[j..m - 1]) + [Own(insts[m - 1])]
  {
  }

  /** Where no later access is wanted, the rest of the function stays as it is. */
  lemma {:induction false} WovenRest(
      insts: seq<Inst>, j: nat, m: nat, n0: nat, l: Spare, base: nat, flt: Filter, fi: nat, access: nat)
    requires j <= m <= |insts| && Exhausted(flt, fi) && Following(flt, fi, access, n0 + Count(insts[..j]) + 1)
    ensures Woven(insts[..m], n0, l, base, flt) == Woven(insts[..j], n0, l, base, flt) + Owns(insts[j..m])
    ensures Following(flt, fi, access, n0 + Count(insts[..m]) + 1)
    decreases m
  {
    hide Following, Wanted, Exhausted, Count, Woven, Piece;
    if j < m {
      var t := n0 + Count(insts[..m - 1]) + 1;
      WovenRest(insts, j, m - 1, n0, l, base, flt, fi, access);
      WovenStep(insts, m - 1, n0, l, base, flt);
      CountStep(insts, m - 1);
      ExhaustedWantsNone(flt, fi, access, t, t);
      ExhaustedWantsNone(flt, fi, access, t, n0 + Count(insts[..m]) + 1);
      UnwantedPiece(insts[m - 1], t, l, base, flt);
      OwnsSnoc(insts, j, m);
      hide Owns;
    } else {
      assert Owns(insts[j..m]) == [];
    }
  }

  /** One instruction of the walk: what goes in front of it. */
  method VisitInst(x: Inst, ghost t: nat, l: Spare, base: nat, flt: Filter, fi: nat, access: nat)
    returns (addinst: seq<Out>, fi': nat, access': nat)
    requires Sorted(flt) && Following(flt, fi, access, t) && (x.Access? ==> !Exhausted(flt, fi))
    ensures addinst + [Own(x)] == Piece(x, t, l, base, flt)
    ensures Following(flt, fi', access', if Numbered(x) then t + 1 else t)
  {
    hide Following, Exhausted, Wanted, LogAppend, Sorted, Flatten;
    addinst, fi', access' := [], fi, access;
    NumberedIff(x, l, base, access);
    if x.Access? {
      var code := SetupLogappendArgs(x.site, l, access, base);
      if code != [] {
        MatchIsWanted(flt, fi, access, t);
        if Matches(flt, fi, access) {
          addinst := [Guard(access, code)];
          if flt.Only? { fi' := fi + 1; }
        }
        access' := access + 1;
      }
    }
  }

  /** The walk over one function. */
  method InstrumentFunction(
      insts: seq<Inst>, ghost n0: nat, l: Spare, base: nat, flt: Filter, fi: nat, access: nat)
    returns (out: seq<Out>, fi': nat, access': nat)
    requires Sorted(flt) && Following(flt, fi, access, n0 + 1)
    ensures out == Woven(insts, n0, l, base, flt)
    ensures Following(flt, fi', access', n0 + Count(insts) + 1)
  {
    out, fi', access' := Owns(insts), fi, access;
    hide *;
    var i := 0;
    ghost var j := 0;
    WalkStart(insts, n0, l, base, flt);
    while i < |out|
      invariant j <= |insts| && i == |Woven(insts[..j], n0, l, base, flt)|
      invariant out == Woven(insts[..j], n0, l, base, flt) + Owns(insts[j..])
      invariant Following(flt, fi', access', n0 + Count(insts[..j]) + 1)
      decreases |insts| - j
    {
      FirstOwn(Woven(insts[..j], n0, l, base, flt), insts, j);
      var x := out[i].i;
      if x.Access? && Exhausted(flt, fi') {
        WalkGivesUp(insts, j, n0, l, base, flt, fi', access');
        return;
      }
      var addinst;
      addinst, fi', access' := VisitInst(x, n0 + Count(insts[..j]) + 1, l, base, flt, fi', access');
      WalkStep(insts, j, n0, l, base, flt, addinst);
      out := out[..i] + addinst + out[i..];
      i := i + |addinst| + 1;
      j := j + 1;
    }
    FirstOwn(Woven(insts[..j], n0, l, base, flt), insts, j);
    WalkEnd(insts, n0, l, base, flt);
  }

  lemma WalkStart(insts: seq<Inst>, n0: nat, l: Spare, base: nat, flt: Filter)
    ensures Woven(insts[..0], n0, l, base, flt) == [] && Owns(insts) == [] + Owns(insts[0..])
    ensures Count(insts[..0]) == 0
  {
    assert insts[..0] == [] && insts[0..] == insts;
    hide Owns;
  }

  lemma WalkGivesUp(
      insts: seq<Inst>, j: nat, n0: nat, l: Spare, base: nat, flt: Filter, fi: nat, access: nat)
    requires j <= |insts| && Exhausted(flt, fi) && Following(flt, fi, access, n0 + Count(insts[..j]) + 1)
    ensures Woven(insts[..j], n0, l, base, flt) + Owns(insts[j..]) == Woven(insts, n0, l, base, flt)
    ensures Following(flt, fi, access, n0 + Count(insts) + 1)
  {
    hide *;
    WovenRest(insts, j, |insts|, n0, l, base, flt, fi, access);
    assert insts[j..|insts|] == insts[j..] && insts[..|insts|] == insts;
  }

  lemma WalkStep(insts: seq<Inst>, j: nat, n0: nat, l: Spare, base: nat, flt: Filter, add: seq<Out>)
    requires j < |insts|
    requires add + [Own(insts[j])] == Piece(insts[j], n0 + Count(insts[..j]) + 1, l, base, flt)
    ensures var woven := Woven(insts[..j], n0, l, base, flt);
      var out, i := woven + Owns(insts[j..]), |woven|;
      && out[..i] + add + out[i..] == Woven(insts[..j + 1], n0, l, base, flt) + Owns(insts[j + 1..])
      && i + |add| + 1 == |Woven(insts[..j + 1], n0, l, base, flt)|
    ensures Count(insts[..j + 1]) == Count(insts[..j]) + (if Numbered(insts[j]) then 1 else 0)
  {
    hide *;
    WovenStep(insts, j, n0, l, base, flt);
    CountStep(insts, j);
    OwnsStep(Woven(insts[..j], n0, l, base, flt), insts, j, add);
  }

  lemma WalkEnd(insts: seq<Inst>, n0: nat, l: Spare, base: nat, flt: Filter)
    ensures Woven(insts[..|insts|], n0, l, base, flt) + Owns(insts[|insts|..]) == Woven(insts, n0, l, base, flt)
    ensures insts[..|insts|] == insts
  {
    assert insts[..|insts|] == insts && insts[|insts|..] == [];
    hide Woven;
  }

  lemma NothingWoven(n0: nat, l: Spare, base: nat, flt: Filter)
    ensures Woven([], n0, l, base, flt) == [] && Count([]) == 0
  {
  }

  lemma FirstOwn(done: seq<Out>, insts: seq<Inst>, j: nat)
    requires j <= |insts|
    ensures |done| < |done + Owns(insts[j..])| <==> j < |insts|
    ensures j < |insts| ==> (done + Owns(insts[j..]))[|done|] == Own(insts[j])
  {
  }

  lemma OwnsStep(done: seq<Out>, insts: seq<Inst>, j: nat, add: seq<Out>)
    requires j < |insts|
    ensures var out, i := done + Owns(insts[j..]), |done|;
      out[..i] + add + out[i..] == done + (add + [Own(insts[j])]) + Owns(insts[j + 1..])
  {
  }

  /** All functions, one filter iterator and one running number. */
  method MemfilteredInstrument(funcs: seq<seq<Inst>>, spares: seq<Spare>, base: nat, flt: Filter)
    returns (outs: seq<seq<Out>>)
    requires |spares| == |funcs| && Sorted(flt)
    ensures |outs| == |funcs|
    ensures forall f :: 0 <= f < |funcs| ==> WovenOk(funcs, spares, base, flt, outs, f)
  {
    FromTheStart(flt);
    hide Woven, Following, Sorted, Total, Count;
    outs := [];
    var fi, access := 0, 1;
    NoneCounted();
    assert funcs[..0] == [];
    for f := 0 to |funcs|
      invariant |outs| == f && Following(flt, fi, access, Total(funcs[..f]) + 1)
      invariant forall g :: 0 <= g < f ==> WovenOk(funcs, spares, base, flt, outs, g)
    {
      TotalStep(funcs, f);
      var out;
      out, fi, access := InstrumentFunction(funcs[f], Total(funcs[..f]), spares[f], base, flt, fi, access);
      WovenMore(funcs, spares, base, flt, outs, out);
      hide WovenOk;
      outs := outs + [out];
    }
  }

  predicate WovenOk(
      funcs: seq<seq<Inst>>, spares: seq<Spare>, base: nat, flt: Filter, outs: seq<seq<Out>>, f: nat)
  {
    && f < |funcs| && f < |spares| && f < |outs|
    && outs[f] == Woven(funcs[f], Total(funcs[..f]), spares[f], base, flt)
  }

  lemma WovenMore(
      funcs: seq<seq<Inst>>, spares: seq<Spare>, base: nat, flt: Filter, outs: seq<seq<Out>>, out: seq<Out>)
    requires |outs| < |funcs| == |spares|
    requires forall g :: 0 <= g < |outs| ==> WovenOk(funcs, spares, base, flt, outs, g)
    requires out == Woven(funcs[|outs|], Total(funcs[..|outs|]), spares[|outs|], base, flt)
    ensures forall g :: 0 <= g < |outs| + 1 ==> WovenOk(funcs, spares, base, flt, outs + [out], g)
  {
    forall g | 0 <= g < |outs| + 1 ensures WovenOk(funcs, spares, base, flt, outs + [out], g) {
      assert g < |outs| ==> WovenOk(funcs, spares, base, flt, outs, g);
    }
  }

  lemma FromTheStart(flt: Filter)
    requires Sorted(flt)
    ensures Following(flt, 0, 1, 1)
  {
    if flt.Only? && !Blocked(flt) && flt.idxs != [] {
      assert forall k :: 0 < k < |flt.idxs| ==> flt.idxs[0] < flt.idxs[k];
    }
  }

  /** A wanted access has its block right in front of it, an unwanted one has not; nothing else is touched. */
  lemma {:induction false} WovenAt(
      insts: seq<Inst>, j: nat, m: nat, n0: nat, l: Spare, base: nat, flt: Filter) returns (rest: seq<Out>)
    requires j < m <= |insts|
    ensures Woven(insts[..m], n0, l, base, flt)
         == Woven(insts[..j], n0, l, base, flt) + Piece(insts[j], n0 + Count(insts[..j]) + 1, l, base, flt) + rest
    decreases m
  {
    hide Woven, Piece, Count;
    WovenStep(insts, m - 1, n0, l, base, flt);
    if j == m - 1 {
      rest := [];
    } else {
      var r := WovenAt(insts, j, m - 1, n0, l, base, flt);
      rest := r + Piece(insts[m - 1], n0 + Count(insts[..m - 1]) + 1, l, base, flt);
    }
  }

  function Stripped(outs: seq<Out>): seq<Inst> {
    if outs == [] then []
    else
      var x := outs[|outs| - 1];
      Stripped(outs[..|outs| - 1]) + (if x.Own? then [x.i] else [])
  }

  lemma {:induction false} StrippedAppend(a: seq<Out>, b: seq<Out>)
    ensures Stripped(a + b) == Stripped(a) + Stripped(b)
    decreases |b|
  {
    if b == [] {
      assert a + b == a;
    } else {
      assert (a + b)[..|a + b| - 1] == a + b[..|b| - 1];
      StrippedAppend(a, b[..|b| - 1]);
    }
  }

  /** Without the blocks the function is the original one. */
  lemma {:induction false} WovenStrips(insts: seq<Inst>, m: nat, n0: nat, l: Spare, base: nat, flt: Filter)
    requires m <= |insts|
    ensures Stripped(Woven(insts[..m], n0, l, base, flt)) == insts[..m]
  {
    hide *;
    if m == 0 {
      NothingWoven(n0, l, base, flt);
      StrippedOne(Own(Other));
      assert insts[..m] == [];
    } else {
      WovenStrips(insts, m - 1, n0, l, base, flt);
      StripStep(insts, m - 1, n0, l, base, flt);
    }
  }

  lemma StripStep(insts: seq<Inst>, j: nat, n0: nat, l: Spare, base: nat, flt: Filter)
    requires j < |insts| && Stripped(Woven(insts[..j], n0, l, base, flt)) == insts[..j]
    ensures Stripped(Woven(insts[..j + 1], n0, l, base, flt)) == insts[..j + 1]
  {
    hide *;
    var n := n0 + Count(insts[..j]) + 1;
    WovenStep(insts, j, n0, l, base, flt);
    PieceStrips(insts[j], n, l, base, flt);
    StrippedAppend(Woven(insts[..j], n0, l, base, flt), Piece(insts[j], n, l, base, flt));
  }

  lemma StrippedOne(x: Out)
    ensures Stripped([]) == [] && Stripped([x]) == if x.Own? then [x.i] else []
  {
    assert [x][..0] == [];
  }

  lemma PieceStrips(x: Inst, n: nat, l: Spare, base: nat, flt: Filter)
    ensures Stripped(Piece(x, n, l, base, flt)) == [x]
  {
    hide Stripped, LogAppend, Flatten, Wanted;
    var g := Guard(n, if x.Access? then Flatten(LogAppend(x.site, l, base, n)) else []);
    StrippedOne(Own(x));
    StrippedOne(g);
    StrippedAppend([g], [Own(x)]);
    assert Piece(x, n, l, base, flt) == [Own(x)] || Piece(x, n, l, base, flt) == [g] + [Own(x)];
  }

  /**
   * The accesses instrumented among the first `total` are exactly those the filter names, if and only
   * if the filter does not name access 0 or names none of them.
   */
  lemma {:induction false} FilterExact(flt: Filter, total: nat)
    requires flt.Only? && Sorted(flt)
    ensures (forall n :: 1 <= n <= total ==> (Wanted(flt, n) <==> n in flt.idxs))
      <==> (0 !in flt.idxs || forall n :: n in flt.idxs ==> n == 0 || n > total)
  {
    assert forall k :: 0 < k < |flt.idxs| ==> flt.idxs[0] < flt.idxs[k];
    assert 0 in flt.idxs ==> Blocked(flt);
  }

  /** A function with one access: asked for with access 0 it is left as it is, asked for alone it is not. */
  lemma {:induction false} ZeroBlocks(s: Site, l: Spare, base: nat)
    requires !s.shape.Skipped?
    ensures Woven([Access(s)], 0, l, base, Only([0, 1])) == [Own(Access(s))]
    ensures Woven([Access(s)], 0, l, base, Only([1])) == [Guard(1, Flatten(LogAppend(s, l, base, 1))), Own(Access(s))]
  {
    hide LogAppend, Flatten;
    var x := Access(s);
    assert [x][..0] == [];
    assert forall flt: Filter :: Woven([x], 0, l, base, flt) == Woven([], 0, l, base, flt) + Piece(x, 1, l, base, flt);
    assert 1 in Only([1]).idxs;
  }
}
