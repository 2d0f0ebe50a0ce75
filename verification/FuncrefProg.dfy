/** The program a module denotes, and that the instrumented module denotes the instrumented program. */
module FuncrefProg {
  import opened Bytes
  import opened Codec
  import opened CodecInst
  import opened CodecModule
  import opened CodecParts
  import opened CodecSections
  import opened CodecRound
  import opened ModuleRefs
  import opened Addresses
  import opened ModuleEdit
  import opened FuncrefObj
  import opened FuncrefAll
  import opened IndirectCalls
  import opened FuncrefWrap
  import opened FuncrefGen
  import Wasm

  type Slot = Option<Addr>
  type Bodies = Addr -> seq<Code>

  function Zero(ty: byte): Val {
    if ty == 0x7F then Wasm.I32(0) else if ty == 0x7D then Wasm.F32(0) else if ty == 0x7C then Wasm.F64(0) else Wasm.I64(0)
  }

  /** The number types by their codes in the binary format. */
  function TypeOfCode(b: byte): Option<Wasm.ValType> {
    if b == 0x7F then Some(Wasm.TI32) else if b == 0x7E then Some(Wasm.TI64)
    else if b == 0x7D then Some(Wasm.TF32) else if b == 0x7C then Some(Wasm.TF64) else None
  }

  lemma ZeroTyped(b: byte)
    requires TypeOfCode(b).Some?
    ensures Wasm.TypeOf(Zero(b)) == TypeOfCode(b).value && Zero(b).n == 0
  {
  }

  /** Declared locals start out as zeros. */
  function Zeros(locals: seq<LocalRun>): seq<Val> {
    if locals == [] then [] else seq(locals[0].count, _ => Zero(locals[0].ty)) + Zeros(locals[1..])
  }

  function Empty(n: nat): (xs: seq<Slot>)
    ensures |xs| == n && forall i :: 0 <= i < n ==> xs[i] == None
  {
    seq(n, _ => None)
  }

  function Write(xs: seq<Slot>, off: nat, fs: seq<Addr>): (ys: seq<Slot>)
    ensures |ys| == |xs|
    ensures forall i :: 0 <= i < |xs| ==> ys[i] == if off <= i < off + |fs| then Some(fs[i - off]) else xs[i]
  {
    seq(|xs|, i requires 0 <= i < |xs| => if off <= i < off + |fs| then Some(fs[i - off]) else xs[i])
  }

  /** The segments are written one after the other; one that does not fit stops the program from starting. */
  function Slots(xs: seq<Slot>, elems: seq<Elem<Addr>>): Option<seq<Slot>>
    decreases |elems|
  {
    if elems == [] then Some(xs)
    else if elems[0].offset.value + |elems[0].funcs| > |xs| then None
    else Slots(Write(xs, elems[0].offset.value, elems[0].funcs), elems[1..])
  }

  function FirstTable(o: Obj): Option<seq<Slot>> {
    if o.m.tables == [] then Slots([], o.m.elems) else Slots(Empty(o.m.tables[0].limits.initial), o.m.elems)
  }

  function TableAt(o: Obj, t: Addr): seq<Slot> {
    var i := IndexOf(o.sp.tables, t);
    if i == 0 && FirstTable(o).Some? then FirstTable(o).value
    else if i < |o.m.tables| then Empty(o.m.tables[i].limits.initial) else []
  }

  function FnOf(o: Obj, a: Addr, body: Bodies): Fn {
    var imported := IndexOf(o.sp.funcs, a) < o.m.nums.funcs;
    Fn(FuncSig(o, a), if imported then [] else Zeros(FuncAt(o, a).locals), body(a), imported)
  }

  /** `sigs`: the signatures that indirect calls name. */
  function ProgOf(o: Obj, body: Bodies, sigs: set<Addr>): Prog {
    Prog(map a | a in o.sp.funcs :: FnOf(o, a, body), map s | s in sigs :: SigContent(o, s),
         map t | t in o.sp.tables :: TableAt(o, t), Never())
  }

  /** The instruction list of function `a` is that of its structured body. */
  predicate Denotes(o: Obj, body: Bodies, a: Addr) {
    IndexOf(o.sp.funcs, a) >= o.m.nums.funcs ==> FuncAt(o, a).code == Toks(body(a)) + [Inst(OP_END, NoImm)]
  }

  /** Function `a` after its list was rewritten, its indirect calls counted from `first`. */
  predicate FuncRewritten(plan: Plan, o: Obj, r: Obj, body: Bodies, a: Addr, first: nat) {
    && a in r.sp.funcs && IndexOf(r.sp.funcs, a) == IndexOf(o.sp.funcs, a) && FuncSig(r, a) == FuncSig(o, a)
    && (IndexOf(o.sp.funcs, a) >= o.m.nums.funcs ==>
          if plan.skip(a) then SameCode(o, r, a) else Numbered(body(a), first) && NewCode(plan, o, r, body, a, first))
  }

  predicate SameCode(o: Obj, r: Obj, a: Addr) {
    FuncAt(r, a).locals == FuncAt(o, a).locals && FuncAt(r, a).code == FuncAt(o, a).code
  }

  predicate NewCode(plan: Plan, o: Obj, r: Obj, body: Bodies, a: Addr, first: nat) {
    && Zeros(FuncAt(r, a).locals) == Zeros(FuncAt(o, a).locals) + plan.pool
    && FuncAt(r, a).code == Flat(plan, PoolAt(plan, FnOf(o, a, body)), FuncAt(o, a).code, first)
  }

  /** The function at `w` takes the operands of `f` and more, and calls `f` with its operands. */
  predicate Leads(r: Obj, w: Addr, s: Sig, f: Addr, tys: seq<byte>) {
    && w in r.sp.funcs && FuncSig(r, w) == Longer(s, tys) && FuncAt(r, w).code == WrapperInsts(|s.params|, f)
    && IndexOf(r.sp.funcs, w) >= r.m.nums.funcs
  }

  predicate EntryLeads(o: Obj, r: Obj, tys: seq<byte>, k: nat, i: nat)
    requires InElems(o, k, i) && InElems(r, k, i)
  {
    var f := o.m.elems[k].funcs[i];
    f in o.sp.funcs && r.m.elems[k].funcs[i] !in o.sp.funcs && Leads(r, r.m.elems[k].funcs[i], FuncSig(o, f), f, tys)
  }

  /** `r` is `o` with its element segments wrapped and its functions' lists rewritten. */
  ghost predicate Rewritten(plan: Plan, o: Obj, r: Obj, body: Bodies, first: Addr -> nat, sigs: set<Addr>) {
    && PlanOk(plan) && MarksOk(plan) && r.m.nums == o.m.nums && r.sp.tables == o.sp.tables && r.m.tables == o.m.tables
    && (forall a :: a in o.sp.funcs ==> FuncRewritten(plan, o, r, body, a, first(a)))
    && (forall a :: a in o.sp.funcs && plan.skip(a) && IndexOf(o.sp.funcs, a) >= o.m.nums.funcs ==> AllKept(plan, body(a)))
    && (forall a :: a in o.sp.funcs && !plan.skip(a) ==> SitesLonger(plan, o, r, FuncAt(o, a).code))
    && (forall s :: s in sigs ==> SigContent(r, s) == SigContent(o, s))
    && SameLengths(o.m.elems, r.m.elems)
    && (forall k: nat, i: nat :: InElems(o, k, i) ==> InElems(r, k, i) && EntryLeads(o, r, plan.tys, k, i))
  }

  /** The types that rewritten calls name are the longer ones. */
  predicate SitesLonger(plan: Plan, o: Obj, r: Obj, code: Insts) {
    forall i :: 0 <= i < |code| && code[i].imm.SigTable? ==> IsLonger(plan, o, r, code[i].imm.sig)
  }

  predicate IsLonger(plan: Plan, o: Obj, r: Obj, s: Addr) {
    SigContent(r, plan.ext(s)) == Longer(SigContent(o, s), plan.tys)
  }

  /** What a wrapper's list says. */
  function WrapperBody(code: seq<Inst<Addr>>): seq<Code> {
    var n := |code| - 2;
    if n >= 0 && code[n].imm.FuncRef? then Gets(n) + [Call(code[n].imm.func)] else []
  }

  /** The bodies of the rewritten program. */
  function NewBodies(plan: Plan, o: Obj, r: Obj, body: Bodies): Bodies {
    (a: Addr) =>
      if a !in o.sp.funcs then WrapperBody(FuncAt(r, a).code)
      else if IndexOf(o.sp.funcs, a) < o.m.nums.funcs || plan.skip(a) then body(a)
      else Rewrite(plan, PoolAt(plan, FnOf(o, a, body)), body(a))
  }

  // ----- lists -----

  lemma {:induction false} GetToks(n: nat)
    ensures Toks(Gets(n)) == GetInsts(n)
  {
    hide TokI;
    if n > 0 {
      GetToks(n - 1);
      ToksAppend(Gets(n - 1), [LocalGet(n - 1)]);
      ToksOne(LocalGet(n - 1));
      TokSmall(n - 1, 0, 0, 0);
      hide Toks;
      assert GetInsts(n) == GetInsts(n - 1) + [Inst(OP_LOCAL_GET, LocalIdx(n - 1))];
    }
  }

  lemma CallToks(f: Addr)
    ensures TokI(Call(f)) == [Inst(OP_CALL, FuncRef(f))]
  {
  }

  lemma {:induction false} WrapperToks(n: nat, f: Addr)
    ensures WrapperBody(WrapperInsts(n, f)) == Gets(n) + [Call(f)]
    ensures WrapperInsts(n, f) == Toks(Gets(n) + [Call(f)]) + [Inst(OP_END, NoImm)]
  {
    GetToks(n);
    ToksAppend(Gets(n), [Call(f)]);
    ToksOne(Call(f));
    CallToks(f);
    hide Toks, Gets;
  }

  lemma {:induction false} FlatBody(plan: Plan, d: nat, body: seq<Code>, k: nat)
    requires Numbered(body, k)
    ensures Flat(plan, d, Toks(body) + [Inst(OP_END, NoImm)], k) == Toks(Rewrite(plan, d, body)) + [Inst(OP_END, NoImm)]
  {
    hide *;
    FlatIsRewrite(plan, d, body, k);
    FlatAppend(plan, d, Toks(body), [Inst(OP_END, NoImm)], k);
    FlatOne(plan, d, Inst(OP_END, NoImm), k + SitesIn(Toks(body)));
  }

  // ----- tables -----

  predicate Pairs(plan: Plan, p: Prog, q: Prog, fs: seq<Addr>, ws: seq<Addr>) {
    |fs| == |ws| && forall i :: 0 <= i < |fs| ==> SlotWrapped(plan, p, q, Some(fs[i]), Some(ws[i]))
  }

  lemma {:induction false} WritePairs(plan: Plan, p: Prog, q: Prog, xs: seq<Slot>, ys: seq<Slot>, off: nat, fs: seq<Addr>, ws: seq<Addr>)
    requires TableWrapped(plan, p, q, xs, ys) && Pairs(plan, p, q, fs, ws)
    ensures TableWrapped(plan, p, q, Write(xs, off, fs), Write(ys, off, ws))
  {
    hide SlotWrapped;
  }

  /** Both programs start or neither does, and their tables correspond slot by slot. */
  lemma {:induction false} SlotsPairs(plan: Plan, p: Prog, q: Prog, xs: seq<Slot>, ys: seq<Slot>, es: seq<Elem<Addr>>, fs: seq<Elem<Addr>>)
    requires TableWrapped(plan, p, q, xs, ys) && SameLengths(es, fs)
    requires forall k :: 0 <= k < |es| ==> Pairs(plan, p, q, es[k].funcs, fs[k].funcs)
    ensures Slots(xs, es).Some? == Slots(ys, fs).Some?
    ensures Slots(xs, es).Some? ==> TableWrapped(plan, p, q, Slots(xs, es).value, Slots(ys, fs).value)
    decreases |es|
  {
    hide Pairs, TableWrapped;
    if es != [] {
      assert |xs| == |ys| by { WrappedSize(plan, p, q, xs, ys); }
      assert |es[0].funcs| == |fs[0].funcs| && es[0].offset == fs[0].offset;
      if es[0].offset.value + |es[0].funcs| <= |xs| {
        WritePairs(plan, p, q, xs, ys, es[0].offset.value, es[0].funcs, fs[0].funcs);
        TailLengths(es, fs);
        assert forall k :: 0 <= k < |es[1..]| ==> es[1..][k] == es[k + 1] && fs[1..][k] == fs[k + 1];
        SlotsPairs(plan, p, q, Write(xs, es[0].offset.value, es[0].funcs), Write(ys, fs[0].offset.value, fs[0].funcs), es[1..], fs[1..]);
      }
    }
  }

  lemma WrappedSize(plan: Plan, p: Prog, q: Prog, xs: seq<Slot>, ys: seq<Slot>)
    requires TableWrapped(plan, p, q, xs, ys)
    ensures |xs| == |ys|
  {
  }

  lemma TailLengths(es: seq<Elem<Addr>>, fs: seq<Elem<Addr>>)
    requires SameLengths(es, fs) && es != []
    ensures SameLengths(es[1..], fs[1..])
  {
  }

  lemma EmptyWrapped(plan: Plan, p: Prog, q: Prog, n: nat)
    ensures TableWrapped(plan, p, q, Empty(n), Empty(n)) && TableWrapped(plan, p, q, [], [])
  {
  }

  // ----- functions -----

  lemma NewBodyIs(plan: Plan, o: Obj, r: Obj, body: Bodies, a: Addr)
    ensures NewBodies(plan, o, r, body)(a) ==
      if a !in o.sp.funcs then WrapperBody(FuncAt(r, a).code)
      else if IndexOf(o.sp.funcs, a) < o.m.nums.funcs || plan.skip(a) then body(a)
      else Rewrite(plan, PoolAt(plan, FnOf(o, a, body)), body(a))
  {
    hide WrapperBody, FuncAt, IndexOf, Rewrite, FnOf, PoolAt;
  }

  lemma FnIs(o: Obj, a: Addr, body: Bodies)
    ensures FnOf(o, a, body) == Fn(FuncSig(o, a), FnOf(o, a, body).init, body(a), IndexOf(o.sp.funcs, a) < o.m.nums.funcs)
    ensures FnOf(o, a, body).init == if IndexOf(o.sp.funcs, a) < o.m.nums.funcs then [] else Zeros(FuncAt(o, a).locals)
  {
    hide FuncSig, Zeros, FuncAt, IndexOf;
  }

  lemma RewrittenNow(plan: Plan, o: Obj, r: Obj, body: Bodies, a: Addr, first: nat)
    requires FuncRewritten(plan, o, r, body, a, first)
    ensures a in r.sp.funcs && IndexOf(r.sp.funcs, a) == IndexOf(o.sp.funcs, a) && FuncSig(r, a) == FuncSig(o, a)
    ensures IndexOf(o.sp.funcs, a) >= o.m.nums.funcs && plan.skip(a) ==>
      FuncAt(r, a).locals == FuncAt(o, a).locals && FuncAt(r, a).code == FuncAt(o, a).code
    ensures !(IndexOf(o.sp.funcs, a) < o.m.nums.funcs || plan.skip(a)) ==> Numbered(body(a), first)
    ensures !(IndexOf(o.sp.funcs, a) < o.m.nums.funcs || plan.skip(a)) ==>
      Zeros(FuncAt(r, a).locals) == Zeros(FuncAt(o, a).locals) + plan.pool
    ensures !(IndexOf(o.sp.funcs, a) < o.m.nums.funcs || plan.skip(a)) ==>
      FuncAt(r, a).code == Flat(plan, PoolAt(plan, FnOf(o, a, body)), FuncAt(o, a).code, first)
  {
    hide FuncAt, FuncSig, IndexOf, Zeros, Flat, Numbered, FnOf, PoolAt;
  }

  lemma WidenedNow(plan: Plan, a: Addr, fn: Fn)
    ensures Widened(plan, a, fn) == if fn.imported || plan.skip(a) then fn
      else Fn(fn.sig, fn.init + plan.pool, Rewrite(plan, PoolAt(plan, fn), fn.body), false)
  {
    hide Rewrite, PoolAt;
  }

  /** A function of the original is widened, and its list is that of the rewritten body. */
  lemma {:induction false} FuncLinked(plan: Plan, o: Obj, r: Obj, body: Bodies, a: Addr, first: nat)
    requires FuncRewritten(plan, o, r, body, a, first) && r.m.nums == o.m.nums && a in o.sp.funcs
    ensures FnOf(r, a, NewBodies(plan, o, r, body)) == Widened(plan, a, FnOf(o, a, body))
    ensures Denotes(o, body, a) ==> Denotes(r, NewBodies(plan, o, r, body), a)
  {
    hide *;
    var nb := NewBodies(plan, o, r, body);
    RewrittenNow(plan, o, r, body, a, first);
    NewBodyIs(plan, o, r, body, a);
    FnIs(o, a, body);
    FnIs(r, a, nb);
    WidenedNow(plan, a, FnOf(o, a, body));
    DenotesIs(o, body, a);
    DenotesIs(r, nb, a);
    if Denotes(o, body, a) && !(IndexOf(o.sp.funcs, a) < o.m.nums.funcs || plan.skip(a)) {
      FlatBody(plan, PoolAt(plan, FnOf(o, a, body)), body(a), first);
    }
  }

  lemma DenotesIs(o: Obj, body: Bodies, a: Addr)
    ensures Denotes(o, body, a) <==>
      (IndexOf(o.sp.funcs, a) >= o.m.nums.funcs ==> FuncAt(o, a).code == Toks(body(a)) + [Inst(OP_END, NoImm)])
  {
    hide FuncAt, Toks, IndexOf;
  }

  lemma WrapperNow(r: Obj, w: Addr, s: Sig, f: Addr, tys: seq<byte>)
    requires Leads(r, w, s, f, tys)
    ensures w in r.sp.funcs && FuncSig(r, w) == Longer(s, tys)
    ensures FuncAt(r, w).code == WrapperInsts(|s.params|, f) && IndexOf(r.sp.funcs, w) >= r.m.nums.funcs
  {
    hide FuncAt, FuncSig, Longer, WrapperInsts, IndexOf;
  }

  lemma WrapperFn(plan: Plan, s: Sig, f: Addr, init: seq<Val>)
    ensures WrapperOf(plan, Fn(Longer(s, plan.tys), init, Gets(|s.params|) + [Call(f)], false), s, f)
  {
    hide Gets;
  }

  /** A wrapper in the module is a wrapper in the program. */
  lemma {:induction false} WrapperLinked(plan: Plan, o: Obj, r: Obj, body: Bodies, w: Addr, f: Addr)
    requires Leads(r, w, FuncSig(o, f), f, plan.tys) && w !in o.sp.funcs
    ensures WrapperOf(plan, FnOf(r, w, NewBodies(plan, o, r, body)), FuncSig(o, f), f)
    ensures Denotes(r, NewBodies(plan, o, r, body), w)
  {
    hide *;
    var s := FuncSig(o, f);
    WrapperNow(r, w, s, f, plan.tys);
    NewBodyIs(plan, o, r, body, w);
    FnIs(r, w, NewBodies(plan, o, r, body));
    WrapperToks(|s.params|, f);
    WrapperFn(plan, s, f, Zeros(FuncAt(r, w).locals));
    DenotesIs(r, NewBodies(plan, o, r, body), w);
  }

  // ----- the link -----

  lemma ProgNow(o: Obj, body: Bodies, sigs: set<Addr>)
    ensures forall a :: a in ProgOf(o, body, sigs).funcs <==> a in o.sp.funcs
    ensures forall a :: a in o.sp.funcs ==> ProgOf(o, body, sigs).funcs[a] == FnOf(o, a, body)
    ensures forall s :: s in ProgOf(o, body, sigs).sigs <==> s in sigs
    ensures forall s :: s in sigs ==> ProgOf(o, body, sigs).sigs[s] == SigContent(o, s)
    ensures forall t :: t in ProgOf(o, body, sigs).tables <==> t in o.sp.tables
    ensures forall t :: t in o.sp.tables ==> ProgOf(o, body, sigs).tables[t] == TableAt(o, t)
    ensures Unwatched(ProgOf(o, body, sigs))
  {
    hide FnOf, SigContent, TableAt;
  }

  function NewSigs(plan: Plan, sigs: set<Addr>): set<Addr> { sigs + set s | s in sigs :: plan.ext(s) }

  lemma EntryLinked(plan: Plan, o: Obj, r: Obj, body: Bodies, sigs: set<Addr>, k: nat, i: nat)
    requires InElems(o, k, i) && InElems(r, k, i) && EntryLeads(o, r, plan.tys, k, i)
    ensures SlotWrapped(plan, ProgOf(o, body, sigs), ProgOf(r, NewBodies(plan, o, r, body), NewSigs(plan, sigs)),
                        Some(o.m.elems[k].funcs[i]), Some(r.m.elems[k].funcs[i]))
    ensures Denotes(r, NewBodies(plan, o, r, body), r.m.elems[k].funcs[i])
  {
    var f, w := o.m.elems[k].funcs[i], r.m.elems[k].funcs[i];
    hide *;
    EntryParts(plan, o, r, k, i);
    WrapperNow(r, w, FuncSig(o, f), f, plan.tys);
    WrapperLinked(plan, o, r, body, w, f);
    ProgNow(o, body, sigs);
    ProgNow(r, NewBodies(plan, o, r, body), NewSigs(plan, sigs));
    FnIs(o, f, body);
    SlotIf(plan, ProgOf(o, body, sigs), ProgOf(r, NewBodies(plan, o, r, body), NewSigs(plan, sigs)), f, w);
  }

  lemma EntryParts(plan: Plan, o: Obj, r: Obj, k: nat, i: nat)
    requires InElems(o, k, i) && InElems(r, k, i) && EntryLeads(o, r, plan.tys, k, i)
    ensures k < |o.m.elems| && i < |o.m.elems[k].funcs| && k < |r.m.elems| && i < |r.m.elems[k].funcs|
    ensures var f, w := o.m.elems[k].funcs[i], r.m.elems[k].funcs[i];
      f in o.sp.funcs && w !in o.sp.funcs && Leads(r, w, FuncSig(o, f), f, plan.tys)
  {
    hide Leads, FuncSig;
  }

  lemma SlotIf(plan: Plan, p: Prog, q: Prog, f: Addr, w: Addr)
    requires f in p.funcs && w in q.funcs && WrapperOf(plan, q.funcs[w], p.funcs[f].sig, f)
    ensures SlotWrapped(plan, p, q, Some(f), Some(w))
  {
    hide WrapperOf;
  }

  lemma {:induction false} ElemsPaired(plan: Plan, o: Obj, r: Obj, body: Bodies, sigs: set<Addr>, k: nat)
    requires SameLengths(o.m.elems, r.m.elems) && k < |o.m.elems|
    requires forall k: nat, i: nat :: InElems(o, k, i) ==> InElems(r, k, i) && EntryLeads(o, r, plan.tys, k, i)
    ensures Pairs(plan, ProgOf(o, body, sigs), ProgOf(r, NewBodies(plan, o, r, body), NewSigs(plan, sigs)),
                  o.m.elems[k].funcs, r.m.elems[k].funcs)
  {
    var p, q := ProgOf(o, body, sigs), ProgOf(r, NewBodies(plan, o, r, body), NewSigs(plan, sigs));
    hide EntryLeads, SlotWrapped, ProgOf, NewBodies, NewSigs;
    var fs, ws := o.m.elems[k].funcs, r.m.elems[k].funcs;
    forall i | 0 <= i < |fs| ensures SlotWrapped(plan, p, q, Some(fs[i]), Some(ws[i])) {
      assert InElems(o, k, i);
      EntryLinked(plan, o, r, body, sigs, k, i);
    }
  }

  lemma TableIs(o: Obj, t: Addr)
    ensures TableAt(o, t) == if IndexOf(o.sp.tables, t) == 0 && FirstTable(o).Some? then FirstTable(o).value
      else if IndexOf(o.sp.tables, t) < |o.m.tables| then Empty(o.m.tables[IndexOf(o.sp.tables, t)].limits.initial) else []
  {
    hide IndexOf, FirstTable;
  }

  lemma {:induction false} TablesLinked(plan: Plan, o: Obj, r: Obj, body: Bodies, sigs: set<Addr>, t: Addr)
    requires SameLengths(o.m.elems, r.m.elems) && r.sp.tables == o.sp.tables && r.m.tables == o.m.tables
    requires forall k: nat, i: nat :: InElems(o, k, i) ==> InElems(r, k, i) && EntryLeads(o, r, plan.tys, k, i)
    ensures TableWrapped(plan, ProgOf(o, body, sigs), ProgOf(r, NewBodies(plan, o, r, body), NewSigs(plan, sigs)),
                         TableAt(o, t), TableAt(r, t))
    ensures FirstTable(o).Some? == FirstTable(r).Some?
  {
    var p, q := ProgOf(o, body, sigs), ProgOf(r, NewBodies(plan, o, r, body), NewSigs(plan, sigs));
    var xs := if o.m.tables == [] then [] else Empty(o.m.tables[0].limits.initial);
    FirstIs2(o, xs);
    FirstIs2(r, xs);
    SizesAgree(o.m.elems, r.m.elems);
    hide *;
    forall k | 0 <= k < |o.m.elems| ensures Pairs(plan, p, q, o.m.elems[k].funcs, r.m.elems[k].funcs) {
      ElemsPaired(plan, o, r, body, sigs, k);
    }
    forall n: nat ensures TableWrapped(plan, p, q, Empty(n), Empty(n)) && TableWrapped(plan, p, q, [], []) {
      EmptyWrapped(plan, p, q, n);
    }
    assert TableWrapped(plan, p, q, [], []) by { EmptyWrapped(plan, p, q, 0); }
    SlotsPairs(plan, p, q, xs, xs, o.m.elems, r.m.elems);
    TableIs(o, t);
    TableIs(r, t);
  }

  lemma FirstIs2(o: Obj, xs: seq<Slot>)
    requires xs == if o.m.tables == [] then [] else Empty(o.m.tables[0].limits.initial)
    ensures FirstTable(o) == Slots(xs, o.m.elems)
  {
    hide Slots;
  }

  lemma SizesAgree(a: seq<Elem<Addr>>, b: seq<Elem<Addr>>)
    requires SameLengths(a, b)
    ensures |a| == |b|
  {
  }

  /**
   * The module with its segments wrapped and its lists rewritten denotes the rewritten program: so
   * what was proved of the program holds of the module the rewriter leaves.
   */
  lemma {:induction false} RewrittenIsInstrumented(plan: Plan, o: Obj, r: Obj, body: Bodies, first: Addr -> nat, sigs: set<Addr>)
    requires Rewritten(plan, o, r, body, first, sigs)
    requires forall a :: a in o.sp.funcs ==> Denotes(o, body, a)
    ensures Instrumented(plan, Guard(plan, ProgOf(o, body, sigs)), ProgOf(r, NewBodies(plan, o, r, body), NewSigs(plan, sigs)))
    ensures Unwatched(ProgOf(o, body, sigs))
    ensures forall a :: a in o.sp.funcs ==> Denotes(r, NewBodies(plan, o, r, body), a)
    ensures forall k: nat, i: nat :: InElems(o, k, i) ==> RightEntry(r, NewBodies(plan, o, r, body), k, i)
    ensures FirstTable(o).Some? == FirstTable(r).Some?
  {
    hide *;
    var nb := NewBodies(plan, o, r, body);
    Parts(plan, o, r, body, first, sigs);
    var p, q := ProgOf(o, body, sigs), ProgOf(r, nb, NewSigs(plan, sigs));
    GuardIs(plan, p);
    ProgNow(o, body, sigs);
    ProgNow(r, nb, NewSigs(plan, sigs));
    forall a | a in o.sp.funcs
      ensures a in q.funcs && q.funcs[a] == Widened(plan, a, p.funcs[a]) && Denotes(r, nb, a)
    {
      RewrittenNow(plan, o, r, body, a, first(a));
      FuncLinked(plan, o, r, body, a, first(a));
    }
    forall a | a in p.funcs && !p.funcs[a].imported ensures Met(plan, p, q, a) {
      FnIs(o, a, body);
      FunctionMet(plan, o, r, body, sigs, a);
    }
    forall s | s in p.sigs ensures s in q.sigs && q.sigs[s] == p.sigs[s] {
      NewSigIn(plan, sigs, s);
    }
    forall t | t in p.tables ensures t in q.tables && TableWrapped(plan, p, q, p.tables[t], q.tables[t]) {
      TablesLinked(plan, o, r, body, sigs, t);
    }
    TablesLinked(plan, o, r, body, sigs, 0);
    forall k: nat, i: nat | InElems(o, k, i) ensures RightEntry(r, nb, k, i) {
      EntryParts(plan, o, r, k, i);
      EntryLinked(plan, o, r, body, sigs, k, i);
      RightIf(r, nb, k, i);
    }
    InstrumentedIf(plan, p, q);
  }

  /** The wrapper in this place has the list of its body. */
  predicate RightEntry(r: Obj, nb: Bodies, k: nat, i: nat) {
    InElems(r, k, i) && Denotes(r, nb, r.m.elems[k].funcs[i])
  }

  lemma RightIf(r: Obj, nb: Bodies, k: nat, i: nat)
    requires k < |r.m.elems| && i < |r.m.elems[k].funcs| && Denotes(r, nb, r.m.elems[k].funcs[i])
    ensures RightEntry(r, nb, k, i)
  {
    hide Denotes;
  }

  lemma NewSigIn(plan: Plan, sigs: set<Addr>, s: Addr)
    requires s in sigs
    ensures plan.ext(s) in NewSigs(plan, sigs) && s in NewSigs(plan, sigs)
  {
  }

  lemma Parts(plan: Plan, o: Obj, r: Obj, body: Bodies, first: Addr -> nat, sigs: set<Addr>)
    requires Rewritten(plan, o, r, body, first, sigs)
    ensures PlanOk(plan) && MarksOk(plan) && r.m.nums == o.m.nums && r.sp.tables == o.sp.tables && r.m.tables == o.m.tables
    ensures forall a :: a in o.sp.funcs ==> FuncRewritten(plan, o, r, body, a, first(a))
    ensures forall a :: a in o.sp.funcs && plan.skip(a) && IndexOf(o.sp.funcs, a) >= o.m.nums.funcs ==> AllKept(plan, body(a))
    ensures forall a :: a in o.sp.funcs && !plan.skip(a) ==> SitesLonger(plan, o, r, FuncAt(o, a).code)
    ensures forall s :: s in sigs ==> SigContent(r, s) == SigContent(o, s)
    ensures SameLengths(o.m.elems, r.m.elems)
    ensures forall k: nat, i: nat :: InElems(o, k, i) ==> InElems(r, k, i) && EntryLeads(o, r, plan.tys, k, i)
  {
    hide PlanOk, MarksOk, FuncRewritten, AllKept, SameLengths, EntryLeads, IndexOf, SigContent, Longer, SitesLonger, FuncAt;
  }

  // ----- the types that calls name -----

  lemma SitesCat(plan: Plan, o: Obj, r: Obj, a: Insts, b: Insts)
    ensures SitesLonger(plan, o, r, a + b) ==> SitesLonger(plan, o, r, a) && SitesLonger(plan, o, r, b)
  {
    hide IsLonger;
    assert forall i :: 0 <= i < |a| ==> (a + b)[i] == a[i];
    assert forall i :: 0 <= i < |b| ==> (a + b)[|a| + i] == b[i];
  }

  lemma SitesNow(plan: Plan, o: Obj, r: Obj, code: Insts, i: nat)
    requires SitesLonger(plan, o, r, code) && i < |code| && code[i].imm.SigTable?
    ensures IsLonger(plan, o, r, code[i].imm.sig)
  {
    hide IsLonger;
  }

  lemma {:induction false} SigExtended(plan: Plan, o: Obj, r: Obj, body: Bodies, sigs: set<Addr>, s: Addr)
    requires IsLonger(plan, o, r, s)
    ensures Lengthened(plan, ProgOf(o, body, sigs), ProgOf(r, NewBodies(plan, o, r, body), NewSigs(plan, sigs)), s)
  {
    ProgNow(o, body, sigs);
    ProgNow(r, NewBodies(plan, o, r, body), NewSigs(plan, sigs));
    hide ProgOf, NewBodies, SigContent, Longer, Unwatched;
  }

  lemma {:induction false} CodeExtended(plan: Plan, o: Obj, r: Obj, body: Bodies, sigs: set<Addr>, code: seq<Code>)
    requires SitesLonger(plan, o, r, Toks(code))
    ensures AllExtended(plan, ProgOf(o, body, sigs), ProgOf(r, NewBodies(plan, o, r, body), NewSigs(plan, sigs)), code)
    decreases code, 1
  {
    hide AllExtendedI, TokI, SitesLonger, ProgOf, NewBodies, NewSigs;
    if code != [] {
      SitesCat(plan, o, r, TokI(code[0]), Toks(code[1..]));
      CodeExtendedI(plan, o, r, body, sigs, code[0]);
      CodeExtended(plan, o, r, body, sigs, code[1..]);
    }
  }

  lemma {:induction false} CodeExtendedI(plan: Plan, o: Obj, r: Obj, body: Bodies, sigs: set<Addr>, c: Code)
    requires SitesLonger(plan, o, r, TokI(c))
    ensures AllExtendedI(plan, ProgOf(o, body, sigs), ProgOf(r, NewBodies(plan, o, r, body), NewSigs(plan, sigs)), c)
    decreases c, 0
  {
    hide *;
    var p, q := ProgOf(o, body, sigs), ProgOf(r, NewBodies(plan, o, r, body), NewSigs(plan, sigs));
    ExtendedIf(plan, p, q, c);
    if c.CallIndirect? {
      TokSmall(0, c.sig, c.table, c.site);
      SitesNow(plan, o, r, TokI(c), 0);
      SigExtended(plan, o, r, body, sigs, c.sig);
    } else if c.Block? || c.Loop? {
      NestTokens(c.ty, c.body);
      var head := Inst(if c.Block? then 0x02 else 0x03, Blockt(c.ty));
      SitesCat(plan, o, r, [head] + Toks(c.body), [Inst(OP_END, NoImm)]);
      SitesCat(plan, o, r, [head], Toks(c.body));
      CodeExtended(plan, o, r, body, sigs, c.body);
    } else if c.If? {
      IfTokens(c.ty, c.then_, c.else_);
      var arms := if c.else_ == [] then [] else [Inst(0x05, NoImm)] + Toks(c.else_);
      SitesCat(plan, o, r, [Inst(0x04, Blockt(c.ty))] + (Toks(c.then_) + arms), [Inst(OP_END, NoImm)]);
      SitesCat(plan, o, r, [Inst(0x04, Blockt(c.ty))], Toks(c.then_) + arms);
      SitesCat(plan, o, r, Toks(c.then_), arms);
      CodeExtended(plan, o, r, body, sigs, c.then_);
      if c.else_ == [] {
        NothingExtended(plan, p, q);
      } else {
        SitesCat(plan, o, r, [Inst(0x05, NoImm)], Toks(c.else_));
        CodeExtended(plan, o, r, body, sigs, c.else_);
      }
    }
  }

  lemma NothingExtended(plan: Plan, p: Prog, q: Prog)
    ensures AllExtended(plan, p, q, [])
  {
  }

  lemma ExtendedIf(plan: Plan, p: Prog, q: Prog, c: Code)
    ensures c.CallIndirect? && Lengthened(plan, p, q, c.sig) ==> AllExtendedI(plan, p, q, c)
    ensures (c.Block? || c.Loop?) && AllExtended(plan, p, q, c.body) ==> AllExtendedI(plan, p, q, c)
    ensures c.If? && AllExtended(plan, p, q, c.then_) && AllExtended(plan, p, q, c.else_) ==> AllExtendedI(plan, p, q, c)
    ensures !c.CallIndirect? && !c.Block? && !c.Loop? && !c.If? ==> AllExtendedI(plan, p, q, c)
  {
    hide AllExtended, Lengthened;
  }

  lemma {:induction false} FunctionMet(plan: Plan, o: Obj, r: Obj, body: Bodies, sigs: set<Addr>, a: Addr)
    requires a in o.sp.funcs && IndexOf(o.sp.funcs, a) >= o.m.nums.funcs && Denotes(o, body, a)
    requires if plan.skip(a) then AllKept(plan, body(a)) else SitesLonger(plan, o, r, FuncAt(o, a).code)
    ensures a in ProgOf(o, body, sigs).funcs
    ensures Met(plan, ProgOf(o, body, sigs), ProgOf(r, NewBodies(plan, o, r, body), NewSigs(plan, sigs)), a)
  {
    hide *;
    ProgNow(o, body, sigs);
    FnIs(o, a, body);
    MetIf(plan, ProgOf(o, body, sigs), ProgOf(r, NewBodies(plan, o, r, body), NewSigs(plan, sigs)), a);
    if !plan.skip(a) {
      DenotesIs(o, body, a);
      SitesCat(plan, o, r, Toks(body(a)), [Inst(OP_END, NoImm)]);
      CodeExtended(plan, o, r, body, sigs, body(a));
    }
  }

  lemma MetIf(plan: Plan, p: Prog, q: Prog, a: Addr)
    requires a in p.funcs
    ensures (if plan.skip(a) then AllKept(plan, p.funcs[a].body) else AllExtended(plan, p, q, p.funcs[a].body)) ==> Met(plan, p, q, a)
  {
    hide AllKept, AllExtended;
  }

}
