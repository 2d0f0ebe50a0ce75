/**
 * A module whose declarations refer to each other: by index as in the binary format, or by address as
 * in memory.  Renaming every reference, and what holds of all of them.
 */
module ModuleRefs {
  import opened Bytes
  import opened Codec
  import opened CodecInst
  import opened CodecModule
  import opened CodecParts
  import opened CodecSections
  import opened CodecRound

  type Addr = nat

  datatype Space = SigS | FuncS | TableS | MemS | GlobalS | DataS

  function SpaceOf(k: CodecModule.Kind): Space {
    match k case FuncK => FuncS case TableK => TableS case MemK => MemS case GlobalK => GlobalS
  }

  // ----- renaming -----

  function MapImm<R, S>(f: (Space, R) -> S, m: Imm<R>): Imm<S> {
    match m
    case NoImm => NoImm
    case Blockt(ty) => Blockt(ty)
    case Label(l) => Label(l)
    case Labels(ls, d) => Labels(ls, d)
    case FuncRef(r) => FuncRef(f(FuncS, r))
    case SigTable(s, t) => SigTable(f(SigS, s), f(TableS, t))
    case LocalIdx(l) => LocalIdx(l)
    case GlobalRef(g) => GlobalRef(f(GlobalS, g))
    case Memarg(a, mem, o) => Memarg(a, f(MemS, mem), o)
    case I32C(i) => I32C(i)
    case I64C(i) => I64C(i)
    case F32C(b) => F32C(b)
    case F64C(b) => F64C(b)
    case MemoryRef(mem) => MemoryRef(f(MemS, mem))
    case DataMemory(d, mem) => DataMemory(f(DataS, d), f(MemS, mem))
    case DataRef(d) => DataRef(f(DataS, d))
    case Memorycp(d, s) => Memorycp(f(MemS, d), f(MemS, s))
    case V128C(lo, hi) => V128C(lo, hi)
    case Lane(b) => Lane(b)
    case Lanes(ls) => Lanes(ls)
    case MemargLane(a, mem, o, b) => MemargLane(a, f(MemS, mem), o, b)
  }

  function MapInst<R, S>(f: (Space, R) -> S, i: Inst<R>): Inst<S> { Inst(i.op, MapImm(f, i.imm)) }

  function MapCode<R, S>(f: (Space, R) -> S, code: seq<Inst<R>>): (r: seq<Inst<S>>)
    ensures |r| == |code| && forall i :: 0 <= i < |r| ==> r[i] == MapInst(f, code[i])
  {
    seq(|code|, i requires 0 <= i < |code| => MapInst(f, code[i]))
  }

  function MapFunc<R, S>(f: (Space, R) -> S, fn: Func<R>): Func<S> {
    Func(f(SigS, fn.sig), fn.locals, MapCode(f, fn.code))
  }

  function MapFuncs<R, S>(f: (Space, R) -> S, fs: seq<Func<R>>): (r: seq<Func<S>>)
    ensures |r| == |fs| && forall i :: 0 <= i < |r| ==> r[i] == MapFunc(f, fs[i])
  {
    seq(|fs|, i requires 0 <= i < |fs| => MapFunc(f, fs[i]))
  }

  function MapImport<R, S>(f: (Space, R) -> S, i: Import<R>): Import<S> {
    Import(i.modName, i.member, i.kind, f(SpaceOf(i.kind), i.desc))
  }

  function MapImports<R, S>(f: (Space, R) -> S, xs: seq<Import<R>>): (r: seq<Import<S>>)
    ensures |r| == |xs| && forall i :: 0 <= i < |r| ==> r[i] == MapImport(f, xs[i])
  {
    seq(|xs|, i requires 0 <= i < |xs| => MapImport(f, xs[i]))
  }

  function MapExport<R, S>(f: (Space, R) -> S, e: Export<R>): Export<S> {
    Export(e.name, e.kind, f(SpaceOf(e.kind), e.desc))
  }

  function MapExports<R, S>(f: (Space, R) -> S, xs: seq<Export<R>>): (r: seq<Export<S>>)
    ensures |r| == |xs| && forall i :: 0 <= i < |r| ==> r[i] == MapExport(f, xs[i])
  {
    seq(|xs|, i requires 0 <= i < |xs| => MapExport(f, xs[i]))
  }

  function MapList<R, S>(f: (Space, R) -> S, s: Space, xs: seq<R>): (r: seq<S>)
    ensures |r| == |xs| && forall i :: 0 <= i < |r| ==> r[i] == f(s, xs[i])
  {
    seq(|xs|, i requires 0 <= i < |xs| => f(s, xs[i]))
  }

  function MapElem<R, S>(f: (Space, R) -> S, e: Elem<R>): Elem<S> { Elem(e.offset, MapList(f, FuncS, e.funcs)) }

  function MapElems<R, S>(f: (Space, R) -> S, xs: seq<Elem<R>>): (r: seq<Elem<S>>)
    ensures |r| == |xs| && forall i :: 0 <= i < |r| ==> r[i] == MapElem(f, xs[i])
  {
    seq(|xs|, i requires 0 <= i < |xs| => MapElem(f, xs[i]))
  }

  function MapData<R, S>(f: (Space, R) -> S, d: Data<R>): Data<S> {
    match d
    case Unread => Unread
    case Passive(b) => Passive(b)
    case Active0(o, m, b) => Active0(o, f(MemS, m), b)
    case Active2(m, o, b) => Active2(f(MemS, m), o, b)
  }

  function MapDatas<R, S>(f: (Space, R) -> S, xs: seq<Data<R>>): (r: seq<Data<S>>)
    ensures |r| == |xs| && forall i :: 0 <= i < |r| ==> r[i] == MapData(f, xs[i])
  {
    seq(|xs|, i requires 0 <= i < |xs| => MapData(f, xs[i]))
  }

  function MapName<R, S>(f: (Space, R) -> S, a: NameAssoc<R>): NameAssoc<S> { NameAssoc(f(FuncS, a.func), a.name) }

  function MapNames<R, S>(f: (Space, R) -> S, xs: seq<NameAssoc<R>>): (r: seq<NameAssoc<S>>)
    ensures |r| == |xs| && forall i :: 0 <= i < |r| ==> r[i] == MapName(f, xs[i])
  {
    seq(|xs|, i requires 0 <= i < |xs| => MapName(f, xs[i]))
  }

  function MapCustom<R, S>(f: (Space, R) -> S, c: Custom<R>): Custom<S> {
    Custom(c.name, c.bytes, c.subs, MapNames(f, c.names))
  }

  function MapCustoms<R, S>(f: (Space, R) -> S, xs: seq<Custom<R>>): (r: seq<Custom<S>>)
    ensures |r| == |xs| && forall i :: 0 <= i < |r| ==> r[i] == MapCustom(f, xs[i])
  {
    seq(|xs|, i requires 0 <= i < |xs| => MapCustom(f, xs[i]))
  }

  function MapStart<R, S>(f: (Space, R) -> S, s: Option<R>): Option<S> {
    match s case None => None case Some(r) => Some(f(FuncS, r))
  }

  /** Every reference renamed, everything else as it was. */
  function MapModule<R, S>(f: (Space, R) -> S, m: Module<R>): Module<S> {
    Module(m.sigs, MapImports(f, m.imports), m.nums, MapFuncs(f, m.funcs), m.tables, m.mems, m.globals,
           MapExports(f, m.exports), MapStart(f, m.start), MapElems(f, m.elems), m.hasDatacount,
           MapDatas(f, m.datas), MapCustoms(f, m.customs))
  }

  // ----- what holds of all references -----

  predicate ImmAll<R>(p: (Space, R) -> bool, m: Imm<R>) {
    match m
    case FuncRef(r) => p(FuncS, r)
    case SigTable(s, t) => p(SigS, s) && p(TableS, t)
    case GlobalRef(g) => p(GlobalS, g)
    case Memarg(_, mem, _) => p(MemS, mem)
    case MemoryRef(mem) => p(MemS, mem)
    case DataMemory(d, mem) => p(DataS, d) && p(MemS, mem)
    case DataRef(d) => p(DataS, d)
    case Memorycp(d, s) => p(MemS, d) && p(MemS, s)
    case MemargLane(_, mem, _, _) => p(MemS, mem)
    case _ => true
  }

  predicate CodeAll<R>(p: (Space, R) -> bool, code: seq<Inst<R>>) {
    forall i :: 0 <= i < |code| ==> ImmAll(p, code[i].imm)
  }

  predicate FuncAll<R>(p: (Space, R) -> bool, fn: Func<R>) { p(SigS, fn.sig) && CodeAll(p, fn.code) }

  predicate FuncsAll<R>(p: (Space, R) -> bool, fs: seq<Func<R>>) {
    forall i :: 0 <= i < |fs| ==> FuncAll(p, fs[i])
  }

  predicate ImportsAll<R>(p: (Space, R) -> bool, xs: seq<Import<R>>) {
    forall i :: 0 <= i < |xs| ==> p(SpaceOf(xs[i].kind), xs[i].desc)
  }

  predicate ExportsAll<R>(p: (Space, R) -> bool, xs: seq<Export<R>>) {
    forall i :: 0 <= i < |xs| ==> p(SpaceOf(xs[i].kind), xs[i].desc)
  }

  predicate ListAll<R>(p: (Space, R) -> bool, s: Space, xs: seq<R>) { forall i :: 0 <= i < |xs| ==> p(s, xs[i]) }

  predicate ElemsAll<R>(p: (Space, R) -> bool, xs: seq<Elem<R>>) {
    forall i :: 0 <= i < |xs| ==> ListAll(p, FuncS, xs[i].funcs)
  }

  predicate DataAll<R>(p: (Space, R) -> bool, d: Data<R>) {
    match d case Active0(_, m, _) => p(MemS, m) case Active2(m, _, _) => p(MemS, m) case _ => true
  }

  predicate DatasAll<R>(p: (Space, R) -> bool, xs: seq<Data<R>>) {
    forall i :: 0 <= i < |xs| ==> DataAll(p, xs[i])
  }

  predicate NamesAll<R>(p: (Space, R) -> bool, xs: seq<NameAssoc<R>>) {
    forall i :: 0 <= i < |xs| ==> p(FuncS, xs[i].func)
  }

  predicate CustomsAll<R>(p: (Space, R) -> bool, xs: seq<Custom<R>>) {
    forall i :: 0 <= i < |xs| ==> NamesAll(p, xs[i].names)
  }

  predicate StartAll<R>(p: (Space, R) -> bool, s: Option<R>) { s.Some? ==> p(FuncS, s.value) }

  predicate AllRefs<R>(p: (Space, R) -> bool, m: Module<R>) {
    && ImportsAll(p, m.imports) && FuncsAll(p, m.funcs) && ExportsAll(p, m.exports) && StartAll(p, m.start)
    && ElemsAll(p, m.elems) && DatasAll(p, m.datas) && CustomsAll(p, m.customs)
  }

  // ----- renaming twice, and agreeing renamings -----

  /** `h` after `g` is `f`, wherever `p` holds. */
  ghost predicate Agree<R(!new), S, T>(p: (Space, R) -> bool, g: (Space, R) -> S, h: (Space, S) -> T, f: (Space, R) -> T) {
    forall s: Space, r: R :: p(s, r) ==> h(s, g(s, r)) == f(s, r)
  }

  lemma ImmTwice<R(!new), S, T>(p: (Space, R) -> bool, g: (Space, R) -> S, h: (Space, S) -> T, f: (Space, R) -> T, m: Imm<R>)
    requires Agree(p, g, h, f) && ImmAll(p, m)
    ensures MapImm(h, MapImm(g, m)) == MapImm(f, m)
  {
  }

  lemma {:induction false} CodeTwice<R(!new), S, T>(p: (Space, R) -> bool, g: (Space, R) -> S, h: (Space, S) -> T, f: (Space, R) -> T, code: seq<Inst<R>>)
    requires Agree(p, g, h, f) && CodeAll(p, code)
    ensures MapCode(h, MapCode(g, code)) == MapCode(f, code)
  {
    forall i | 0 <= i < |code| ensures MapCode(h, MapCode(g, code))[i] == MapCode(f, code)[i] {
      ImmTwice(p, g, h, f, code[i].imm);
    }
    hide MapImm, ImmAll;
  }

  lemma {:induction false} FuncsTwice<R(!new), S, T>(p: (Space, R) -> bool, g: (Space, R) -> S, h: (Space, S) -> T, f: (Space, R) -> T, fs: seq<Func<R>>)
    requires Agree(p, g, h, f) && FuncsAll(p, fs)
    ensures MapFuncs(h, MapFuncs(g, fs)) == MapFuncs(f, fs)
  {
    hide MapCode, CodeAll;
    forall i | 0 <= i < |fs| ensures MapFuncs(h, MapFuncs(g, fs))[i] == MapFuncs(f, fs)[i] {
      assert FuncAll(p, fs[i]);
      CodeTwice(p, g, h, f, fs[i].code);
    }
  }

  lemma ImportsTwice<R(!new), S, T>(p: (Space, R) -> bool, g: (Space, R) -> S, h: (Space, S) -> T, f: (Space, R) -> T, xs: seq<Import<R>>)
    requires Agree(p, g, h, f) && ImportsAll(p, xs)
    ensures MapImports(h, MapImports(g, xs)) == MapImports(f, xs)
  {
  }

  lemma ExportsTwice<R(!new), S, T>(p: (Space, R) -> bool, g: (Space, R) -> S, h: (Space, S) -> T, f: (Space, R) -> T, xs: seq<Export<R>>)
    requires Agree(p, g, h, f) && ExportsAll(p, xs)
    ensures MapExports(h, MapExports(g, xs)) == MapExports(f, xs)
  {
  }

  lemma {:induction false} ElemsTwice<R(!new), S, T>(p: (Space, R) -> bool, g: (Space, R) -> S, h: (Space, S) -> T, f: (Space, R) -> T, xs: seq<Elem<R>>)
    requires Agree(p, g, h, f) && ElemsAll(p, xs)
    ensures MapElems(h, MapElems(g, xs)) == MapElems(f, xs)
  {
    forall i | 0 <= i < |xs| ensures MapElems(h, MapElems(g, xs))[i] == MapElems(f, xs)[i] {
      assert ListAll(p, FuncS, xs[i].funcs);
      assert MapList(h, FuncS, MapList(g, FuncS, xs[i].funcs)) == MapList(f, FuncS, xs[i].funcs);
    }
  }

  lemma {:induction false} DatasTwice<R(!new), S, T>(p: (Space, R) -> bool, g: (Space, R) -> S, h: (Space, S) -> T, f: (Space, R) -> T, xs: seq<Data<R>>)
    requires Agree(p, g, h, f) && DatasAll(p, xs)
    ensures MapDatas(h, MapDatas(g, xs)) == MapDatas(f, xs)
  {
    forall i | 0 <= i < |xs| ensures MapDatas(h, MapDatas(g, xs))[i] == MapDatas(f, xs)[i] {
      assert DataAll(p, xs[i]);
    }
  }

  lemma {:induction false} CustomsTwice<R(!new), S, T>(p: (Space, R) -> bool, g: (Space, R) -> S, h: (Space, S) -> T, f: (Space, R) -> T, xs: seq<Custom<R>>)
    requires Agree(p, g, h, f) && CustomsAll(p, xs)
    ensures MapCustoms(h, MapCustoms(g, xs)) == MapCustoms(f, xs)
  {
    forall i | 0 <= i < |xs| ensures MapCustoms(h, MapCustoms(g, xs))[i] == MapCustoms(f, xs)[i] {
      assert NamesAll(p, xs[i].names);
      assert MapNames(h, MapNames(g, xs[i].names)) == MapNames(f, xs[i].names);
    }
  }

  /** Renaming twice is renaming once by the composition, if the two agree on the references there are. */
  lemma {:induction false} ModuleTwice<R(!new), S, T>(p: (Space, R) -> bool, g: (Space, R) -> S, h: (Space, S) -> T, f: (Space, R) -> T, m: Module<R>)
    requires Agree(p, g, h, f) && AllRefs(p, m)
    ensures MapModule(h, MapModule(g, m)) == MapModule(f, m)
  {
    ImportsTwice(p, g, h, f, m.imports);
    FuncsTwice(p, g, h, f, m.funcs);
    ExportsTwice(p, g, h, f, m.exports);
    ElemsTwice(p, g, h, f, m.elems);
    DatasTwice(p, g, h, f, m.datas);
    CustomsTwice(p, g, h, f, m.customs);
    assert MapStart(h, MapStart(g, m.start)) == MapStart(f, m.start);
    hide Agree, MapImports, MapFuncs, MapExports, MapElems, MapDatas, MapCustoms, MapStart;
  }

  /** What every new reference satisfies if every old one satisfied `p`. */
  lemma {:induction false} MappedAll<R(!new), S(!new)>(p: (Space, R) -> bool, f: (Space, R) -> S, q: (Space, S) -> bool, m: Module<R>)
    requires AllRefs(p, m) && forall s: Space, r: R :: p(s, r) ==> q(s, f(s, r))
    ensures AllRefs(q, MapModule(f, m))
  {
    MappedFuncs(p, f, q, m.funcs);
    MappedLists(p, f, q, m);
    hide MapFuncs, FuncsAll, MapImports, MapExports, MapElems, MapDatas, MapCustoms, MapStart;
    hide ImportsAll, ExportsAll, ElemsAll, DatasAll, CustomsAll, StartAll;
  }

  lemma {:induction false} MappedFuncs<R(!new), S(!new)>(p: (Space, R) -> bool, f: (Space, R) -> S, q: (Space, S) -> bool, fs: seq<Func<R>>)
    requires FuncsAll(p, fs) && forall s: Space, r: R :: p(s, r) ==> q(s, f(s, r))
    ensures FuncsAll(q, MapFuncs(f, fs))
  {
    forall i | 0 <= i < |fs| ensures FuncAll(q, MapFuncs(f, fs)[i]) {
      assert FuncAll(p, fs[i]);
      forall k | 0 <= k < |fs[i].code| ensures ImmAll(q, MapCode(f, fs[i].code)[k].imm) {
        assert ImmAll(p, fs[i].code[k].imm);
      }
    }
  }

  lemma {:induction false} MappedLists<R(!new), S(!new)>(p: (Space, R) -> bool, f: (Space, R) -> S, q: (Space, S) -> bool, m: Module<R>)
    requires AllRefs(p, m) && forall s: Space, r: R :: p(s, r) ==> q(s, f(s, r))
    ensures ImportsAll(q, MapImports(f, m.imports)) && ExportsAll(q, MapExports(f, m.exports))
    ensures StartAll(q, MapStart(f, m.start)) && ElemsAll(q, MapElems(f, m.elems))
    ensures DatasAll(q, MapDatas(f, m.datas)) && CustomsAll(q, MapCustoms(f, m.customs))
  {
    hide FuncsAll;
    forall i | 0 <= i < |m.elems| ensures ListAll(q, FuncS, MapElems(f, m.elems)[i].funcs) {
      assert ListAll(p, FuncS, m.elems[i].funcs);
    }
    forall i | 0 <= i < |m.customs| ensures NamesAll(q, MapCustoms(f, m.customs)[i].names) {
      assert NamesAll(p, m.customs[i].names);
    }
    forall i | 0 <= i < |m.datas| ensures DataAll(q, MapDatas(f, m.datas)[i]) {
      assert DataAll(p, m.datas[i]);
    }
  }

  /** A weaker condition holds of all references, too. */
  lemma {:induction false} AllWeaken<R(!new)>(p: (Space, R) -> bool, q: (Space, R) -> bool, m: Module<R>)
    requires AllRefs(p, m) && forall s: Space, r: R :: p(s, r) ==> q(s, r)
    ensures AllRefs(q, m)
  {
    WeakenFuncs(p, q, m.funcs);
    WeakenLists(p, q, m);
    hide FuncsAll, ImportsAll, ExportsAll, ElemsAll, DatasAll, CustomsAll, StartAll;
  }

  lemma {:induction false} WeakenFuncs<R(!new)>(p: (Space, R) -> bool, q: (Space, R) -> bool, fs: seq<Func<R>>)
    requires FuncsAll(p, fs) && forall s: Space, r: R :: p(s, r) ==> q(s, r)
    ensures FuncsAll(q, fs)
  {
    forall i | 0 <= i < |fs| ensures FuncAll(q, fs[i]) {
      assert FuncAll(p, fs[i]);
      forall k | 0 <= k < |fs[i].code| ensures ImmAll(q, fs[i].code[k].imm) {
        assert ImmAll(p, fs[i].code[k].imm);
      }
    }
  }

  lemma {:induction false} WeakenLists<R(!new)>(p: (Space, R) -> bool, q: (Space, R) -> bool, m: Module<R>)
    requires AllRefs(p, m) && forall s: Space, r: R :: p(s, r) ==> q(s, r)
    ensures ImportsAll(q, m.imports) && ExportsAll(q, m.exports) && StartAll(q, m.start)
    ensures ElemsAll(q, m.elems) && DatasAll(q, m.datas) && CustomsAll(q, m.customs)
  {
    hide FuncsAll;
    forall i | 0 <= i < |m.elems| ensures ListAll(q, FuncS, m.elems[i].funcs) {
      assert ListAll(p, FuncS, m.elems[i].funcs);
    }
    forall i | 0 <= i < |m.customs| ensures NamesAll(q, m.customs[i].names) {
      assert NamesAll(p, m.customs[i].names);
    }
    forall i | 0 <= i < |m.datas| ensures DataAll(q, m.datas[i]) { assert DataAll(p, m.datas[i]); }
  }
}
