/** Imports, exports, elements, data, function bodies and custom sections, one item at a time. */
module CodecParts {
  import opened Bytes
  import opened Leb128
  import opened LebProof
  import opened Codec
  import opened CodecInst
  import opened CodecModule

  // ----- globals with their initializers -----

  function RdGlobal(bs: seq<byte>): Res<Global> {
    var t := RdGlobalType(bs);
    Mapped(RdInit(t.rest), i => t.val.(init := i))
  }

  function WrGlobal(g: Global): seq<byte> { WrGlobalType(g) + g.init }

  lemma {:induction false} GlobalReads(g: Global, rest: seq<byte>)
    requires InitOk(g.init)
    ensures RdGlobal(WrGlobal(g) + rest) == Got(g, rest)
  {
    hide *;
    GlobalSplit(g, rest);
    GlobalTypeReads(g, g.init + rest);
    InitRead(g.init, rest);
    GlobalIf(WrGlobal(g) + rest, g.(init := []), g.init + rest, g.init, rest);
  }

  lemma GlobalSplit(g: Global, rest: seq<byte>)
    ensures WrGlobal(g) + rest == WrGlobalType(g) + (g.init + rest)
  {
    hide WrGlobalType;
  }

  lemma InitRead(init: seq<byte>, rest: seq<byte>)
    requires InitOk(init)
    ensures RdInit(init + rest) == Got(init, rest)
  {
    hide RdInit;
  }

  lemma GlobalIf(bs: seq<byte>, t: Global, r1: seq<byte>, init: seq<byte>, r2: seq<byte>)
    requires RdGlobalType(bs) == Got(t, r1) && RdInit(r1) == Got(init, r2)
    ensures RdGlobal(bs) == Got(t.(init := init), r2)
  {
    hide RdGlobalType, RdInit;
  }

  lemma GlobalSound(bs: seq<byte>)
    ensures RdGlobal(bs).Got? ==> InitOk(RdGlobal(bs).val.init)
  {
    var t := RdGlobalType(bs);
    if RdInit(t.rest).Got? { InitSound(t.rest); }
    hide RdGlobalType, RdInit, InitOk;
  }

  // ----- kinds -----

  function KindByte(k: CodecModule.Kind): byte {
    match k case FuncK => 0 case TableK => 1 case MemK => 2 case GlobalK => 3
  }

  function RdKind(bs: seq<byte>): (r: Res<CodecModule.Kind>)
  {
    var b := RdByte(bs);
    if b.val == 0 then Got(FuncK, b.rest)
    else if b.val == 1 then Got(TableK, b.rest)
    else if b.val == 2 then Got(MemK, b.rest)
    else if b.val == 3 then Got(GlobalK, b.rest)
    else Fail
  }

  lemma KindReads(k: CodecModule.Kind, rest: seq<byte>)
    ensures RdKind([KindByte(k)] + rest) == Got(k, rest)
  {
    ByteReads(KindByte(k), rest);
    hide RdByte;
  }

  function Space(env: Env, k: CodecModule.Kind): nat {
    match k case FuncK => env.funcs case TableK => env.tables case MemK => env.mems case GlobalK => env.globals
  }

  // ----- imports -----

  /** What an import declares: the declaration that goes to the front of its index space. */
  datatype Item = FuncItem(sig: nat) | TableItem(t: Table) | MemItem(m: Limits) | GlobalItem(g: Global)
  datatype Entry = Entry(modName: seq<byte>, member: seq<byte>, item: Item)

  function ItemKind(i: Item): CodecModule.Kind {
    match i case FuncItem(_) => FuncK case TableItem(_) => TableK case MemItem(_) => MemK case GlobalItem(_) => GlobalK
  }

  function RdItem(sigs: nat, k: CodecModule.Kind, bs: seq<byte>): Res<Item> {
    match k
    case FuncK => Mapped(RdIdx(sigs, bs), s => FuncItem(s))
    case TableK => Mapped(RdTable(bs), t => TableItem(t))
    case MemK => Mapped(RdLimits(bs), m => MemItem(m))
    case GlobalK => Mapped(RdGlobalType(bs), g => GlobalItem(g))
  }

  function WrItem(i: Item): seq<byte> {
    match i
    case FuncItem(s) => WrU32(s)
    case TableItem(t) => WrTable(t)
    case MemItem(m) => WrLimits(m)
    case GlobalItem(g) => WrGlobalType(g)
  }

  predicate ItemOk(sigs: nat, i: Item) {
    match i
    case FuncItem(s) => s < sigs && s < TWO32
    case TableItem(t) => TableOk(t)
    case MemItem(m) => LimitsOk(m)
    case GlobalItem(g) => g.init == []
  }

  lemma {:induction false} ItemReads(sigs: nat, i: Item, rest: seq<byte>)
    requires ItemOk(sigs, i)
    ensures RdItem(sigs, ItemKind(i), WrItem(i) + rest) == Got(i, rest)
  {
    hide RdIdx, RdTable, RdLimits, RdGlobalType, WrU32, WrTable, WrLimits, WrGlobalType;
    match i
    case FuncItem(s) => IdxReads(sigs, s, rest);
    case TableItem(t) => TableReads(t, rest);
    case MemItem(m) => LimitsRead(m, rest);
    case GlobalItem(g) => GlobalTypeReads(g, rest);
  }

  lemma {:induction false} ItemSound(sigs: nat, k: CodecModule.Kind, bs: seq<byte>)
    ensures var r := RdItem(sigs, k, bs); r.Got? ==> ItemOk(sigs, r.val) && ItemKind(r.val) == k
  {
    TableSound(bs);
    LimitsSound(bs);
    hide RdIdx, RdTable, RdLimits, TableOk, LimitsOk;
  }

  function RdEntry(sigs: nat, bs: seq<byte>): Res<Entry> {
    match RdName(bs)
    case Fail => Fail
    case Got(a, r1) =>
      match RdName(r1)
      case Fail => Fail
      case Got(b, r2) =>
        match RdKind(r2)
        case Fail => Fail
        case Got(k, r3) => Mapped(RdItem(sigs, k, r3), i => Entry(a, b, i))
  }

  function WrEntry(e: Entry): seq<byte> {
    WrName(e.modName) + WrName(e.member) + [KindByte(ItemKind(e.item))] + WrItem(e.item)
  }

  predicate EntryOk(sigs: nat, e: Entry) { |e.modName| < TWO32 && |e.member| < TWO32 && ItemOk(sigs, e.item) }

  lemma {:induction false} EntryReads(sigs: nat, e: Entry, rest: seq<byte>)
    requires EntryOk(sigs, e)
    ensures RdEntry(sigs, WrEntry(e) + rest) == Got(e, rest)
  {
    var k := ItemKind(e.item);
    var c := [KindByte(k)] + (WrItem(e.item) + rest);
    assert WrEntry(e) + rest == WrName(e.modName) + (WrName(e.member) + c);
    NameReads(e.modName, WrName(e.member) + c);
    NameReads(e.member, c);
    KindReads(k, WrItem(e.item) + rest);
    ItemReads(sigs, e.item, rest);
    hide RdName, WrName, RdKind, RdItem, WrItem, ItemKind, KindByte;
  }

  lemma {:induction false} EntrySound(sigs: nat, bs: seq<byte>)
    ensures RdEntry(sigs, bs).Got? ==> EntryOk(sigs, RdEntry(sigs, bs).val)
  {
    if RdEntry(sigs, bs).Got? {
      var r3 := RdKind(RdName(RdName(bs).rest).rest);
      ItemSound(sigs, r3.val, r3.rest);
    }
    hide RdName, RdKind, RdItem, ItemOk;
  }

  // ----- exports -----

  function RdExport(env: Env, bs: seq<byte>): Res<Export<nat>> {
    match RdName(bs)
    case Fail => Fail
    case Got(name, r1) =>
      match RdKind(r1)
      case Fail => Fail
      case Got(k, r2) => Mapped(RdIdx(Space(env, k), r2), i => Export(name, k, i))
  }

  function WrExport(e: Export<nat>): seq<byte> { WrName(e.name) + [KindByte(e.kind)] + WrU32(e.desc) }

  predicate ExportOk(env: Env, e: Export<nat>) {
    |e.name| < TWO32 && e.desc < Space(env, e.kind) && e.desc < TWO32
  }

  lemma {:induction false} ExportReads(env: Env, e: Export<nat>, rest: seq<byte>)
    requires ExportOk(env, e)
    ensures RdExport(env, WrExport(e) + rest) == Got(e, rest)
  {
    var c := [KindByte(e.kind)] + (WrU32(e.desc) + rest);
    assert WrExport(e) + rest == WrName(e.name) + c;
    NameReads(e.name, c);
    KindReads(e.kind, WrU32(e.desc) + rest);
    IdxReads(Space(env, e.kind), e.desc, rest);
    hide RdName, WrName, RdKind, RdIdx, WrU32, KindByte, Space;
  }

  lemma ExportSound(env: Env, bs: seq<byte>)
    ensures RdExport(env, bs).Got? ==> ExportOk(env, RdExport(env, bs).val)
  {
    hide RdName, RdKind, RdIdx, Space;
  }

  // ----- elements -----

  function RdElem(funcs: nat, bs: seq<byte>): Res<Elem<nat>> {
    var flag := RdU32(bs);
    if flag.val != 0 then Fail
    else
      match RdOffset(flag.rest)
      case Fail => Fail
      case Got(o, rest) => Mapped(RdVec((b: seq<byte>) => RdIdx(funcs, b), rest), fs => Elem(o, fs))
  }

  function WrElem(e: Elem<nat>): seq<byte> { WrU32(0) + WrOffset(e.offset) + WrVec(WrU32, e.funcs) }

  predicate ElemOk(funcs: nat, e: Elem<nat>) {
    OffsetOk(e.offset) && |e.funcs| < TWO32 && forall f :: f in e.funcs ==> f < funcs && f < TWO32
  }

  lemma {:induction false} IdxsRead(n: nat, idxs: seq<nat>, rest: seq<byte>)
    requires |idxs| < TWO32 && forall i :: i in idxs ==> i < n && i < TWO32
    ensures RdVec((b: seq<byte>) => RdIdx(n, b), WrVec(WrU32, idxs) + rest) == Got(idxs, rest)
  {
    forall i | i in idxs ensures Reads((b: seq<byte>) => RdIdx(n, b), WrU32(i), i) {
      forall r: seq<byte> ensures RdIdx(n, WrU32(i) + r) == Got(i, r) { IdxReads(n, i, r); }
    }
    hide RdIdx, WrU32;
    VecReads((b: seq<byte>) => RdIdx(n, b), WrU32, idxs, rest);
  }

  lemma {:induction false} ElemReads(funcs: nat, e: Elem<nat>, rest: seq<byte>)
    requires ElemOk(funcs, e)
    ensures RdElem(funcs, WrElem(e) + rest) == Got(e, rest)
  {
    var c := WrVec(WrU32, e.funcs) + rest;
    assert WrElem(e) + rest == WrU32(0) + (WrOffset(e.offset) + c);
    U32Reads(0, WrOffset(e.offset) + c);
    OffsetReads(e.offset, c);
    IdxsRead(funcs, e.funcs, rest);
    hide RdU32, WrU32, RdOffset, WrOffset, RdVec, WrVec, RdIdx;
  }

  lemma {:induction false} ElemSound(funcs: nat, bs: seq<byte>)
    ensures RdElem(funcs, bs).Got? ==> ElemOk(funcs, RdElem(funcs, bs).val)
  {
    if RdElem(funcs, bs).Got? {
      var o := RdOffset(RdU32(bs).rest);
      var n := RdU32(o.rest);
      ManyHave((b: seq<byte>) => RdIdx(funcs, b), (i: nat) => i < funcs && i < TWO32, n.val, n.rest);
    }
    hide RdU32, RdOffset, RdIdx;
  }

  // ----- data -----

  function RdPayload(bs: seq<byte>): (r: Res<seq<byte>>)
    ensures r.Got? && |r.val| < TWO32
  {
    var n := RdU32(bs);
    RdBytes(n.val, n.rest)
  }

  function WrPayload(s: seq<byte>): seq<byte> { WrU32(|s|) + s }

  lemma PayloadReads(s: seq<byte>, rest: seq<byte>)
    requires |s| < TWO32
    ensures RdPayload(WrPayload(s) + rest) == Got(s, rest)
  {
    assert WrPayload(s) + rest == WrU32(|s|) + (s + rest);
    U32Reads(|s|, s + rest);
    BytesRead(s, rest);
    hide RdU32, WrU32, RdBytes;
  }

  /** Active segments of memory 0, passive segments, active segments with a memory index. */
  function RdData(mems: nat, bs: seq<byte>): Res<Data<nat>> {
    var flag := RdU32(bs);
    if flag.val == 0 then
      (match RdOffset(flag.rest)
       case Fail => Fail
       case Got(o, rest) => if mems == 0 then Fail else Mapped(RdPayload(rest), b => Active0(o, 0, b)))
    else if flag.val == 1 then Mapped(RdPayload(flag.rest), b => Passive(b))
    else if flag.val == 2 then
      (match RdIdx(mems, flag.rest)
       case Fail => Fail
       case Got(m, r1) =>
         match RdOffset(r1)
         case Fail => Fail
         case Got(o, r2) => Mapped(RdPayload(r2), b => Active2(m, o, b)))
    else Fail
  }

  function WrData(d: Data<nat>): seq<byte> {
    match d
    case Unread => []
    case Active0(o, _, b) => WrU32(0) + WrOffset(o) + WrPayload(b)
    case Passive(b) => WrU32(1) + WrPayload(b)
    case Active2(m, o, b) => WrU32(2) + WrU32(m) + WrOffset(o) + WrPayload(b)
  }

  predicate DataOk(mems: nat, d: Data<nat>) {
    match d
    case Unread => false
    case Active0(o, m, b) => OffsetOk(o) && m == 0 < mems && |b| < TWO32
    case Passive(b) => |b| < TWO32
    case Active2(m, o, b) => m < mems && m < TWO32 && OffsetOk(o) && |b| < TWO32
  }

  lemma {:induction false} DataReads(mems: nat, d: Data<nat>, rest: seq<byte>)
    requires DataOk(mems, d)
    ensures RdData(mems, WrData(d) + rest) == Got(d, rest)
  {
    hide RdU32, WrU32, RdIdx, RdOffset, WrOffset, RdPayload, WrPayload;
    match d
    case Active0(o, _, b) =>
      assert WrData(d) + rest == WrU32(0) + (WrOffset(o) + (WrPayload(b) + rest));
      U32Reads(0, WrOffset(o) + (WrPayload(b) + rest));
      OffsetReads(o, WrPayload(b) + rest);
      PayloadReads(b, rest);
    case Passive(b) =>
      assert WrData(d) + rest == WrU32(1) + (WrPayload(b) + rest);
      U32Reads(1, WrPayload(b) + rest);
      PayloadReads(b, rest);
    case Active2(m, o, b) =>
      assert WrData(d) + rest == WrU32(2) + (WrU32(m) + (WrOffset(o) + (WrPayload(b) + rest)));
      U32Reads(2, WrU32(m) + (WrOffset(o) + (WrPayload(b) + rest)));
      IdxReads(mems, m, WrOffset(o) + (WrPayload(b) + rest));
      OffsetReads(o, WrPayload(b) + rest);
      PayloadReads(b, rest);
  }

  lemma {:induction false} DataSound(mems: nat, bs: seq<byte>)
    ensures RdData(mems, bs).Got? ==> DataOk(mems, RdData(mems, bs).val)
  {
    hide RdU32, RdIdx, RdOffset, RdPayload, OffsetOk;
  }

  // ----- function bodies -----

  function RdRun(bs: seq<byte>): (r: Res<LocalRun>)
    ensures r.Got?
  {
    var n := RdU32(bs);
    var t := RdByte(n.rest);
    Got(LocalRun(n.val, t.val), t.rest)
  }

  function WrRun(l: LocalRun): seq<byte> { WrU32(l.count) + [l.ty] }

  predicate RunOk(l: LocalRun) { l.count < TWO32 }

  lemma {:induction false} RunReads(l: LocalRun, rest: seq<byte>)
    requires RunOk(l)
    ensures RdRun(WrRun(l) + rest) == Got(l, rest)
  {
    assert WrRun(l) + rest == WrU32(l.count) + ([l.ty] + rest);
    U32Reads(l.count, [l.ty] + rest);
    ByteReads(l.ty, rest);
    hide RdU32, WrU32, RdByte;
  }

  function RdLocals(bs: seq<byte>): Res<seq<LocalRun>> { RdVec(RdRun, bs) }
  function WrLocals(ls: seq<LocalRun>): seq<byte> { WrVec(WrRun, ls) }

  predicate LocalsOk(ls: seq<LocalRun>) { |ls| < TWO32 && forall l :: l in ls ==> RunOk(l) }

  lemma {:induction false} LocalsRead(ls: seq<LocalRun>, rest: seq<byte>)
    requires LocalsOk(ls)
    ensures RdLocals(WrLocals(ls) + rest) == Got(ls, rest)
  {
    forall l | l in ls ensures Reads(RdRun, WrRun(l), l) {
      forall r: seq<byte> ensures RdRun(WrRun(l) + r) == Got(l, r) { RunReads(l, r); }
    }
    hide RdRun, WrRun, RdVec, WrVec;
    VecReads(RdRun, WrRun, ls, rest);
  }

  lemma {:induction false} LocalsSound(bs: seq<byte>)
    ensures RdLocals(bs).Got? ==> LocalsOk(RdLocals(bs).val)
  {
    var n := RdU32(bs);
    ManyHave(RdRun, RunOk, n.val, n.rest);
    hide RdU32;
  }

  datatype Body<R> = Body(locals: seq<LocalRun>, code: seq<Inst<R>>)

  /** A size, then locals and instructions that together take exactly that many bytes. */
  function RdBody(env: Env, bs: seq<byte>): Res<Body<nat>> {
    var size := RdU32(bs);
    match RdLocals(size.rest)
    case Fail => Fail
    case Got(ls, r1) =>
      var used := |size.rest| - |r1|;
      if used < 0 || size.val < used || size.val - used > |r1| then Fail
      else
        var n := size.val - used;
        match RdExpr(env, r1[..n])
        case Fail => Fail
        case Got(code, _) => Got(Body(ls, code), r1[n..])
  }

  function BodyBytes(b: Body<nat>): seq<byte>
  {
    WrLocals(b.locals) + WrExpr(b.code)
  }

  /** The size is computed from the finished body and put in front of it. */
  function WrBody(b: Body<nat>): seq<byte>
  {
    WrU32(|BodyBytes(b)|) + BodyBytes(b)
  }

  predicate BodyOk(env: Env, b: Body<nat>) {
    LocalsOk(b.locals) && AllOk(env, b.code)
  }

  lemma {:induction false} BodyReads(env: Env, b: Body<nat>, rest: seq<byte>)
    requires BodyOk(env, b) && |BodyBytes(b)| < TWO32
    ensures RdBody(env, WrBody(b) + rest) == Got(b, rest)
  {
    hide RdU32, WrU32, RdLocals, WrLocals, RdExpr, WrExpr, KindOf, KindOfImm, ImmOk, LocalsOk;
    var ls, code := WrLocals(b.locals), WrExpr(b.code);
    var all := BodyBytes(b);
    U32Reads(|all|, all + rest);
    LocalsRead(b.locals, code + rest);
    ExprReads(env, b.code);
    BodyPieces(WrU32(|all|), ls, code, rest);
    hide AllOk;
  }

  lemma BodyPieces(size: seq<byte>, ls: seq<byte>, code: seq<byte>, rest: seq<byte>)
    ensures size + (ls + code) + rest == size + (ls + code + rest) && ls + code + rest == ls + (code + rest)
    ensures (code + rest)[..|code|] == code && (code + rest)[|code|..] == rest
  {
    assert size + (ls + code) + rest == size + ((ls + code) + rest);
  }

  lemma BodyIs(env: Env, bs: seq<byte>)
    ensures var size := RdU32(bs);
      RdBody(env, bs) == match RdLocals(size.rest)
        case Fail => Fail
        case Got(ls, r1) =>
          var used := |size.rest| - |r1|;
          if used < 0 || size.val < used || size.val - used > |r1| then Fail
          else match RdExpr(env, r1[..size.val - used])
               case Fail => Fail
               case Got(code, _) => Got(Body(ls, code), r1[size.val - used..])
  {
    hide RdU32, RdLocals, RdExpr;
  }

  lemma {:induction false} BodySound(env: Env, bs: seq<byte>)
    ensures RdBody(env, bs).Got? ==> BodyOk(env, RdBody(env, bs).val)
  {
    hide *;
    BodyIs(env, bs);
    var size := RdU32(bs);
    LocalsSound(size.rest);
    var r := RdLocals(size.rest);
    if RdBody(env, bs).Got? {
      var code := r.rest[..size.val - (|size.rest| - |r.rest|)];
      ExprSound(env, code);
      BodyOkIf(env, r.val, RdExpr(env, code).val);
    }
  }

  lemma BodyOkIf(env: Env, locals: seq<LocalRun>, code: seq<Inst<nat>>)
    requires LocalsOk(locals) && AllOk(env, code)
    ensures BodyOk(env, Body(locals, code))
  {
    hide LocalsOk, AllOk;
  }

  // ----- custom sections -----

  const NAME_SECTION: seq<byte> := [0x6E, 0x61, 0x6D, 0x65]

  function RdAssoc(funcs: nat, bs: seq<byte>): Res<NameAssoc<nat>> {
    match RdIdx(funcs, bs)
    case Fail => Fail
    case Got(f, rest) => Mapped(RdName(rest), n => NameAssoc(f, n))
  }

  function WrAssoc(a: NameAssoc<nat>): seq<byte> { WrU32(a.func) + WrName(a.name) }

  predicate AssocOk(funcs: nat, a: NameAssoc<nat>) { a.func < funcs && a.func < TWO32 && |a.name| < TWO32 }

  lemma {:induction false} AssocReads(funcs: nat, a: NameAssoc<nat>, rest: seq<byte>)
    requires AssocOk(funcs, a)
    ensures RdAssoc(funcs, WrAssoc(a) + rest) == Got(a, rest)
  {
    assert WrAssoc(a) + rest == WrU32(a.func) + (WrName(a.name) + rest);
    IdxReads(funcs, a.func, WrName(a.name) + rest);
    NameReads(a.name, rest);
    hide RdIdx, WrU32, RdName, WrName;
  }

  function RdAssocs(funcs: nat, bs: seq<byte>): Res<seq<NameAssoc<nat>>> {
    RdVec((b: seq<byte>) => RdAssoc(funcs, b), bs)
  }

  function WrAssocs(assocs: seq<NameAssoc<nat>>): seq<byte> { WrVec(WrAssoc, assocs) }

  predicate AssocsOk(funcs: nat, assocs: seq<NameAssoc<nat>>) {
    |assocs| < TWO32 && forall a :: a in assocs ==> AssocOk(funcs, a)
  }

  lemma {:induction false} AssocsRead(funcs: nat, assocs: seq<NameAssoc<nat>>, rest: seq<byte>)
    requires AssocsOk(funcs, assocs)
    ensures RdAssocs(funcs, WrAssocs(assocs) + rest) == Got(assocs, rest)
  {
    forall a | a in assocs ensures Reads((b: seq<byte>) => RdAssoc(funcs, b), WrAssoc(a), a) {
      forall r: seq<byte> ensures RdAssoc(funcs, WrAssoc(a) + r) == Got(a, r) { AssocReads(funcs, a, r); }
    }
    hide RdAssoc, WrAssoc;
    VecReads((b: seq<byte>) => RdAssoc(funcs, b), WrAssoc, assocs, rest);
  }

  datatype NameMap<R> = NameMap(subs: seq<Subsec>, names: seq<NameAssoc<R>>)

  /**
   * The subsections of a name section: the function names are taken apart, of the others the bytes
   * are kept.  Several lists of function names run together.
   */
  function RdNames(funcs: nat, bs: seq<byte>, m: NameMap<nat>): Option<NameMap<nat>>
    decreases |bs|
  {
    if bs == [] then Some(m)
    else
      var len := RdU32(bs[1..]);
      if bs[0] != 1 then
        var b := RdBytes(len.val, len.rest);
        RdNames(funcs, b.rest, m.(subs := m.subs + [Subsec(bs[0], b.val)]))
      else
        match RdAssocs(funcs, len.rest)
        case Fail => None
        case Got(assocs, rest) =>
          if |rest| > |len.rest| || |len.rest| - |rest| != len.val then None
          else RdNames(funcs, rest, m.(names := m.names + assocs))
  }

  function WrSub(s: Subsec): seq<byte> { [s.id] + WrPayload(s.bytes) }

  function WrSubs(ss: seq<Subsec>): seq<byte> {
    if ss == [] then [] else WrSub(ss[0]) + WrSubs(ss[1..])
  }

  function WrFuncNames(assocs: seq<NameAssoc<nat>>): seq<byte> {
    if assocs == [] then [] else [1] + WrPayload(WrAssocs(assocs))
  }

  /** How many subsections go in front of the function names: those with id 0, up to the first other. */
  function Front(ss: seq<Subsec>): (n: nat)
    ensures n <= |ss| && (forall i :: 0 <= i < n ==> ss[i].id == 0) && (n < |ss| ==> ss[n].id != 0)
  {
    if ss != [] && ss[0].id < 1 then 1 + Front(ss[1..]) else 0
  }

  function WrNames(m: NameMap<nat>): seq<byte> {
    WrSubs(m.subs[..Front(m.subs)]) + WrFuncNames(m.names) + WrSubs(m.subs[Front(m.subs)..])
  }

  predicate SubOk(s: Subsec) { s.id != 1 && |s.bytes| < TWO32 }

  lemma {:induction false} SubReads(funcs: nat, s: Subsec, rest: seq<byte>, m: NameMap<nat>)
    requires SubOk(s)
    ensures RdNames(funcs, WrSub(s) + rest, m) == RdNames(funcs, rest, m.(subs := m.subs + [s]))
  {
    var bs := WrSub(s) + rest;
    assert bs == [s.id] + (WrU32(|s.bytes|) + (s.bytes + rest));
    assert bs[1..] == WrU32(|s.bytes|) + (s.bytes + rest);
    U32Reads(|s.bytes|, s.bytes + rest);
    BytesRead(s.bytes, rest);
    hide RdU32, WrU32, RdBytes, RdAssocs;
  }

  lemma {:induction false} SubsRead(funcs: nat, ss: seq<Subsec>, rest: seq<byte>, m: NameMap<nat>)
    requires forall s :: s in ss ==> SubOk(s)
    ensures RdNames(funcs, WrSubs(ss) + rest, m) == RdNames(funcs, rest, m.(subs := m.subs + ss))
    decreases |ss|
  {
    hide RdNames, WrSub;
    if ss == [] {
      assert WrSubs(ss) + rest == rest && m.subs + ss == m.subs;
    } else {
      assert WrSubs(ss) + rest == WrSub(ss[0]) + (WrSubs(ss[1..]) + rest);
      SubReads(funcs, ss[0], WrSubs(ss[1..]) + rest, m);
      SubsRead(funcs, ss[1..], rest, m.(subs := m.subs + [ss[0]]));
      assert m.subs + [ss[0]] + ss[1..] == m.subs + ss;
    }
  }

  lemma {:induction false} FuncNamesRead(funcs: nat, assocs: seq<NameAssoc<nat>>, rest: seq<byte>, m: NameMap<nat>)
    requires AssocsOk(funcs, assocs) && |WrAssocs(assocs)| < TWO32
    ensures RdNames(funcs, WrFuncNames(assocs) + rest, m) == RdNames(funcs, rest, m.(names := m.names + assocs))
  {
    hide *;
    if assocs == [] {
      NoFuncNames();
      assert [] + rest == rest && m.names + assocs == m.names;
    } else {
      var all := WrAssocs(assocs);
      FuncNamesSplit(assocs, rest);
      U32Reads(|all|, all + rest);
      AssocsRead(funcs, assocs, rest);
      NamesStep(funcs, WrFuncNames(assocs) + rest, |all|, all + rest, m, assocs, rest);
    }
  }

  lemma NoFuncNames()
    ensures WrFuncNames([]) == []
  {
  }

  lemma FuncNamesSplit(assocs: seq<NameAssoc<nat>>, rest: seq<byte>)
    requires assocs != []
    ensures var all, bs := WrAssocs(assocs), WrFuncNames(assocs) + rest;
      bs != [] && bs[0] == 1 && bs[1..] == WrU32(|all|) + (all + rest)
  {
    hide WrAssocs, WrU32;
    var all := WrAssocs(assocs);
    assert WrFuncNames(assocs) + rest == [1] + (WrU32(|all|) + (all + rest));
  }

  lemma NamesStep(funcs: nat, bs: seq<byte>, len: nat, body: seq<byte>, m: NameMap<nat>, assocs: seq<NameAssoc<nat>>, rest: seq<byte>)
    requires bs != [] && bs[0] == 1 && RdU32(bs[1..]) == Got(len, body)
    requires RdAssocs(funcs, body) == Got(assocs, rest) && |body| == len + |rest|
    ensures RdNames(funcs, bs, m) == RdNames(funcs, rest, m.(names := m.names + assocs))
  {
    hide RdU32, RdAssocs;
  }

  /** The subsections come back in their order, the function names whole. */
  lemma {:induction false} NamesRead(funcs: nat, m: NameMap<nat>)
    requires AssocsOk(funcs, m.names) && |WrAssocs(m.names)| < TWO32 && forall s :: s in m.subs ==> SubOk(s)
    ensures RdNames(funcs, WrNames(m), NameMap([], [])) == Some(m)
  {
    hide RdNames, WrSubs, WrFuncNames, AssocsOk, SubOk;
    var n := Front(m.subs);
    var a, b := m.subs[..n], m.subs[n..];
    assert forall s :: s in a || s in b ==> s in m.subs;
    var m0: NameMap<nat>, m1, m2 := NameMap([], []), NameMap(a, []), NameMap(a, m.names);
    assert m0.(subs := m0.subs + a) == m1 by { assert [] + a == a; }
    assert m1.(names := m1.names + m.names) == m2 by { assert [] + m.names == m.names; }
    assert m2.(subs := m2.subs + b) == m by { assert a + b == m.subs; }
    var tail := WrSubs(b) + [];
    NamesPieces(WrSubs(a), WrFuncNames(m.names), WrSubs(b));
    SubsRead(funcs, a, WrFuncNames(m.names) + tail, m0);
    FuncNamesRead(funcs, m.names, tail, m1);
    SubsRead(funcs, b, [], m2);
    NamesEnd(funcs, m);
  }

  lemma NamesPieces(x: seq<byte>, y: seq<byte>, z: seq<byte>)
    ensures x + y + z == x + (y + (z + []))
  {
  }

  lemma NamesEnd(funcs: nat, m: NameMap<nat>)
    ensures RdNames(funcs, [], m) == Some(m)
  {
  }

  predicate NamesOk(funcs: nat, m: NameMap<nat>) {
    (forall a :: a in m.names ==> AssocOk(funcs, a)) && forall s :: s in m.subs ==> SubOk(s)
  }

  lemma {:induction false} AssocsSound(funcs: nat, bs: seq<byte>)
    ensures RdAssocs(funcs, bs).Got? ==> AssocsOk(funcs, RdAssocs(funcs, bs).val)
  {
    var n := RdU32(bs);
    ManyHave((b: seq<byte>) => RdAssoc(funcs, b), (a: NameAssoc<nat>) => AssocOk(funcs, a), n.val, n.rest);
    hide RdU32, RdIdx, RdName;
  }

  lemma {:induction false} NamesSound(funcs: nat, bs: seq<byte>, m: NameMap<nat>)
    requires NamesOk(funcs, m)
    ensures RdNames(funcs, bs, m).Some? ==> NamesOk(funcs, RdNames(funcs, bs, m).value)
    decreases |bs|
  {
    hide RdU32, RdBytes, RdAssocs, AssocOk;
    if bs != [] {
      var len := RdU32(bs[1..]);
      if bs[0] != 1 {
        var b := RdBytes(len.val, len.rest);
        NamesSound(funcs, b.rest, m.(subs := m.subs + [Subsec(bs[0], b.val)]));
      } else {
        AssocsSound(funcs, len.rest);
        var r := RdAssocs(funcs, len.rest);
        if r.Got? && |r.rest| <= |len.rest| && |len.rest| - |r.rest| == len.val {
          NamesSound(funcs, r.rest, m.(names := m.names + r.val));
        }
      }
    }
  }
}
