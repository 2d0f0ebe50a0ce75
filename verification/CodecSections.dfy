/** Whole sections: what the decoder does to the module for each, and what the encoder writes. */
module CodecSections {
  import opened Bytes
  import opened Leb128
  import opened LebProof
  import opened Codec
  import opened CodecInst
  import opened CodecModule
  import opened CodecParts

  type Mod = Module<nat>

  const EMPTY: Mod := Module([], [], Counts(0, 0, 0, 0), [], [], [], [], [], None, [], false, [], [])

  function EnvOf(m: Mod): Env {
    Env(|m.sigs|, |m.funcs|, |m.tables|, |m.mems|, |m.globals|, |m.datas|)
  }

  /** A section's contents must be used up. */
  function Whole<T>(r: Res<T>): Option<T> {
    if r.Got? && r.rest == [] then Some(r.val) else None
  }

  // ----- imports -----

  function Bump(c: Counts, k: CodecModule.Kind): Counts {
    match k
    case FuncK => c.(funcs := c.funcs + 1)
    case TableK => c.(tables := c.tables + 1)
    case MemK => c.(mems := c.mems + 1)
    case GlobalK => c.(globals := c.globals + 1)
  }

  /** One more import: its declaration goes to the end of its index space and is what it refers to. */
  function AddEntry(m: Mod, e: Entry): Mod {
    var k := ItemKind(e.item);
    var imp := Import(e.modName, e.member, k, Space(EnvOf(m), k));
    var m1 := m.(imports := m.imports + [imp], nums := Bump(m.nums, k));
    match e.item
    case FuncItem(s) => m1.(funcs := m.funcs + [Func(s, [], [])])
    case TableItem(t) => m1.(tables := m.tables + [t])
    case MemItem(l) => m1.(mems := m.mems + [l])
    case GlobalItem(g) => m1.(globals := m.globals + [g])
  }

  function AddEntries(m: Mod, es: seq<Entry>): Mod {
    if es == [] then m else AddEntry(AddEntries(m, es[..|es| - 1]), es[|es| - 1])
  }

  // ----- the decoder, section by section -----

  /** The module so far and the number of data segments announced. */
  datatype State = State(m: Mod, declared: nat)

  function Upd(st: State, m: Option<Mod>): Option<State> {
    match m case None => None case Some(x) => Some(st.(m := x))
  }

  function DecodeTypes(m: Mod, bs: seq<byte>): Option<Mod> {
    match Whole(RdVec(RdSig, bs))
    case None => None
    case Some(ss) => Some(m.(sigs := m.sigs + ss))
  }

  function DecodeImports(m: Mod, bs: seq<byte>): Option<Mod> {
    match Whole(RdVec((b: seq<byte>) => RdEntry(|m.sigs|, b), bs))
    case None => None
    case Some(es) => Some(AddEntries(m, es))
  }

  function BareFunc(sig: nat): Func<nat> { Func(sig, [], []) }

  function BareFuncs(sigs: seq<nat>): (r: seq<Func<nat>>)
    ensures |r| == |sigs|
  {
    seq(|sigs|, i requires 0 <= i < |sigs| => BareFunc(sigs[i]))
  }

  function DecodeFunctions(m: Mod, bs: seq<byte>): Option<Mod> {
    if m.nums.funcs != |m.funcs| then None
    else
      match Whole(RdVec((b: seq<byte>) => RdIdx(|m.sigs|, b), bs))
      case None => None
      case Some(sigs) => Some(m.(funcs := m.funcs + BareFuncs(sigs)))
  }

  function DecodeTables(m: Mod, bs: seq<byte>): Option<Mod> {
    if m.nums.tables != |m.tables| then None
    else
      match Whole(RdVec(RdTable, bs))
      case None => None
      case Some(ts) => Some(m.(tables := m.tables + ts))
  }

  /** Exactly one memory, and only if there is none yet. */
  function DecodeMemory(m: Mod, bs: seq<byte>): Option<Mod> {
    var n := RdU32(bs);
    if n.val != 1 || m.mems != [] then None
    else
      match Whole(RdLimits(n.rest))
      case None => None
      case Some(l) => Some(m.(mems := [l]))
  }

  function DecodeGlobals(m: Mod, bs: seq<byte>): Option<Mod> {
    if m.nums.globals != |m.globals| then None
    else
      match Whole(RdVec(RdGlobal, bs))
      case None => None
      case Some(gs) => Some(m.(globals := m.globals + gs))
  }

  function DecodeExports(m: Mod, bs: seq<byte>): Option<Mod> {
    match Whole(RdVec((b: seq<byte>) => RdExport(EnvOf(m), b), bs))
    case None => None
    case Some(es) => Some(m.(exports := m.exports + es))
  }

  function DecodeStart(m: Mod, bs: seq<byte>): Option<Mod> {
    match Whole(RdIdx(|m.funcs|, bs))
    case None => None
    case Some(f) => Some(m.(start := Some(f)))
  }

  function DecodeElems(m: Mod, bs: seq<byte>): Option<Mod> {
    match Whole(RdVec((b: seq<byte>) => RdElem(|m.funcs|, b), bs))
    case None => None
    case Some(es) => Some(m.(elems := m.elems + es))
  }

  function Unreads(n: nat): (r: seq<Data<nat>>)
    ensures |r| == n
  {
    seq(n, _ => Unread)
  }

  function DecodeDatacount(st: State, bs: seq<byte>): Option<State> {
    match Whole(RdU32(bs))
    case None => None
    case Some(n) => Some(State(st.m.(hasDatacount := true, datas := st.m.datas + Unreads(n)), n))
  }

  /** Bodies for the functions behind the imported ones. */
  function WithBodies(funcs: seq<Func<nat>>, first: nat, bodies: seq<Body<nat>>): (r: seq<Func<nat>>)
    requires first + |bodies| == |funcs|
    ensures |r| == |funcs|
  {
    funcs[..first]
    + seq(|bodies|, i requires 0 <= i < |bodies| => Func(funcs[first + i].sig, bodies[i].locals, bodies[i].code))
  }

  /** The announced number of bodies is skipped; there is one for every function there is. */
  function DecodeCode(m: Mod, bs: seq<byte>): Option<Mod> {
    if m.nums.funcs > |m.funcs| then None
    else
      var n := RdU32(bs);
      match Whole(RdMany((b: seq<byte>) => RdBody(EnvOf(m), b), |m.funcs| - m.nums.funcs, n.rest))
      case None => None
      case Some(bodies) => Some(m.(funcs := WithBodies(m.funcs, m.nums.funcs, bodies)))
  }

  /** The number of segments must be the announced one, if one was; then all segments are read. */
  function DecodeData(st: State, bs: seq<byte>): Option<Mod> {
    var n := RdU32(bs);
    if st.m.hasDatacount && n.val != st.declared then None
    else
      var k := |st.m.datas| + (if st.m.hasDatacount then 0 else n.val);
      match Whole(RdMany((b: seq<byte>) => RdData(|st.m.mems|, b), k, n.rest))
      case None => None
      case Some(ds) => Some(st.m.(datas := ds))
  }

  function DecodeCustom(m: Mod, bs: seq<byte>): Option<Mod> {
    match RdName(bs)
    case Fail => None
    case Got(name, rest) =>
      if name == NAME_SECTION then
        match RdNames(|m.funcs|, rest, NameMap([], []))
        case None => None
        case Some(nm) => Some(m.(customs := m.customs + [Custom(name, [], nm.subs, nm.names)]))
      else Some(m.(customs := m.customs + [Custom(name, rest, [], [])]))
  }

  function Section(id: byte, st: State, bs: seq<byte>): Option<State> {
    if id == 0 then Upd(st, DecodeCustom(st.m, bs))
    else if id == 1 then Upd(st, DecodeTypes(st.m, bs))
    else if id == 2 then Upd(st, DecodeImports(st.m, bs))
    else if id == 3 then Upd(st, DecodeFunctions(st.m, bs))
    else if id == 4 then Upd(st, DecodeTables(st.m, bs))
    else if id == 5 then Upd(st, DecodeMemory(st.m, bs))
    else if id == 6 then Upd(st, DecodeGlobals(st.m, bs))
    else if id == 7 then Upd(st, DecodeExports(st.m, bs))
    else if id == 8 then Upd(st, DecodeStart(st.m, bs))
    else if id == 9 then Upd(st, DecodeElems(st.m, bs))
    else if id == 10 then Upd(st, DecodeCode(st.m, bs))
    else if id == 11 then Upd(st, DecodeData(st, bs))
    else if id == 12 then DecodeDatacount(st, bs)
    else None
  }

  /** Sections one after the other, in whatever order they come. */
  function RdSections(st: State, bs: seq<byte>): Option<State>
    decreases |bs|
  {
    if bs == [] then Some(st)
    else
      var len := RdU32(bs[1..]);
      if len.val > |len.rest| then None
      else
        match Section(bs[0], st, len.rest[..len.val])
        case None => None
        case Some(st') => RdSections(st', len.rest[len.val..])
  }

  const MAGIC: nat := 0x6D73_6100
  const VERSION: nat := 1

  function DecodeModule(bs: seq<byte>): Option<Mod> {
    match RdU32Raw(bs)
    case Fail => None
    case Got(magic, r1) =>
      match RdU32Raw(r1)
      case Fail => None
      case Got(version, r2) =>
        if magic != MAGIC || version != VERSION then None
        else
          match RdSections(State(EMPTY, 0), r2)
          case None => None
          case Some(st) => Some(st.m)
  }

  // ----- the encoder -----

  /** Counted items, or nothing at all. */
  function Counted<T>(wr: T -> seq<byte>, xs: seq<T>): seq<byte> {
    if xs == [] then [] else WrVec(wr, xs)
  }

  /** A section without contents is not written. */
  function WrSection(id: byte, body: seq<byte>): seq<byte> {
    if body == [] then [] else [id] + WrU32(|body|) + body
  }

  function WrCustomBody(c: Custom<nat>): seq<byte> {
    if c.name == [] && c.bytes == [] then []
    else if c.name == NAME_SECTION then WrName(c.name) + WrNames(NameMap(c.subs, c.names))
    else WrName(c.name) + c.bytes
  }

  lemma {:induction false} SectionReads(st: State, id: byte, body: seq<byte>, rest: seq<byte>)
    requires body != [] && |body| < TWO32
    ensures RdSections(st, WrSection(id, body) + rest)
         == match Section(id, st, body) case None => None case Some(st') => RdSections(st', rest)
  {
    hide RdU32, WrU32, Section;
    var bs := WrSection(id, body) + rest;
    assert bs == [id] + (WrU32(|body|) + (body + rest));
    assert bs[1..] == WrU32(|body|) + (body + rest);
    U32Reads(|body|, body + rest);
    assert (body + rest)[..|body|] == body && (body + rest)[|body|..] == rest;
  }
}
