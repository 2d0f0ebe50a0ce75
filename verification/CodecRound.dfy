/** The encoder, and the round trip of whole modules. */
module CodecRound {
  import opened Bytes
  import opened Leb128
  import opened LebProof
  import opened Codec
  import opened CodecInst
  import opened CodecModule
  import opened CodecParts
  import opened CodecSections

  // ----- the encoder -----

  predicate InSpace(m: Mod, imp: Import<nat>) { imp.desc < Space(EnvOf(m), imp.kind) }

  /** What an import declares is written out again. */
  function EntryOf(m: Mod, imp: Import<nat>): Entry
    requires InSpace(m, imp)
  {
    Entry(imp.modName, imp.member,
      match imp.kind
      case FuncK => FuncItem(m.funcs[imp.desc].sig)
      case TableK => TableItem(m.tables[imp.desc])
      case MemK => MemItem(m.mems[imp.desc])
      case GlobalK => GlobalItem(m.globals[imp.desc]))
  }

  predicate Resolved(m: Mod) { forall j :: 0 <= j < |m.imports| ==> InSpace(m, m.imports[j]) }

  function Entries(m: Mod): (r: seq<Entry>)
    requires Resolved(m)
    ensures |r| == |m.imports|
  {
    seq(|m.imports|, j requires 0 <= j < |m.imports| => EntryOf(m, m.imports[j]))
  }

  function BodyOf(f: Func<nat>): Body<nat> { Body(f.locals, f.code) }

  function Bodies(fs: seq<Func<nat>>): (r: seq<Body<nat>>)
    ensures |r| == |fs|
  {
    seq(|fs|, i requires 0 <= i < |fs| => BodyOf(fs[i]))
  }

  function SigsOf(fs: seq<Func<nat>>): (r: seq<nat>)
    ensures |r| == |fs|
  {
    seq(|fs|, i requires 0 <= i < |fs| => fs[i].sig)
  }

  predicate NumsFit(m: Mod) {
    && m.nums.funcs <= |m.funcs| && m.nums.tables <= |m.tables|
    && m.nums.mems <= |m.mems| && m.nums.globals <= |m.globals|
  }

  /** The encoder does not throw. */
  predicate Encodable(m: Mod) {
    && Resolved(m) && NumsFit(m)
    && |m.imports| == m.nums.funcs + m.nums.tables + m.nums.mems + m.nums.globals
    && (forall f :: f in m.funcs ==> forall k :: 0 <= k < |f.code| ==> KindOf(f.code[k].op).Some?)
    && (forall d :: d in m.datas ==> !d.Unread?)
  }

  /** The contents of section `id`. */
  function Contents(m: Mod, id: byte): seq<byte>
    requires Resolved(m) && NumsFit(m)
  {
    if id == 1 then Counted(WrSig, m.sigs)
    else if id == 2 then Counted(WrEntry, Entries(m))
    else if id == 3 then Counted(WrU32, SigsOf(m.funcs[m.nums.funcs..]))
    else if id == 4 then Counted(WrTable, m.tables[m.nums.tables..])
    else if id == 5 then Counted(WrLimits, m.mems[m.nums.mems..])
    else if id == 6 then Counted(WrGlobal, m.globals[m.nums.globals..])
    else if id == 7 then Counted(WrExport, m.exports)
    else if id == 8 then (if m.start.Some? then WrU32(m.start.value) else [])
    else if id == 9 then Counted(WrElem, m.elems)
    else if id == 12 then (if m.hasDatacount then WrU32(|m.datas|) else [])
    else if id == 10 then Counted(WrBody, Bodies(m.funcs[m.nums.funcs..]))
    else if id == 11 then Counted(WrData, m.datas)
    else []
  }

  /** The order in which sections are written; the number of data segments comes before the code. */
  const ORDER: seq<byte> := [1, 2, 3, 4, 5, 6, 7, 8, 9, 12, 10, 11]

  function WrSections(m: Mod, k: nat): seq<byte>
    requires Resolved(m) && NumsFit(m) && k <= 12
  {
    if k == 0 then [] else WrSections(m, k - 1) + WrSection(ORDER[k - 1], Contents(m, ORDER[k - 1]))
  }

  /** All custom sections come at the end. */
  function WrCustoms(cs: seq<Custom<nat>>): seq<byte> {
    if cs == [] then [] else WrSection(0, WrCustomBody(cs[0])) + WrCustoms(cs[1..])
  }

  function EncodeModule(m: Mod): Option<seq<byte>> {
    if !Encodable(m) then None
    else Some(ToLE(MAGIC, 4) + ToLE(VERSION, 4) + WrSections(m, 12) + WrCustoms(m.customs))
  }

  // ----- well-formed modules -----

  function CountOf(c: Counts, k: CodecModule.Kind): nat {
    match k case FuncK => c.funcs case TableK => c.tables case MemK => c.mems case GlobalK => c.globals
  }

  function NumsOf(imports: seq<Import<nat>>): Counts {
    if imports == [] then Counts(0, 0, 0, 0)
    else Bump(NumsOf(imports[..|imports| - 1]), imports[|imports| - 1].kind)
  }

  /** Imports of each kind, in list order, are the front of their index space. */
  predicate ImportsInOrder(imports: seq<Import<nat>>) {
    forall j :: 0 <= j < |imports| ==> imports[j].desc == CountOf(NumsOf(imports[..j]), imports[j].kind)
  }

  predicate ImportsOk(m: Mod) {
    && |m.imports| < TWO32 && ImportsInOrder(m.imports) && m.nums == NumsOf(m.imports) && NumsFit(m) && Resolved(m)
    && (forall e :: e in Entries(m) ==> EntryOk(|m.sigs|, e))
    && (forall i :: 0 <= i < m.nums.funcs ==> BodyOf(m.funcs[i]) == Body([], []))
  }

  /** The index spaces when function bodies are read: data segments only exist if they were announced. */
  function CodeEnv(m: Mod): Env {
    EnvOf(m).(datas := if m.hasDatacount then |m.datas| else 0)
  }

  predicate FuncsOk(m: Mod) {
    && |m.funcs| - m.nums.funcs < TWO32
    && (forall f :: f in m.funcs ==> f.sig < |m.sigs| && f.sig < TWO32 && BodyOk(CodeEnv(m), BodyOf(f)))
  }

  ghost predicate SpacesOk(m: Mod) {
    && |m.sigs| < TWO32 && (forall s :: s in m.sigs ==> SigOk(s))
    && |m.tables| - m.nums.tables < TWO32 && (forall t :: t in m.tables ==> TableOk(t))
    && (|m.mems| == m.nums.mems || (m.nums.mems == 0 && |m.mems| == 1))
    && (forall l :: l in m.mems ==> LimitsOk(l))
    && |m.globals| - m.nums.globals < TWO32
    && (forall i :: 0 <= m.nums.globals <= i < |m.globals| ==> InitOk(m.globals[i].init))
  }

  predicate RefsOk(m: Mod) {
    && |m.exports| < TWO32 && (forall e :: e in m.exports ==> ExportOk(EnvOf(m), e))
    && (m.start.Some? ==> m.start.value < |m.funcs| && m.start.value < TWO32)
    && |m.elems| < TWO32 && (forall e :: e in m.elems ==> ElemOk(|m.funcs|, e))
    && |m.datas| < TWO32 && (forall d :: d in m.datas ==> DataOk(|m.mems|, d))
  }

  predicate CustomOk(funcs: nat, c: Custom<nat>) {
    && |c.name| < TWO32 && (c.name != [] || c.bytes != [])
    && (c.name == NAME_SECTION ==> c.bytes == [] && NamesOk(funcs, NameMap(c.subs, c.names)))
    && (c.name != NAME_SECTION ==> c.subs == [] && c.names == [])
  }

  ghost predicate Canonical(m: Mod) {
    ImportsOk(m) && FuncsOk(m) && SpacesOk(m) && RefsOk(m) && forall c :: c in m.customs ==> CustomOk(|m.funcs|, c)
  }

  /** Everything that is preceded by its size is smaller than 4 GiB. */
  predicate SizesFit(m: Mod)
    requires Resolved(m) && NumsFit(m)
  {
    && (forall id: byte :: |Contents(m, id)| < TWO32)
    && (forall f :: f in m.funcs ==> |BodyBytes(BodyOf(f))| < TWO32)
    && (forall c :: c in m.customs ==>
          |WrCustomBody(c)| < TWO32 && |c.names| < TWO32 && |WrAssocs(c.names)| < TWO32)
  }
}
