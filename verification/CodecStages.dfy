/** One section after the other: what the decoder has of a module when it has read the first sections. */
module CodecStages {
  import opened Bytes
  import opened Leb128
  import opened LebProof
  import opened Codec
  import opened CodecInst
  import opened CodecModule
  import opened CodecParts
  import opened CodecSections
  import opened CodecRound

  function Upto<T>(xs: seq<T>, all: bool, some: bool, n: nat): seq<T> {
    if all then xs else if some && n <= |xs| then xs[..n] else []
  }

  function Bared(fs: seq<Func<nat>>): (r: seq<Func<nat>>)
    ensures |r| == |fs|
  {
    BareFuncs(SigsOf(fs))
  }

  /** The part of `m` that the first `k` sections hold. */
  function Stage(m: Mod, k: nat): State {
    var announced := k >= 10 && m.hasDatacount;
    State(Module(
            if k >= 1 then m.sigs else [],
            if k >= 2 then m.imports else [],
            if k >= 2 then m.nums else Counts(0, 0, 0, 0),
            if k >= 11 then m.funcs else Upto(Bared(m.funcs), k >= 3, k >= 2, m.nums.funcs),
            Upto(m.tables, k >= 4, k >= 2, m.nums.tables),
            Upto(m.mems, k >= 5, k >= 2, m.nums.mems),
            Upto(m.globals, k >= 6, k >= 2, m.nums.globals),
            if k >= 7 then m.exports else [],
            if k >= 8 then m.start else None,
            if k >= 9 then m.elems else [],
            announced,
            if k >= 12 then m.datas else if announced then Unreads(|m.datas|) else [],
            []),
          if announced then |m.datas| else 0)
  }

  ghost predicate Good(m: Mod) { Canonical(m) && SizesFit(m) }

  /** Section `id` with these contents takes the decoder from stage `k - 1` to stage `k`. */
  predicate Moves(m: Mod, k: nat, id: byte, body: seq<byte>)
    requires k > 0
  {
    if body == [] then Stage(m, k) == Stage(m, k - 1) else Section(id, Stage(m, k - 1), body) == Some(Stage(m, k))
  }

  /** A counted list that is written at all is read back whole. */
  ghost predicate Back<T(!new)>(rd: seq<byte> -> Res<T>, wr: T -> seq<byte>, xs: seq<T>) {
    var bs := Counted(wr, xs);
    if xs == [] then bs == [] else bs != [] && Whole(RdVec(rd, bs)) == Some(xs)
  }

  lemma {:induction false} CountedReads<T(!new)>(rd: seq<byte> -> Res<T>, wr: T -> seq<byte>, xs: seq<T>)
    requires |xs| < TWO32 && forall x :: x in xs ==> Reads(rd, wr(x), x)
    ensures Back(rd, wr, xs)
  {
    if xs != [] {
      VecReads(rd, wr, xs, []);
      assert WrVec(wr, xs) + [] == WrVec(wr, xs);
      hide RdVec, WrMany;
    }
  }

  lemma {:induction false} SigsBack(sigs: seq<Sig>)
    requires |sigs| < TWO32 && forall s :: s in sigs ==> SigOk(s)
    ensures Back(RdSig, WrSig, sigs)
  {
    forall s | s in sigs ensures Reads(RdSig, WrSig(s), s) {
      forall r: seq<byte> ensures RdSig(WrSig(s) + r) == Got(s, r) { SigReads(s, r); }
    }
    hide RdSig, WrSig, Back;
    CountedReads(RdSig, WrSig, sigs);
  }

  lemma {:induction false} EntriesBack(sigs: nat, es: seq<Entry>)
    requires |es| < TWO32 && forall e :: e in es ==> EntryOk(sigs, e)
    ensures Back((b: seq<byte>) => RdEntry(sigs, b), WrEntry, es)
  {
    var rd := (b: seq<byte>) => RdEntry(sigs, b);
    forall e | e in es ensures Reads(rd, WrEntry(e), e) {
      forall r: seq<byte> ensures RdEntry(sigs, WrEntry(e) + r) == Got(e, r) { EntryReads(sigs, e, r); }
    }
    hide RdEntry, WrEntry, Back;
    CountedReads(rd, WrEntry, es);
  }

  lemma {:induction false} IdxsBack(n: nat, idxs: seq<nat>)
    requires |idxs| < TWO32 && forall i :: i in idxs ==> i < n && i < TWO32
    ensures Back((b: seq<byte>) => RdIdx(n, b), WrU32, idxs)
  {
    var rd := (b: seq<byte>) => RdIdx(n, b);
    forall i | i in idxs ensures Reads(rd, WrU32(i), i) {
      forall r: seq<byte> ensures RdIdx(n, WrU32(i) + r) == Got(i, r) { IdxReads(n, i, r); }
    }
    hide RdIdx, WrU32, Back;
    CountedReads(rd, WrU32, idxs);
  }

  lemma {:induction false} TablesBack(ts: seq<Table>)
    requires |ts| < TWO32 && forall t :: t in ts ==> TableOk(t)
    ensures Back(RdTable, WrTable, ts)
  {
    forall t | t in ts ensures Reads(RdTable, WrTable(t), t) {
      forall r: seq<byte> ensures RdTable(WrTable(t) + r) == Got(t, r) { TableReads(t, r); }
    }
    hide RdTable, WrTable, Back;
    CountedReads(RdTable, WrTable, ts);
  }

  lemma {:induction false} GlobalsBack(gs: seq<Global>)
    requires |gs| < TWO32 && forall g :: g in gs ==> InitOk(g.init)
    ensures Back(RdGlobal, WrGlobal, gs)
  {
    hide InitOk;
    forall g | g in gs ensures Reads(RdGlobal, WrGlobal(g), g) {
      forall r: seq<byte> ensures RdGlobal(WrGlobal(g) + r) == Got(g, r) { GlobalReads(g, r); }
    }
    hide RdGlobal, WrGlobal, Back;
    CountedReads(RdGlobal, WrGlobal, gs);
  }

  lemma {:induction false} ExportsBack(env: Env, es: seq<Export<nat>>)
    requires |es| < TWO32 && forall e :: e in es ==> ExportOk(env, e)
    ensures Back((b: seq<byte>) => RdExport(env, b), WrExport, es)
  {
    var rd := (b: seq<byte>) => RdExport(env, b);
    forall e | e in es ensures Reads(rd, WrExport(e), e) {
      forall r: seq<byte> ensures RdExport(env, WrExport(e) + r) == Got(e, r) { ExportReads(env, e, r); }
    }
    hide RdExport, WrExport, Back;
    CountedReads(rd, WrExport, es);
  }

  lemma {:induction false} ElemsBack(funcs: nat, es: seq<Elem<nat>>)
    requires |es| < TWO32 && forall e :: e in es ==> ElemOk(funcs, e)
    ensures Back((b: seq<byte>) => RdElem(funcs, b), WrElem, es)
  {
    var rd := (b: seq<byte>) => RdElem(funcs, b);
    forall e | e in es ensures Reads(rd, WrElem(e), e) {
      forall r: seq<byte> ensures RdElem(funcs, WrElem(e) + r) == Got(e, r) { ElemReads(funcs, e, r); }
    }
    hide RdElem, WrElem, Back;
    CountedReads(rd, WrElem, es);
  }

  lemma {:induction false} DatasBack(mems: nat, ds: seq<Data<nat>>)
    requires |ds| < TWO32 && forall d :: d in ds ==> DataOk(mems, d)
    ensures Back((b: seq<byte>) => RdData(mems, b), WrData, ds)
  {
    var rd := (b: seq<byte>) => RdData(mems, b);
    forall d | d in ds ensures Reads(rd, WrData(d), d) {
      forall r: seq<byte> ensures RdData(mems, WrData(d) + r) == Got(d, r) { DataReads(mems, d, r); }
    }
    hide RdData, WrData, Back;
    CountedReads(rd, WrData, ds);
  }

  lemma {:induction false} BodiesBack(env: Env, bodies: seq<Body<nat>>)
    requires |bodies| < TWO32 && forall b :: b in bodies ==> BodyOk(env, b) && |BodyBytes(b)| < TWO32
    ensures Back((b: seq<byte>) => RdBody(env, b), WrBody, bodies)
  {
    var rd := (b: seq<byte>) => RdBody(env, b);
    hide BodyOk, BodyBytes;
    forall b | b in bodies ensures Reads(rd, WrBody(b), b) {
      forall r: seq<byte> ensures RdBody(env, WrBody(b) + r) == Got(b, r) { BodyReads(env, b, r); }
    }
    hide RdBody, WrBody, Back;
    CountedReads(rd, WrBody, bodies);
  }
}
