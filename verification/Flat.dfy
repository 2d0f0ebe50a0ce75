/**
 * Function bodies as the rewriter stores them: flat lists of tokens in which `end` closes the
 * innermost open construct.  Reading such a list back as structured code gives it its meaning.
 */
module Flat {
  import opened Wasm

  datatype Tok =
    | BlockT(bt: BlockType, pc: int)
    | LoopT(bt: BlockType, pc: int)
    | EndT(pc: int)
    | InsT(i: Instr)

  datatype Parsed = Failed | Parsed(code: seq<Instr>, end: int, rest: seq<Tok>)

  /** Reads instructions up to the `end` that closes them. */
  function Parse(toks: seq<Tok>): (r: Parsed)
    ensures r.Parsed? ==> |r.rest| < |toks|
    decreases |toks|
  {
    if toks == [] then Failed
    else
      match toks[0]
      case EndT(pc) => Parsed([], pc, toks[1..])
      case InsT(i) =>
        if i.Block? || i.Loop? then Failed else Prepend(i, Parse(toks[1..]))
      case BlockT(bt, pc) =>
        (match Parse(toks[1..])
         case Failed => Failed
         case Parsed(body, end, rest) => Prepend(Block(bt, body, pc, end), Parse(rest)))
      case LoopT(bt, pc) =>
        (match Parse(toks[1..])
         case Failed => Failed
         case Parsed(body, end, rest) => Prepend(Loop(bt, body, pc, end), Parse(rest)))
  }

  function Prepend(i: Instr, p: Parsed): Parsed {
    match p case Failed => Failed case Parsed(code, end, rest) => Parsed([i] + code, end, rest)
  }

  function Flatten(code: seq<Instr>): seq<Tok>
    decreases code, 1
  {
    if code == [] then [] else FlattenI(code[0]) + Flatten(code[1..])
  }

  lemma FlattenNone()
    ensures Flatten([]) == []
  {
  }

  function FlattenI(i: Instr): (ts: seq<Tok>)
    ensures |ts| > 0
    decreases i, 0
  {
    match i
    case Block(bt, body, pc, end) => [BlockT(bt, pc)] + Flatten(body) + [EndT(end)]
    case Loop(bt, body, pc, end) => [LoopT(bt, pc)] + Flatten(body) + [EndT(end)]
    case _ => [InsT(i)]
  }

  function Open(i: Instr): Tok
    requires i.Block? || i.Loop?
  {
    if i.Block? then BlockT(i.bt, i.pc) else LoopT(i.bt, i.pc)
  }

  lemma {:induction false} FlattenOpen(i: Instr, after: seq<Tok>)
    requires i.Block? || i.Loop?
    ensures FlattenI(i) + after == [Open(i)] + (Flatten(i.body) + [EndT(i.end)] + after)
    ensures |Flatten(i.body)| < |FlattenI(i)|
  {
    assert FlattenI(i) == [Open(i)] + Flatten(i.body) + [EndT(i.end)];
  }

  /** Reading an opening token: its body up to the `end`, then what follows. */
  lemma {:induction false} ParseOpen(i: Instr, toks: seq<Tok>, after: seq<Tok>)
    requires i.Block? || i.Loop?
    requires toks != [] && toks[0] == Open(i)
    requires Parse(toks[1..]) == Parsed(i.body, i.end, after)
    ensures Parse(toks) == Prepend(i, Parse(after))
  {
  }

  /** Flattening loses nothing: the tokens parse back to the same structure, whatever follows. */
  lemma {:induction false} ParseFlatten(code: seq<Instr>, end: int, rest: seq<Tok>)
    ensures Parse(Flatten(code) + [EndT(end)] + rest) == Parsed(code, end, rest)
    decreases |Flatten(code)|
  {
    var toks := Flatten(code) + [EndT(end)] + rest;
    if code == [] {
      assert toks[0] == EndT(end) && toks[1..] == rest;
    } else {
      var i, tail := code[0], code[1..];
      var after := Flatten(tail) + [EndT(end)] + rest;
      assert code == [i] + tail;
      assert toks == FlattenI(i) + after;
      ParseFlatten(tail, end, rest);
      ParseFlattenI(i, after);
    }
  }

  lemma {:induction false} ParseFlattenI(i: Instr, after: seq<Tok>)
    ensures Parse(FlattenI(i) + after) == Prepend(i, Parse(after))
    decreases |FlattenI(i)|, 0
  {
    var toks := FlattenI(i) + after;
    if !i.Block? && !i.Loop? {
      assert toks[0] == InsT(i) && toks[1..] == after;
    } else {
      FlattenOpen(i, after);
      assert toks[1..] == Flatten(i.body) + [EndT(i.end)] + after;
      ParseFlatten(i.body, i.end, after);
      ParseOpen(i, toks, after);
    }
  }

  /** Parsing invents nothing: what parses is the flattening of the result. */
  lemma FlattenTok(t: Tok)
    ensures t.InsT? && !t.i.Block? && !t.i.Loop? ==> FlattenI(t.i) == [t]
  {
    hide Flatten;
  }

  lemma {:induction false} FlattenParse(toks: seq<Tok>)
    requires Parse(toks).Parsed?
    ensures toks == Flatten(Parse(toks).code) + [EndT(Parse(toks).end)] + Parse(toks).rest
    decreases |toks|
  {
    var t, tail := toks[0], toks[1..];
    assert toks == [t] + tail;
    FlattenNone();
    FlattenTok(t);
    hide Flatten, FlattenI;
    match t
    case EndT(pc) =>
    case InsT(i) =>
      FlattenParse(tail);
      FlattenCons(i, Parse(tail).code);
    case BlockT(bt, pc) =>
      var b := Parse(tail);
      FlattenParseOpen(Block(bt, b.code, pc, b.end), toks, b.rest);
    case LoopT(bt, pc) =>
      var b := Parse(tail);
      FlattenParseOpen(Loop(bt, b.code, pc, b.end), toks, b.rest);
  }

  lemma Prepended(i: Instr, p: Parsed)
    ensures Prepend(i, p).Parsed? <==> p.Parsed?
    ensures p.Parsed? ==> Prepend(i, p) == Parsed([i] + p.code, p.end, p.rest)
  {
  }

  lemma Glue<T>(a: seq<T>, b: seq<T>, c: seq<T>, d: seq<T>)
    ensures a + (b + c + d) == a + b + c + d
  {
  }

  lemma {:induction false} FlattenParseOpen(i: Instr, toks: seq<Tok>, after: seq<Tok>)
    requires i.Block? || i.Loop?
    requires toks != [] && toks[0] == Open(i) && |after| < |toks|
    requires Parse(toks[1..]) == Parsed(i.body, i.end, after)
    requires Parse(toks).Parsed?
    ensures toks == Flatten(Parse(toks).code) + [EndT(Parse(toks).end)] + Parse(toks).rest
    decreases |toks|, 0
  {
    hide *;
    ParseOpen(i, toks, after);
    FlattenParse(toks[1..]);
    Prepended(i, Parse(after));
    FlattenParse(after);
    FlattenOpen(i, after);
    var p := Parse(after);
    FlattenCons(i, p.code);
    assert toks == [Open(i)] + toks[1..];
    Glue(FlattenI(i), Flatten(p.code), [EndT(p.end)], p.rest);
  }

  lemma FlattenCons(i: Instr, code: seq<Instr>)
    ensures Flatten([i] + code) == FlattenI(i) + Flatten(code)
  {
    assert ([i] + code)[1..] == code;
  }

  lemma {:induction false} FlattenAppend(a: seq<Instr>, b: seq<Instr>)
    ensures Flatten(a + b) == Flatten(a) + Flatten(b)
    decreases |a|
  {
    if a == [] {
      assert a + b == b;
    } else {
      assert (a + b)[1..] == a[1..] + b;
      FlattenAppend(a[1..], b);
    }
  }

  lemma {:induction false} FlattenOne(i: Instr)
    ensures Flatten([i]) == FlattenI(i)
  {
    assert Flatten([i][1..]) == [];
  }

  /** Builder-made straight-line code as tokens. */
  function Toks(ps: seq<Plain>): (ts: seq<Tok>)
    ensures |ts| == |ps|
    ensures forall i :: 0 <= i < |ps| ==> ts[i] == InsT(Do(ps[i], NO_PC))
  {
    seq(|ps|, i requires 0 <= i < |ps| => InsT(Do(ps[i], NO_PC)))
  }

  lemma {:induction false} FlattenLift(ps: seq<Plain>)
    ensures Flatten(Lift(ps)) == Toks(ps)
    decreases |ps|
  {
    if ps != [] {
      assert Lift(ps)[1..] == Lift(ps[1..]);
      FlattenLift(ps[1..]);
      assert Toks(ps) == [InsT(Do(ps[0], NO_PC))] + Toks(ps[1..]);
    }
  }

  lemma {:induction false} ToksAppend(a: seq<Plain>, b: seq<Plain>)
    ensures Toks(a + b) == Toks(a) + Toks(b)
  {
  }

  /** Calling a function whose stored body is `toks`, with the operands already in its locals. */
  function CallFlat(fuel: nat, results: nat, toks: seq<Tok>, st: State): Outcome {
    match Parse(toks)
    case Failed => Invalid
    case Parsed(code, end, rest) =>
      if rest != [] then Invalid
      else CallBody(fuel, results, code, st)
  }

  function CallBody(fuel: nat, results: nat, code: seq<Instr>, st: State): Outcome {
    Leave(results, Nil, NO_PC, Exec(fuel, code, NO_PC, st.(stack := Nil)))
  }
}
