/** Where declarations live: each index space is a list of addresses, and a reference is one of them. */
module Addresses {
  import opened Bytes
  import opened Codec
  import opened CodecInst
  import opened CodecModule
  import opened CodecParts
  import opened CodecSections
  import opened CodecRound
  import opened ModuleRefs

  datatype Spaces = Spaces(sigs: seq<Addr>, funcs: seq<Addr>, tables: seq<Addr>, mems: seq<Addr>, globals: seq<Addr>, datas: seq<Addr>)

  function At(sp: Spaces, s: Space): seq<Addr> {
    match s
    case SigS => sp.sigs case FuncS => sp.funcs case TableS => sp.tables
    case MemS => sp.mems case GlobalS => sp.globals case DataS => sp.datas
  }

  /** No two declarations have the same address. */
  predicate Distinct(sp: Spaces) {
    forall s: Space, t: Space, i: nat, j: nat {:trigger At(sp, s)[i], At(sp, t)[j]} ::
      i < |At(sp, s)| && j < |At(sp, t)| && At(sp, s)[i] == At(sp, t)[j] ==> s == t && i == j
  }

  predicate Resolves(sp: Spaces, s: Space, a: Addr) { a in At(sp, s) }

  function ResolvesIn(sp: Spaces): (Space, Addr) -> bool { (s: Space, a: Addr) => Resolves(sp, s, a) }

  /** The position of an address in a list; its length if it is not there. */
  function IndexOf(xs: seq<Addr>, a: Addr): (i: nat)
    ensures i <= |xs|
    ensures a in xs ==> i < |xs| && xs[i] == a
    ensures a !in xs ==> i == |xs|
    ensures forall j :: 0 <= j < i ==> xs[j] != a
  {
    if xs == [] then 0
    else if xs[0] == a then 0
    else
      var i := IndexOf(xs[1..], a);
      assert forall j :: 0 <= j < i ==> xs[1..][j] == xs[j + 1];
      i + 1
  }

  /** Walking the list with a counter; the program throws when it reaches the end. */
  method GetListIdx(xs: seq<Addr>, a: Addr) returns (r: Option<nat>)
    ensures r == if a in xs then Some(IndexOf(xs, a)) else None
  {
    var i := 0;
    while i < |xs|
      invariant i <= |xs| && a !in xs[..i]
    {
      if xs[i] == a {
        FirstIs(xs, a, i);
        return Some(i);
      }
      i := i + 1;
    }
    assert xs[..|xs|] == xs;
    r := None;
  }

  lemma FirstIs(xs: seq<Addr>, a: Addr, i: nat)
    requires i < |xs| && xs[i] == a && a !in xs[..i]
    ensures IndexOf(xs, a) == i
  {
    hide IndexOf;
    forall j | 0 <= j < i ensures xs[j] != a { assert xs[j] in xs[..i]; }
  }

  function Idx(sp: Spaces): (Space, Addr) -> nat { (s: Space, a: Addr) => IndexOf(At(sp, s), a) }

  /** The module as its binary has it: every reference is an index. */
  function View(m: Module<Addr>, sp: Spaces): Mod { MapModule(Idx(sp), m) }

  predicate Shaped(m: Module<Addr>, sp: Spaces) {
    && |sp.sigs| == |m.sigs| && |sp.funcs| == |m.funcs| && |sp.tables| == |m.tables|
    && |sp.mems| == |m.mems| && |sp.globals| == |m.globals| && |sp.datas| == |m.datas|
  }

  predicate SameShape(sp: Spaces, nodes: Spaces) {
    forall s: Space :: |At(sp, s)| == |At(nodes, s)|
  }

  /** No declaration of the one at an address of the other. */
  predicate Apart(sp: Spaces, nodes: Spaces) {
    forall s: Space, t: Space, a: Addr :: a in At(sp, s) ==> a !in At(nodes, t)
  }

  lemma DistinctIndex(sp: Spaces, s: Space, i: nat)
    requires Distinct(sp) && i < |At(sp, s)|
    ensures IndexOf(At(sp, s), At(sp, s)[i]) == i
  {
    var xs := At(sp, s);
    var k := IndexOf(xs, xs[i]);
    hide IndexOf;
    assert At(sp, s)[k] == At(sp, s)[i];
  }
}
