/** The module as an object: copying it, adding to it, removing from it, wrapping its function references. */
module ModuleObject {
  import opened Bytes
  import opened Codec
  import opened CodecInst
  import opened CodecModule
  import opened CodecParts
  import opened CodecSections
  import opened CodecRound
  import opened ModuleRefs
  import opened Addresses
  import opened DeepCopy
  import opened ModuleEdit
  import opened ModuleKeeps
  import opened ModuleAdds
  import opened ModuleRemoves
  import opened ModuleRuns
  import opened FuncrefObj
  import opened FuncrefAll

  class WasmModule {
    var m: Module<Addr>
    var sp: Spaces
    /** The custom section whose function names are kept up to date, if there is one. */
    var names: Option<nat>

    predicate Valid()
      reads this
    {
      Linked(m, sp)
    }

    function Val(): Obj
      reads this
    {
      Obj(m, sp, names)
    }

    /**
     * `nodes`: where the copied lists put their elements.  A module with a segment that was announced and
     * never read is not copied, and of the object then nothing is promised.
     */
    method DeepCopy(mod: WasmModule, nodes: Spaces) returns (ok: bool)
      requires mod != this && mod.Valid() && SameShape(mod.sp, nodes) && Distinct(nodes)
      modifies this
      ensures ok <==> AllRead(mod.m.datas)
      ensures ok ==> m == MapModule(To(mod.sp, nodes), mod.m) && sp == nodes
      ensures ok ==> names == NamesAt(mod.m.customs, old(names))
      ensures ok ==> Valid() && View(m, sp) == View(mod.m, mod.sp)
    {
      hide *;
      var cache := new Cache();
      var from, s := mod.m, mod.sp;
      ValidIs(mod);
      Starts(from, s, nodes);
      FromParts(from, s);
      ReadyAtFirst(cache, s, nodes);
      sp := nodes;
      var start := from.start;
      if start.Some? {
        var r := Reassign(cache, s, nodes, FuncS, start.value);
        start := Some(r);
      }
      var imports := PatchImports(cache, s, nodes, from.imports);
      var exports := PatchExports(cache, s, nodes, from.exports);
      var funcs := PatchFuncs(cache, s, nodes, from.funcs);
      var elems := PatchElems(cache, s, nodes, from.elems);
      var datas;
      ok, datas := PatchDatas(cache, s, nodes, from.datas);
      if !ok { return; }
      var customs, ns := PatchCustoms(cache, s, nodes, from.customs, names);
      names := ns;
      m := Module(from.sigs, imports, from.nums, funcs, from.tables, from.mems, from.globals, exports, start,
                  elems, from.hasDatacount, datas, customs);
      MappedIs(To(s, nodes), from);
      CopyLinked(from, s, nodes);
      CopyView(from, s, nodes);
      ValidIs(this);
    }

    // ----- adding -----

    /** The address of an equal signature; a duplicate is added only if asked for. */
    method AddSignature(sig: Sig, duplicate: bool, node: Addr) returns (a: Addr)
      requires |sp.sigs| == |m.sigs|
      modifies this
      ensures Val() == if duplicate then AddSig(old(Val()), sig, node) else WithSig(old(Val()), sig, node)
      ensures a == if duplicate then node else SigAt(old(Val()), sig, node)
    {
      hide With;
      if !duplicate {
        var i := 0;
        while i < |m.sigs|
          invariant i <= |m.sigs| && (forall j :: 0 <= j < i ==> m.sigs[j] != sig)
          invariant Val() == old(Val())
        {
          if m.sigs[i] == sig {
            SigFirst(m.sigs, sig, i);
            return sp.sigs[i];
          }
          i := i + 1;
        }
      }
      m, sp := m.(sigs := m.sigs + [sig]), With(sp, SigS, sp.sigs + [node]);
      a := node;
    }

    method AddExportOf(name: seq<byte>, k: CodecModule.Kind, a: Addr)
      modifies this`m
      ensures Val() == AddExport(old(Val()), name, k, a)
    {
      m := m.(exports := m.exports + [Export(name, k, a)]);
    }

    /** A table, memory, global or function at the end of its space, exported if a name is given. */
    method AddFieldOf(d: Decl, node: Addr, export_: Option<seq<byte>>)
      modifies this
      ensures Val() == AddField(old(Val()), d, node, export_)
    {
      hide PushDecl, With;
      var s := SpaceOfDecl(d);
      m, sp := PushDecl(m, d, false), With(sp, s, Put(At(sp, s), node, false));
      if export_.Some? { AddExportOf(export_.value, KindOfDecl(d), node); }
    }

    method PushName(a: NameAssoc<Addr>, front: bool)
      modifies this`m
      ensures Val() == AddName(old(Val()), a, front)
    {
      hide Put;
      if names.Some? && names.value < |m.customs| {
        var c := m.customs[names.value];
        m := m.(customs := m.customs[names.value := c.(names := Put(c.names, a, front))]);
      }
    }

    method AddFunction(sig: Sig, locals: seq<LocalRun>, code: seq<Inst<Addr>>, export_: Option<seq<byte>>,
                       debug: seq<byte>, sigNode: Addr, node: Addr)
      requires |sp.sigs| == |m.sigs|
      modifies this
      ensures Val() == AddFunc(old(Val()), sig, locals, code, export_, debug, sigNode, node)
    {
      hide *;
      AddFuncIs(Val(), sig, locals, code, export_, debug, sigNode, node);
      var s := AddSignature(sig, false, sigNode);
      AddFieldOf(FuncD(Func(s, locals, code)), node, export_);
      PushName(NameAssoc(node, debug), false);
    }

    /** The declaration goes to the front of its space, the import to the front of the list. */
    method AddImportOf(modName: seq<byte>, member: seq<byte>, d: Decl, node: Addr)
      modifies this
      ensures Val() == AddImport(old(Val()), modName, member, d, node)
    {
      AddImportIs(Val(), modName, member, d, node);
      hide PushDecl, With, AddImport, AddName, Bump, Put;
      var s, k := SpaceOfDecl(d), KindOfDecl(d);
      m, sp := PushDecl(m, d, true), With(sp, s, Put(At(sp, s), node, true));
      m := m.(nums := Bump(m.nums, k));
      m := m.(imports := [Import(modName, member, k, node)] + m.imports);
      if d.FuncD? { PushName(NameAssoc(node, member), true); }
    }

    method AddImportedFunction(modName: seq<byte>, member: seq<byte>, sig: Sig, sigNode: Addr, node: Addr)
      requires |sp.sigs| == |m.sigs|
      modifies this
      ensures Val() == AddImportFunc(old(Val()), modName, member, sig, sigNode, node)
    {
      hide *;
      ImportFuncIs(Val(), modName, member, sig, sigNode, node);
      var s := AddSignature(sig, false, sigNode);
      AddImportOf(modName, member, FuncD(Func(s, [], [])), node);
    }

    // ----- removing -----

    /** The import with this function, removed by walking the list. */
    method EraseImport(a: Addr) returns (found: bool)
      requires m.nums.funcs > 0
      modifies this`m
      ensures var o := old(Val()); var j := FindImport(o.m.imports, FuncK, a);
        found == (j < |o.m.imports|) && Val() == if found then o.(m := CutImport(o.m, j)) else o
    {
      hide Cut;
      var j := 0;
      while j < |m.imports|
        invariant j <= |m.imports| && Val() == old(Val())
        invariant forall i :: 0 <= i < j ==> m.imports[i].kind != FuncK || m.imports[i].desc != a
      {
        if m.imports[j].kind == FuncK && m.imports[j].desc == a {
          ImportFirst(m.imports, a, j);
          m := m.(imports := Cut(m.imports, j), nums := m.nums.(funcs := m.nums.funcs - 1));
          return true;
        }
        j := j + 1;
      }
      found := false;
    }

    /** The first name of this function. */
    method EraseName(a: Addr)
      modifies this`m
      ensures Val() == CutName(old(Val()), a)
    {
      hide Cut;
      if names.None? || names.value >= |m.customs| { return; }
      var c := m.customs[names.value];
      var j := 0;
      while j < |c.names|
        invariant j <= |c.names| && Val() == old(Val())
        invariant forall i :: 0 <= i < j ==> c.names[i].func != a
      {
        if c.names[j].func == a {
          NameFirst(c.names, a, j);
          m := m.(customs := m.customs[names.value := c.(names := Cut(c.names, j))]);
          return;
        }
        j := j + 1;
      }
    }

    /** The import if it is one, the first name, the function itself. */
    method RemoveFunction(idx: nat) returns (ok: bool)
      requires Inv(Val())
      modifies this
      ensures |old(Val()).sp.funcs| == |old(Val()).m.funcs|
      ensures match RemoveFunc(old(Val()), idx) case None => !ok && Val() == old(Val()) case Some(r) => ok && Val() == r
    {
      hide *;
      ghost var o := Val();
      ValIs(this);
      InvShape(o);
      RemoveIs(o, idx);
      if idx >= |m.funcs| { return false; }
      UnimportedNow(o, idx);
      UnimportedWhole(o, idx);
      var a := sp.funcs[idx];
      if idx < m.nums.funcs {
        var found := EraseImport(a);
        if !found { return false; }
      }
      RemovedNow(o, idx);
      ValIs(this);
      EraseName(a);
      ValIs(this);
      CutFuncIs(Val(), idx);
      m, sp := m.(funcs := Cut(m.funcs, idx)), sp.(funcs := Cut(sp.funcs, idx));
      ValIs(this);
      ok := true;
    }

    // ----- looking up -----

    method FunctionIndex(a: Addr) returns (i: Option<nat>)
      ensures i == if a in sp.funcs then Some(IndexOf(sp.funcs, a)) else None
    {
      i := GetListIdx(sp.funcs, a);
    }

    /** Whether a function is imported is read off its index. */
    method IsImport(a: Addr) returns (r: bool)
      requires Inv(Val()) && a in sp.funcs
      ensures r <==> exists j :: 0 <= j < |m.imports| && m.imports[j].kind == FuncK && m.imports[j].desc == a
    {
      var i := FunctionIndex(a);
      ImportedIffFront(Val(), i.value);
      hide Inv, IndexOf;
      r := i.value < m.nums.funcs;
    }

    // ----- wrapping -----

    /** Every entry of every element segment gets a wrapper, in place and in order. */
    method FuncrefWrap(tys: seq<byte>, node: Nodes)
      requires Inv(Val()) && NodesFresh(sp, node, 0)
      modifies this
      ensures Val() == WrapAll(old(Val()), tys, node)
      ensures Inv(Val())
    {
      hide *;
      ValIs(this);
      AllWrapped(Val(), tys, node);
      WrapAllIs(Val(), tys, node);
      ghost var o := Val();
      var k, c := 0, 0;
      ghost var n := Togo(m.elems, 0, 0);
      while k < |m.elems|
        invariant Inv(Val()) && NodesFresh(sp, node, c) && Val() == Obj(m, sp, names)
        invariant n == Togo(m.elems, k, 0)
        invariant WrapFrom(Val(), k, 0, tys, c, node, n) == WrapAll(o, tys, node)
        decreases n
      {
        var i := 0;
        while i < |m.elems[k].funcs|
          invariant k < |m.elems| && Inv(Val()) && NodesFresh(sp, node, c) && Val() == Obj(m, sp, names)
          invariant n == Togo(m.elems, k, i)
          invariant WrapFrom(Val(), k, i, tys, c, node, n) == WrapAll(o, tys, node)
          decreases n
        {
          ghost var was := Val();
          InElemsIf(was, k, i);
          TogoStep(m.elems, k, i);
          WrapFromIs(was, k, i, tys, c, node, n);
          EntryKeeps(was, k, i, tys, c, node);
          SetLengths(m.elems, k, i, node(c).1);
          TogoSame(m.elems, WrapEntry(was, k, i, tys, c, node).m.elems, k, i + 1);
          WrapOneEntry(k, i, tys, c, node);
          ValIs(this);
          i, c, n := i + 1, c + 1, n - 1;
        }
        TogoStep(m.elems, k, i);
        WrapFromIs(Val(), k, i, tys, c, node, n);
        k, n := k + 1, n - 1;
      }
      WrapFromIs(Val(), k, 0, tys, c, node, n);
    }

    /** One entry: name, longer signature, new function, its instructions, the entry. */
    method WrapOneEntry(k: nat, i: nat, tys: seq<byte>, c: nat, node: Nodes)
      requires Inv(Val()) && InElems(Val(), k, i) && NodesFresh(sp, node, c)
      modifies this
      ensures Val() == WrapEntry(old(Val()), k, i, tys, c, node)
    {
      hide *;
      ghost var o := Val();
      ValIs(this);
      InRange(o, k, i);
      InvSizes(o);
      var f := m.elems[k].funcs[i];
      EntryResolves(o, k, i);
      WrapOneIs(o, f, tys, c, node);
      WrapOneKeeps(o, f, tys, c, node);
      SameElems(o, WrapOne(o, f, tys, c, node), k, i);
      WrapEntryIs(o, k, i, tys, c, node);
      var name := WrapName(Val(), f, c);
      var sig := Longer(FuncSig(Val(), f), tys);
      AddFunction(sig, [], WrapperInsts(|FuncSig(Val(), f).params|, f), None, name, node(c).0, node(c).1);
      ValIs(this);
      SetEntryIs(Val(), k, i, node(c).1);
      m := m.(elems := m.elems[k := m.elems[k].(funcs := m.elems[k].funcs[i := node(c).1])]);
      ValIs(this);
    }
  }

  lemma ValidIs(w: WasmModule)
    ensures w.Valid() == Linked(w.m, w.sp)
  {
  }

  lemma ValIs(w: WasmModule)
    ensures w.Val() == Obj(w.m, w.sp, w.names)
  {
  }

  lemma SetEntryIs(o: Obj, k: nat, i: nat, a: Addr)
    requires InElems(o, k, i)
    ensures k < |o.m.elems| && i < |o.m.elems[k].funcs|
    ensures SetEntry(o, k, i, a)
         == o.(m := o.m.(elems := o.m.elems[k := o.m.elems[k].(funcs := o.m.elems[k].funcs[i := a])]))
  {
  }

  lemma CutFuncIs(o: Obj, idx: nat)
    requires idx < |o.m.funcs| && idx < |o.sp.funcs|
    ensures CutFunc(o, idx) == o.(m := o.m.(funcs := Cut(o.m.funcs, idx)), sp := o.sp.(funcs := Cut(o.sp.funcs, idx)))
  {
  }

  lemma UnimportedWhole(o: Obj, idx: nat)
    requires Inv(o) && idx < |o.sp.funcs|
    ensures var j := FindImport(o.m.imports, FuncK, o.sp.funcs[idx]);
      if idx < o.m.nums.funcs then j < |o.m.imports| && Unimported(o, idx) == o.(m := CutImport(o.m, j))
      else Unimported(o, idx) == o
  {
    if idx < o.m.nums.funcs { HasImport(o, idx); }
    hide Linked, ImportsFront, NamesKnown, Cut;
  }

  lemma SigFirst(sigs: seq<Sig>, sig: Sig, i: nat)
    requires i < |sigs| && sigs[i] == sig && forall j :: 0 <= j < i ==> sigs[j] != sig
    ensures FindSig(sigs, sig) == i
  {
    hide FindSig;
  }

  lemma ImportFirst(imports: seq<Import<Addr>>, a: Addr, j: nat)
    requires j < |imports| && imports[j].kind == FuncK && imports[j].desc == a
    requires forall i :: 0 <= i < j ==> imports[i].kind != FuncK || imports[i].desc != a
    ensures FindImport(imports, FuncK, a) == j
  {
    hide FindImport;
  }

  lemma NameFirst(names: seq<NameAssoc<Addr>>, a: Addr, j: nat)
    requires j < |names| && names[j].func == a && forall i :: 0 <= i < j ==> names[i].func != a
    ensures FindName(names, a) == j
  {
    hide FindName;
  }
}
