/**
 * The prelude: a registry of function signatures addressed both by index and
 * by name. Three stores share one index space: `list` (the signatures),
 * `namespaces` (where each entry was declared, and under which name) and
 * `functions` (each name to the index of its latest entry). Entries are only
 * ever appended; registering a name again repoints `functions` and leaves the
 * older entry reachable by its index only.
 */
module Registry {
  import opened Wrappers
  import opened Panics
  import Ast
  import opened Signatures

  /** One registered entry, as the three stores see it at one index. */
  datatype Entry = Entry(namespace: seq<string>, name: string, dfn: Dfn)

  /** A function supplied from outside the script, with its signature already checked. */
  datatype FnExternal = FnExternal(namespace: seq<string>, name: string, p: Dfn)

  /** The parts of a compiled module the prelude reads. */
  datatype Module = Module(extPrelude: seq<FnExternal>, functions: seq<Ast.Function>)

  /** A row of the built-in table: its name, the index the runtime hard-codes for it, its signature. */
  datatype Builtin = Builtin(name: string, index: nat, dfn: Dfn)

  /** The names of a sequence of entries, index by index. */
  function Names(es: seq<Entry>): (names: seq<string>)
    ensures |names| == |es| && forall i :: 0 <= i < |es| ==> names[i] == es[i].name
  {
    seq(|es|, i requires 0 <= i < |es| => es[i].name)
  }

  /**
   * The declared names of the namespace store, index by index: `Names` read
   * straight off the store, which keeps the invariant cheap to maintain.
   */
  function Declared(namespaces: seq<(seq<string>, string)>): (names: seq<string>)
    ensures |names| == |namespaces| && forall i :: 0 <= i < |namespaces| ==> names[i] == namespaces[i].1
  {
    seq(|namespaces|, i requires 0 <= i < |namespaces| => namespaces[i].1)
  }

  /** The greatest index holding `name`, if any. */
  function LastIndex(names: seq<string>, name: string): (r: Option<nat>)
    ensures r.Some? ==> r.value < |names| && names[r.value] == name
    ensures r.Some? ==> forall j :: r.value < j < |names| ==> names[j] != name
    ensures r.None? <==> name !in names
  {
    if |names| == 0 then None
    else if names[|names| - 1] == name then Some(|names| - 1)
    else LastIndex(names[..|names| - 1], name)
  }

  /**
   * The name table a sequence of registrations leaves behind: each
   * registration points its name at its own index.
   */
  function NameTable(names: seq<string>): map<string, nat> {
    if |names| == 0 then map[]
    else NameTable(names[..|names| - 1])[names[|names| - 1] := |names| - 1]
  }

  /**
   * The name table holds exactly the registered names, each at the greatest
   * index that holds it: the last registration of a name wins.
   */
  lemma {:induction false} NameTableLast(names: seq<string>, name: string)
    ensures name in NameTable(names) <==> name in names
    ensures name in NameTable(names) ==> Some(NameTable(names)[name]) == LastIndex(names, name)
  {
    if |names| > 0 {
      var init := names[..|names| - 1];
      assert names == init + [names[|names| - 1]];
      NameTableLast(init, name);
    }
  }

  /** Registering one more name points it at the new last index and leaves every other name alone. */
  lemma {:induction false} NameTableSnoc(names: seq<string>, name: string)
    ensures NameTable(names + [name]) == NameTable(names)[name := |names|]
  {
    assert (names + [name])[..|names|] == names;
  }

  /** The entries of a built-in table, registered with an empty namespace. */
  function BuiltinEntries(table: seq<Builtin>): (es: seq<Entry>)
    ensures |es| == |table|
    ensures forall i :: 0 <= i < |table| ==> es[i] == Entry([], table[i].name, table[i].dfn)
  {
    seq(|table|, i requires 0 <= i < |table| => Entry([], table[i].name, table[i].dfn))
  }

  /** The entries of a module's external prelude, taken verbatim. */
  function ExtEntries(ext: seq<FnExternal>): (es: seq<Entry>)
    ensures |es| == |ext|
    ensures forall i :: 0 <= i < |ext| ==> es[i] == Entry(ext[i].namespace, ext[i].name, ext[i].p)
  {
    seq(|ext|, i requires 0 <= i < |ext| => Entry(ext[i].namespace, ext[i].name, ext[i].p))
  }

  /**
   * Whether a built-in table starting at index `base` has drifted: `None`
   * when every row's hard-coded index is its position, otherwise the
   * panic of the first row that is off.
   */
  function Drift(table: seq<Builtin>, base: nat): (r: Option<Panic>)
    ensures r.None? <==> forall k :: 0 <= k < |table| ==> table[k].index == base + k
    ensures r.Some? ==>
      exists k :: 0 <= k < |table| && table[k].index != base + k
        && (forall j :: 0 <= j < k ==> table[j].index == base + j)
        && r.value == IntrinsicIndexMismatch(table[k].name, table[k].index, base + k)
  {
    if |table| == 0 then None
    else if table[0].index != base then Some(IntrinsicIndexMismatch(table[0].name, table[0].index, base))
    else Drift(table[1..], base + 1)
  }

  /**
   * The entries of a module's own functions, in order, each with the
   * signature `Dfn::new` derives for it, or the panic of the first one whose
   * derivation fails; over the first `k` functions.
   */
  function OwnEntries(fs: seq<Ast.Function>, k: nat): (r: Result<seq<Entry>, Panic>)
    requires k <= |fs|
    ensures r.Success? <==> forall i :: 0 <= i < k ==> Derived(fs[i]).Success?
    ensures r.Success? ==> |r.value| == k
    ensures r.Success? ==> forall i :: 0 <= i < k ==>
      r.value[i] == Entry(fs[i].namespace, fs[i].name, Derived(fs[i]).value)
    ensures r.Failure? ==>
      exists i :: 0 <= i < k && Derived(fs[i]).Failure?
        && (forall j :: 0 <= j < i ==> Derived(fs[j]).Success?)
        && r.error == Derived(fs[i]).error
  {
    if k == 0 then Success([])
    else match OwnEntries(fs, k - 1)
      case Failure(e) => Failure(e)
      case Success(es) =>
        match Derived(fs[k - 1])
        case Failure(e) => Failure(e)
        case Success(d) => Success(es + [Entry(fs[k - 1].namespace, fs[k - 1].name, d)])
  }

  /**
   * What `Prelude::from_module` builds: the built-ins, then the external
   * prelude, then the module's own functions; or the panic that stops it.
   */
  function Layered(m: Module, table: seq<Builtin>): Result<seq<Entry>, Panic> {
    match Drift(table, 0)
    case Some(p) => Failure(p)
    case None =>
      match OwnEntries(m.functions, |m.functions|)
      case Failure(e) => Failure(e)
      case Success(own) => Success(BuiltinEntries(table) + ExtEntries(m.extPrelude) + own)
  }

  class Prelude {
    var functions: map<string, nat>
    var list: seq<Dfn>
    var namespaces: seq<(seq<string>, string)>

    /** The entries, index by index. */
    function Entries(): (es: seq<Entry>)
      reads this
      requires |list| == |namespaces|
      ensures |es| == |list|
    {
      var list, namespaces := this.list, this.namespaces;
      seq(|list|, i requires 0 <= i < |list| => Entry(namespaces[i].0, namespaces[i].1, list[i]))
    }

    /** The three stores agree: same length, and each name points at its last entry. */
    ghost predicate Valid()
      reads this
    {
      |list| == |namespaces| && functions == NameTable(Declared(namespaces))
    }

    /**
     * Looking a name up: it is registered exactly when some entry carries it,
     * and then it points at the last such entry, which is a valid index.
     */
    lemma {:induction false} Lookup(name: string)
      requires Valid()
      ensures name in functions <==> name in Names(Entries())
      ensures name in functions ==>
        functions[name] < |list| && Some(functions[name]) == LastIndex(Names(Entries()), name)
    {
      assert Names(Entries()) == Declared(namespaces);
      NameTableLast(Declared(namespaces), name);
    }

    /** `Prelude::new`: all three stores empty. */
    constructor ()
      ensures Valid()
      ensures functions == map[] && list == [] && namespaces == []
    {
      functions := map[];
      list := [];
      namespaces := [];
      new;
      assert Declared(namespaces) == [];
    }

    /** `Prelude::insert`: appends an entry and points its name at it. */
    method Insert(namespace: seq<string>, name: string, f: Dfn)
      requires Valid()
      modifies this
      ensures Valid()
      ensures list == old(list) + [f]
      ensures namespaces == old(namespaces) + [(namespace, name)]
      ensures functions == old(functions)[name := old(|list|)]
      ensures Entries() == old(Entries()) + [Entry(namespace, name, f)]
    {
      ghost var before := Entries();
      var n := |list|;
      functions := functions[name := n];
      list := list + [f];
      namespaces := namespaces + [(namespace, name)];
      assert Entries() == before + [Entry(namespace, name, f)];
      ghost var was := Declared(old(namespaces));
      assert Declared(namespaces) == was + [name];
      NameTableSnoc(was, name);
    }

    /**
     * `Prelude::intrinsic`: like `Insert` with an empty namespace, but only
     * when `index` is the next free index; otherwise it panics and nothing
     * is registered.
     */
    method Intrinsic(name: string, index: nat, f: Dfn) returns (panic: Option<Panic>)
      requires Valid()
      modifies this
      ensures Valid()
      ensures panic.None? <==> index == old(|list|)
      ensures panic.Some? ==>
        panic.value == IntrinsicIndexMismatch(name, index, old(|list|)) && unchanged(this)
      ensures panic.None? ==>
        list == old(list) + [f] && namespaces == old(namespaces) + [([], name)]
        && functions == old(functions)[name := index]
        && Entries() == old(Entries()) + [Entry([], name, f)]
    {
      var n := |list|;
      if n != index {
        return Some(IntrinsicIndexMismatch(name, index, n));
      }
      Insert([], name, f);
      return None;
    }

    /** `Prelude::new_intrinsics`: an empty prelude seeded with the built-in table. */
    static method NewIntrinsics(table: seq<Builtin>) returns (r: Result<Prelude, Panic>)
      ensures r.Success? <==> Drift(table, 0).None?
      ensures r.Failure? ==> r.error == Drift(table, 0).value
      ensures r.Success? ==> fresh(r.value) && r.value.Valid() && r.value.Entries() == BuiltinEntries(table)
    {
      var prelude := new Prelude();
      var panic := Standard(prelude, table);
      if panic.Some? {
        return Failure(panic.value);
      }
      assert prelude.Entries() == [] + BuiltinEntries(table);
      return Success(prelude);
    }

    /**
     * `Prelude::from_module`: the built-ins, then each external prelude
     * entry, then each of the module's own functions with its derived
     * signature, inserted in that order into one prelude.
     */
    static method FromModule(m: Module, table: seq<Builtin>) returns (r: Result<Prelude, Panic>)
      ensures r.Success? <==> Layered(m, table).Success?
      ensures r.Failure? ==> r.error == Layered(m, table).error
      ensures r.Success? ==> fresh(r.value) && r.value.Valid() && r.value.Entries() == Layered(m, table).value
    {
      var prelude := new Prelude();
      var panic := Standard(prelude, table);
      if panic.Some? {
        assert Layered(m, table) == Failure(panic.value);
        return Failure(panic.value);
      }
      InsertExternals(prelude, m.extPrelude);
      panic := InsertOwn(prelude, m.functions);
      LayeredOwn(m, table);
      if panic.Some? {
        return Failure(panic.value);
      }
      return Success(prelude);
    }
  }

  /** The first loop of `Prelude::from_module`: each external prelude entry, inserted verbatim. */
  method InsertExternals(p: Prelude, ext: seq<FnExternal>)
    requires p.Valid()
    modifies p
    ensures p.Valid()
    ensures p.Entries() == old(p.Entries()) + ExtEntries(ext)
  {
    ghost var start := p.Entries();
    for k := 0 to |ext|
      invariant p.Valid()
      invariant p.Entries() == start + ExtEntries(ext[..k])
    {
      var f := ext[k];
      p.Insert(f.namespace, f.name, f.p);
      ExtEntriesStep(start, ext, k);
    }
    assert ext[..|ext|] == ext;
  }

  /**
   * The second loop of `Prelude::from_module`: each of the module's own
   * functions, inserted with the signature `Dfn::new` derives for it; the
   * first derivation that panics stops the loop.
   */
  method InsertOwn(p: Prelude, fs: seq<Ast.Function>) returns (panic: Option<Panic>)
    requires p.Valid()
    modifies p
    ensures p.Valid()
    ensures panic.None? <==> OwnEntries(fs, |fs|).Success?
    ensures panic.Some? ==> panic.value == OwnEntries(fs, |fs|).error
    ensures panic.None? ==> p.Entries() == old(p.Entries()) + OwnEntries(fs, |fs|).value
  {
    ghost var start := p.Entries();
    ghost var own: seq<Entry> := [];
    for k := 0 to |fs|
      invariant p.Valid()
      invariant OwnEntries(fs, k) == Success(own)
      invariant p.Entries() == start + own
    {
      var f := fs[k];
      var d := NewDfn(f);
      if d.Failure? {
        OwnFailure(fs, k);
        return Some(d.error);
      }
      p.Insert(f.namespace, f.name, d.value);
      OwnStep(fs, k, own, start);
      own := own + [Entry(f.namespace, f.name, d.value)];
    }
    return None;
  }

  /**
   * Building from a module succeeds exactly when the built-in table has not
   * drifted and every own function derives; a drift is reported before any
   * derivation panic, and a success holds one entry per layer element.
   */
  lemma {:induction false} LayeredOutcome(m: Module, table: seq<Builtin>)
    ensures Layered(m, table).Success? <==>
      (forall k :: 0 <= k < |table| ==> table[k].index == k)
      && (forall i :: 0 <= i < |m.functions| ==> Derived(m.functions[i]).Success?)
    ensures Drift(table, 0).Some? ==> Layered(m, table) == Failure(Drift(table, 0).value)
    ensures Layered(m, table).Success? ==>
      Layered(m, table).value[..|table|] == BuiltinEntries(table)
      && |Layered(m, table).value| == |table| + |m.extPrelude| + |m.functions|
  {
  }

  /** Once the built-in table is consistent, the module's own functions decide the outcome. */
  lemma {:induction false} LayeredOwn(m: Module, table: seq<Builtin>)
    requires Drift(table, 0).None?
    ensures Layered(m, table) == match OwnEntries(m.functions, |m.functions|)
      case Failure(e) => Failure(e)
      case Success(own) => Success(BuiltinEntries(table) + ExtEntries(m.extPrelude) + own)
  {
  }

  lemma {:induction false} ExtEntriesStep(prefix: seq<Entry>, ext: seq<FnExternal>, k: nat)
    requires k < |ext|
    ensures prefix + ExtEntries(ext[..k]) + [Entry(ext[k].namespace, ext[k].name, ext[k].p)]
      == prefix + ExtEntries(ext[..k + 1])
  {
    assert ext[..k + 1] == ext[..k] + [ext[k]];
    assert ExtEntries(ext[..k + 1]) == ExtEntries(ext[..k]) + [Entry(ext[k].namespace, ext[k].name, ext[k].p)];
  }

  lemma {:induction false} OwnStep(fs: seq<Ast.Function>, k: nat, own: seq<Entry>, prefix: seq<Entry>)
    requires k < |fs| && OwnEntries(fs, k) == Success(own) && Derived(fs[k]).Success?
    ensures OwnEntries(fs, k + 1) == Success(own + [Entry(fs[k].namespace, fs[k].name, Derived(fs[k]).value)])
    ensures prefix + own + [Entry(fs[k].namespace, fs[k].name, Derived(fs[k]).value)]
      == prefix + (own + [Entry(fs[k].namespace, fs[k].name, Derived(fs[k]).value)])
  {
  }

  /** When the functions before `k` derive and `k` does not, the module's own entries fail with `k`'s panic. */
  lemma {:induction false} OwnFailure(fs: seq<Ast.Function>, k: nat)
    requires k < |fs| && OwnEntries(fs, k).Success? && Derived(fs[k]).Failure?
    ensures OwnEntries(fs, |fs|) == Failure(Derived(fs[k]).error)
  {
    var r := OwnEntries(fs, |fs|);
    assert !r.Success?;
    var i :| 0 <= i < |fs| && Derived(fs[i]).Failure?
      && (forall j :: 0 <= j < i ==> Derived(fs[j]).Success?)
      && r.error == Derived(fs[i]).error;
    assert i == k;
  }

  /**
   * `intrinsics::standard`: registers each row of the built-in table through
   * `Intrinsic`, in order, stopping at the first row whose index has drifted.
   */
  method Standard(p: Prelude, table: seq<Builtin>) returns (panic: Option<Panic>)
    requires p.Valid()
    modifies p
    ensures p.Valid()
    ensures panic == Drift(table, old(|p.list|))
    ensures panic.None? ==> p.Entries() == old(p.Entries()) + BuiltinEntries(table)
  {
    ghost var base := |p.list|;
    ghost var start := p.Entries();
    for k := 0 to |table|
      invariant p.Valid()
      invariant forall j :: 0 <= j < k ==> table[j].index == base + j
      invariant p.Entries() == start + BuiltinEntries(table[..k])
    {
      var b := table[k];
      panic := p.Intrinsic(b.name, b.index, b.dfn);
      if panic.Some? {
        DriftAt(table, base, k);
        return;
      }
      BuiltinEntriesStep(start, table, k);
    }
    assert table[..|table|] == table;
    panic := None;
  }

  lemma {:induction false} BuiltinEntriesStep(prefix: seq<Entry>, table: seq<Builtin>, k: nat)
    requires k < |table|
    ensures prefix + BuiltinEntries(table[..k]) + [Entry([], table[k].name, table[k].dfn)]
      == prefix + BuiltinEntries(table[..k + 1])
  {
    assert BuiltinEntries(table[..k + 1]) == BuiltinEntries(table[..k]) + [Entry([], table[k].name, table[k].dfn)];
  }

  /** The first drifted row decides the panic. */
  lemma {:induction false} DriftAt(table: seq<Builtin>, base: nat, k: nat)
    requires k < |table| && table[k].index != base + k
    requires forall j :: 0 <= j < k ==> table[j].index == base + j
    ensures Drift(table, base) == Some(IntrinsicIndexMismatch(table[k].name, table[k].index, base + k))
  {
    if k > 0 {
      var rest := table[1..];
      assert table[0].index == base + 0;
      assert forall j :: 0 <= j < k ==> rest[j] == table[j + 1];
      DriftAt(rest, base + 1, k - 1);
    }
  }
}
