/**
 * Small client programs that drive the prelude the way the runtime does,
 * with the outcome each one must have asserted at the end.
 */
module Scenarios {
  import opened Wrappers
  import opened Panics
  import Ast
  import opened Signatures
  import opened Registry

  /** Two built-ins; their hard-coded indices match their positions. */
  function Builtins(): seq<Builtin> {
    [ Builtin("print", 0, Nl([Ast.Any], Ast.Void)),
      Builtin("len", 1, Nl([Ast.Array(Ast.Any)], Ast.F64)) ]
  }

  /** A module declaring `fn double(x: f64) -> f64` gets it at the index after the built-ins. */
  method DoubleAfterBuiltins() {
    var double := Ast.Function([], "double", [Ast.Arg("x", Ast.F64, None)], Ast.F64);
    var m := Module([], [double]);
    var r := Prelude.FromModule(m, Builtins());
    ResolveStep(double.args, 0, [], Default);
    assert [] + [Default] == [Default];
    assert Types(double.args) == [double.args[0].ty];
    assert Derived(double) == Success(Dfn([Default], [Ast.F64], Ast.F64));
    assert r.Success?;
    var p := r.value;
    assert Names(p.Entries()) == ["print", "len", "double"];
    p.Lookup("double");
    assert p.functions["double"] == 2;
  }

  /** A module function named like a built-in hides it from lookup; the built-in keeps index 0. */
  method ModuleShadowsBuiltin() {
    var builtin := Nl([], Ast.Void);
    var foo := Ast.Function(["m"], "foo", [], Ast.Bool);
    var r := Prelude.FromModule(Module([], [foo]), [Builtin("foo", 0, builtin)]);
    assert Resolve(foo.args, 0) == Success([]);
    assert Derived(foo) == Success(Dfn([], [], Ast.Bool));
    assert r.Success?;
    var p := r.value;
    assert p.Entries() == [Entry([], "foo", builtin), Entry(["m"], "foo", Dfn([], [], Ast.Bool))];
    assert Names(p.Entries()) == ["foo", "foo"];
    p.Lookup("foo");
    assert p.functions["foo"] == 1;
    assert p.Entries()[0] == Entry([], "foo", builtin);
  }

  /** Registering a name twice repoints it; the first signature stays at its index. */
  method Shadowing() {
    var p := new Prelude();
    var first := Nl([Ast.F64], Ast.F64);
    var second := Nl([], Ast.Void);
    p.Insert([], "f", first);
    p.Insert(["m"], "f", second);
    assert p.functions == map["f" := 1];
    assert p.list == [first, second];
  }

  /** Lifetimes: none, another argument, the return slot and the argument itself. */
  method Lifetimes() {
    var f := Ast.Function([], "f",
      [ Ast.Arg("a", Ast.Any, None),
        Ast.Arg("b", Ast.Any, Some("a")),
        Ast.Arg("c", Ast.Any, Some("return")),
        Ast.Arg("d", Ast.Any, Some("d")) ], Ast.Void);
    var d := NewDfn(f);
    assert FirstIndex(f.args, "a") == Some(0);
    assert FirstIndex(f.args, "d") == Some(3);
    ResolveStep(f.args, 0, [], Default);
    assert [] + [Default] == [Default];
    ResolveStep(f.args, 1, [Default], Arg(0));
    assert [Default] + [Arg(0)] == [Default, Arg(0)];
    ResolveStep(f.args, 2, [Default, Arg(0)], Return);
    assert [Default, Arg(0)] + [Return] == [Default, Arg(0), Return];
    ResolveStep(f.args, 3, [Default, Arg(0), Return], Arg(3));
    assert d.Success? && d.value.lts == [Default, Arg(0), Return, Arg(3)];
    assert d.value.tys[3] == Ast.Any && d.value.ret == Ast.Void;
  }

  /** An annotation naming no argument stops the whole module. */
  method UnknownLifetime() {
    var g := Ast.Function([], "g", [Ast.Arg("x", Ast.Any, Some("y"))], Ast.Void);
    var r := Prelude.FromModule(Module([], [g]), Builtins());
    assert FirstIndex(g.args, "y") == None;
    assert r == Failure(CouldNotFindArgument("y"));
  }

  /** A built-in whose hard-coded index is not the next free one aborts the seeding. */
  method DriftedBuiltin() {
    var table := [Builtin("len", 1, Nl([Ast.Array(Ast.Any)], Ast.F64))];
    var r := Prelude.NewIntrinsics(table);
    assert r == Failure(IntrinsicIndexMismatch("len", 1, 0));
  }
}
