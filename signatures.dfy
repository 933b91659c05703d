/**
 * Function signatures as the prelude stores them: one lifetime constraint and
 * one type per argument, plus a return type.
 */
module Signatures {
  import opened Wrappers
  import opened Panics
  import Ast

  /** Lifetime constraint on one argument. */
  datatype Lt =
      /** Outlives the argument at this index. */
    | Arg(index: nat)
      /** Outlives the return value on the stack. */
    | Return
      /** No constraint: the argument may be created after the return slot. */
    | Default

  /** A checked function signature: `lts[i]` constrains the argument of type `tys[i]`. */
  datatype Dfn = Dfn(lts: seq<Lt>, tys: seq<Ast.Type>, ret: Ast.Type)

  /** The keyword that ties an argument to the return slot. */
  const ReturnKeyword := "return"

  /** `Dfn::nl`: a signature whose arguments carry no lifetime. */
  function Nl(args: seq<Ast.Type>, ret: Ast.Type): (d: Dfn)
    ensures |d.lts| == |d.tys| == |args|
    ensures forall i :: 0 <= i < |d.lts| ==> d.lts[i] == Default
    ensures d.tys == args && d.ret == ret
    ensures Returns(d) <==> ret != Ast.Void
  {
    Dfn(seq(|args|, _ => Default), args, ret)
  }

  /** `Dfn::returns`: whether the function produces a value. */
  predicate Returns(d: Dfn) {
    d.ret != Ast.Void
  }

  /** The smallest index of an argument called `name`, if there is one. */
  function FirstIndex(args: seq<Ast.Arg>, name: string): (r: Option<nat>)
    ensures r.Some? ==> r.value < |args| && args[r.value].name == name
    ensures r.Some? ==> forall j :: 0 <= j < r.value ==> args[j].name != name
    ensures r.None? <==> forall j :: 0 <= j < |args| ==> args[j].name != name
  {
    if |args| == 0 then None
    else if args[0].name == name then Some(0)
    else match FirstIndex(args[1..], name)
      case None => None
      case Some(j) => Some(j + 1)
  }

  /**
   * The constraint an annotation gives within the argument list `args`:
   * none gives `Default`, the keyword gives `Return` (before any name is
   * looked at), any other text the first argument of that name. `None`
   * means the annotation names no argument.
   */
  function LtOf(args: seq<Ast.Arg>, lifetime: Option<string>): Option<Lt> {
    match lifetime
    case None => Some(Default)
    case Some(lt) =>
      if lt == ReturnKeyword then Some(Return)
      else match FirstIndex(args, lt)
        case Some(i) => Some(Arg(i))
        case None => None
  }

  /**
   * The constraints of the first `k` arguments, in declaration order, or the
   * panic raised at the first argument whose annotation names no argument.
   */
  function Resolve(args: seq<Ast.Arg>, k: nat): (r: Result<seq<Lt>, Panic>)
    requires k <= |args|
    ensures r.Success? <==> forall i :: 0 <= i < k ==> LtOf(args, args[i].lifetime).Some?
    ensures r.Success? ==> |r.value| == k
    ensures r.Success? ==> forall i :: 0 <= i < k ==> LtOf(args, args[i].lifetime) == Some(r.value[i])
    ensures r.Failure? ==>
      exists i :: 0 <= i < k && LtOf(args, args[i].lifetime).None? && args[i].lifetime.Some?
        && (forall j :: 0 <= j < i ==> LtOf(args, args[j].lifetime).Some?)
        && r.error == CouldNotFindArgument(args[i].lifetime.value)
  {
    if k == 0 then Success([])
    else match Resolve(args, k - 1)
      case Failure(e) => Failure(e)
      case Success(lts) =>
        match LtOf(args, args[k - 1].lifetime)
        case None => Failure(CouldNotFindArgument(args[k - 1].lifetime.value))
        case Some(lt) => Success(lts + [lt])
  }

  /** The declared argument types, in order. */
  function Types(args: seq<Ast.Arg>): (tys: seq<Ast.Type>)
    ensures |tys| == |args| && forall i :: 0 <= i < |args| ==> tys[i] == args[i].ty
  {
    seq(|args|, i requires 0 <= i < |args| => args[i].ty)
  }

  /** What `Dfn::new` produces for `f`: its signature, or the panic it raises. */
  function Derived(f: Ast.Function): (r: Result<Dfn, Panic>)
    ensures r.Success? <==> forall i :: 0 <= i < |f.args| ==> LtOf(f.args, f.args[i].lifetime).Some?
    ensures r.Success? ==> |r.value.lts| == |r.value.tys| == |f.args| && r.value.ret == f.ret
    ensures r.Success? ==> forall i :: 0 <= i < |f.args| ==>
      r.value.tys[i] == f.args[i].ty && LtOf(f.args, f.args[i].lifetime) == Some(r.value.lts[i])
  {
    match Resolve(f.args, |f.args|)
    case Success(lts) => Success(Dfn(lts, Types(f.args), f.ret))
    case Failure(e) => Failure(e)
  }

  /**
   * `Dfn::new`: walks the arguments in order, pushing each type and each
   * constraint; an annotation is first compared with the keyword, then looked
   * up among all the arguments (the annotated one included).
   */
  method NewDfn(f: Ast.Function) returns (r: Result<Dfn, Panic>)
    ensures r == Derived(f)
  {
    var lts: seq<Lt> := [];
    var tys: seq<Ast.Type> := [];
    label NextArg:
    for k := 0 to |f.args|
      invariant |tys| == k && forall i :: 0 <= i < k ==> tys[i] == f.args[i].ty
      invariant Resolve(f.args, k) == Success(lts)
    {
      var arg := f.args[k];
      tys := tys + [arg.ty];
      if arg.lifetime.Some? {
        var lt := arg.lifetime.value;
        if lt == ReturnKeyword {
          ResolveStep(f.args, k, lts, Return);
          lts := lts + [Return];
          continue NextArg;
        }
        for i := 0 to |f.args|
          invariant forall j :: 0 <= j < i ==> f.args[j].name != lt
        {
          if f.args[i].name == lt {
            FirstIndexAt(f.args, lt, i);
            ResolveStep(f.args, k, lts, Arg(i));
            lts := lts + [Arg(i)];
            continue NextArg;
          }
        }
        assert FirstIndex(f.args, lt).None?;
        FirstFailure(f.args, k);
        return Failure(CouldNotFindArgument(lt));
      } else {
        ResolveStep(f.args, k, lts, Default);
        lts := lts + [Default];
      }
    }
    assert tys == Types(f.args);
    return Success(Dfn(lts, tys, f.ret));
  }

  /** An index with the name and no earlier one with it is the first index. */
  lemma {:induction false} FirstIndexAt(args: seq<Ast.Arg>, name: string, i: nat)
    requires i < |args| && args[i].name == name
    requires forall j :: 0 <= j < i ==> args[j].name != name
    ensures FirstIndex(args, name) == Some(i)
  {
  }

  /** Resolving one more argument appends its constraint. */
  lemma {:induction false} ResolveStep(args: seq<Ast.Arg>, k: nat, lts: seq<Lt>, c: Lt)
    requires k < |args| && Resolve(args, k) == Success(lts) && LtOf(args, args[k].lifetime) == Some(c)
    ensures Resolve(args, k + 1) == Success(lts + [c])
  {
  }

  /** When every argument before `k` resolves and `k` does not, resolving them all panics at `k`. */
  lemma {:induction false} FirstFailure(args: seq<Ast.Arg>, k: nat)
    requires k < |args| && Resolve(args, k).Success? && LtOf(args, args[k].lifetime).None?
    ensures args[k].lifetime.Some?
    ensures Resolve(args, |args|) == Failure(CouldNotFindArgument(args[k].lifetime.value))
  {
    var r := Resolve(args, |args|);
    assert !r.Success?;
    var i :| 0 <= i < |args| && LtOf(args, args[i].lifetime).None? && args[i].lifetime.Some?
      && (forall j :: 0 <= j < i ==> LtOf(args, args[j].lifetime).Some?)
      && r.error == CouldNotFindArgument(args[i].lifetime.value);
    assert i == k;
  }

  /**
   * Each derived constraint, case by case: no annotation gives `Default`; the
   * keyword gives `Return` even when an argument is itself called `return`;
   * any other text gives the smallest index of an argument with that name.
   */
  lemma {:induction false} DerivedConstraint(f: Ast.Function, i: nat)
    requires Derived(f).Success? && i < |f.args|
    ensures f.args[i].lifetime.None? ==> Derived(f).value.lts[i] == Default
    ensures f.args[i].lifetime == Some(ReturnKeyword) ==> Derived(f).value.lts[i] == Return
    ensures f.args[i].lifetime.Some? && f.args[i].lifetime.value != ReturnKeyword ==>
      var lt := f.args[i].lifetime.value;
      var c := Derived(f).value.lts[i];
      c.Arg? && c.index < |f.args| && f.args[c.index].name == lt &&
      forall j :: 0 <= j < c.index ==> f.args[j].name != lt
  {
  }

  /**
   * An argument annotated with its own name is constrained by an argument
   * at or before it, and by itself when no earlier argument shares its name.
   */
  lemma {:induction false} SelfReference(f: Ast.Function, i: nat)
    requires i < |f.args| && f.args[i].name != ReturnKeyword
    requires f.args[i].lifetime == Some(f.args[i].name)
    ensures LtOf(f.args, f.args[i].lifetime).Some?
    ensures LtOf(f.args, f.args[i].lifetime).value.Arg?
    ensures LtOf(f.args, f.args[i].lifetime).value.index <= i
    ensures (forall j :: 0 <= j < i ==> f.args[j].name != f.args[i].name) ==>
      LtOf(f.args, f.args[i].lifetime) == Some(Arg(i))
  {
  }

  /**
   * Construction fails exactly when some argument carries an annotation that
   * is neither the keyword nor the name of any argument; the panic names the
   * first such annotation in declaration order.
   */
  lemma {:induction false} DerivedFailure(f: Ast.Function)
    ensures Derived(f).Failure? <==>
      exists i :: 0 <= i < |f.args| && f.args[i].lifetime.Some? && Unresolvable(f.args, f.args[i].lifetime.value)
    ensures Derived(f).Failure? ==>
      exists i :: 0 <= i < |f.args| && f.args[i].lifetime.Some? && Unresolvable(f.args, f.args[i].lifetime.value)
        && Derived(f).error == CouldNotFindArgument(f.args[i].lifetime.value)
        && forall j :: 0 <= j < i ==> f.args[j].lifetime.None? || !Unresolvable(f.args, f.args[j].lifetime.value)
  {
    var r := Resolve(f.args, |f.args|);
    if r.Failure? {
      var i :| 0 <= i < |f.args| && LtOf(f.args, f.args[i].lifetime).None? && f.args[i].lifetime.Some?
        && (forall j :: 0 <= j < i ==> LtOf(f.args, f.args[j].lifetime).Some?)
        && r.error == CouldNotFindArgument(f.args[i].lifetime.value);
      assert Unresolvable(f.args, f.args[i].lifetime.value);
      forall j | 0 <= j < i && f.args[j].lifetime.Some?
        ensures !Unresolvable(f.args, f.args[j].lifetime.value)
      {
        assert LtOf(f.args, f.args[j].lifetime).Some?;
      }
    } else {
      forall i | 0 <= i < |f.args| && f.args[i].lifetime.Some?
        ensures !Unresolvable(f.args, f.args[i].lifetime.value)
      {
        assert LtOf(f.args, f.args[i].lifetime).Some?;
      }
    }
  }

  /** An annotation that is not the keyword and names no argument. */
  predicate Unresolvable(args: seq<Ast.Arg>, lt: string) {
    lt != ReturnKeyword && forall j :: 0 <= j < |args| ==> args[j].name != lt
  }
}
