/**
 * The parts of the syntax tree the prelude reads: a function declaration with
 * its namespace, name, arguments and return type. Everything else the parser
 * produces (bodies, source ranges, mutability flags) is not part of this model.
 */
module Ast {
  import opened Wrappers

  /** Script value types, reduced to a few shapes; `Void` is the "returns nothing" type. */
  datatype Type = Void | Any | Bool | F64 | Str | Array(item: Type)

  /** A declared argument: its name, its type and its optional lifetime annotation. */
  datatype Arg = Arg(name: string, ty: Type, lifetime: Option<string>)

  /** A declared function. */
  datatype Function = Function(namespace: seq<string>, name: string, args: seq<Arg>, ret: Type)
}
