# Dyon prelude, modelled in Dafny

This project models the prelude of the Dyon scripting runtime: the registry of
function signatures that the type checker consults when a module calls a
function. It covers three things.

- **Signatures.** `Lt` is a per-argument lifetime constraint. `Dfn` holds the constraints, the argument types and a return type.
  - `Dfn::nl` builds a signature without constraints.
  - `Dfn::new` derives a signature from a parsed function.
- **Lifetime resolution.** Each annotation is resolved as follows:
  - no annotation gives `Default`;
  - the keyword `return` gives `Return`;
  - any other text gives `Arg(i)`, where `i` is the first argument with that name (the annotated argument itself is included in the scan);
  - an annotation that matches nothing panics.
- **The registry.** The `Prelude` has three stores sharing one index space:
  - `list`, the signatures;
  - `namespaces`, the namespace and name of each entry;
  - `functions`, which maps each name to an index.

  Entries are only appended. Registering a name again repoints it, and the older entry stays reachable only by its index. `from_module` stacks, in order: the built-ins, the module's external prelude, and the module's own functions.

Files:

- `wrappers.dfy`: `Option` and `Result`.
- `panics.dfy`: the two ways the runtime panics, as values.
- `ast.dfy`: the parts of a parsed function and of a type that the prelude reads.
- `signatures.dfy`: `Lt`, `Dfn` and `Dfn::new`.
  - `NewDfn` is the imperative version, with the labelled outer loop and the inner search loop.
  - It is proved equal to `Derived`, a recursive specification.
  - The lemmas characterise `Derived` case by case.
- `registry.dfy`: the `Prelude` class, whose methods update its three fields in place.
  - Its invariant `Valid()` ties `functions` to the recursive `NameTable` of the declared names.
  - `NameTableLast` proves that `NameTable` agrees with `LastIndex`, an independent "greatest index" definition.
  - The built-in seeding (`Standard`, which stands for `intrinsics::standard` as a table; see Left out) and the two loops of `from_module` are methods with loop invariants.
  - Those methods are proved against the pure functions `Drift`, `OwnEntries` and `Layered`.
- `scenarios.dfy`: small client programs with the expected outcomes asserted. They cover:
  - built-ins then a module function;
  - a module function that shadows a built-in;
  - a name inserted twice;
  - each lifetime case;
  - an unknown lifetime;
  - a drifted built-in index.

Both panics of the source are modelled as a `Panic` value: `Dfn::new`'s "could not find argument" and `intrinsic`'s index assertion.
- An operation that would panic returns `Failure`/`Some` carrying that value.
- A constructor that would panic returns no registry at all.

The code panics; the model follows the code: building the prelude stops, and nothing is returned but the panic.

## Model

| member | source | states |
|---|---|---|
| Signatures.Nl | src/prelude.rs:40-46 | The signature has one `Default` constraint per argument type, keeps the types and return type unchanged, and `Returns` (`Dfn::returns`, line 78) holds of it exactly when the return type is not `Void`. |
| Signatures.FirstIndex | src/prelude.rs:59-64 | The search returns the smallest index whose name matches; it returns nothing exactly when no argument has that name. |
| Signatures.Resolve | src/prelude.rs:52-69 | Resolving a prefix of the arguments succeeds exactly when every annotation in it resolves. The result holds one constraint per argument, each agreeing with its annotation. On failure the panic names the first unresolved annotation. |
| Signatures.Derived | src/prelude.rs:49-75 | The derived signature exists exactly when every annotation resolves. Then `lts`, `tys` and the arguments have equal length, `tys[i]` is argument `i`'s type, `lts[i]` agrees with its annotation, and `ret` is the function's return type. |
| Signatures.NewDfn | src/prelude.rs:49-75 | The loop with the pushes, the `return` check, the inner search and the early `continue`s yields exactly `Derived(f)`, including the panic. |
| Signatures.DerivedConstraint | src/prelude.rs:54-68 | No annotation gives `Default`. The keyword gives `Return`, even when an argument is itself named `return`. Any other text gives `Arg(j)` for the smallest `j` with that name. |
| Signatures.SelfReference | src/prelude.rs:59-64 | An argument annotated with its own name resolves to an index at or before its own; it resolves to its own index when no earlier argument shares the name. |
| Signatures.DerivedFailure | src/prelude.rs:59-65 | Derivation panics exactly when some annotation is neither the keyword nor any argument's name. The panic names the first such annotation. |
| Signatures.FirstFailure | src/prelude.rs:65 | When every annotation before `k` resolves and the one at `k` does not, the panic of the whole derivation names the annotation at `k`. |
| Registry.LastIndex | src/prelude.rs:94-99 | The greatest index holding a name: it holds the name, no later index does, and there is none exactly when the name was never declared. |
| Registry.NameTableLast | src/prelude.rs:94-99 | The name table, built by repointing on every registration, holds exactly the declared names, each at its greatest index (last registration wins). |
| Registry.Prelude.Lookup | src/prelude.rs:83-85 | In a valid prelude, a name is registered exactly when some entry carries it; its index is then in range and is the last entry with that name. |
| Registry.Prelude.constructor | src/prelude.rs:111-117 | All three stores start empty and the invariant holds. |
| Registry.Prelude.Insert | src/prelude.rs:94-99 | The signature and the (namespace, name) pair are appended at the old length `n`. The name maps to `n`, and every earlier entry and every other name is unchanged. The invariant is preserved. |
| Registry.Prelude.Intrinsic | src/prelude.rs:102-108 | Registration succeeds exactly when `index` is the next free index. It then behaves like `Insert` with an empty namespace, and the name maps to `index`. Otherwise it panics naming the built-in and changes nothing. |
| Registry.Drift | src/prelude.rs:104 | A built-in table fed to `Intrinsic` from index `base` is consistent exactly when each row's index equals its position plus `base`. Otherwise the panic is that of the first row that is off. |
| Registry.DriftAt | src/prelude.rs:104 | The first drifted row decides the panic. |
| Registry.Standard | src/prelude.rs:122 | Seeding the built-ins stops at the first drifted row with `Drift`'s panic. Otherwise it appends one empty-namespace entry per row, in order. The invariant is preserved. |
| Registry.Prelude.NewIntrinsics | src/prelude.rs:120-124 | A registry results exactly when the built-in table has not drifted. It is valid and holds exactly the built-in entries. |
| Registry.OwnEntries | src/prelude.rs:133-135 | A module's own functions give one entry each, under their own namespace and name, with the derived signature. They fail exactly when some derivation fails, and then with the first failing function's panic. |
| Registry.OwnFailure | src/prelude.rs:133-135 | The first function whose derivation panics decides the panic of the whole loop. |
| Registry.InsertExternals | src/prelude.rs:130-132 | External prelude entries are appended verbatim and in order. The invariant is preserved. |
| Registry.InsertOwn | src/prelude.rs:133-135 | Each own function is appended in order with its derived signature. The first derivation panic stops the loop with that panic. The invariant is preserved. |
| Registry.Prelude.FromModule | src/prelude.rs:127-137 | A registry results exactly when the three layers can be built. Its entries are the built-ins, then the external prelude, then the own functions. It is valid, so each name resolves to its last occurrence across the layers. |
| Registry.LayeredOutcome | src/prelude.rs:127-137 | Building from a module succeeds exactly when the built-in indices are consecutive from 0 and every own function derives. Drift is reported before any derivation panic. A success starts with the built-ins and has one entry per layer element. |

## Left out

- `source/piston_window/loader.rs` is an example Dyon script driven by window events, keyboard input, file loading, printing and a floating-point reload timer. It is I/O and UI, and is not part of this model.
- The fixed built-in table of `intrinsics::standard` is not part of this model. It is a parameter: a sequence of rows (name, hard-coded index, signature) registered through `Intrinsic` in order.
- Parsing of functions and compilation of modules are left out. Only the fields the prelude reads are modelled:
  - a function's namespace, name, arguments (name, type, optional lifetime) and return type;
  - a module's external prelude and functions.
- `Type` is reduced to a few constructors with a distinguished `Void`. The prelude only compares it with `Void` and copies it.
- `Arc` sharing of strings and namespaces is modelled as plain values.
- `HashMap` hashing is modelled as a Dafny `map`. No behaviour depends on iteration order.
- The `Default` implementation of `Prelude` is left out. It only calls `Prelude::new`.
- Callers elsewhere in the runtime read the three crate-visible fields directly. Those callers are not part of this model; the lookup rule they rely on is stated by `Prelude.Lookup`.
- Panics are modelled as returned values, not as aborting the process. A derivation panic in `from_module` after some own functions were inserted leaves no registry behind in the model, as the unwinding would in the source.
- Thread safety and the swapping of a reloaded module in the embedding harness are left out.
- Integer widths: `usize` indices are modelled as unbounded `nat`. The registry never comes near the limit.
