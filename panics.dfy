/**
 * The two conditions under which building a prelude aborts. In the runtime
 * both are panics; here they are values, so that a caller can see which one
 * stopped construction and with what data.
 */
module Panics {

  datatype Panic =
      /** `Dfn::new`: a lifetime annotation names no argument of the function. */
    | CouldNotFindArgument(lifetime: string)
      /** `Prelude::intrinsic`: the built-in's hard-coded index is not the next free index. */
    | IntrinsicIndexMismatch(name: string, expected: nat, actual: nat)
}
