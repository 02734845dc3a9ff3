/**
 * The floating-point helpers the calculator uses locally. The original parses the
 * display with `parseFloat`, negates it or takes its square root, and formats the
 * result with `toString`; none of that decimal/binary conversion is modelled. The
 * three operations are instead carried around as uninterpreted parameters.
 */
module Numerics {

  /** `negate(d)` is `(-parseFloat(d)).toString()`, `isNegative(d)` is
      `parseFloat(d) < 0`, and `sqrt(d)` is `Math.sqrt(parseFloat(d)).toString()`. */
  datatype FloatOps = FloatOps(
    negate: string -> string,
    isNegative: string -> bool,
    sqrt: string -> string)
}
