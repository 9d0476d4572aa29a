/** The value one call of the strict dispatcher produces. */
module Outcomes {

  /** `Matched(v)` is the visitor's return value for the matching tag; `Unmatched`
      stands for the `std::invalid_argument` the strict `visit` throws when no tag
      equals the runtime value. */
  datatype Outcome<+R> = Matched(value: R) | Unmatched {

    /** The matched value, or `default` when nothing matched. */
    function GetOr(default: R): (r: R) {
      if Matched? then value else default
    }
  }
}
