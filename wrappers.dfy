/** The optional value used where the PHP code returns a value or null. */
module Wrappers {

  datatype Option<+T> = None | Some(value: T)
  {
    /** The value, or `default` when there is none: PHP's `??`. */
    function GetOr(default: T): T {
      if Some? then value else default
    }
  }
}
