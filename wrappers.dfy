/** A value that may be absent: JavaScript's `undefined` or `null`. */
module Wrappers {

  datatype Option<T> = None | Some(value: T) {

    /** The value, or `default` when absent (JavaScript's `??`). */
    function GetOr(default: T): (r: T)
      ensures this.Some? ==> r == this.value
      ensures this.None? ==> r == default
    {
      if this.Some? then this.value else default
    }
  }
}
