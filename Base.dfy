/** Small shared vocabulary: optional values and path names. */
module Base {

  /** JavaScript's `undefined`/`null` versus a present value. */
  datatype Option<+T> = None | Some(value: T) {
    function GetOr(default: T): T {
      if Some? then value else default
    }
  }

  /** A path name as the program passes it around: a plain string. */
  type Path = string
}
