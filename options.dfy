/** The optional value used across the model: JavaScript's `undefined`/`null`
    and Python's `None` on one side, a present value on the other. */
module Options {

  datatype Option<+T> = None | Some(value: T) {

    /** The value, or `default` when there is none (`x ?? d`, `x || d`, `dict.get(k, d)`). */
    function GetOr(default: T): T {
      match this
      case Some(v) => v
      case None => default
    }
  }
}
