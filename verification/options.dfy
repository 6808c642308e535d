/** The optional value used for every field of the extension's property bag:
    a field the deployment leaves out is `None`. */
module Options {

  datatype Option<+T> = None | Some(value: T) {

    /** Returns the value in Some, or the given default when absent. */
    function GetOr(default: T): T
    {
      match this
      case Some(v) => v
      case None => default
    }
  }
}
