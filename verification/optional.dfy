/** Python's `None`-or-value, used for optional fields and for failed calls. */
module Optional {

  datatype Option<+T> = None | Some(value: T) {

    /** `value if value is not None else default` */
    function GetOr(default: T): T {
      match this
      case Some(v) => v
      case None => default
    }
  }
}
