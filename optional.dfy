/** Values JavaScript leaves `null` or `undefined`. */
module Optional {

  datatype Option<+T> = None | Some(value: T) {

    function GetOr(default: T): T {
      match this
      case Some(v) => v
      case None => default
    }
  }
}
