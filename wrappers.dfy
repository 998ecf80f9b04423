/** The optional value returned by `Array.prototype.find`, an object lookup or a
    classifier that may match nothing (`null` / `undefined` in the application). */
module Wrappers {

  datatype Option<+T> = None | Some(value: T) {

    /** The wrapped value, or `default` when there is none (`x ?? default`). */
    function GetOr(default: T): T {
      match this
      case Some(v) => v
      case None => default
    }
  }
}
