/** Small shared vocabulary: Java's nullable references as Option, and bytes. */
module Common {

  /** A Java reference that may be null: None stands for null. */
  datatype Option<+T> = None | Some(value: T) {
    function GetOr(default: T): T {
      match this
      case Some(v) => v
      case None => default
    }
  }

  /** A Java byte; only its identity matters here, so the unsigned view is used. */
  newtype byte = x: int | 0 <= x < 256
}
