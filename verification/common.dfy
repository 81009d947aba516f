/**
 * Values shared by every part of the model: an Option type, and the shape of
 * a numeric form field as the pages hold it.
 */
module Common {

  datatype Option<+T> = None | Some(value: T) {
    /** The value, or `default` when there is none. */
    function GetOr(default: T): T {
      match this
      case Some(v) => v
      case None => default
    }
  }

  /**
   * A numeric form field. The pages keep the raw text of an `<input
   * type="number">`: the empty text is `Blank`, any number typed in
   * (including "0") is `Typed`.
   */
  datatype Input = Blank | Typed(value: real)

  /** `Number(x || 0)`: a blank field reads as 0. */
  function Num(x: Input): real {
    match x
    case Blank => 0.0
    case Typed(v) => v
  }

  /** JavaScript truthiness of the field's text: only the empty text is falsy. */
  predicate Filled(x: Input) {
    x.Typed?
  }
}
