/** JavaScript values and completions, as far as the rewarded-ad facade passes them around. */
module Js {

  /** A JavaScript value. The facade never looks inside one; it only hands values to the
      validators and to the native bridge. Numbers are integers here. */
  datatype Value =
    | Undefined
    | Null
    | Bool(b: bool)
    | Number(n: int)
    | Str(s: string)
    | Function(id: nat)
    | Object(props: seq<(string, Value)>)

  /** The literal `{}`. */
  const EmptyObject: Value := Object([])

  datatype Option<+T> = None | Some(value: T)

  /** How a call into JavaScript code ended: it returned a value, it threw an `Error`
      (whose `message` is kept), or it threw some other value. */
  datatype Completion<+T> =
    | Normal(value: T)
    | ThrownError(message: string)
    | ThrownOther(thrown: Value)

  /** What the caller of a facade method sees: a returned value or a thrown `Error`. */
  datatype Outcome<+T> = Returned(value: T) | Threw(message: string)
}
