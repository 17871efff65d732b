/**
 * The argument of a state setter: either a literal new value or an update
 * function applied to the value currently held (the framework's
 * "set state action").
 */
module StateUpdate {
  datatype Update<!T> = Literal(value: T) | Fn(apply: T -> T)

  /** The value an update produces when the slot currently holds `current`. */
  function Resolve<T>(u: Update<T>, current: T): T {
    match u
    case Literal(v) => v
    case Fn(f) => f(current)
  }
}
