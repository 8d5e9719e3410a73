/** Small shared vocabulary: optional values, the actor kinds and the integer
    helpers that stand for JavaScript's Math.abs / Math.max / Math.min. */
module Common {

  /** A value that may be absent (JavaScript `undefined`, `null` or `false`). */
  datatype Option<+T> = None | Some(value: T) {
    /** The value, or `d` when absent (the `x ?? d` idiom). */
    function GetOr(d: T): T {
      match this
      case Some(v) => v
      case None => d
    }
  }

  /** The `type` tag of an actor document. */
  datatype ActorKind = Char | Vehicle | Spaceship | Organization | OtherKind

  function Abs(x: int): int { if x < 0 then -x else x }

  function Max(a: int, b: int): int { if a < b then b else a }

  function Min(a: int, b: int): int { if a < b then a else b }

  /** A numeric modifier read with JavaScript truthiness: an absent value and
      `0` both count as "no modifier" and read as 0. */
  function OrZero(x: Option<int>): int { x.GetOr(0) }
}
