/** Small value wrappers shared by every module. */
module Common {
  datatype Option<T> = None | Some(value: T)

  /** The outcome of an operation that the source reports as `{ success, message }`
      or by throwing. */
  datatype Result<T> = Ok(value: T) | Err(message: string)

  /** `JSON.stringify` and `JSON.parse` for values of one shape: the text written, and
      the value read back, or `None` where `JSON.parse` would throw. */
  datatype Codec<!T> = Codec(encode: T -> string, decode: string -> Option<T>)

  /** What the model relies on from JSON: every value reads back as itself, and its
      text is never empty (so it counts as present when read back as a property). */
  ghost predicate Sound<T(!new)>(c: Codec<T>) {
    forall x: T :: c.decode(c.encode(x)) == Some(x) && c.encode(x) != ""
  }

  /** Regrouping a concatenation, for places where the surrounding facts make the
      solver slow to find it. */
  lemma ConcatAssoc<T>(a: seq<T>, b: seq<T>, c: seq<T>)
    ensures (a + b) + c == a + (b + c)
  {
  }

  /** `Math.round`: the nearest whole number, a half going up. */
  function Round(x: real): (r: int)
    ensures x - 0.5 < r as real <= x + 0.5
  {
    (x + 0.5).Floor
  }
}
