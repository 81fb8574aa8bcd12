/** Small shared vocabulary: optional values, results, and PHP's truthiness of strings. */
module Common {

  /** A value that may be absent: a PHP `null`, or a key missing from an array. */
  datatype Option<+T> = None | Some(value: T)

  /** The outcome of a request handler: `wp_send_json_success` or `wp_send_json_error`. */
  datatype Result<+T, +E> = Ok(value: T) | Err(error: E)

  /** PHP's `!$s` and `empty($s)` on a string hold for exactly "" and "0". */
  predicate Falsy(s: string)
  {
    s == "" || s == "0"
  }

  function Max(a: int, b: int): int
  {
    if a < b then b else a
  }

  /** A set of integers is empty or has a member; lets a loop pick the next key of a map. */
  lemma {:induction false} EmptyOrMember(p: set<int>)
    ensures p == {} || exists x :: x in p
  {
    if forall x :: x !in p {
      assert p == {};
    }
  }
}
