/** Shared vocabulary: opaque document identifiers, millisecond timestamps,
    and the success/error outcome every request handler produces. */
module Common {

  /** A document identifier (a MongoDB ObjectId), compared only for equality. */
  type Id = nat

  /** A point in time, in milliseconds since the epoch. */
  type Time = int

  datatype Option<+T> = None | Some(value: T)

  /** The outcome of a handler: a success payload, or an error carrying the
      HTTP status and the message the handler passes to `ErrorResponse`. */
  datatype Result<+T> = Ok(value: T) | Err(status: nat, message: string)

  /** The message the model uses for a handler that throws (a null
      dereference, a failed schema validation): the framework's error
      handler answers with status 500. */
  const ServerError: string := "Server Error"

  /** The index of the first element satisfying p, or |s| when there is
      none: the shape of `find`, `findIndex` and `findOne` over a list. */
  function FirstWhere<T>(s: seq<T>, p: T -> bool): (k: nat)
    ensures k <= |s|
    ensures k < |s| ==> p(s[k])
    ensures forall j :: 0 <= j < k ==> !p(s[j])
  {
    if |s| == 0 then 0
    else if p(s[0]) then 0
    else 1 + FirstWhere(s[1..], p)
  }

  /** Two lists on which two tests agree position by position have their
      first match at the same place. */
  lemma {:induction false} FirstWhereAgrees<T, U>(s: seq<T>, p: T -> bool, t: seq<U>, q: U -> bool)
    requires |s| == |t|
    requires forall i :: 0 <= i < |s| ==> p(s[i]) == q(t[i])
    ensures FirstWhere(s, p) == FirstWhere(t, q)
  {
    if |s| > 0 && !p(s[0]) {
      assert forall i :: 0 <= i < |s| - 1 ==> s[1..][i] == s[i + 1] && t[1..][i] == t[i + 1];
      FirstWhereAgrees(s[1..], p, t[1..], q);
    }
  }
}
