/** Small value types shared by every page model. */
module Common {

  /** A value that may be absent (JavaScript `undefined` or `null`). */
  datatype Option<+T> = None | Some(value: T)

  /**
   * What a select query gave back: its rows (a `null` result is read as no
   * rows, which every page using `Fetch` treats like an empty array), or an
   * error. The notification bell keeps the two apart with its own `Reply`.
   */
  datatype Fetch<+T> = Rows(rows: seq<T>) | FetchError

  /** A remote `update({ votes }).eq("id", id)` request on a table. */
  datatype VoteWrite = VoteWrite(table: string, id: int, votes: int)

  /** `x || 0` on a number that may be missing: a missing count reads as 0. */
  function OrZero(x: Option<int>): (r: int)
    ensures x.None? ==> r == 0
    ensures x.Some? ==> r == x.value
  {
    match x
    case None => 0
    case Some(n) => n
  }

  /** `a` is obtained from `b` by deleting some elements, keeping the order of the rest. */
  predicate IsSubsequence<T(==)>(a: seq<T>, b: seq<T>)
  {
    if a == [] then true
    else if b == [] then false
    else if a[0] == b[0] then IsSubsequence(a[1..], b[1..])
    else IsSubsequence(a, b[1..])
  }
}
