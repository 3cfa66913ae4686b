/** The Remote Collection Gateway, seen only through its replies. Every screen
    awaits a `{ data, error }` pair from the hosted table client; the model
    receives that reply as a parameter instead of calling the client. */
module Gateway {

  /** The reply of a `select` or `insert`: an error object, or the data. */
  datatype Reply<+T> = Err | Ok(data: T)

  /** `response.data || []`: the rows, or the empty list when the reply
      carries an error (and therefore `data: null`). */
  function RowsOrEmpty<T>(reply: Reply<seq<T>>): seq<T>
  {
    if reply.Ok? then reply.data else []
  }

  /** The reply of an `update` or `delete`: only whether `error` was set. */
  datatype Outcome = Failed | Succeeded

  /** `Promise.all(rows.map(async row => ... query ...; if (error) throw ...))`:
      one query per row, answered by `query`; the list of answers when every
      query succeeds, otherwise a failure of the whole batch. */
  function AllOrNothing<T, U>(rows: seq<T>, query: T -> Reply<U>): (r: Reply<seq<U>>)
    ensures r.Ok? <==> forall i :: 0 <= i < |rows| ==> query(rows[i]).Ok?
    ensures r.Ok? ==> |r.data| == |rows| &&
                      forall i :: 0 <= i < |rows| ==> query(rows[i]) == Ok(r.data[i])
  {
    if rows == [] then Ok([])
    else
      match (query(rows[0]), AllOrNothing(rows[1..], query))
      case (Ok(u), Ok(us)) => Ok([u] + us)
      case _ => Err
  }
}
