/** The pattern shared by the cart and wishlist stores
    (src/context/CartContext.tsx, src/context/WishlistContext.tsx): a
    snapshot of server state, a loading flag and an error message. A call
    that runs sets `loading`, awaits the backend, replaces the snapshot with
    the answer (or sets the error and keeps the snapshot), and clears
    `loading` in `finally`. Nothing ever resets the error. */
module ReadThrough {
  import opened Wrappers
  import opened Js

  datatype State<T> = State(data: Option<T>, loading: bool, error: Option<string>)

  /** The state a provider mounts with. */
  function Initial<T>(): State<T> {
    State(None, false, None)
  }

  /** The message of the error a failed call throws: the operation's prefix
      followed by the status, or the message of whatever else was thrown. */
  function FailureMessage<T>(prefix: string, res: Response<T>): (m: string)
    requires !res.Ok?
    ensures res.Fail? ==> m == prefix + NumberToString(res.status)
    ensures res.Rejected? ==> m == res.message
  {
    match res
    case Fail(status) => prefix + NumberToString(status)
    case Rejected(message) => message
  }

  /** One call to a store operation: whether it ran (a falsy user id returns
      before anything happens), how the backend answered, the prefix of its
      error message, and whether success empties the snapshot (`clear`)
      instead of replacing it with the answer. */
  datatype Call<T> = Call(ran: bool, res: Response<T>, prefix: string, clears: bool)

  /** The state once a call has finished. */
  function Apply<T>(s: State<T>, c: Call<T>): (r: State<T>)
    ensures !c.ran ==> r == s
    ensures c.ran ==> !r.loading
    ensures c.ran && c.res.Ok? ==> r.error == s.error && r.data == (if c.clears then None else Some(c.res.payload))
    ensures c.ran && !c.res.Ok? ==> r.data == s.data && r.error == Some(FailureMessage(c.prefix, c.res))
  {
    if !c.ran then s
    else match c.res
      case Ok(payload) => State(if c.clears then None else Some(payload), false, s.error)
      case _ => State(s.data, false, Some(FailureMessage(c.prefix, c.res)))
  }

  /** The state after a sequence of calls, each finishing before the next starts. */
  function Run<T>(s: State<T>, calls: seq<Call<T>>): State<T>
    decreases |calls|
  {
    if calls == [] then s else Run(Apply(s, calls[0]), calls[1..])
  }

  /** Some call that ran did not succeed. */
  predicate SomeRanAndFailed<T>(calls: seq<Call<T>>) {
    exists k :: 0 <= k < |calls| && calls[k].ran && !calls[k].res.Ok?
  }

  /** The error is null after a sequence of calls exactly when it was null
      before and no call that ran failed: no operation ever clears it. */
  lemma {:induction false} ErrorNullIff<T>(s: State<T>, calls: seq<Call<T>>)
    ensures Run(s, calls).error.None? <==> s.error.None? && !SomeRanAndFailed(calls)
    decreases |calls|
  {
    if calls != [] {
      ErrorNullIff(Apply(s, calls[0]), calls[1..]);
      if SomeRanAndFailed(calls[1..]) {
        var k :| 0 <= k < |calls[1..]| && calls[1..][k].ran && !calls[1..][k].res.Ok?;
        assert calls[k + 1] == calls[1..][k];
      }
      if SomeRanAndFailed(calls) && !(calls[0].ran && !calls[0].res.Ok?) {
        var k :| 0 <= k < |calls| && calls[k].ran && !calls[k].res.Ok?;
        assert calls[1..][k - 1] == calls[k];
      }
    }
  }

  /** `loading` is false after any non-empty sequence in which the last call ran. */
  lemma {:induction false} NotLoadingAfterRun<T>(s: State<T>, calls: seq<Call<T>>)
    requires calls != [] && calls[|calls| - 1].ran
    ensures !Run(s, calls).loading
    decreases |calls|
  {
    if |calls| > 1 {
      NotLoadingAfterRun(Apply(s, calls[0]), calls[1..]);
    }
  }
}
