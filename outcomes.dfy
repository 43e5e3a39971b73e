/** Values shared by every module: optional fields, thrown values and settled promises. */
module Outcomes {

  /** A field that may be absent (`undefined` in the dashboard's records). */
  datatype Option<+T> = None | Some(value: T) {
    /** The value, or `default` when absent: the `x || default` idiom on a non-negative number. */
    function GetOr(default: T): T {
      match this
      case Some(v) => v
      case None => default
    }
  }

  /** A value thrown by `throw` or carried by a rejected request: either an
      instance of JavaScript's global `Error` class, with its message, or
      anything else. */
  datatype Thrown = ErrorInstance(message: string) | NonError

  /** The text a service function appends to its prefix when it re-throws:
      the message of an `Error`, otherwise "Unknown error". */
  function MessageOf(t: Thrown): string {
    match t
    case ErrorInstance(m) => m
    case NonError => "Unknown error"
  }

  /** How an awaited promise settled. */
  datatype Settled<+T> = Resolved(value: T) | Rejected(reason: Thrown)

  /** `Promise.all` over two promises: resolves with both values when both
      resolve; otherwise rejects with the reason of the first promise to
      reject, which is the first one when `firstSettlesFirst` holds. */
  function All2<A, B>(a: Settled<A>, b: Settled<B>, firstSettlesFirst: bool): (r: Settled<(A, B)>)
    ensures r.Resolved? <==> a.Resolved? && b.Resolved?
    ensures r.Resolved? ==> r.value.0 == a.value && r.value.1 == b.value
    ensures r.Rejected? ==> (a.Rejected? && r.reason == a.reason) || (b.Rejected? && r.reason == b.reason)
    ensures a.Rejected? && b.Resolved? ==> r == Rejected(a.reason)
    ensures a.Resolved? && b.Rejected? ==> r == Rejected(b.reason)
  {
    match (a, b)
    case (Resolved(x), Resolved(y)) => Resolved((x, y))
    case (Rejected(t), Resolved(_)) => Rejected(t)
    case (Resolved(_), Rejected(u)) => Rejected(u)
    case (Rejected(t), Rejected(u)) => if firstSettlesFirst then Rejected(t) else Rejected(u)
  }

  /** `catch (error) { throw new Error(prefix + (error instanceof Error ? error.message : 'Unknown error')) }`
      around an awaited request: success passes through, a failure is
      re-thrown as a new `Error` whose message is `prefix` followed by the
      original message. */
  function Rethrow<T>(prefix: string, response: Settled<T>): (r: Settled<T>)
    ensures r.Resolved? <==> response.Resolved?
    ensures response.Resolved? ==> r == response
    ensures r.Rejected? ==> r.reason.ErrorInstance?
    ensures r.Rejected? ==>
              && |r.reason.message| >= |prefix|
              && r.reason.message[..|prefix|] == prefix
              && r.reason.message[|prefix|..] == MessageOf(response.reason)
  {
    match response
    case Resolved(_) => response
    case Rejected(t) => Rejected(ErrorInstance(prefix + MessageOf(t)))
  }
}
