/**
 * The request lifecycle every store action follows: raise `isLoading`, clear
 * `error`, issue one request, then lower `isLoading` and either install the
 * payload or record one message and hand back a sentinel.
 */
module Lifecycle {
  import opened Wrappers
  import opened Http

  /** The slice state after an action together with what the action returns. */
  datatype Step<S, V> = Step(state: S, value: V)

  /** The `error` field an action leaves behind once it settled on `resp`. */
  function ErrorAfter<T>(resp: Response<T>, fallback: string): Option<string> {
    if Succeeded(resp) then None else Some(ErrorMessage(resp, fallback))
  }

  /** The payload on success, the action's sentinel otherwise. */
  function Installed<T>(resp: Response<T>, sentinel: T): T {
    if Succeeded(resp) then resp.payload else sentinel
  }

  /** The payload on success, `null` otherwise. */
  function Returned<T>(resp: Response<T>): Option<T> {
    if Succeeded(resp) then Some(resp.payload) else None
  }

  /** How an action that settled on `resp` leaves the two lifecycle fields:
      no longer loading; no error exactly when the request succeeded; the
      failure message otherwise. */
  ghost predicate SettledOn<T>(isLoading: bool, error: Option<string>, resp: Response<T>, fallback: string) {
    && !isLoading
    && (error.None? <==> Succeeded(resp))
    && (!Succeeded(resp) ==> error == Some(ErrorMessage(resp, fallback)))
  }
}
