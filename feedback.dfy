/** The toast a page shows after an action, and the message it takes from a failed call. */
module Feedback {
  import opened Wrappers
  import opened Browser
  import opened Api

  datatype ToastKind = Success | Error | Info

  datatype Toast = Toast(message: string, kind: ToastKind)

  /** `error.response?.data?.message`: only a server answer can carry a message. */
  function ServerMessage(f: Failure): (m: Option<string>)
    ensures f.NoResponse? ==> m == None
    ensures f.HttpError? ==> m == f.data.message
  {
    if f.HttpError? then f.data.message else None
  }

  /** `error.response?.data?.message || fallback`: never empty when the fallback is not. */
  function FailureText(f: Failure, fallback: string): (t: string)
    ensures fallback != "" ==> t != ""
    ensures Truthy(ServerMessage(f)) ==> t == ServerMessage(f).value
    ensures !Truthy(ServerMessage(f)) ==> t == fallback
  {
    OrElse(ServerMessage(f), fallback)
  }
}
