/** The JSON envelopes every controller answers with (utils/response.js),
    plus the bare `{ message, ... }` bodies some handlers write directly. */
module Response {
  import opened Wrappers

  /** A reply: HTTP status and body. `Success` is `{ success: true, message,
      data }`, `Failure` is `{ success: false, message, errors }` and `Bare` is a
      body without a `success` key, written with `res.status(..).json(..)`. */
  datatype Reply<T> =
    | Success(status: nat, message: string, data: Option<T>)
    | Failure(status: nat, message: string, errors: Option<seq<string>>)
    | Bare(status: nat, message: string, data: Option<T>)
  {
    /** The value of the body's `success` key, `None` when the body has none. */
    function SuccessKey(): Option<bool> {
      match this
      case Success(_, _, _) => Some(true)
      case Failure(_, _, _) => Some(false)
      case Bare(_, _, _) => None
    }

    /** Whether the status is a 2xx one. */
    predicate IsOk() {
      200 <= status < 300
    }
  }

  /** `success(res, message, data = null, status = 200)`. */
  function SuccessReply<T>(message: string, data: Option<T> := None, status: nat := 200): (r: Reply<T>)
    ensures r.SuccessKey() == Some(true)
    ensures r.status == status && r.message == message && r.data == data
  {
    Success(status, message, data)
  }

  /** `error(res, message, status = 500, errors = null)`. */
  function ErrorReply<T>(message: string, status: nat := 500, errors: Option<seq<string>> := None): (r: Reply<T>)
    ensures r.SuccessKey() == Some(false)
    ensures r.status == status && r.message == message && r.errors == errors
  {
    Failure(status, message, errors)
  }

  /** `validationFailed(res, errors)`: always 400 with a fixed message. */
  function ValidationFailed<T>(errors: seq<string>): (r: Reply<T>)
    ensures r.SuccessKey() == Some(false)
    ensures r.status == 400 && r.message == "Validation failed" && r.errors == Some(errors)
    ensures !r.IsOk()
  {
    ErrorReply("Validation failed", 400, Some(errors))
  }
}
