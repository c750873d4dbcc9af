/** Optional values: a JSON attribute that may be absent. */
module Wrappers {

  datatype Option<+T> = None | Some(value: T) {

    /** The value, or `default` when absent (the `x || default` idiom for non-falsy values). */
    function GetOr(default: T): T
    {
      match this
      case Some(v) => v
      case None => default
    }
  }

  /** JavaScript truthiness of an optional string attribute: present and not `''`. */
  predicate Truthy(v: Option<string>)
  {
    v.Some? && v.value != ""
  }
}

/** HTTP responses of the route handlers and outcomes of the client's `fetch` calls. */
module Http {

  const OK: nat := 200
  const CREATED: nat := 201
  const BAD_REQUEST: nat := 400
  const UNAUTHORIZED: nat := 401
  const FORBIDDEN: nat := 403
  const NOT_FOUND: nat := 404
  const SERVER_ERROR: nat := 500

  /** A JSON response: a status with a payload, or an error status (its message text is not modelled). */
  datatype Response<T> = Reply(status: nat, value: T) | Error(status: nat)

  /** What a client `fetch` produced: an ok response with its parsed body, a non-ok status, or a thrown exception. */
  datatype Fetched<T> = Delivered(body: T) | NotOk(status: nat) | Threw
}
