/** Types shared by every part of the model: optional values, results, and
    the exceptions the Python code raises, as values. */
module Common {

  datatype Option<+T> = None | Some(value: T)

  /** A computation that either produced a value or raised an exception. */
  datatype Result<+T> = Ok(value: T) | Err(error: Failure)

  /** The exceptions of the modelled code that decide control flow. */
  datatype Failure =
    | RateLimitExceeded              // BigCommerceRateLimitException (status 429)
    | HttpError(status: int)         // requests.exceptions.HTTPError (any other non-200)
    | KeyError(key: string)          // a dict lookup of a missing key
    | TypeError                      // arithmetic on None, naive minus aware, `len` or `for` on a scalar
    | AttributeError                 // `.get` called on a list body
    | ValueError                     // an unparseable date string
    | ClientError(message: string)   // the exceptions raised by the client's checks

  function Min(a: int, b: int): (m: int)
    ensures m <= a && m <= b
    ensures m == a || m == b
  {
    if a <= b then a else b
  }

  function Max(a: int, b: int): (m: int)
    ensures m >= a && m >= b
    ensures m == a || m == b
  {
    if a >= b then a else b
  }
}
