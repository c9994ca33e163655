/**
 * `S7Exception`: the protocol-level error of one item. It is an
 * `IOException` carrying an error code, `RESULT_OK` when the exception
 * was built without one.
 */
module S7Exceptions {
  import opened Wrappers
  import opened JavaHash

  /** libnodave's `RESULT_OK`; `Nodave` is not part of this model, so its value is taken as 0. */
  const RESULT_OK: Int32 := 0

  /** The detail message: none, a text, or `Nodave.strerror(code)` (not part of this model). */
  datatype Message = NoMessage | Text(text: string) | NodaveError(code: Int32)

  /** An S7Exception; a cause is represented by its description. */
  datatype S7Exception = S7Exception(message: Message, cause: Option<string>, errorCode: Int32)

  /**
   * The two kinds of `IOException` the runtime tells apart: the
   * `S7Exception` subclass, and every other I/O failure (a broken socket,
   * "Connection is broken"). A handler for IOException also catches
   * S7Exception, which is why the read cycle tests for it first.
   */
  datatype IoException = S7Failure(s7: S7Exception) | IoFailure(message: string)

  function NewS7Exception(): (e: S7Exception)
    ensures e.errorCode == RESULT_OK && e.message == NoMessage
  {
    S7Exception(NoMessage, None, RESULT_OK)
  }

  function WithMessage(message: string): (e: S7Exception)
    ensures e.errorCode == RESULT_OK && e.message == Text(message)
  {
    S7Exception(Text(message), None, RESULT_OK)
  }

  function WithMessageAndCause(message: string, cause: string): (e: S7Exception)
    ensures e.errorCode == RESULT_OK && e.message == Text(message) && e.cause == Some(cause)
  {
    S7Exception(Text(message), Some(cause), RESULT_OK)
  }

  /** Throwable's cause constructor takes the cause's description as the message. */
  function WithCause(cause: string): (e: S7Exception)
    ensures e.errorCode == RESULT_OK && e.cause == Some(cause)
  {
    S7Exception(Text(cause), Some(cause), RESULT_OK)
  }

  function WithErrorCode(code: Int32): (e: S7Exception)
    ensures e.errorCode == code && e.message == NodaveError(code)
  {
    S7Exception(NodaveError(code), None, code)
  }

  /** `getErrorCode`: empty exactly for `RESULT_OK`, otherwise the stored code. */
  function GetErrorCode(e: S7Exception): (r: Option<Int32>)
    ensures r.None? <==> e.errorCode == RESULT_OK
    ensures r.Some? ==> r.value == e.errorCode
  {
    if e.errorCode != RESULT_OK then Some(e.errorCode) else None
  }

  /** Only the code constructor can produce a non-empty `getErrorCode`. */
  lemma MessageConstructorsHaveNoCode(message: string, cause: string)
    ensures GetErrorCode(NewS7Exception()) == None
    ensures GetErrorCode(WithMessage(message)) == None
    ensures GetErrorCode(WithMessageAndCause(message, cause)) == None
    ensures GetErrorCode(WithCause(cause)) == None
  {
  }

  /** The code constructor round-trips through `getErrorCode`, except for `RESULT_OK` itself. */
  lemma ErrorCodeRoundTrip(code: Int32)
    ensures GetErrorCode(WithErrorCode(code)) == if code == RESULT_OK then None else Some(code)
  {
  }
}
