/**
 * The controller connection (`S7Connector`) as the runtime sees it: an
 * injected oracle that answers connection attempts, reads and writes, and
 * a log of the calls the runtime makes on it. The wire protocol behind it
 * is not part of this model.
 */
module Connector {
  import opened Wrappers
  import opened JavaHash
  import opened ItemKeys
  import opened S7Exceptions

  /** Java's signed `byte`. */
  type Byte = b: int | -128 <= b < 128

  /** Java's `byte[]`: at most `Integer.MAX_VALUE` elements. */
  type ByteArray = s: seq<Byte> | |s| < 0x8000_0000

  /** Identity of one live connector object returned by the connect factory. */
  type ConnId = nat

  datatype ReadOutcome = Bytes(data: ByteArray) | ReadFailed(error: IoException)

  datatype WriteOutcome = Written | WriteFailed(error: IoException)

  /**
   * The controller side: what `doStartConnection` yields (a connector, or
   * `None` when it throws), what `read(area, areaNumber, bytes, offset)`
   * answers for an item, and what `write(area, areaNumber, offset, value)`
   * answers.
   */
  datatype Plc = Plc(
    connect: Option<ConnId>,
    read: ItemKey -> ReadOutcome,
    write: (Area, Int32, Int32, ByteArray) -> WriteOutcome)

  /** One call made on the connect factory or on a connector. */
  datatype ConnectorCall =
    | Connect
    | Read(conn: ConnId, key: ItemKey)
    | Write(conn: ConnId, area: Area, areaNumber: Int32, offset: Int32, value: ByteArray)
    | Close(conn: ConnId)

  /** What a runtime operation throws, synchronously or into a future. */
  datatype Thrown =
    | IllegalState(message: string)
    | RejectedExecution
    | NullPointer
    | Runtime(message: string)
    | Io(error: IoException)

  /** The message of the exception raised when no connection can be established. */
  const BROKEN: string := "Connection is broken"
}
