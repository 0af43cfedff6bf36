/**
 * The error body every failed request gets: a category label and an
 * explanation that the handler sets, and an identifier and a creation time
 * that are fixed when the object is made.
 */
module ErrorResponses {
  import opened Wrappers

  /** A java.util.UUID: its two 64-bit halves. */
  datatype Uuid = Uuid(mostSigBits: bv64, leastSigBits: bv64)

  /** A java.time.LocalDateTime, kept as its fields. */
  datatype LocalDateTime = LocalDateTime(year: int, month: int, day: int, hour: int, minute: int, second: int, nano: int)

  class ErrorResponse {
    var error: Option<string>
    const uuid: Uuid
    const time: LocalDateTime
    var message: Option<string>

    /**
     * The random identifier and the clock reading are the constructor's
     * parameters here; error and message start out null.
     */
    constructor (uuid: Uuid, time: LocalDateTime)
      ensures this.uuid == uuid && this.time == time
      ensures GetError() == None && GetMessage() == None
    {
      this.uuid := uuid;
      this.time := time;
      error := None;
      message := None;
    }

    method SetError(error: Option<string>)
      modifies this
      ensures GetError() == error
      ensures GetMessage() == old(GetMessage())
    {
      this.error := error;
    }

    method SetMessage(message: Option<string>)
      modifies this
      ensures GetMessage() == message
      ensures GetError() == old(GetError())
    {
      this.message := message;
    }

    function GetError(): Option<string> reads this { error }

    function GetUuid(): Uuid { uuid }

    function GetMessage(): Option<string> reads this { message }

    function GetTime(): LocalDateTime { time }
  }
}
