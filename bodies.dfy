/**
 * HTTP bodies as the converters see them. A response body is a resource with
 * content, a read that may fail, a close that may fail, and a count of how many
 * times it has been closed. The transport behind it is not modelled.
 */
module Bodies {
  import opened Wrappers

  newtype byte = x: int | 0 <= x < 256

  /** An `IOException`, identified by its message. */
  datatype IOError = IOError(message: string)

  /** An inbound body. Its read and close failures are fixed when it is created. */
  class ResponseBody {
    const content: seq<byte>
    const readFailure: Option<IOError>
    const closeFailure: Option<IOError>
    var closeCount: nat

    constructor (content: seq<byte>, readFailure: Option<IOError>, closeFailure: Option<IOError>)
      ensures this.content == content
      ensures this.readFailure == readFailure && this.closeFailure == closeFailure
      ensures closeCount == 0
    {
      this.content := content;
      this.readFailure := readFailure;
      this.closeFailure := closeFailure;
      closeCount := 0;
    }

    /** `close()`: releases the resource once; throws if this body's close fails. */
    method Close() returns (o: Outcome<IOError>)
      modifies this
      ensures closeCount == old(closeCount) + 1
      ensures o == if closeFailure.Some? then Fail(closeFailure.value) else Pass
    {
      closeCount := closeCount + 1;
      o := if closeFailure.Some? then Fail(closeFailure.value) else Pass;
    }
  }

  /** An outbound body; the converters only pass it along. */
  class RequestBody {
    const content: seq<byte>

    constructor (content: seq<byte>)
      ensures this.content == content
    {
      this.content := content;
    }
  }

  /**
   * Reads the whole body into memory: either the read fails with the body's
   * error, or a new in-memory body with the same content is returned. The
   * original body is not closed here.
   */
  method ReadBodyToBytes(body: ResponseBody) returns (r: Result<ResponseBody, IOError>)
    ensures body.readFailure.Some? ==> r == Failure(body.readFailure.value)
    ensures body.readFailure.None? ==> r.Success? && fresh(r.value)
    ensures r.Success? ==> r.value.content == body.content && r.value.closeCount == 0
    ensures r.Success? ==> r.value.readFailure.None? && r.value.closeFailure.None?
  {
    if body.readFailure.Some? {
      return Failure(body.readFailure.value);
    }
    var buffered := new ResponseBody(body.content, None, None);
    return Success(buffered);
  }

  /** Closes the body once and discards any error the close throws. */
  method CloseQuietly(body: ResponseBody)
    modifies body
    ensures body.closeCount == old(body.closeCount) + 1
  {
    var ignored := body.Close();
  }
}
