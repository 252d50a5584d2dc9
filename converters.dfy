/**
 * Retrofit's built-in converter factory: the three small converters and the
 * factory that hands them out, building each one on first demand and keeping
 * it in its own nullable field.
 */
module Converters {
  import opened Wrappers
  import opened Reflect
  import opened Bodies
  import opened Resolution

  /** Converts a response to `Void`: closes the body and returns nothing. */
  class VoidConverter {
    constructor ()
    {
    }

    /** Closes the body exactly once; a failing close is thrown to the caller. */
    method Convert(value: ResponseBody) returns (o: Outcome<IOError>)
      modifies value
      ensures value.closeCount == old(value.closeCount) + 1
      ensures o == if value.closeFailure.Some? then Fail(value.closeFailure.value) else Pass
    {
      o := value.Close();
    }
  }

  /** Converts a request body to itself. */
  class OkHttpRequestBodyConverter {
    constructor ()
    {
    }

    /** Returns its argument, touching nothing. */
    method Convert(value: RequestBody) returns (r: RequestBody)
      ensures r == value
    {
      return value;
    }
  }

  /** Converts a response body to a response body, either as is (streaming) or fully buffered. */
  class OkHttpResponseBodyConverter {
    const isStreaming: bool

    constructor (isStreaming: bool)
      ensures this.isStreaming == isStreaming
    {
      this.isStreaming := isStreaming;
    }

    /**
     * Streaming: the same body comes back, still open. Buffering: the body is
     * read into a new in-memory body (or the read error is thrown), and on both
     * paths the original is closed exactly once, any close error being dropped.
     */
    method Convert(value: ResponseBody) returns (r: Result<ResponseBody, IOError>)
      modifies value
      ensures isStreaming ==> r == Success(value) && value.closeCount == old(value.closeCount)
      ensures !isStreaming ==> value.closeCount == old(value.closeCount) + 1
      ensures !isStreaming && value.readFailure.Some? ==> r == Failure(value.readFailure.value)
      ensures !isStreaming && value.readFailure.None? ==>
        r.Success? && fresh(r.value) && r.value.content == value.content && r.value.closeCount == 0
      ensures !isStreaming && r.Success? ==> r.value.readFailure.None? && r.value.closeFailure.None?
    {
      if isStreaming {
        return Success(value);
      }
      r := ReadBodyToBytes(value);
      CloseQuietly(value);
    }
  }

  /** What `fromResponseBody` returns: a response-body converter, the void converter, or null. */
  datatype InboundConverter =
    | NoInboundOpinion
    | BodyConverter(body: OkHttpResponseBodyConverter)
    | DiscardConverter(discard: VoidConverter)
  {
    /** The variant this converter is, read off its class and mode. */
    function Kind(): Option<Variant>
    {
      match this
      case NoInboundOpinion => None
      case BodyConverter(c) => Some(if c.isStreaming then StreamingResponse else BufferingResponse)
      case DiscardConverter(_) => Some(VoidResponse)
    }

    /** The converter object itself, or null. */
    function Instance(): object?
    {
      match this
      case NoInboundOpinion => null
      case BodyConverter(c) => c
      case DiscardConverter(c) => c
    }
  }

  class BuiltInConverters {
    var streamingResponseBodyConverter: OkHttpResponseBodyConverter?
    var bufferingResponseBodyConverter: OkHttpResponseBodyConverter?
    var voidResponseBodyConverter: VoidConverter?
    var requestBodyConverter: OkHttpRequestBodyConverter?

    /** The field that caches variant `v`. */
    ghost function Slot(v: Variant): object?
      reads this
    {
      match v
      case StreamingResponse => streamingResponseBodyConverter
      case BufferingResponse => bufferingResponseBodyConverter
      case VoidResponse => voidResponseBodyConverter
      case RequestPassthrough => requestBodyConverter
    }

    /** The variants built so far. */
    ghost function Populated(): set<Variant>
      reads this
    {
      set v | v in AllVariants && Slot(v) != null
    }

    /** Each response-body field holds a converter of its own mode. */
    ghost predicate Valid()
      reads this
    {
      (streamingResponseBodyConverter != null ==> streamingResponseBodyConverter.isStreaming) &&
      (bufferingResponseBodyConverter != null ==> !bufferingResponseBodyConverter.isStreaming)
    }

    constructor ()
      ensures Valid() && Populated() == {}
    {
      streamingResponseBodyConverter := null;
      bufferingResponseBodyConverter := null;
      voidResponseBodyConverter := null;
      requestBodyConverter := null;
    }

    /**
     * Picks the converter for a response of declared type `declaredType`, building it
     * only if its field is still null. No other field changes, and a field that
     * is set keeps its converter.
     */
    method FromResponseBody(declaredType: Type, annotations: seq<Annotation>) returns (r: InboundConverter)
      requires Valid()
      modifies this
      ensures Valid()
      ensures r.Kind() == InboundVariant(declaredType, annotations)
      ensures var d := InboundVariant(declaredType, annotations);
        d.Some? ==> r.Instance() == Slot(d.value) && (fresh(r.Instance()) <==> old(Slot(d.value)) == null)
      ensures forall v :: old(Slot(v)) != null ==> Slot(v) == old(Slot(v))
      ensures forall v :: Some(v) != InboundVariant(declaredType, annotations) ==> Slot(v) == old(Slot(v))
      ensures Populated() == Populate(old(Populated()), InboundVariant(declaredType, annotations))
    {
      if declaredType == ClassType(ResponseBodyClass) {
        if IsStreamingPresent(annotations) {
          var converter := streamingResponseBodyConverter;
          if converter == null {
            converter := new OkHttpResponseBodyConverter(true);
            streamingResponseBodyConverter := converter;
          }
          return BodyConverter(converter);
        } else {
          var converter := bufferingResponseBodyConverter;
          if converter == null {
            converter := new OkHttpResponseBodyConverter(false);
            bufferingResponseBodyConverter := converter;
          }
          return BodyConverter(converter);
        }
      }
      if declaredType == ClassType(VoidClass) {
        var converter := voidResponseBodyConverter;
        if converter == null {
          converter := new VoidConverter();
          voidResponseBodyConverter := converter;
        }
        return DiscardConverter(converter);
      }
      return NoInboundOpinion;
    }

    /**
     * Answers with the passthrough converter exactly when the raw class of
     * `declaredType` is a `RequestBody`, building it only if its field is still null;
     * the annotations are not looked at.
     */
    method ToRequestBody(declaredType: Type, annotations: seq<Annotation>) returns (r: OkHttpRequestBodyConverter?)
      requires Valid()
      modifies this
      ensures Valid()
      ensures r != null <==> OutboundVariant(declaredType) == Some(RequestPassthrough)
      ensures r != null ==> r == requestBodyConverter
      ensures r != null ==> (fresh(r) <==> old(requestBodyConverter) == null)
      ensures forall v :: old(Slot(v)) != null ==> Slot(v) == old(Slot(v))
      ensures forall v :: Some(v) != OutboundVariant(declaredType) ==> Slot(v) == old(Slot(v))
      ensures Populated() == Populate(old(Populated()), OutboundVariant(declaredType))
    {
      if IsAssignableFrom(RequestBodyClass, RawType(declaredType)) {
        if requestBodyConverter == null {
          requestBodyConverter := new OkHttpRequestBodyConverter();
        }
        return requestBodyConverter;
      }
      return null;
    }
  }
}
