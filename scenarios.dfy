/**
 * Callers of a fresh factory, each going through one whole resolution and
 * conversion. What they ensure follows from the contracts of the factory and
 * the converters alone.
 */
module Scenarios {
  import opened Wrappers
  import opened Reflect
  import opened Bodies
  import opened Resolution
  import opened Converters

  /** The five bytes of "hello". */
  const Hello: seq<byte> := [104, 101, 108, 108, 111]

  /** The content of a converted body, or the error the conversion threw. */
  function ContentOf(r: Result<ResponseBody, IOError>): Result<seq<byte>, IOError>
  {
    match r
    case Success(body) => Success(body.content)
    case Failure(e) => Failure(e)
  }

  /** Asking twice for the same response type yields the very same converter object. */
  method ResolveTwice(t: Type, annotations: seq<Annotation>) returns (first: InboundConverter, second: InboundConverter)
    ensures first == second
    ensures first.Kind() == InboundVariant(t, annotations)
  {
    var factory := new BuiltInConverters();
    first := factory.FromResponseBody(t, annotations);
    second := factory.FromResponseBody(t, annotations);
  }

  /** The streaming and the buffering converter are two different objects of opposite modes. */
  method StreamingIsNotBuffering() returns (streaming: InboundConverter, buffering: InboundConverter)
    ensures streaming.BodyConverter? && streaming.body.isStreaming
    ensures buffering.BodyConverter? && !buffering.body.isStreaming
    ensures streaming.body != buffering.body
  {
    var factory := new BuiltInConverters();
    streaming := factory.FromResponseBody(ClassType(ResponseBodyClass), [Marker("GET"), Streaming]);
    buffering := factory.FromResponseBody(ClassType(ResponseBodyClass), [Marker("GET")]);
  }

  /** Without `@Streaming`, "hello" comes back buffered and the original body is closed once. */
  method BufferHello() returns (content: Result<seq<byte>, IOError>, closes: nat)
    ensures content == Success(Hello)
    ensures closes == 1
  {
    var factory := new BuiltInConverters();
    var converter := factory.FromResponseBody(ClassType(ResponseBodyClass), []);
    var body := new ResponseBody(Hello, None, None);
    var r := converter.body.Convert(body);
    content := ContentOf(r);
    closes := body.closeCount;
  }

  /** With `@Streaming`, the same body object comes back and is left open for the caller. */
  method StreamHello() returns (sameBody: bool, closes: nat)
    ensures sameBody
    ensures closes == 0
  {
    var factory := new BuiltInConverters();
    var converter := factory.FromResponseBody(ClassType(ResponseBodyClass), [Streaming]);
    var body := new ResponseBody(Hello, None, None);
    var r := converter.body.Convert(body);
    sameBody := r == Success(body);
    closes := body.closeCount;
  }

  /**
   * A failed buffering read surfaces the read error, not the error of the close
   * that follows it, and the body is still closed once.
   */
  method BufferingReadFails(readError: IOError, closeError: IOError) returns (r: Result<seq<byte>, IOError>, closes: nat)
    ensures r == Failure(readError)
    ensures closes == 1
  {
    var factory := new BuiltInConverters();
    var converter := factory.FromResponseBody(ClassType(ResponseBodyClass), []);
    var body := new ResponseBody(Hello, Some(readError), Some(closeError));
    var converted := converter.body.Convert(body);
    r := ContentOf(converted);
    closes := body.closeCount;
  }

  /** `Void` gets the discard converter whatever the annotations and content; it closes the body once. */
  method DiscardAnyBody(content: seq<byte>, annotations: seq<Annotation>) returns (o: Outcome<IOError>, closes: nat)
    ensures o == Pass
    ensures closes == 1
  {
    var factory := new BuiltInConverters();
    var converter := factory.FromResponseBody(ClassType(VoidClass), annotations);
    var body := new ResponseBody(content, None, None);
    o := converter.discard.Convert(body);
    closes := body.closeCount;
  }

  /** The discard converter does not swallow a failing close. */
  method DiscardCloseFails(closeError: IOError) returns (o: Outcome<IOError>)
    ensures o == Fail(closeError)
  {
    var factory := new BuiltInConverters();
    var converter := factory.FromResponseBody(ClassType(VoidClass), []);
    var body := new ResponseBody(Hello, None, Some(closeError));
    o := converter.discard.Convert(body);
  }

  /** A parameter declared as a subclass of `RequestBody` gets the passthrough, which hands back its input. */
  method PassThroughSubclass(name: string, content: seq<byte>) returns (sameBody: bool)
    ensures sameBody
  {
    var factory := new BuiltInConverters();
    var t := ClassType(Subclass(name, RequestBodyClass));
    assert IsAssignableFrom(RequestBodyClass, RawType(t).parent);
    var converter := factory.ToRequestBody(t, [Streaming]);
    var body := new RequestBody(content);
    var r := converter.Convert(body);
    sameBody := r == body;
  }

  /** A type unrelated to the bodies and to `Void` gets no opinion in either direction. */
  method DeclineUnrelated(name: string, annotations: seq<Annotation>) returns (inbound: InboundConverter, outbound: OkHttpRequestBodyConverter?)
    ensures inbound == NoInboundOpinion
    ensures outbound == null
  {
    var factory := new BuiltInConverters();
    var t := ClassType(Subclass(name, ObjectClass));
    assert !IsAssignableFrom(RequestBodyClass, RawType(t).parent);
    inbound := factory.FromResponseBody(t, annotations);
    outbound := factory.ToRequestBody(t, annotations);
  }

  /**
   * Any sequence of calls on one factory leaves in its cache exactly what
   * `Run` predicts, and builds as many converters as `Run` counts, so the
   * lemmas about `Run` hold of the factory itself.
   */
  method ReplayOnFactory(f: BuiltInConverters, requests: seq<Request>) returns (ghost built: nat)
    requires f.Valid()
    modifies f
    ensures f.Valid()
    ensures f.Populated() == Run(old(f.Populated()), requests).populated
    ensures built == Run(old(f.Populated()), requests).constructions
    decreases |requests|
  {
    if requests == [] {
      return 0;
    }
    ghost var isNew: bool;
    match requests[0] {
      case Inbound(t, annotations) =>
        var r := f.FromResponseBody(t, annotations);
        isNew := r.Kind().Some? && fresh(r.Instance());
      case Outbound(t, annotations) =>
        var r := f.ToRequestBody(t, annotations);
        isNew := r != null && fresh(r);
    }
    built := ReplayOnFactory(f, requests[1..]);
    built := built + if isNew then 1 else 0;
  }
}
