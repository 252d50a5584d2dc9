# Retrofit built-in converters, modelled in Dafny

This project models `BuiltInConverters`. It is the fallback `Converter.Factory` that Retrofit consults for the body types it handles itself:

- `fromResponseBody` answers a declared response type:
  - `ResponseBody` with the `@Streaming` marker gets a streaming converter;
  - `ResponseBody` without the marker gets a buffering converter;
  - `Void` gets a converter that discards the body;
  - any other type gets `null`, meaning "no opinion".
- `toRequestBody` answers the passthrough converter for any type whose raw class is a `RequestBody` or a subclass of it, and `null` otherwise.
- Each of the four converters is built on first demand and kept in its own nullable field. Later calls hand out that same object.

Files:

- `wrappers.dfy` holds `Option`, `Result` and `Outcome`. These stand for Java's `null` returns and thrown `IOException`s.
- `reflect.dfy` holds classes with their superclass chain, declared types, annotations, `isAssignableFrom` and the raw class of a type.
- `bodies.dfy` holds the bodies. A `ResponseBody` has content, a read that may fail, a close that may fail and a `closeCount`. The file also holds stand-ins for `Utils.readBodyToBytesIfNecessary` and `Utils.closeQuietly`.
- `resolution.dfy` states which variant each call asks for. It also replays a sequence of calls against the set of variants already cached (`Run`), and proves that each converter is constructed at most once.
- `converters.dfy` holds the factory as a class with the four nullable fields, and the three converter classes. Every factory method states its answer, the new value of every field, and the one step of `Run` that it performs.
- `scenarios.dfy` holds callers that go through one resolution and one conversion on a fresh factory.

The `Populated()` set of `BuiltInConverters` is the cache as a value. `FromResponseBody` and `ToRequestBody` each update it exactly as one step of `Resolution.Run` does. `Scenarios.ReplayOnFactory` proves that any sequence of calls on one factory leaves the cache and the construction count that `Run` computes, so the lemmas about `Run` hold of the factory class itself.

## Model

| member | source | states |
|---|---|---|
| `Converters.BuiltInConverters.constructor` | retrofit/src/main/java/retrofit/BuiltInConverters.java:27-31 | A new factory has all four converter fields null, so nothing is cached. |
| `Converters.BuiltInConverters.FromResponseBody` | retrofit/src/main/java/retrofit/BuiltInConverters.java:33-55 | Exactly `ResponseBody` gets the streaming converter if `@Streaming` is present, else the buffering one. Exactly `Void` gets the discard converter whatever the annotations. Every other type, including parameterized `ResponseBody` and subclasses, gets null. The answer is the object in the variant's own field. It is newly allocated if and only if that field was null. A set field is never overwritten, and no other field changes. |
| `Converters.BuiltInConverters.ToRequestBody` | retrofit/src/main/java/retrofit/BuiltInConverters.java:57-64 | Non-null exactly when `RequestBody` is assignable from the raw class of the type; the annotations play no part. When non-null, the answer is the cached passthrough object, new if and only if the field was null. No other field changes. |
| `Converters.VoidConverter.Convert` | retrofit/src/main/java/retrofit/BuiltInConverters.java:66-71 | Closes the body exactly once. Returns nothing, or the close's own error, which is not suppressed. |
| `Converters.OkHttpRequestBodyConverter.Convert` | retrofit/src/main/java/retrofit/BuiltInConverters.java:73-77 | Returns its argument unchanged and modifies nothing. |
| `Converters.OkHttpResponseBodyConverter.constructor` | retrofit/src/main/java/retrofit/BuiltInConverters.java:79-84 | The mode is the constructor's argument. It is a constant field and never changes afterwards. |
| `Converters.OkHttpResponseBodyConverter.Convert` | retrofit/src/main/java/retrofit/BuiltInConverters.java:86-97 | Streaming returns the same body, unclosed. Buffering either returns a new body with the same content or fails with the read's own error. The new body is in memory: its own read and close cannot fail, so it needs no further I/O. On both buffering paths the original body is closed exactly once. |
| `Resolution.RunBuildsEachDemandedVariantOnce` | retrofit/src/main/java/retrofit/BuiltInConverters.java:37-61 | After any sequence of calls, the cache holds its starting variants plus every variant asked for. The number of constructions equals the number of variants asked for that were not cached at the start. So each converter is built at most once. |
| `Resolution.ConstructionsAtMostCalls` | retrofit/src/main/java/retrofit/BuiltInConverters.java:37-61 | A sequence of calls constructs at most one converter per call. |
| `Resolution.ConstructionsAtMostUncached` | retrofit/src/main/java/retrofit/BuiltInConverters.java:28-31 | A sequence of calls constructs no more converters than there are uncached variants, and that number is at most four. |
| `Resolution.ReplayConstructsNothing` | retrofit/src/main/java/retrofit/BuiltInConverters.java:37-61 | Replaying the same calls on the cache they produced constructs nothing and leaves the cache as it is. |
| `Resolution.OutboundAcceptsSubtypes` | retrofit/src/main/java/retrofit/BuiltInConverters.java:58 | If a class gets the passthrough, every type whose raw class extends that class gets it too. |
| `Reflect.AssignableTransitive` | retrofit/src/main/java/retrofit/BuiltInConverters.java:58 | `isAssignableFrom` is transitive along superclass chains. |
| `Bodies.ResponseBody.Close` | retrofit/src/main/java/retrofit/BuiltInConverters.java:68 | One close call adds one to the close count. It throws the body's close error, if it has one. |
| `Bodies.ReadBodyToBytes` | retrofit/src/main/java/retrofit/BuiltInConverters.java:93 | The read yields a fresh in-memory body with the same content, whose own read and close cannot fail. Otherwise it fails with the original body's read error. It does not close the original. |
| `Bodies.CloseQuietly` | retrofit/src/main/java/retrofit/BuiltInConverters.java:95 | Closes the body exactly once and drops any error. |
| `Scenarios.ResolveTwice` | retrofit/src/main/java/retrofit/BuiltInConverters.java:34-55 | Two identical `fromResponseBody` calls on one factory return the same converter object. |
| `Scenarios.StreamingIsNotBuffering` | retrofit/src/main/java/retrofit/BuiltInConverters.java:35-46 | The streaming and buffering converters are distinct objects. They have opposite modes. |
| `Scenarios.BufferHello` | retrofit/src/main/java/retrofit/BuiltInConverters.java:91-96 | Without `@Streaming`, the body "hello" converts to a body with content "hello", and the original is closed once. |
| `Scenarios.StreamHello` | retrofit/src/main/java/retrofit/BuiltInConverters.java:86-89 | With `@Streaming`, the same body object comes back, closed zero times. |
| `Scenarios.BufferingReadFails` | retrofit/src/main/java/retrofit/BuiltInConverters.java:92-96 | A failing read surfaces the read error even when the close fails too. The body is closed once. |
| `Scenarios.DiscardAnyBody` | retrofit/src/main/java/retrofit/BuiltInConverters.java:48-53 | For `Void`, whatever the annotations and content, the converter returns nothing and closes the body once. |
| `Scenarios.DiscardCloseFails` | retrofit/src/main/java/retrofit/BuiltInConverters.java:67-70 | The discard converter throws the close's error. |
| `Scenarios.PassThroughSubclass` | retrofit/src/main/java/retrofit/BuiltInConverters.java:57-62 | A subclass of `RequestBody` gets the passthrough, even with `@Streaming` present. Converting a body returns that body. |
| `Scenarios.DeclineUnrelated` | retrofit/src/main/java/retrofit/BuiltInConverters.java:54 | A type unrelated to the bodies and to `Void` gets null in both directions. |
| `Scenarios.ReplayOnFactory` | retrofit/src/main/java/retrofit/BuiltInConverters.java:37-61 | Any sequence of `fromResponseBody`/`toRequestBody` calls on one factory leaves exactly the cache `Run` predicts. It builds exactly as many converters as `Run` counts. |

## Left out

- Java reflection is reduced to two kinds of `Type`: plain classes and parameterized types. Generic array types, type variables and wildcard types are not modelled, and neither are interfaces in `isAssignableFrom`. The code of `Utils.getRawType` is not modelled; it is abstracted as `Reflect.RawType`, which covers only the two kinds above.
- The code of `Utils.isAnnotationPresent` is not modelled; it is abstracted as `Reflect.IsStreamingPresent`, "the `@Streaming` marker is in the sequence".
- The code of `Utils.readBodyToBytesIfNecessary` is not modelled; it is abstracted as `Bodies.ReadBodyToBytes`. That abstraction omits its handling of a null body, the content type and length it copies, and the draining of the original stream.
- The code of `Utils.closeQuietly` is not modelled; it is abstracted as `Bodies.CloseQuietly`, which swallows every close error. Whether the helper rethrows runtime exceptions is not captured.
- OkHttp's bodies, byte streams and network transport are reduced to content, an injected read failure, an injected close failure and a close counter.
- `closeCount` counts close calls, so a close that throws still counts as one.
- Concurrent use of the factory is left out: races on the four lazily set fields are not modelled, only sequential calls.
- The chain of `Converter.Factory` objects that Retrofit tries in order is outside this file.
- The converters are never handed a null body in the model.

## Design notes

- The source suppresses a close error in buffering mode on both the success path and the failure path of the read. The model follows the code, and `OkHttpResponseBodyConverter.Convert` never reports a close error. The discard converter does report its close error, as the code does.
