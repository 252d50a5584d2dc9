/**
 * The decision the built-in converter factory makes, and what its lazy cache
 * holds, stated as values. `Run` replays a sequence of resolution requests
 * against the set of converter variants already built and counts how many
 * converters get constructed along the way.
 */
module Resolution {
  import opened Wrappers
  import opened Reflect

  /** The four converters the factory can hand out, one cache field each. */
  datatype Variant = StreamingResponse | BufferingResponse | VoidResponse | RequestPassthrough

  const AllVariants: set<Variant> := {StreamingResponse, BufferingResponse, VoidResponse, RequestPassthrough}

  /** Which converter `fromResponseBody` answers with; `None` is "no opinion". */
  function InboundVariant(t: Type, annotations: seq<Annotation>): Option<Variant>
  {
    if t == ClassType(ResponseBodyClass) then
      if IsStreamingPresent(annotations) then Some(StreamingResponse) else Some(BufferingResponse)
    else if t == ClassType(VoidClass) then
      Some(VoidResponse)
    else
      None
  }

  /** Which converter `toRequestBody` answers with; the annotations play no part. */
  function OutboundVariant(t: Type): Option<Variant>
  {
    if IsAssignableFrom(RequestBodyClass, RawType(t)) then Some(RequestPassthrough) else None
  }

  /** One call to the factory. */
  datatype Request =
    | Inbound(t: Type, annotations: seq<Annotation>)
    | Outbound(t: Type, annotations: seq<Annotation>)

  function Demand(q: Request): Option<Variant>
  {
    match q
    case Inbound(t, annotations) => InboundVariant(t, annotations)
    case Outbound(t, _) => OutboundVariant(t)
  }

  /** The cache after a call that demanded `d`: its field is set, if it was not already. */
  function Populate(cache: set<Variant>, d: Option<Variant>): set<Variant>
  {
    if d.Some? then cache + {d.value} else cache
  }

  /** The variants built after a sequence of calls, and how many constructions it took. */
  datatype Trace = Trace(populated: set<Variant>, constructions: nat)

  function Run(cache: set<Variant>, requests: seq<Request>): Trace
    decreases |requests|
  {
    if requests == [] then
      Trace(cache, 0)
    else
      var d := Demand(requests[0]);
      var rest := Run(Populate(cache, d), requests[1..]);
      Trace(rest.populated, rest.constructions + if d.Some? && d.value !in cache then 1 else 0)
  }

  /** Every variant some request in the sequence asks for. */
  ghost function Demanded(requests: seq<Request>): set<Variant>
  {
    set q | q in requests && Demand(q).Some? :: Demand(q).value
  }

  /** The variants a non-empty sequence asks for: those of its first call, then those of the rest. */
  lemma DemandedCons(requests: seq<Request>)
    requires requests != []
    ensures Demanded(requests) == Populate({}, Demand(requests[0])) + Demanded(requests[1..])
  {
    assert requests == [requests[0]] + requests[1..];
  }

  /**
   * After any sequence of calls the cache holds the variants it started with
   * plus every variant asked for, and the number of constructions is the number
   * of variants asked for that were not cached at the start: each converter is
   * built at most once.
   */
  lemma {:induction false} RunBuildsEachDemandedVariantOnce(cache: set<Variant>, requests: seq<Request>)
    ensures Run(cache, requests).populated == cache + Demanded(requests)
    ensures Run(cache, requests).constructions == |Demanded(requests) - cache|
    decreases |requests|
  {
    if requests == [] {
      assert Demanded(requests) == {};
    } else {
      var d := Demand(requests[0]);
      var next := Populate(cache, d);
      RunBuildsEachDemandedVariantOnce(next, requests[1..]);
      DemandedCons(requests);
      NewVariantsSplit(cache, d, Demanded(requests[1..]));
    }
  }

  /** The variants new to `cache` are the one `d` names, if new, and then those new to the cache `d` fills. */
  lemma NewVariantsSplit(cache: set<Variant>, d: Option<Variant>, later: set<Variant>)
    ensures |(Populate({}, d) + later) - cache|
         == |later - Populate(cache, d)| + if d.Some? && d.value !in cache then 1 else 0
  {
    var newFirst := Populate({}, d) - cache;
    var newRest := later - Populate(cache, d);
    assert (Populate({}, d) + later) - cache == newFirst + newRest;
    assert newFirst !! newRest;
    assert newFirst == if d.Some? && d.value !in cache then {d.value} else {};
  }

  /** A sequence of calls never builds more converters than there are calls. */
  lemma {:induction false} ConstructionsAtMostCalls(cache: set<Variant>, requests: seq<Request>)
    ensures Run(cache, requests).constructions <= |requests|
    decreases |requests|
  {
    if requests != [] {
      ConstructionsAtMostCalls(Populate(cache, Demand(requests[0])), requests[1..]);
    }
  }

  /** Nor more than the variants that were not cached: at most four over the factory's lifetime. */
  lemma ConstructionsAtMostUncached(cache: set<Variant>, requests: seq<Request>)
    ensures Run(cache, requests).constructions <= |AllVariants - cache| <= 4
  {
    RunBuildsEachDemandedVariantOnce(cache, requests);
    var built := Demanded(requests) - cache;
    var uncached := AllVariants - cache;
    forall v | v in built ensures v in uncached {
      assert v in AllVariants by { match v { case _ => } }
    }
    assert uncached == built + (uncached - built);
    assert AllVariants == uncached + (AllVariants * cache);
  }

  /** Replaying the same calls against the cache they produced constructs nothing and changes nothing. */
  lemma ReplayConstructsNothing(cache: set<Variant>, requests: seq<Request>)
    ensures Run(Run(cache, requests).populated, requests) == Run(cache, requests).(constructions := 0)
  {
    RunBuildsEachDemandedVariantOnce(cache, requests);
    RunBuildsEachDemandedVariantOnce(Run(cache, requests).populated, requests);
    assert Demanded(requests) - Run(cache, requests).populated == {};
  }

  /**
   * `toRequestBody` accepts every subtype of an accepted class: if `sup` is a
   * `RequestBody` and `t`'s raw class extends `sup`, `t` gets the passthrough.
   */
  lemma OutboundAcceptsSubtypes(sup: Class, t: Type)
    requires OutboundVariant(ClassType(sup)) == Some(RequestPassthrough)
    requires IsAssignableFrom(sup, RawType(t))
    ensures OutboundVariant(t) == Some(RequestPassthrough)
  {
    AssignableTransitive(RequestBodyClass, sup, RawType(t));
  }
}
