/**
 `OpenTelemetryTracer`: the per-trace bookkeeping of a parent span and named blocks.
 Spans are opaque ids into a table of span records; `spanMap` holds the active
 blocks and `recorderSpanMap` the insertion-ordered record of every block started.
 */
module OpenTelemetry {
  import opened Wrappers
  import opened LinkedMaps
  import opened TracingConfig

  type SpanId = nat

  const TRACE_START: string := "Trace start"
  const TRACE_ID: string := "trace_id"

  /** Stand-in for the tracing SPI's `tracerName` constant, whose value is not part of this model. */
  const TRACER_NAME: string := "presto-tracer"

  /**
   Where a span hangs: under whatever context is current in the calling thread, under the
   context extracted from a propagated carrier, or under another span of this tracer.
   */
  datatype SpanParent = Ambient | Remote(format: string, carrier: string) | Child(parent: SpanId)

  /** What the tracer has done to a span: its name, parent, attributes, events added, and whether it was ended. */
  datatype Span = Span(
    name: string,
    parent: SpanParent,
    attributes: map<string, string>,
    events: seq<string>,
    ended: bool)

  /**
   The two static fields of the class: the propagation format in force, from which the
   shared OpenTelemetry instance is built, and how many times that instance has been built.
   */
  datatype Propagation = Propagation(currentContextPropagator: string, builds: nat)

  /** Class initialisation: B3 single header, built once. */
  const InitialPropagation: Propagation := Propagation(B3_SINGLE_HEADER, 1)

  /** The constructor's rebuild step: rebuild only when the requested format differs. */
  function UsePropagator(g: Propagation, requested: string): (r: Propagation)
    ensures r.currentContextPropagator == requested
    ensures requested == g.currentContextPropagator ==> r == g
    ensures requested != g.currentContextPropagator ==> r.builds == g.builds + 1
  {
    if requested != g.currentContextPropagator then Propagation(requested, g.builds + 1) else g
  }

  datatype TracerError =
    | DuplicatedBlock(blockName: string)
    | AddingPointToNonExistingBlock(blockName: string)
    | EndingNonExistingBlock(blockName: string)

  datatype Tracer = Tracer(
    traceToken: Option<string>,
    parentSpan: SpanId,
    spans: map<SpanId, Span>,
    nextSpan: SpanId,
    spanMap: map<string, SpanId>,
    recorderSpanMap: LinkedMap<string, SpanId>)

  /**
   The bookkeeping invariant: span ids are allocated below `nextSpan`; every recorded
   span exists; each active block is recorded under its own span; active blocks have
   distinct spans, none of them the parent and none ended.
   */
  ghost predicate Valid(t: Tracer) {
    && t.recorderSpanMap.Valid()
    && (forall id :: id in t.spans ==> id < t.nextSpan)
    && t.parentSpan in t.spans
    && (forall b :: b in t.recorderSpanMap.entries ==> t.recorderSpanMap.entries[b] in t.spans)
    && t.spanMap.Keys <= t.recorderSpanMap.entries.Keys
    && (forall b :: b in t.spanMap ==> t.recorderSpanMap.entries[b] == t.spanMap[b])
    && (forall b :: b in t.spanMap ==> t.spanMap[b] != t.parentSpan && !t.spans[t.spanMap[b]].ended)
    && (forall b, c :: b in t.spanMap && c in t.spanMap && b != c ==> t.spanMap[b] != t.spanMap[c])
  }

  /** Every span of `t` outside `touched` is still in `u`, unchanged. */
  ghost predicate SpansKept(t: Tracer, u: Tracer, touched: set<SpanId>) {
    forall id :: id in t.spans && id !in touched ==> id in u.spans && u.spans[id] == t.spans[id]
  }

  /** The record of `u` extends that of `t`: the old iteration order is a prefix, no key is lost. */
  ghost predicate Recorded(t: Tracer, u: Tracer) {
    && t.recorderSpanMap.order <= u.recorderSpanMap.order
    && t.recorderSpanMap.entries.Keys <= u.recorderSpanMap.entries.Keys
  }

  function TraceIdAttributes(traceToken: Option<string>): map<string, string> {
    match traceToken
    case Some(token) => map[TRACE_ID := token]
    case None => map[]
  }

  /**
   The constructor: switches the shared propagator to the requested format, creates the
   parent span (under the context extracted from the carrier, when there is one), tags it
   with the trace token and records it as "Trace start".
   */
  function NewTracer(g: Propagation, traceToken: Option<string>, contextPropagator: string, propagatedContext: Option<string>): (r: (Propagation, Tracer))
    ensures r.0.currentContextPropagator == contextPropagator
    ensures contextPropagator == g.currentContextPropagator ==> r.0 == g
    ensures Valid(r.1)
    ensures r.1.traceToken == traceToken
    ensures r.1.spanMap == map[]
    ensures r.1.recorderSpanMap.order == [TRACE_START]
    ensures r.1.recorderSpanMap.entries == map[TRACE_START := r.1.parentSpan]
    ensures r.1.spans.Keys == {r.1.parentSpan}
    ensures var p := r.1.spans[r.1.parentSpan];
      && p.name == TRACE_START && p.events == [] && !p.ended
      && (traceToken.Some? ==> TRACE_ID in p.attributes && p.attributes[TRACE_ID] == traceToken.value)
      && (traceToken.None? ==> TRACE_ID !in p.attributes)
      && p.parent == (if propagatedContext.None? then Ambient else Remote(contextPropagator, propagatedContext.value))
  {
    var g' := UsePropagator(g, contextPropagator);
    var link := match propagatedContext
      case None => Ambient
      case Some(carrier) => Remote(g'.currentContextPropagator, carrier);
    var parent := Span(TRACE_START, link, TraceIdAttributes(traceToken), [], false);
    var recorder := Put(Empty(), TRACE_START, 0);
    assert recorder.order == [TRACE_START];
    var t := Tracer(traceToken, 0, map[0 := parent], 1, map[], recorder);
    assert Valid(t);
    (g', t)
  }

  /** `addPoint`: an event on the parent span. */
  function AddPoint(t: Tracer, annotation: string): (u: Tracer)
    requires Valid(t)
    ensures Valid(u)
    ensures u.traceToken == t.traceToken && u.parentSpan == t.parentSpan
    ensures u.spanMap == t.spanMap && u.recorderSpanMap == t.recorderSpanMap
    ensures u.spans.Keys == t.spans.Keys
    ensures u.spans[t.parentSpan] == t.spans[t.parentSpan].(events := t.spans[t.parentSpan].events + [annotation])
    ensures SpansKept(t, u, {t.parentSpan})
  {
    var p := t.spans[t.parentSpan];
    t.(spans := t.spans[t.parentSpan := p.(events := p.events + [annotation])])
  }

  /**
   `startBlock`: a name already active is a duplicate; otherwise a fresh span, child of
   the parent, carrying the annotation, goes into both maps under that name.
   */
  function StartBlock(t: Tracer, blockName: string, annotation: string): (r: Result<Tracer, TracerError>)
    requires Valid(t)
    ensures r.Err? <==> blockName in t.spanMap
    ensures r.Err? ==> r.error == DuplicatedBlock(blockName)
    ensures r.Ok? ==> Valid(r.value)
    ensures r.Ok? ==> r.value.traceToken == t.traceToken && r.value.parentSpan == t.parentSpan
    ensures r.Ok? ==>
      && r.value.spanMap.Keys == t.spanMap.Keys + {blockName}
      && (forall b :: b in t.spanMap ==> r.value.spanMap[b] == t.spanMap[b])
    ensures r.Ok? ==> var id := r.value.spanMap[blockName];
      && id !in t.spans
      && r.value.spans.Keys == t.spans.Keys + {id}
      && r.value.spans[id] == Span(blockName, Child(t.parentSpan), map[], [annotation], false)
      && r.value.recorderSpanMap.entries == t.recorderSpanMap.entries[blockName := id]
    ensures r.Ok? ==> r.value.recorderSpanMap.order == InsertionOrder(t.recorderSpanMap.order, [blockName])
    ensures r.Ok? ==> Recorded(t, r.value) && SpansKept(t, r.value, {})
  {
    if blockName in t.spanMap then Err(DuplicatedBlock(blockName))
    else
      StartedValid(t, blockName, annotation);
      Ok(Started(t, blockName, annotation))
  }

  /** The state after a successful `startBlock`: the new span takes the next free id. */
  function Started(t: Tracer, blockName: string, annotation: string): Tracer
    requires t.recorderSpanMap.Valid()
  {
    var id := t.nextSpan;
    t.(spans := t.spans[id := Span(blockName, Child(t.parentSpan), map[], [annotation], false)],
       nextSpan := id + 1,
       spanMap := t.spanMap[blockName := id],
       recorderSpanMap := Put(t.recorderSpanMap, blockName, id))
  }

  /** A successful start keeps the bookkeeping invariant. */
  lemma StartedValid(t: Tracer, blockName: string, annotation: string)
    requires Valid(t)
    requires blockName !in t.spanMap
    ensures Valid(Started(t, blockName, annotation))
  {
  }

  /** `addPointToBlock`: an event on an active block's span; an inactive name is an error. */
  function AddPointToBlock(t: Tracer, blockName: string, annotation: string): (r: Result<Tracer, TracerError>)
    requires Valid(t)
    ensures r.Err? <==> blockName !in t.spanMap
    ensures r.Err? ==> r.error == AddingPointToNonExistingBlock(blockName)
    ensures r.Ok? ==> Valid(r.value)
    ensures r.Ok? ==> r.value.traceToken == t.traceToken && r.value.parentSpan == t.parentSpan
    ensures r.Ok? ==> r.value.spanMap == t.spanMap && r.value.recorderSpanMap == t.recorderSpanMap
    ensures r.Ok? ==> var id := t.spanMap[blockName];
      && r.value.spans.Keys == t.spans.Keys
      && r.value.spans[id] == t.spans[id].(events := t.spans[id].events + [annotation])
      && SpansKept(t, r.value, {id})
  {
    if blockName !in t.spanMap then Err(AddingPointToNonExistingBlock(blockName))
    else
      var id := t.spanMap[blockName];
      var s := t.spans[id];
      Ok(t.(spans := t.spans[id := s.(events := s.events + [annotation])]))
  }

  /**
   `endBlock`: an inactive name is an error; otherwise the name leaves `spanMap` only,
   and the span the record holds for it (which is the active one) gets the annotation
   and is ended.
   */
  function EndBlock(t: Tracer, blockName: string, annotation: string): (r: Result<Tracer, TracerError>)
    requires Valid(t)
    ensures r.Err? <==> blockName !in t.spanMap
    ensures r.Err? ==> r.error == EndingNonExistingBlock(blockName)
    ensures r.Ok? ==> Valid(r.value)
    ensures r.Ok? ==> r.value.traceToken == t.traceToken && r.value.parentSpan == t.parentSpan
    ensures r.Ok? ==> r.value.spanMap == t.spanMap - {blockName} && r.value.recorderSpanMap == t.recorderSpanMap
    ensures r.Ok? ==> var id := t.spanMap[blockName];
      && !t.spans[id].ended
      && r.value.spans.Keys == t.spans.Keys
      && r.value.spans[id] == t.spans[id].(events := t.spans[id].events + [annotation], ended := true)
      && SpansKept(t, r.value, {id})
  {
    if blockName !in t.spanMap then Err(EndingNonExistingBlock(blockName))
    else
      var id := Get(t.recorderSpanMap, blockName).value;
      var s := t.spans[id];
      Ok(t.(spanMap := t.spanMap - {blockName},
            spans := t.spans[id := s.(events := s.events + [annotation], ended := true)]))
  }

  /** `endTrace`: the parent span gets the annotation and is ended; active blocks are left open. */
  function EndTrace(t: Tracer, annotation: string): (u: Tracer)
    requires Valid(t)
    ensures Valid(u)
    ensures u.traceToken == t.traceToken && u.parentSpan == t.parentSpan
    ensures u.spanMap == t.spanMap && u.recorderSpanMap == t.recorderSpanMap
    ensures u.spans.Keys == t.spans.Keys
    ensures u.spans[t.parentSpan] == t.spans[t.parentSpan].(events := t.spans[t.parentSpan].events + [annotation], ended := true)
    ensures SpansKept(t, u, {t.parentSpan})
    ensures forall b :: b in u.spanMap ==> !u.spans[u.spanMap[b]].ended
  {
    var p := t.spans[t.parentSpan];
    t.(spans := t.spans[t.parentSpan := p.(events := p.events + [annotation], ended := true)])
  }

  /** `getTracerId`: the trace token, or the tracer name when the token is null. */
  function GetTracerId(t: Tracer): (r: string)
    ensures t.traceToken.Some? ==> r == t.traceToken.value
    ensures t.traceToken.None? ==> r == TRACER_NAME
  {
    match t.traceToken
    case Some(token) => token
    case None => TRACER_NAME
  }
}
