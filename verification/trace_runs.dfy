/**
 Sequences of calls on one tracer, as the query's workers issue them. A call that
 throws leaves the tracer as it was: every operation checks before it mutates.
 */
module TraceRuns {
  import opened Wrappers
  import opened LinkedMaps
  import OT = OpenTelemetry
  import TracingConfig

  datatype Call =
    | AddPoint(annotation: string)
    | StartBlock(blockName: string, annotation: string)
    | AddPointToBlock(blockName: string, annotation: string)
    | EndBlock(blockName: string, annotation: string)
    | EndTrace(annotation: string)

  /** One call: the tracer afterwards and the exception it raised, if any. */
  function Step(t: OT.Tracer, c: Call): (r: (OT.Tracer, Option<OT.TracerError>))
    requires OT.Valid(t)
    ensures OT.Valid(r.0)
    ensures r.1.Some? ==> r.0 == t
    ensures OT.Recorded(t, r.0)
    ensures r.0.traceToken == t.traceToken && r.0.parentSpan == t.parentSpan
    ensures r.0.spans.Keys >= t.spans.Keys
    ensures c.StartBlock? ==> r.0.recorderSpanMap.order == InsertionOrder(t.recorderSpanMap.order, [c.blockName])
    ensures !c.StartBlock? ==> r.0.recorderSpanMap == t.recorderSpanMap
  {
    match c
    case AddPoint(a) => (OT.AddPoint(t, a), None)
    case EndTrace(a) => (OT.EndTrace(t, a), None)
    case StartBlock(b, a) =>
      (match OT.StartBlock(t, b, a)
       case Ok(u) => (u, None)
       case Err(e) =>
         assert [b][..0] == [];
         (t, Some(e)))
    case AddPointToBlock(b, a) =>
      (match OT.AddPointToBlock(t, b, a)
       case Ok(u) => (u, None)
       case Err(e) => (t, Some(e)))
    case EndBlock(b, a) =>
      (match OT.EndBlock(t, b, a)
       case Ok(u) => (u, None)
       case Err(e) => (t, Some(e)))
  }

  /** The tracer after the calls `cs`, in order, exceptions caught by the caller. */
  function Run(t: OT.Tracer, cs: seq<Call>): (u: OT.Tracer)
    requires OT.Valid(t)
    ensures OT.Valid(u)
    ensures OT.Recorded(t, u)
    ensures u.traceToken == t.traceToken && u.parentSpan == t.parentSpan
    decreases |cs|
  {
    if |cs| == 0 then t else Step(Run(t, cs[..|cs| - 1]), cs[|cs| - 1]).0
  }

  /** The block names of the `startBlock` calls among `cs`, in call order. */
  function StartNames(cs: seq<Call>): seq<string>
    decreases |cs|
  {
    if |cs| == 0 then []
    else
      var last := cs[|cs| - 1];
      StartNames(cs[..|cs| - 1]) + (if last.StartBlock? then [last.blockName] else [])
  }

  /** The record's key order is the insertion order of every name a `startBlock` was called with. */
  lemma {:induction false} RunRecorderOrder(t: OT.Tracer, cs: seq<Call>)
    requires OT.Valid(t)
    ensures Run(t, cs).recorderSpanMap.order == InsertionOrder(t.recorderSpanMap.order, StartNames(cs))
    decreases |cs|
  {
    if |cs| > 0 {
      var init := cs[..|cs| - 1];
      var c := cs[|cs| - 1];
      RunRecorderOrder(t, init);
      var ns := StartNames(init);
      if c.StartBlock? {
        var ks := ns + [c.blockName];
        assert StartNames(cs) == ks;
        assert ks[..|ks| - 1] == ns;
        assert [c.blockName][..0] == [];
      } else {
        assert StartNames(cs) == ns;
      }
    }
  }

  /**
   From construction on (`NewTracer` leaves exactly "Trace start" recorded), whatever
   the calls: the record holds "Trace start" and every started name exactly once, in
   the order each was first started, and every active block is among them.
   */
  lemma {:induction false} RecordInFirstStartOrder(t: OT.Tracer, cs: seq<Call>)
    requires OT.Valid(t) && t.recorderSpanMap.order == [OT.TRACE_START]
    ensures NoDuplicates(Run(t, cs).recorderSpanMap.order)
    ensures forall k :: k in Run(t, cs).recorderSpanMap.entries <==> k in [OT.TRACE_START] + StartNames(cs)
    ensures var history := [OT.TRACE_START] + StartNames(cs);
      var order := Run(t, cs).recorderSpanMap.order;
      forall i, j :: 0 <= i < j < |order| ==> FirstIndex(history, order[i]) < FirstIndex(history, order[j])
    ensures Run(t, cs).spanMap.Keys <= Run(t, cs).recorderSpanMap.entries.Keys
  {
    RunRecorderOrder(t, cs);
    InsertionOrderByFirstOccurrence([OT.TRACE_START], StartNames(cs));
  }

  /** `getTracerId` answers the constructor's trace token, or the tracer name, for the whole trace. */
  lemma TracerIdAfterRun(g: OT.Propagation, traceToken: Option<string>, format: string, carrier: Option<string>, cs: seq<Call>)
    ensures var u := Run(OT.NewTracer(g, traceToken, format, carrier).1, cs);
      OT.GetTracerId(u) == (if traceToken.Some? then traceToken.value else OT.TRACER_NAME)
  {
  }

  /** A block that was started and ended can be started again; its name keeps its place in the record. */
  lemma RestartAfterEnd(t: OT.Tracer, blockName: string, a1: string, a2: string, a3: string)
    requires OT.Valid(t) && blockName !in t.spanMap
    ensures OT.StartBlock(t, blockName, a1).Ok?
    ensures var u1 := OT.StartBlock(t, blockName, a1).value;
      OT.StartBlock(u1, blockName, a2).Err? && OT.EndBlock(u1, blockName, a2).Ok?
    ensures var u1 := OT.StartBlock(t, blockName, a1).value;
      var u2 := OT.EndBlock(u1, blockName, a2).value;
      var r3 := OT.StartBlock(u2, blockName, a3);
      && r3.Ok?
      && r3.value.recorderSpanMap.order == u1.recorderSpanMap.order
      && r3.value.recorderSpanMap.entries[blockName] != u1.spanMap[blockName]
      && r3.value.spans[u1.spanMap[blockName]].ended
  {
    var u1 := OT.StartBlock(t, blockName, a1).value;
    assert blockName in u1.recorderSpanMap.entries;
  }

  /** `startBlock("Trace start", …)` is allowed and makes the record forget the parent span. */
  lemma TraceStartOverwritten(g: OT.Propagation, traceToken: Option<string>, format: string, carrier: Option<string>, a: string)
    ensures var t := OT.NewTracer(g, traceToken, format, carrier).1;
      var r := OT.StartBlock(t, OT.TRACE_START, a);
      && r.Ok?
      && r.value.recorderSpanMap.order == [OT.TRACE_START]
      && r.value.recorderSpanMap.entries[OT.TRACE_START] != t.parentSpan
      && r.value.spans[t.parentSpan] == t.spans[t.parentSpan]
  {
  }

  /** The shared instance after tracers are constructed with the formats `formats`, in order. */
  function UseAll(g: OT.Propagation, formats: seq<string>): OT.Propagation
    decreases |formats|
  {
    if |formats| == 0 then g else OT.UsePropagator(UseAll(g, formats[..|formats| - 1]), formats[|formats| - 1])
  }

  /** When every tracer asks for the same format, the shared instance is rebuilt at most once. */
  lemma {:induction false} RebuiltAtMostOnce(g: OT.Propagation, formats: seq<string>, f: string)
    requires forall i :: 0 <= i < |formats| ==> formats[i] == f
    ensures UseAll(g, formats).builds <= g.builds + 1
    ensures |formats| > 0 ==> UseAll(g, formats).currentContextPropagator == f
    ensures f == g.currentContextPropagator ==> UseAll(g, formats) == g
    decreases |formats|
  {
    if |formats| > 0 {
      var init := formats[..|formats| - 1];
      RebuiltAtMostOnce(g, init, f);
      if |init| == 0 {
        assert UseAll(g, init) == g;
      }
    }
  }

  /**
   From class initialisation, a process whose tracers all ask for one format builds the
   shared instance at most twice in all, and only once when that format is B3 single header.
   */
  lemma ProcessBuildsAtMostTwice(formats: seq<string>, f: string)
    requires forall i :: 0 <= i < |formats| ==> formats[i] == f
    ensures UseAll(OT.InitialPropagation, formats).builds <= 2
    ensures f == TracingConfig.B3_SINGLE_HEADER ==> UseAll(OT.InitialPropagation, formats).builds == 1
  {
  }
}
