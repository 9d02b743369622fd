# Tracing provider selection and span bookkeeping, in Dafny

This project models two sequential pieces of the query engine's distributed-tracing
support and proves properties of them.

1. **`TracerProviderManager`** (module `ProviderManager`): a one-shot provider slot.
   The manager copies the tracer type, the enabled flag and the tracing mode from the
   configuration. `addTracerProviderFactory` fills the slot only when three things hold:
   the provider's type equals the configured type, distributed tracing is enabled, and
   the mode's name equals `ALWAYS_TRACE` ignoring case. A provider that is selected
   while the slot is full raises an exception. `loadTracerProvider` puts the no-op
   provider in a slot that is still empty.
2. **`OpenTelemetryTracer`** (module `OpenTelemetry`, with call sequences in
   `TraceRuns`): the bookkeeping of one trace. Spans are opaque ids mapped to records
   `{name, parent, attributes, events, ended}`. `spanMap` maps the active block names to
   spans. `recorderSpanMap` is an insertion-ordered map (module `LinkedMaps`: a key
   sequence plus a map, the model of `LinkedHashMap`) of every block ever started, plus
   `"Trace start"` for the parent span. Re-putting a key keeps its original position.
   The class's static propagator fields are an explicit value (`Propagation`) that the
   constructor takes and returns.

Exceptions are modelled as `Result.Err`. Every operation checks before it mutates, so
an operation that throws leaves the tracer unchanged (`TraceRuns.Step`).

Three behaviours of the code worth stating plainly:
- A provider whose type differs from the configured type is ignored without error,
  whether or not tracing is enabled.
- The only fallback is the no-op provider.
- `getTracerProvider` before `loadTracerProvider` returns `null` (`None`).

## Model

| member | source | states |
|---|---|---|
| ProviderManager.Create | presto-main/src/main/java/com/facebook/presto/tracing/TracerProviderManager.java:24-37 | the tracer type, enabled flag and mode are taken from the configuration unchanged; the provider slot starts empty |
| ProviderManager.AlwaysTraceNameMatch | presto-main/src/main/java/com/facebook/presto/tracing/TracerProviderManager.java:43 | the case-insensitive comparison of the mode's name with `ALWAYS_TRACE` holds exactly for the ALWAYS_TRACE mode |
| ProviderManager.AddTracerProviderFactory | presto-main/src/main/java/com/facebook/presto/tracing/TracerProviderManager.java:39-49 | a provider that is not selected (wrong type, tracing off, or mode not ALWAYS_TRACE) changes nothing and never throws, even with the slot full; a selected provider fills an empty slot with exactly itself; a selected provider with the slot full throws, naming the provider already set, which stays |
| ProviderManager.LoadTracerProvider | presto-main/src/main/java/com/facebook/presto/tracing/TracerProviderManager.java:51-56 | afterwards the slot is non-null; a provider already set is kept; an empty slot gets the no-op provider; the configuration is untouched |
| ProviderManager.GetTracerProvider | presto-main/src/main/java/com/facebook/presto/tracing/TracerProviderManager.java:58-61 | returns the slot as it stands, `None` for `null`; with `LoadIdempotent`, it is non-null after loading |
| ProviderManager.LoadIdempotent | presto-main/src/main/java/com/facebook/presto/tracing/TracerProviderManager.java:51-61 | loading twice is the same as loading once, and `getTracerProvider` is non-null after loading |
| ProviderManager.RegisterAfterLoadFails | presto-main/src/main/java/com/facebook/presto/tracing/TracerProviderManager.java:44-55 | once loaded, registering a selected provider throws |
| ProviderManager.RegisterAllFailsIff | presto-main/src/main/java/com/facebook/presto/tracing/TracerProviderManager.java:41-47 | a run of registrations throws if and only if the configuration selects at least two providers, counting one already in the slot |
| ProviderManager.RegisterAllWinner | presto-main/src/main/java/com/facebook/presto/tracing/TracerProviderManager.java:41-47 | a run that does not throw keeps the configuration and keeps a provider already set; from an empty slot it leaves in the slot the first selected provider, or nothing |
| ProviderManager.AssignedAtMostOnce | presto-main/src/main/java/com/facebook/presto/tracing/TracerProviderManager.java:44-47 | across any run of registrations, including one whose caller catches the exception and goes on registering, the slot changes at most once, and never once it is full |
| ProviderManager.SelectionDependsOnConfigOnly | presto-main/src/main/java/com/facebook/presto/tracing/TracerProviderManager.java:41-43 | whether a provider is selected depends on the three configuration fields only, not on the slot |
| ProviderManager.OpenTelemetrySelection | presto-open-telemetry/src/main/java/com/facebook/presto/opentelemetry/OpenTelemetryTracerProvider.java:27-37 | with the OTEL type and ALWAYS_TRACE configured, registering the OpenTelemetry provider and loading leaves that provider when tracing is enabled and the no-op provider when it is not |
| LinkedMaps.Put | presto-open-telemetry/src/main/java/com/facebook/presto/opentelemetry/OpenTelemetryTracer.java:42 | a put sets the key's value; a new key is appended to the iteration order; an existing key keeps its position; the old order is a prefix of the new one |
| LinkedMaps.Get | presto-open-telemetry/src/main/java/com/facebook/presto/opentelemetry/OpenTelemetryTracer.java:150 | a lookup finds a value exactly for the keys in the order, and that value is the stored one |
| LinkedMaps.InsertionOrderByFirstOccurrence | presto-open-telemetry/src/main/java/com/facebook/presto/opentelemetry/OpenTelemetryTracer.java:42 | after a sequence of puts the key order has no repeats, holds exactly the keys ever put, keeps the old order as a prefix, and sorts keys by their first insertion |
| OpenTelemetry.UsePropagator | presto-open-telemetry/src/main/java/com/facebook/presto/opentelemetry/OpenTelemetryTracer.java:63-68 | afterwards the current format is the requested one; the shared instance is rebuilt (one more build) only when the requested format differs, and otherwise nothing changes |
| OpenTelemetry.NewTracer | presto-open-telemetry/src/main/java/com/facebook/presto/opentelemetry/OpenTelemetryTracer.java:61-94 | the current format becomes the requested one, unchanged when it already was; `spanMap` is empty; the record holds exactly `"Trace start"` mapped to the parent span; the parent is un-ended with no events, carries `trace_id = traceToken`, and hangs under the context extracted from the carrier with the new format, or, without a carrier, under whatever context is current in the calling thread; the invariant holds |
| OpenTelemetry.AddPoint | presto-open-telemetry/src/main/java/com/facebook/presto/opentelemetry/OpenTelemetryTracer.java:100-104 | the annotation is appended to the parent span's events; both maps and every other span are unchanged |
| OpenTelemetry.StartBlock | presto-open-telemetry/src/main/java/com/facebook/presto/opentelemetry/OpenTelemetryTracer.java:112-126 | fails with a duplicate-block error exactly when the name is active; otherwise one new, un-ended span, a child of the parent whose only event is the annotation, is entered under the name in both maps; existing spans and other active entries are untouched; a name already recorded keeps its position |
| OpenTelemetry.StartedValid | presto-open-telemetry/src/main/java/com/facebook/presto/opentelemetry/OpenTelemetryTracer.java:118-125 | a successful start keeps the invariant: active names are recorded under the same span, active spans are distinct, un-ended and not the parent |
| OpenTelemetry.AddPointToBlock | presto-open-telemetry/src/main/java/com/facebook/presto/opentelemetry/OpenTelemetryTracer.java:128-135 | fails exactly when the name is not active; otherwise the annotation is appended to that block's span and nothing else changes |
| OpenTelemetry.EndBlock | presto-open-telemetry/src/main/java/com/facebook/presto/opentelemetry/OpenTelemetryTracer.java:142-154 | fails exactly when the name is not active; otherwise the name leaves `spanMap` but stays in the record, and the active span (which the record lookup finds) gets the annotation and goes from un-ended to ended; other spans are unchanged |
| OpenTelemetry.EndTrace | presto-open-telemetry/src/main/java/com/facebook/presto/opentelemetry/OpenTelemetryTracer.java:156-161 | the parent span gets the annotation and is ended; both maps and the block spans are unchanged, so active blocks stay un-ended |
| TraceRuns.Step | presto-open-telemetry/src/main/java/com/facebook/presto/opentelemetry/OpenTelemetryTracer.java:100-161 | any call keeps the invariant (active keys are a subset of recorded keys), a call that throws leaves the tracer unchanged, and the record only grows: its old order is a prefix and no key is lost |
| TraceRuns.Run | presto-open-telemetry/src/main/java/com/facebook/presto/opentelemetry/OpenTelemetryTracer.java:115-153 | across any sequence of calls the invariant holds and the recorded key set and order never shrink |
| TraceRuns.RunRecorderOrder | presto-open-telemetry/src/main/java/com/facebook/presto/opentelemetry/OpenTelemetryTracer.java:122-125 | the record's key order is the insertion order of the names of all `startBlock` calls, failed duplicates included |
| TraceRuns.RecordInFirstStartOrder | presto-open-telemetry/src/main/java/com/facebook/presto/opentelemetry/OpenTelemetryTracer.java:84-125 | from construction on, the record holds `"Trace start"` and every started name exactly once, ordered by first start, and contains every active name |
| OpenTelemetry.GetTracerId | presto-open-telemetry/src/main/java/com/facebook/presto/opentelemetry/OpenTelemetryTracer.java:163-170 | the trace token when it is non-null, else the tracer name; `TracerIdAfterRun` ties this to the constructor's token for the whole trace |
| TraceRuns.TracerIdAfterRun | presto-open-telemetry/src/main/java/com/facebook/presto/opentelemetry/OpenTelemetryTracer.java:163-170 | `getTracerId` returns the constructor's trace token when it is non-null and the tracer name otherwise, after any sequence of calls |
| TraceRuns.RestartAfterEnd | presto-open-telemetry/src/main/java/com/facebook/presto/opentelemetry/OpenTelemetryTracer.java:115-153 | a second start of an active block fails; after it ends, starting it again succeeds with a new span, keeps the name's place in the record, and leaves the old span ended |
| TraceRuns.TraceStartOverwritten | presto-open-telemetry/src/main/java/com/facebook/presto/opentelemetry/OpenTelemetryTracer.java:84-124 | on a fresh tracer, `startBlock("Trace start", …)` succeeds and replaces the parent's record entry in place; the parent span itself is unchanged |
| TraceRuns.RebuiltAtMostOnce | presto-open-telemetry/src/main/java/com/facebook/presto/opentelemetry/OpenTelemetryTracer.java:63-68 | when every construction requests the same format, the shared instance is rebuilt at most once, and not at all if that format is already current |
| TraceRuns.ProcessBuildsAtMostTwice | presto-open-telemetry/src/main/java/com/facebook/presto/opentelemetry/OpenTelemetryTracer.java:35-68 | from class initialisation, when every tracer asks for one format the shared instance is built at most twice in all (the initial build plus at most one rebuild), and only once when that format is B3 single header |

## Left out

- The OpenTelemetry SDK (`spanBuilder`, `Context`, `Scope`, `TextMapGetter`, `OpenTelemetryBuilder.build`) is foreign code. Spans are records of what the tracer did to them. Context extraction is reduced to "the parent hangs under the carrier, read in the current format".
- Whether the SDK drops an event added to an already-ended span is SDK behaviour. The model's `events` lists every annotation the tracer hands to a span.
- A null trace token is `None`. The `trace_id` attribute is then absent, as the SDK ignores attributes with null values.
- `spanMap` and `recorderSpanMap` are public mutable fields, but the model treats them as private to the tracer. The invariant that active names are recorded under the same span, and `EndBlock`'s record lookup always succeeding, rely on only the tracer's own methods changing them. Outside code that puts a name into `spanMap` alone would make `endBlock` hit a null record entry and throw a `NullPointerException`; that path is not modelled.
- Concurrency is left out: `ConcurrentHashMap`, the `synchronized` blocks, and the non-atomic check-then-insert in `startBlock`. The model is sequential.
- `OpenTelemetryTracerProvider.getNewTracer` calls a one-argument tracer constructor that is not part of this model. Its type constant OTEL appears only in `ProviderManager.OpenTelemetrySelection`.
- `TracingConfig` is not part of this model. The spellings of OTEL, NOOP and B3_SINGLE_HEADER are stand-ins, and so is the SPI's `tracerName`. The mode constants are assumed to be NO_TRACE, ALWAYS_TRACE and SAMPLE_BASED. Only their identity matters to the proofs.
- `equalsIgnoreCase` is modelled with ASCII case folding only. The strings it compares are ASCII enum names.
- Guice injection, configuration parsing, `NoopTracerProvider` internals and exception message texts are left out. Errors carry their kind and the offending name or provider.
- Null arguments that would make the Java code throw a `NullPointerException` (a null configuration, tracer type or propagation format) are not modelled. Those values are plain strings here.
