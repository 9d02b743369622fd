/**
 `TracerProviderManager`: a one-shot slot that receives the tracer provider of the
 plugin whose type the configuration names, and falls back to the no-op provider.
 */
module ProviderManager {
  import opened Wrappers
  import opened AsciiCase
  import opened TracingConfig

  /** A tracer provider as the manager sees it: its name and its tracer type. */
  datatype TracerProvider = PluginProvider(name: string, tracerType: string) | NoopTracerProvider {
    function GetTracerType(): string {
      match this
      case PluginProvider(_, t) => t
      case NoopTracerProvider => NOOP
    }
  }

  /** The `IllegalArgumentException` raised on a second registration; it names the provider already set. */
  datatype ManagerError = ProviderAlreadySet(current: TracerProvider)

  /** The three configuration fields and the provider slot (`null` is `None`). */
  datatype TracerProviderManager = TracerProviderManager(
    tracerType: string,
    enableDistributedTracing: bool,
    distributedTracingMode: DistributedTracingMode,
    tracerProvider: Option<TracerProvider>)

  predicate SameConfig(m: TracerProviderManager, m': TracerProviderManager) {
    && m'.tracerType == m.tracerType
    && m'.enableDistributedTracing == m.enableDistributedTracing
    && m'.distributedTracingMode == m.distributedTracingMode
  }

  /** The selection rule in typed terms: matching type, tracing enabled, mode ALWAYS_TRACE. */
  predicate Selects(m: TracerProviderManager, p: TracerProvider) {
    && p.GetTracerType() == m.tracerType
    && m.enableDistributedTracing
    && m.distributedTracingMode == AlwaysTrace
  }

  /** The case-insensitive name comparison accepts exactly the ALWAYS_TRACE constant. */
  lemma AlwaysTraceNameMatch(mode: DistributedTracingMode)
    ensures EqualsIgnoreCase(mode.Name(), AlwaysTrace.Name()) <==> mode == AlwaysTrace
  {
    if mode == SampleBased {
      assert ToUpper(mode.Name()[0]) != ToUpper(AlwaysTrace.Name()[0]);
    }
  }

  /** The constructor: copies the configuration and leaves the slot empty. */
  function Create(config: Config): (m: TracerProviderManager)
    ensures m.tracerType == config.tracerType
    ensures m.enableDistributedTracing == config.enableDistributedTracing
    ensures m.distributedTracingMode == config.distributedTracingMode
    ensures m.tracerProvider.None?
  {
    TracerProviderManager(config.tracerType, config.enableDistributedTracing, config.distributedTracingMode, None)
  }

  /**
   `addTracerProviderFactory`: a provider the configuration does not select is ignored
   without error; a selected one fills an empty slot, and throws if the slot is taken.
   */
  function AddTracerProviderFactory(m: TracerProviderManager, p: TracerProvider): (r: Result<TracerProviderManager, ManagerError>)
    ensures !Selects(m, p) ==> r == Ok(m)
    ensures Selects(m, p) && m.tracerProvider.None? ==> r == Ok(m.(tracerProvider := Some(p)))
    ensures Selects(m, p) && m.tracerProvider.Some? ==> r == Err(ProviderAlreadySet(m.tracerProvider.value))
  {
    AlwaysTraceNameMatch(m.distributedTracingMode);
    if m.tracerType == p.GetTracerType()
      && m.enableDistributedTracing
      && EqualsIgnoreCase(m.distributedTracingMode.Name(), AlwaysTrace.Name())
    then
      if m.tracerProvider.Some? then Err(ProviderAlreadySet(m.tracerProvider.value))
      else Ok(m.(tracerProvider := Some(p)))
    else
      Ok(m)
  }

  /** `loadTracerProvider`: installs the no-op provider when no plugin provider was set. */
  function LoadTracerProvider(m: TracerProviderManager): (r: TracerProviderManager)
    ensures SameConfig(m, r)
    ensures r.tracerProvider.Some?
    ensures m.tracerProvider.Some? ==> r.tracerProvider == m.tracerProvider
    ensures m.tracerProvider.None? ==> r.tracerProvider == Some(NoopTracerProvider)
  {
    if m.tracerProvider.None? then m.(tracerProvider := Some(NoopTracerProvider)) else m
  }

  /** `getTracerProvider`: the slot, `None` standing for `null`; see `LoadIdempotent` for when it is non-null. */
  function GetTracerProvider(m: TracerProviderManager): (r: Option<TracerProvider>)
    ensures r == m.tracerProvider
  {
    m.tracerProvider
  }

  lemma LoadIdempotent(m: TracerProviderManager)
    ensures LoadTracerProvider(LoadTracerProvider(m)) == LoadTracerProvider(m)
    ensures GetTracerProvider(LoadTracerProvider(m)).Some?
  {
  }

  /** Once loaded, a provider the configuration selects can no longer be registered. */
  lemma RegisterAfterLoadFails(m: TracerProviderManager, p: TracerProvider)
    requires Selects(m, p)
    ensures AddTracerProviderFactory(LoadTracerProvider(m), p).Err?
  {
  }

  /** Plugin loading: every provider is registered in turn; the first exception aborts the rest. */
  function RegisterAll(m: TracerProviderManager, ps: seq<TracerProvider>): Result<TracerProviderManager, ManagerError>
    decreases |ps|
  {
    if |ps| == 0 then Ok(m)
    else
      match AddTracerProviderFactory(m, ps[0])
      case Err(e) => Err(e)
      case Ok(m') => RegisterAll(m', ps[1..])
  }

  /** How many of `ps` the configuration of `m` selects. */
  function CountSelected(m: TracerProviderManager, ps: seq<TracerProvider>): nat
    decreases |ps|
  {
    if |ps| == 0 then 0 else (if Selects(m, ps[0]) then 1 else 0) + CountSelected(m, ps[1..])
  }

  /** The first provider of `ps` the configuration of `m` selects. */
  function FirstSelected(m: TracerProviderManager, ps: seq<TracerProvider>): Option<TracerProvider>
    decreases |ps|
  {
    if |ps| == 0 then None else if Selects(m, ps[0]) then Some(ps[0]) else FirstSelected(m, ps[1..])
  }

  /**
   How many registrations in the run of `ps` changed the slot, for a caller that catches
   the exception of a registration and goes on with the next provider.
   */
  function Assignments(m: TracerProviderManager, ps: seq<TracerProvider>): nat
    decreases |ps|
  {
    if |ps| == 0 then 0
    else
      match AddTracerProviderFactory(m, ps[0])
      case Err(_) => Assignments(m, ps[1..])
      case Ok(m') => (if m'.tracerProvider != m.tracerProvider then 1 else 0) + Assignments(m', ps[1..])
  }

  lemma {:induction false} SelectionDependsOnConfigOnly(m: TracerProviderManager, m': TracerProviderManager, ps: seq<TracerProvider>)
    requires SameConfig(m, m')
    ensures CountSelected(m', ps) == CountSelected(m, ps)
    ensures FirstSelected(m', ps) == FirstSelected(m, ps)
    decreases |ps|
  {
    if |ps| > 0 {
      SelectionDependsOnConfigOnly(m, m', ps[1..]);
    }
  }

  /**
   A run of registrations throws exactly when the configuration selects two providers,
   counting one already in the slot.
   */
  lemma {:induction false} RegisterAllFailsIff(m: TracerProviderManager, ps: seq<TracerProvider>)
    ensures RegisterAll(m, ps).Err? <==> (if m.tracerProvider.Some? then 1 else 0) + CountSelected(m, ps) >= 2
    decreases |ps|
  {
    if |ps| > 0 {
      match AddTracerProviderFactory(m, ps[0])
      case Err(_) =>
      case Ok(m') =>
        SelectionDependsOnConfigOnly(m, m', ps[1..]);
        RegisterAllFailsIff(m', ps[1..]);
    }
  }

  /**
   A run that does not throw leaves the configuration alone, keeps a provider already
   in the slot, and otherwise installs the first provider the configuration selects.
   */
  lemma {:induction false} RegisterAllWinner(m: TracerProviderManager, ps: seq<TracerProvider>)
    requires RegisterAll(m, ps).Ok?
    ensures SameConfig(m, RegisterAll(m, ps).value)
    ensures m.tracerProvider.Some? ==> RegisterAll(m, ps).value.tracerProvider == m.tracerProvider
    ensures m.tracerProvider.None? ==> RegisterAll(m, ps).value.tracerProvider == FirstSelected(m, ps)
    decreases |ps|
  {
    if |ps| > 0 {
      var m' := AddTracerProviderFactory(m, ps[0]).value;
      SelectionDependsOnConfigOnly(m, m', ps[1..]);
      RegisterAllWinner(m', ps[1..]);
    }
  }

  /**
   Across any run of registrations, exceptions caught or not, the slot is assigned at
   most once, and never once it is full.
   */
  lemma {:induction false} AssignedAtMostOnce(m: TracerProviderManager, ps: seq<TracerProvider>)
    ensures Assignments(m, ps) <= 1
    ensures m.tracerProvider.Some? ==> Assignments(m, ps) == 0
    decreases |ps|
  {
    if |ps| > 0 {
      match AddTracerProviderFactory(m, ps[0])
      case Err(_) =>
        AssignedAtMostOnce(m, ps[1..]);
      case Ok(m') =>
        AssignedAtMostOnce(m', ps[1..]);
    }
  }

  /** The OpenTelemetry plugin's provider (`OpenTelemetryTracerProvider`). */
  const OpenTelemetryProvider: TracerProvider := PluginProvider("Open telemetry tracer provider", OTEL)

  /** With OTEL configured and ALWAYS_TRACE on, the OpenTelemetry plugin wins; with tracing off, the no-op provider does. */
  lemma OpenTelemetrySelection(enabled: bool)
    ensures var m := Create(Config(OTEL, enabled, AlwaysTrace));
      RegisterAll(m, [OpenTelemetryProvider]).Ok?
      && LoadTracerProvider(RegisterAll(m, [OpenTelemetryProvider]).value).tracerProvider
         == Some(if enabled then OpenTelemetryProvider else NoopTracerProvider)
  {
  }
}
