/**
 The settings the tracing core reads from the engine's tracing configuration. The
 configuration class itself is not part of this model: only the identity of the
 constants below matters to the properties, their spelling is a stand-in.
 */
module TracingConfig {

  /** Tracer types (`TracingConfig.TracerType`). */
  const OTEL: string := "otel"
  const NOOP: string := "noop"

  /** The propagation format the OpenTelemetry tracer starts with (`ContextPropagator.B3_SINGLE_HEADER`). */
  const B3_SINGLE_HEADER: string := "b3_single_header"

  /** `TracingConfig.DistributedTracingMode`. */
  datatype DistributedTracingMode = NoTrace | AlwaysTrace | SampleBased {
    /** Java's `Enum.name()`: the identifier of the constant. */
    function Name(): string {
      match this
      case NoTrace => "NO_TRACE"
      case AlwaysTrace => "ALWAYS_TRACE"
      case SampleBased => "SAMPLE_BASED"
    }
  }

  datatype Config = Config(
    tracerType: string,
    enableDistributedTracing: bool,
    distributedTracingMode: DistributedTracingMode)
}
