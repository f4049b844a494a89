/**
 * The process-wide state the tracing package writes: its own package-level configuration and the
 * OpenTelemetry globals (tracer provider, propagator, error handler) plus the OpenCensus default
 * tracer that the bridge replaces. The decisions are the pure functions of `Exporters`; the methods
 * here apply their outcome to the state.
 */
module Tracing {
  import opened Wrappers
  import Exporters
  import ErrorFilter

  /** The globally installed tracer provider. */
  datatype TracerProvider = DefaultProvider | NoopProvider | SdkProvider(setup: Exporters.Setup)

  /** The global text-map propagator: the library default, or W3C trace context + baggage + B3. */
  datatype Propagator = DefaultPropagator | TraceContextBaggageB3

  /** The global OpenTelemetry error handler. */
  datatype ErrorHandler = DefaultHandler | BenignSamplerFilter

  /** OpenCensus's default tracer: untouched, or bridged onto a tracer provider. */
  datatype LegacyTracer = DefaultLegacyTracer | BridgedTo(setup: Exporters.Setup)

  class Process {
    var conf: Exporters.Conf
    var provider: TracerProvider
    var propagator: Propagator
    var errorHandler: ErrorHandler
    var legacyTracer: LegacyTracer
    /** External constructors and dials reached by initialisation, in order. */
    var externalCalls: seq<Exporters.ExternalCall>
    /** Warnings logged under the "otel" logger. */
    var warnings: seq<string>

    /** Whenever an SDK provider is installed, the filter, the propagator and the legacy bridge that came with it are installed too. */
    ghost predicate Valid()
      reads this
    {
      provider.SdkProvider? ==>
        && errorHandler == BenignSamplerFilter
        && propagator == TraceContextBaggageB3
        && legacyTracer == BridgedTo(provider.setup)
    }

    /** A process that has not initialised tracing. */
    constructor ()
      ensures Valid()
      ensures conf == Exporters.ZERO_CONF && provider == DefaultProvider && propagator == DefaultPropagator
      ensures errorHandler == DefaultHandler && legacyTracer == DefaultLegacyTracer
      ensures externalCalls == [] && warnings == []
    {
      conf := Exporters.ZERO_CONF;
      provider := DefaultProvider;
      propagator := DefaultPropagator;
      errorHandler := DefaultHandler;
      legacyTracer := DefaultLegacyTracer;
      externalCalls := [];
      warnings := [];
    }

    /** The tail of `configureOtel`: install the provider, the error filter, the propagator and the bridge. */
    method Install(setup: Exporters.Setup)
      modifies this
      ensures Valid()
      ensures provider == SdkProvider(setup) && errorHandler == BenignSamplerFilter
      ensures propagator == TraceContextBaggageB3 && legacyTracer == BridgedTo(setup)
      ensures conf == old(conf) && externalCalls == old(externalCalls) && warnings == old(warnings)
    {
      errorHandler := BenignSamplerFilter;
      provider := SdkProvider(setup);
      propagator := TraceContextBaggageB3;
      legacyTracer := BridgedTo(setup);
    }

    /**
     * `InitFromConf`: decide with the argument's exporter and the package-level configuration, then
     * apply the outcome. The no-op path replaces only the provider; a failure changes no global.
     */
    method InitFromConf(arg: Exporters.Conf, env: Exporters.Env) returns (err: Option<Exporters.InitError>)
      requires Valid()
      modifies this
      ensures Valid()
      ensures var run := Exporters.InitFromConf(arg, old(conf), env);
        && externalCalls == old(externalCalls) + run.calls
        && (err.Some? <==> run.outcome.Failed?)
        && (err.Some? ==> err.value == run.outcome.error)
        && (run.outcome.NoOp? ==>
              provider == NoopProvider && propagator == old(propagator)
              && errorHandler == old(errorHandler) && legacyTracer == old(legacyTracer))
        && (run.outcome.Configured? ==>
              provider == SdkProvider(run.outcome.setup) && legacyTracer == BridgedTo(run.outcome.setup))
        && (run.outcome.Failed? ==>
              provider == old(provider) && propagator == old(propagator)
              && errorHandler == old(errorHandler) && legacyTracer == old(legacyTracer))
      ensures conf == old(conf) && warnings == old(warnings)
    {
      var run := Exporters.InitFromConf(arg, conf, env);
      externalCalls := externalCalls + run.calls;
      match run.outcome {
        case NoOp =>
          provider := NoopProvider;
          err := None;
        case Configured(setup) =>
          Install(setup);
          err := None;
        case Failed(e) =>
          err := Some(e);
      }
    }

    /** `Init`: load the configuration section into the package-level configuration, then initialise from it. */
    method Init(loaded: Result<Exporters.Conf, string>, env: Exporters.Env) returns (err: Option<Exporters.InitError>)
      requires Valid()
      modifies this
      ensures Valid()
      ensures loaded.Failure? ==>
        && err == Some(Exporters.ConfigLoadFailed(loaded.error))
        && conf == old(conf) && provider == old(provider) && externalCalls == old(externalCalls)
        && propagator == old(propagator) && errorHandler == old(errorHandler) && legacyTracer == old(legacyTracer)
      ensures loaded.Success? ==>
        var run := Exporters.InitFromConf(loaded.value, loaded.value, env);
        && conf == loaded.value
        && externalCalls == old(externalCalls) + run.calls
        && (err.Some? <==> run.outcome.Failed?)
        && (err.Some? ==> err.value == run.outcome.error)
        && (run.outcome.NoOp? ==>
              provider == NoopProvider && propagator == old(propagator)
              && errorHandler == old(errorHandler) && legacyTracer == old(legacyTracer))
        && (run.outcome.Configured? ==>
              provider == SdkProvider(run.outcome.setup) && legacyTracer == BridgedTo(run.outcome.setup))
        && (run.outcome.Failed? ==>
              provider == old(provider) && propagator == old(propagator)
              && errorHandler == old(errorHandler) && legacyTracer == old(legacyTracer))
      ensures warnings == old(warnings)
    {
      match loaded {
        case Failure(cause) =>
          err := Some(Exporters.ConfigLoadFailed(cause));
        case Success(c) =>
          conf := c;
          err := InitFromConf(c, env);
      }
    }

    /**
     * A provider error reaching the global handler. With the filter installed, a benign message is
     * dropped and any other is logged; the library's default handler does not log to this logger.
     */
    method HandleError(message: string)
      modifies this`warnings
      ensures Valid() == old(Valid())
      ensures errorHandler == BenignSamplerFilter ==> warnings == old(warnings) + ErrorFilter.Logged(message)
      ensures errorHandler == DefaultHandler ==> warnings == old(warnings)
    {
      if errorHandler == BenignSamplerFilter {
        warnings := warnings + ErrorFilter.Logged(message);
      }
    }
  }

  datatype StatusCode = Unset | Error | Ok

  datatype Status = Status(code: StatusCode, description: string)

  /** The part of a span that `MarkFailed` writes. */
  class Span {
    var recordedErrors: seq<string>
    var status: Option<Status>

    constructor ()
      ensures recordedErrors == [] && status == None
    {
      recordedErrors := [];
      status := None;
    }
  }

  /**
   * `MarkFailed`: record the error only when there is one, and always set the status that the
   * HTTP status code maps to (`serverStatus` is the library's mapping).
   */
  method MarkFailed(span: Span, code: int, err: Option<string>, serverStatus: int -> Status)
    modifies span
    ensures span.recordedErrors == old(span.recordedErrors) + (if err.Some? then [err.value] else [])
    ensures span.status == Some(serverStatus(code))
  {
    if err.Some? {
      span.recordedErrors := span.recordedErrors + [err.value];
    }
    span.status := Some(serverStatus(code));
  }
}
