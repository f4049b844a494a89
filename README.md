# Tracing initialisation and sampling policy (Dafny model)

This project models the decision logic of the service's tracing package
(`internal/observability/tracing/tracing.go`):

- **Sampling policy** (`Sampling`): the package's own sampler drops every span whose name starts
  with `grpc.`, `cerbos.svc.v1.CerbosPlaygroundService.` or `/api/playground/`. It hands every
  other name to a delegate. `mkSampler` returns the library's never-sample sampler when the
  probability is exactly 0. Otherwise it returns the wrapper around a parent-based ratio sampler.
  That sampler is built from the package-level configured probability. The library's ratio
  sampler is the uninterpreted parameter `ratio`.
- **Initialisation path** (`Exporters`, `ExporterProperties`): `InitFromConf`, `configureJaeger`,
  `configureOTLP` and `configureOtel` are pure functions. Each returns an `InitRun`: an outcome
  (no-op, configured set-up, or error) and the ordered list of external constructors and dials
  reached. `InitFromConf` switches on the exporter of its argument. The later steps read the
  package-level configuration. The model therefore takes both (`arg` and `global`).
  `net.SplitHostPort`, `jaeger.New`, `grpc.DialContext`, the two OTLP constructors, `resource.New`
  and `util.AppName` are oracles held in `Env`.
- **Error filter** (`ErrorFilter`): a provider error whose message contains `unsupported sampler:`
  is dropped; every other error is logged as a warning.
- **Process state** (`Tracing`): a `Process` class holds the package-level configuration and the
  globals that initialisation writes: tracer provider, propagator, error handler and the
  OpenCensus default tracer. `Init`, `InitFromConf` and the error handler apply the pure
  decisions to it. `MarkFailed` writes a `Span` object.
- **String helpers** (`Strings`): Go's `strings.HasPrefix`, `strings.Index` and
  `strings.Contains`, each with a reference characterisation.

On these points the model follows the code rather than what one might expect:

- Only the empty exporter name selects the no-op provider. A value such as `none` is an unknown
  exporter error.
- The Jaeger path never falls back to the application name. It uses the override, else the
  Jaeger section's service name, even when that is empty. Only the OTLP path falls back to
  `util.AppName`.
- Everything `InitFromConf` does after its switch reads the package-level configuration, not
  its argument. This includes endpoints, protocol, service name and sample probability.
- The `http` OTLP branch builds its exporter through an import alias of the gRPC exporter
  package (`tracing.go:21-22`). The model records only which branch ran (`OtlpHttp`), not the
  transport.

The values `"jaeger"` and `"otlp"` of the exporter constants, and the `Conf` type, come from
`internal/observability/tracing/conf.go`. That file is not part of this model.

## Model

| member | source | states |
|---|---|---|
| `Strings.HasPrefixIffSplits` | internal/observability/tracing/tracing.go:176-180 | `HasPrefix(s, p)` holds exactly when `s` is `p` followed by some rest |
| `Strings.Index` | internal/observability/tracing/tracing.go:139 | result is the first position where `sub` occurs, or -1 exactly when it occurs nowhere |
| `Strings.ContainsIffOccurs` | internal/observability/tracing/tracing.go:139 | `Contains(s, sub)` holds exactly when `sub` occurs at some position of `s` |
| `Strings.ContainsSurvivesEmbedding` | internal/observability/tracing/tracing.go:139 | a contained string stays contained when text is added before and after |
| `Sampling.SuppressedIff` | internal/observability/tracing/tracing.go:174-181 | the rule list (exists a listed prefix) is the same as the three `HasPrefix` cases of the switch |
| `Sampling.ShouldSample` | internal/observability/tracing/tracing.go:174-185 | a suppressed name gets a bare `Drop` whatever the delegate would say; any other name gets exactly the delegate's result |
| `Sampling.Decide` | internal/observability/tracing/tracing.go:162-185 | never-sample always drops, carrying on the parent's trace state; the wrapper drops suppressed names and otherwise answers as its delegate |
| `Sampling.Description` | internal/observability/tracing/tracing.go:187-189 | the wrapper describes itself as `CerbosCustomSampler`, never-sample as `AlwaysOffSampler` |
| `Sampling.MkSampler` | internal/observability/tracing/tracing.go:162-168 | probability 0 skips the wrapper: every span gets never-sample's drop with the parent's trace state, and the sampler describes itself as `AlwaysOffSampler`; a suppressed name is always dropped; otherwise a non-suppressed name gets the ratio sampler's answer for the configured probability, and the sampler is the custom one |
| `Sampling.SuppressedExtends` | internal/observability/tracing/tracing.go:176-181 | every name that begins with a suppressed name is suppressed |
| `Sampling.PrefixesDisjoint` | internal/observability/tracing/tracing.go:175-181 | no name starts with two of the prefixes, so the order of the cases is immaterial |
| `Sampling.ExampleNames` | internal/observability/tracing/tracing.go:176-181 | a gRPC health check and a playground route are dropped; an API RPC and another HTTP route are not |
| `Exporters.JaegerEndpointFor` | internal/observability/tracing/tracing.go:62-72 | a set agent endpoint becomes agent mode with the split host and port, or an error when it does not split; collector mode only when the agent endpoint is empty |
| `Exporters.ConfigureOtel` | internal/observability/tracing/tracing.go:114-134 | the service name is the given one, else the application name; the set-up carries the exporter and the sampler for the global probability; a failed resource build is the error `ResourceFailed` with the builder's cause, and it is the only error |
| `Exporters.ConfigureJaeger` | internal/observability/tracing/tracing.go:61-85 | an unsplittable agent endpoint fails with no constructor called; the constructor gets the agent or collector endpoint; a failed constructor is a fatal error with no later call; otherwise the run continues exactly as `configureOtel`; the run ends configured exactly when the split, the constructor and the resource all succeed; the service name is the override, else the Jaeger service name; the sampler follows the global probability; no OTLP call or dial |
| `Exporters.ConfigureOtlp` | internal/observability/tracing/tracing.go:87-112 | a protocol other than `grpc` or `http` fails before any dial or construction; `grpc` dials the collector endpoint first, and a failed dial or constructor is a fatal error with no later call; the package makes no explicit dial on `http`, and a failed constructor there is fatal too; each success continues exactly as `configureOtel`; the run ends configured exactly when every step succeeds; the service name is the override, else the application name; the sampler follows the global probability |
| `Exporters.InitFromConf` | internal/observability/tracing/tracing.go:47-59 | the empty exporter is the only no-op, with no external call; any exporter other than `jaeger`, `otlp` and the empty one is exactly the unknown-exporter error; `jaeger` and `otlp` dispatch to their paths over the global configuration |
| `ExporterProperties.ConfigErrorsPrecedeExternalCalls` | internal/observability/tracing/tracing.go:47-108 | a configuration error is reported before any dial or constructor runs |
| `ExporterProperties.AgentEndpointNeverFallsBack` | internal/observability/tracing/tracing.go:63-72 | with a set agent endpoint, neither the constructor nor the installed exporter ever uses collector mode |
| `ExporterProperties.OnlyExporterOfArgumentMatters` | internal/observability/tracing/tracing.go:47-58 | two arguments with the same exporter give the same run |
| `ExporterProperties.InstalledSamplerPolicy` | internal/observability/tracing/tracing.go:114-115 | the installed sampler follows the global probability: 0 or a suppressed name drops; otherwise the ratio sampler's answer |
| `ErrorFilter.Logged` | internal/observability/tracing/tracing.go:136-144 | nothing is logged exactly when the message contains `unsupported sampler:`; otherwise exactly the message is logged |
| `ErrorFilter.BenignSurvivesWrapping` | internal/observability/tracing/tracing.go:139 | a benign message stays benign when wrapped as `context: message` |
| `ErrorFilter.ExampleMessages` | internal/observability/tracing/tracing.go:139-143 | an `unsupported sampler:` message is dropped; a plain export failure is logged |
| `Tracing.Process.constructor` | internal/observability/tracing/tracing.go:37 | the package-level configuration starts as the zero value and no global is replaced |
| `Tracing.Process.Install` | internal/observability/tracing/tracing.go:130-148 | the error filter, the SDK provider, the composite propagator and the OpenCensus bridge are installed together |
| `Tracing.Process.InitFromConf` | internal/observability/tracing/tracing.go:47-59 | the new state follows the decision: no-op replaces only the provider; success installs the set-up; a failure changes no global; the package configuration is not written |
| `Tracing.Process.Init` | internal/observability/tracing/tracing.go:39-45 | a load failure returns an error and changes nothing; otherwise the loaded configuration becomes the package configuration and is both argument and global, and the error and each global follow the outcome as in `InitFromConf` |
| `Tracing.Process.HandleError` | internal/observability/tracing/tracing.go:136-144 | with the filter installed, the warnings grow by exactly what the filter logs; the class invariant holds afterwards exactly when it held before |
| `Tracing.MarkFailed` | internal/observability/tracing/tracing.go:199-206 | the error is recorded only when present; the status from the code mapping is always set |

## Left out

- The background goroutine that waits for the lifecycle context and shuts the provider down (`tracing.go:150-157`). It is concurrency and lifecycle signalling.
- `grpc.DialContext`, `jaeger.New`, the OTLP constructors and `resource.New`: only their success or failure is modelled, as oracles. The resource attributes (process, host, environment) are not modelled.
- The library's `ParentBased(TraceIDRatioBased(p))` sampler is an uninterpreted parameter. Its ratio arithmetic on trace-id bits and its parent inheritance are not modelled, and neither is its description text.
- Floating point: the probability is a `real`. Go's `-0.0 == 0.0` gives the same answer as here. A NaN probability cannot be represented.
- Error message texts produced by `fmt.Errorf` are not modelled; errors are kinds carrying the offending value and cause.
- `StartSpan`, `HTTPHandler` and the OpenTelemetry default error handler are thin wrappers over library code that is not shown.
- `httpconv.ServerStatus` is a parameter of `MarkFailed`. `MarkFailed` does not model the span's own rules for overriding a status; the span records the requested status.
- Tracing.Process.Init: the configuration is assumed unchanged when loading it fails. The loader is not part of this model.
- The `http` OTLP branch calls the aliased gRPC exporter constructor, which opens its own connection to the collector. That connection is inside the `newOtlpHttp` oracle; the model records only that the package itself does not dial.
- The Jaeger and OTLP sections of the configuration are modelled as always-present records. If `conf.go` declares them as optional pointers, a missing section would be dereferenced at `tracing.go:63` or `tracing.go:91`; the model cannot show that failure, and `conf.go` is not part of this model.
- Propagator composition (W3C trace context, baggage, B3) is a single symbolic value.
