/**
 * The initialisation path of the tracing package as decisions: which exporter a configuration
 * selects, which errors stop initialisation, which service name and sampler the tracer provider
 * gets, and which external constructors are reached on the way.
 *
 * `InitFromConf` switches on the exporter field of its ARGUMENT, but the Jaeger, OTLP and shared
 * set-up steps read the package-level configuration; both are inputs here (`arg` and `global`).
 * Network clients, exporter constructors, the resource builder and `net.SplitHostPort` are the
 * oracles held by `Env`; every one that is reached is recorded, in order, in `InitRun.calls`.
 */
module Exporters {
  import opened Wrappers
  import Sampling

  const JAEGER_EXPORTER := "jaeger"
  const OTLP_EXPORTER := "otlp"

  datatype JaegerConf = JaegerConf(agentEndpoint: string, collectorEndpoint: string, serviceName: string)

  datatype OtlpConf = OtlpConf(protocol: string, collectorEndpoint: string)

  /** The tracing configuration section; `serviceName` is an optional override (a Go pointer). */
  datatype Conf = Conf(
    exporter: string,
    serviceName: Option<string>,
    jaeger: JaegerConf,
    otlp: OtlpConf,
    sampleProbability: real)

  /** The zero value of the package-level configuration before anything is loaded. */
  const ZERO_CONF := Conf("", None, JaegerConf("", "", ""), OtlpConf("", ""), 0.0)

  /** The Jaeger endpoint option: agent mode (host and port) or collector mode (URL). */
  datatype JaegerEndpoint = Agent(host: string, port: string) | Collector(url: string)

  /** The span exporter handed to the tracer provider. */
  datatype Exporter = Jaeger(endpoint: JaegerEndpoint) | OtlpGrpc(target: string) | OtlpHttp(target: string)

  /** How an external constructor or dial went. */
  datatype Attempt = Succeeded | FailedWith(cause: string)

  /** The collaborators the initialisation path calls out to. */
  datatype Env = Env(
    splitHostPort: string -> Result<(string, string), string>,
    newJaeger: JaegerEndpoint -> Attempt,
    dial: string -> Attempt,
    newOtlpGrpc: string -> Attempt,
    newOtlpHttp: string -> Attempt,
    newResource: string -> Attempt,
    appName: string)

  /** An external constructor or dial that initialisation reached. */
  datatype ExternalCall =
    | NewJaegerExporter(endpoint: JaegerEndpoint)
    | DialCollector(target: string)
    | NewOtlpGrpcExporter(target: string)
    | NewOtlpHttpExporter(target: string)
    | NewResource(serviceName: string)

  datatype InitError =
    | ConfigLoadFailed(cause: string)
    | UnknownExporter(exporter: string)
    | BadAgentEndpoint(endpoint: string, cause: string)
    | JaegerExporterFailed(cause: string)
    | DialFailed(cause: string)
    | OtlpExporterFailed(cause: string)
    | UnknownOtlpProtocol(protocol: string)
    | ResourceFailed(cause: string)

  /** Errors that come from the configuration itself rather than from a constructor or dial. */
  predicate IsConfigError(e: InitError) {
    e.UnknownExporter? || e.BadAgentEndpoint? || e.UnknownOtlpProtocol?
  }

  /** What the tracer provider is built from. */
  datatype Setup = Setup(exporter: Exporter, serviceName: string, sampler: Sampling.Sampler)

  datatype Outcome = NoOp | Configured(setup: Setup) | Failed(error: InitError)

  datatype InitRun = InitRun(outcome: Outcome, calls: seq<ExternalCall>)

  /** The same run with `earlier` external calls made before it. */
  function After(earlier: seq<ExternalCall>, run: InitRun): InitRun {
    InitRun(run.outcome, earlier + run.calls)
  }

  /** The Jaeger endpoint option: a set agent endpoint must split into host and port; otherwise the collector endpoint is used. */
  function JaegerEndpointFor(jc: JaegerConf, env: Env): (r: Result<JaegerEndpoint, InitError>)
    ensures jc.agentEndpoint == "" ==> r == Success(Collector(jc.collectorEndpoint))
    ensures jc.agentEndpoint != "" ==> match env.splitHostPort(jc.agentEndpoint)
      case Success(hp) => r == Success(Agent(hp.0, hp.1))
      case Failure(cause) => r == Failure(BadAgentEndpoint(jc.agentEndpoint, cause))
    ensures r.Success? && r.value.Collector? ==> jc.agentEndpoint == ""
  {
    if jc.agentEndpoint != "" then
      match env.splitHostPort(jc.agentEndpoint)
      case Failure(cause) => Failure(BadAgentEndpoint(jc.agentEndpoint, cause))
      case Success(hp) => Success(Agent(hp.0, hp.1))
    else
      Success(Collector(jc.collectorEndpoint))
  }

  /** `configureOtel`: service-name fallback to the application name, sampler, resource. */
  function ConfigureOtel(global: Conf, svcName: Option<string>, exporter: Exporter, env: Env): (r: InitRun)
    ensures r.calls == [NewResource(svcName.GetOr(env.appName))]
    ensures r.outcome.Configured? <==> env.newResource(svcName.GetOr(env.appName)).Succeeded?
    ensures r.outcome.Configured? ==>
      && r.outcome.setup.exporter == exporter
      && r.outcome.setup.serviceName == (if svcName.Some? then svcName.value else env.appName)
      && r.outcome.setup.sampler == Sampling.MkSampler(global.sampleProbability, global.sampleProbability)
    ensures env.newResource(svcName.GetOr(env.appName)).FailedWith? ==>
      r.outcome == Failed(ResourceFailed(env.newResource(svcName.GetOr(env.appName)).cause))
    ensures r.outcome.Failed? ==> r.outcome.error.ResourceFailed?
  {
    var sampler := Sampling.MkSampler(global.sampleProbability, global.sampleProbability);
    var name := svcName.GetOr(env.appName);
    match env.newResource(name)
    case FailedWith(cause) => InitRun(Failed(ResourceFailed(cause)), [NewResource(name)])
    case Succeeded => InitRun(Configured(Setup(exporter, name, sampler)), [NewResource(name)])
  }

  /** `configureJaeger`, reading the package-level configuration. */
  function ConfigureJaeger(global: Conf, env: Env): (r: InitRun)
    ensures global.jaeger.agentEndpoint != "" && env.splitHostPort(global.jaeger.agentEndpoint).Failure? ==>
      r == InitRun(Failed(BadAgentEndpoint(global.jaeger.agentEndpoint, env.splitHostPort(global.jaeger.agentEndpoint).error)), [])
    ensures global.jaeger.agentEndpoint != "" && env.splitHostPort(global.jaeger.agentEndpoint).Success? ==>
      var hp := env.splitHostPort(global.jaeger.agentEndpoint).value;
      && |r.calls| > 0 && r.calls[0] == NewJaegerExporter(Agent(hp.0, hp.1))
      && (r.outcome.Configured? ==> r.outcome.setup.exporter == Jaeger(Agent(hp.0, hp.1)))
    ensures global.jaeger.agentEndpoint == "" ==>
      && |r.calls| > 0 && r.calls[0] == NewJaegerExporter(Collector(global.jaeger.collectorEndpoint))
      && (r.outcome.Configured? ==> r.outcome.setup.exporter == Jaeger(Collector(global.jaeger.collectorEndpoint)))
    ensures JaegerEndpointFor(global.jaeger, env).Success? ==>
      var endpoint := JaegerEndpointFor(global.jaeger, env).value;
      match env.newJaeger(endpoint)
      case FailedWith(cause) =>
        r == InitRun(Failed(JaegerExporterFailed(cause)), [NewJaegerExporter(endpoint)])
      case Succeeded =>
        r == After([NewJaegerExporter(endpoint)],
                   ConfigureOtel(global, Some(global.serviceName.GetOr(global.jaeger.serviceName)), Jaeger(endpoint), env))
    ensures r.outcome.Configured? <==>
      && JaegerEndpointFor(global.jaeger, env).Success?
      && env.newJaeger(JaegerEndpointFor(global.jaeger, env).value).Succeeded?
      && env.newResource(global.serviceName.GetOr(global.jaeger.serviceName)).Succeeded?
    ensures r.outcome.Configured? ==> r.outcome.setup.serviceName == global.serviceName.GetOr(global.jaeger.serviceName)
    ensures r.outcome.Configured? ==> r.outcome.setup.exporter.Jaeger?
    ensures r.outcome.Configured? ==>
      r.outcome.setup.sampler == Sampling.MkSampler(global.sampleProbability, global.sampleProbability)
    ensures forall c :: c in r.calls ==> !c.DialCollector? && !c.NewOtlpGrpcExporter? && !c.NewOtlpHttpExporter?
    ensures !r.outcome.NoOp?
  {
    match JaegerEndpointFor(global.jaeger, env)
    case Failure(e) => InitRun(Failed(e), [])
    case Success(endpoint) =>
      match env.newJaeger(endpoint)
      case FailedWith(cause) => InitRun(Failed(JaegerExporterFailed(cause)), [NewJaegerExporter(endpoint)])
      case Succeeded =>
        var svcName := Some(global.serviceName.GetOr(global.jaeger.serviceName));
        After([NewJaegerExporter(endpoint)], ConfigureOtel(global, svcName, Jaeger(endpoint), env))
  }

  /**
   * `configureOTLP`, reading the package-level configuration. The package dials the collector
   * itself only on `grpc`; on `http` it calls the exporter constructor directly, and whatever
   * connection that constructor opens is inside the `newOtlpHttp` oracle.
   */
  function ConfigureOtlp(global: Conf, env: Env): (r: InitRun)
    ensures global.otlp.protocol != "grpc" && global.otlp.protocol != "http" ==>
      r == InitRun(Failed(UnknownOtlpProtocol(global.otlp.protocol)), [])
    ensures global.otlp.protocol == "grpc" ==>
      && |r.calls| > 0 && r.calls[0] == DialCollector(global.otlp.collectorEndpoint)
      && (r.outcome.Configured? ==> r.outcome.setup.exporter == OtlpGrpc(global.otlp.collectorEndpoint))
    ensures global.otlp.protocol == "http" ==>
      && |r.calls| > 0 && r.calls[0] == NewOtlpHttpExporter(global.otlp.collectorEndpoint)
      && (forall c :: c in r.calls ==> !c.DialCollector?)
      && (r.outcome.Configured? ==> r.outcome.setup.exporter == OtlpHttp(global.otlp.collectorEndpoint))
    ensures global.otlp.protocol == "grpc" ==>
      var target := global.otlp.collectorEndpoint;
      match env.dial(target)
      case FailedWith(cause) => r == InitRun(Failed(DialFailed(cause)), [DialCollector(target)])
      case Succeeded =>
        match env.newOtlpGrpc(target)
        case FailedWith(cause) =>
          r == InitRun(Failed(OtlpExporterFailed(cause)), [DialCollector(target), NewOtlpGrpcExporter(target)])
        case Succeeded =>
          r == After([DialCollector(target), NewOtlpGrpcExporter(target)],
                     ConfigureOtel(global, global.serviceName, OtlpGrpc(target), env))
    ensures global.otlp.protocol == "http" ==>
      var target := global.otlp.collectorEndpoint;
      match env.newOtlpHttp(target)
      case FailedWith(cause) => r == InitRun(Failed(OtlpExporterFailed(cause)), [NewOtlpHttpExporter(target)])
      case Succeeded =>
        r == After([NewOtlpHttpExporter(target)], ConfigureOtel(global, global.serviceName, OtlpHttp(target), env))
    ensures r.outcome.Configured? <==>
      && (|| (global.otlp.protocol == "grpc"
              && env.dial(global.otlp.collectorEndpoint).Succeeded?
              && env.newOtlpGrpc(global.otlp.collectorEndpoint).Succeeded?)
          || (global.otlp.protocol == "http" && env.newOtlpHttp(global.otlp.collectorEndpoint).Succeeded?))
      && env.newResource(global.serviceName.GetOr(env.appName)).Succeeded?
    ensures r.outcome.Configured? ==> r.outcome.setup.serviceName == global.serviceName.GetOr(env.appName)
    ensures r.outcome.Configured? ==>
      r.outcome.setup.sampler == Sampling.MkSampler(global.sampleProbability, global.sampleProbability)
    ensures forall c :: c in r.calls ==> !c.NewJaegerExporter?
    ensures !r.outcome.NoOp?
  {
    var target := global.otlp.collectorEndpoint;
    if global.otlp.protocol == "grpc" then
      match env.dial(target)
      case FailedWith(cause) => InitRun(Failed(DialFailed(cause)), [DialCollector(target)])
      case Succeeded =>
        match env.newOtlpGrpc(target)
        case FailedWith(cause) =>
          InitRun(Failed(OtlpExporterFailed(cause)), [DialCollector(target), NewOtlpGrpcExporter(target)])
        case Succeeded =>
          After([DialCollector(target), NewOtlpGrpcExporter(target)], ConfigureOtel(global, global.serviceName, OtlpGrpc(target), env))
    else if global.otlp.protocol == "http" then
      match env.newOtlpHttp(target)
      case FailedWith(cause) => InitRun(Failed(OtlpExporterFailed(cause)), [NewOtlpHttpExporter(target)])
      case Succeeded =>
        After([NewOtlpHttpExporter(target)], ConfigureOtel(global, global.serviceName, OtlpHttp(target), env))
    else
      InitRun(Failed(UnknownOtlpProtocol(global.otlp.protocol)), [])
  }

  /** `InitFromConf`: the switch reads the argument, the configuration steps read `global`. */
  function InitFromConf(arg: Conf, global: Conf, env: Env): (r: InitRun)
    ensures arg.exporter == "" <==> r.outcome == NoOp
    ensures arg.exporter == "" ==> r.calls == []
    ensures arg.exporter != "" && arg.exporter != JAEGER_EXPORTER && arg.exporter != OTLP_EXPORTER <==>
      r.outcome == Failed(UnknownExporter(arg.exporter))
    ensures r.outcome.Failed? && r.outcome.error.UnknownExporter? ==> r.calls == []
    ensures arg.exporter == JAEGER_EXPORTER ==> r == ConfigureJaeger(global, env)
    ensures arg.exporter == OTLP_EXPORTER ==> r == ConfigureOtlp(global, env)
    ensures r.outcome.Configured? ==> (r.outcome.setup.exporter.Jaeger? <==> arg.exporter == JAEGER_EXPORTER)
  {
    if arg.exporter == JAEGER_EXPORTER then
      ConfigureJaeger(global, env)
    else if arg.exporter == OTLP_EXPORTER then
      ConfigureOtlp(global, env)
    else if arg.exporter == "" then
      InitRun(NoOp, [])
    else
      InitRun(Failed(UnknownExporter(arg.exporter)), [])
  }
}

/** Properties of the initialisation path that span several of its steps. */
module ExporterProperties {
  import opened Wrappers
  import Sampling
  import opened Exporters

  /** A configuration error (unknown exporter, malformed agent endpoint, unknown OTLP protocol) is reported before any dial or constructor runs. */
  lemma ConfigErrorsPrecedeExternalCalls(arg: Conf, global: Conf, env: Env)
    ensures var r := InitFromConf(arg, global, env);
      r.outcome.Failed? && IsConfigError(r.outcome.error) ==> r.calls == []
  {
  }

  /** A set Jaeger agent endpoint is never replaced by the collector endpoint, whether or not it splits. */
  lemma AgentEndpointNeverFallsBack(global: Conf, env: Env)
    requires global.jaeger.agentEndpoint != ""
    ensures var r := ConfigureJaeger(global, env);
      && (forall c :: c in r.calls && c.NewJaegerExporter? ==> c.endpoint.Agent?)
      && (r.outcome.Configured? ==> r.outcome.setup.exporter.endpoint.Agent?)
  {
  }

  /** Of its argument, `InitFromConf` reads only the exporter field. */
  lemma OnlyExporterOfArgumentMatters(arg1: Conf, arg2: Conf, global: Conf, env: Env)
    requires arg1.exporter == arg2.exporter
    ensures InitFromConf(arg1, global, env) == InitFromConf(arg2, global, env)
  {
  }

  /**
   * The sampler a successful initialisation installs follows the package-level probability, not
   * the argument's: probability 0 drops every span, otherwise suppressed names are dropped and all
   * other names get the ratio sampler's answer for that probability.
   */
  lemma InstalledSamplerPolicy(arg: Conf, global: Conf, env: Env, params: Sampling.SamplingParams, ratio: Sampling.RatioSampler)
    requires InitFromConf(arg, global, env).outcome.Configured?
    ensures var s := InitFromConf(arg, global, env).outcome.setup.sampler;
      && (global.sampleProbability == 0.0 || Sampling.Suppressed(params.name) ==> Sampling.Decide(s, params, ratio).decision == Sampling.Drop)
      && (global.sampleProbability != 0.0 && !Sampling.Suppressed(params.name) ==>
            Sampling.Decide(s, params, ratio) == ratio(global.sampleProbability, params))
  {
  }
}
