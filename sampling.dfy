/**
 * The sampling policy of the tracing package: the package's own `sampler` type, which drops spans
 * whose names start with one of three fixed prefixes and hands every other decision to a delegate,
 * and `mkSampler`, which picks never-sample for a probability of exactly 0 and otherwise wraps a
 * parent-based ratio sampler.
 *
 * The ratio sampler itself (OpenTelemetry's `ParentBased(TraceIDRatioBased(p))`) is library code;
 * it is given to every decision as the uninterpreted parameter `ratio`.
 */
module Sampling {
  import opened Wrappers
  import Strings

  /** OpenTelemetry's sampling decision. */
  datatype Decision = Drop | RecordOnly | RecordAndSample

  type KeyValue = (string, string)

  datatype SpanKind = Unspecified | Internal | Server | Client | Producer | Consumer

  /** The span context found in the parent context, when there is one. */
  datatype SpanContext = SpanContext(traceId: seq<bv8>, spanId: seq<bv8>, sampled: bool, remote: bool, traceState: seq<KeyValue>)

  /** What a sampler is asked about a span that is about to start. */
  datatype SamplingParams = SamplingParams(
    parent: Option<SpanContext>,
    traceId: seq<bv8>,
    name: string,
    kind: SpanKind,
    attributes: seq<KeyValue>)

  /** A sampler's answer: the decision, attributes to add, and the trace state to carry on. */
  datatype SamplingResult = SamplingResult(decision: Decision, attributes: seq<KeyValue>, traceState: seq<KeyValue>)

  /** The parent-based ratio sampler of the library, for a given fraction. */
  type RatioSampler = (real, SamplingParams) -> SamplingResult

  /** The samplers the package builds. */
  datatype Sampler =
    | NeverSample                       // the library's never-sample sampler
    | ParentBasedRatio(fraction: real)  // parent-based, ratio-based on the trace id for root spans
    | Cerbos(delegate: Sampler)         // the package's prefix-rule wrapper

  /** The span-name prefixes whose spans the wrapper always drops, in the order it tests them. */
  const SUPPRESSED_PREFIXES: seq<string> := ["grpc.", "cerbos.svc.v1.CerbosPlaygroundService.", "/api/playground/"]

  /** The wrapper's own answer for a suppressed name: a bare drop, with no attributes and no trace state. */
  const DROP_RESULT := SamplingResult(Drop, [], [])

  /** Reference definition of the rule list: the name starts with one of the suppressed prefixes. */
  predicate Suppressed(name: string) {
    exists i :: 0 <= i < |SUPPRESSED_PREFIXES| && Strings.HasPrefix(name, SUPPRESSED_PREFIXES[i])
  }

  /** The rule list spelled out, prefix by prefix. */
  lemma SuppressedIff(name: string)
    ensures Suppressed(name) <==>
      Strings.HasPrefix(name, "grpc.") ||
      Strings.HasPrefix(name, "cerbos.svc.v1.CerbosPlaygroundService.") ||
      Strings.HasPrefix(name, "/api/playground/")
  {
    if Strings.HasPrefix(name, "grpc.") {
      assert Strings.HasPrefix(name, SUPPRESSED_PREFIXES[0]);
    } else if Strings.HasPrefix(name, "cerbos.svc.v1.CerbosPlaygroundService.") {
      assert Strings.HasPrefix(name, SUPPRESSED_PREFIXES[1]);
    } else if Strings.HasPrefix(name, "/api/playground/") {
      assert Strings.HasPrefix(name, SUPPRESSED_PREFIXES[2]);
    }
  }

  /** Trace state of the parent span, empty for a root span. */
  function ParentTraceState(params: SamplingParams): seq<KeyValue> {
    if params.parent.Some? then params.parent.value.traceState else []
  }

  /** What sampler `s` answers for `params`. */
  function Decide(s: Sampler, params: SamplingParams, ratio: RatioSampler): (r: SamplingResult)
    ensures s.NeverSample? ==> r == SamplingResult(Drop, [], ParentTraceState(params))
    ensures s.Cerbos? && Suppressed(params.name) ==> r == DROP_RESULT
    ensures s.Cerbos? && !Suppressed(params.name) ==> r == Decide(s.delegate, params, ratio)
    decreases s, 0
  {
    match s
    case NeverSample => SamplingResult(Drop, [], ParentTraceState(params))
    case ParentBasedRatio(fraction) => ratio(fraction, params)
    case Cerbos(delegate) => ShouldSample(delegate, params, ratio)
  }

  /**
   * The wrapper's `ShouldSample`: a suppressed name is dropped without asking the delegate;
   * every other name gets exactly the delegate's result.
   */
  function ShouldSample(delegate: Sampler, params: SamplingParams, ratio: RatioSampler): (r: SamplingResult)
    ensures Suppressed(params.name) ==> r == DROP_RESULT
    ensures !Suppressed(params.name) ==> r == Decide(delegate, params, ratio)
    decreases delegate, 1
  {
    SuppressedIff(params.name);
    if Strings.HasPrefix(params.name, "grpc.") then
      DROP_RESULT
    else if Strings.HasPrefix(params.name, "cerbos.svc.v1.CerbosPlaygroundService.") then
      DROP_RESULT
    else if Strings.HasPrefix(params.name, "/api/playground/") then
      DROP_RESULT
    else
      Decide(delegate, params, ratio)
  }

  /** A sampler's `Description`; the ratio sampler's text comes from the library. */
  function Description(s: Sampler, ratioDescription: real -> string): (d: string)
    ensures s.Cerbos? ==> d == "CerbosCustomSampler"
    ensures s.NeverSample? ==> d == "AlwaysOffSampler"
  {
    match s
    case NeverSample => "AlwaysOffSampler"
    case ParentBasedRatio(fraction) => ratioDescription(fraction)
    case Cerbos(_) => "CerbosCustomSampler"
  }

  /**
   * `mkSampler(probability)`: the zero test looks at the argument, while the ratio sampler is
   * built from the configured probability the package holds (`configured`).
   */
  function MkSampler(probability: real, configured: real): (s: Sampler)
    ensures probability == 0.0 ==>
      forall params: SamplingParams, ratio: RatioSampler :: Decide(s, params, ratio) == SamplingResult(Drop, [], ParentTraceState(params))
    ensures probability == 0.0 ==> forall ratioDescription :: Description(s, ratioDescription) == "AlwaysOffSampler"
    ensures forall params: SamplingParams, ratio: RatioSampler :: Suppressed(params.name) ==> Decide(s, params, ratio).decision == Drop
    ensures probability != 0.0 ==>
      forall params: SamplingParams, ratio: RatioSampler :: !Suppressed(params.name) ==> Decide(s, params, ratio) == ratio(configured, params)
    ensures probability != 0.0 ==> forall ratioDescription :: Description(s, ratioDescription) == "CerbosCustomSampler"
  {
    if probability == 0.0 then NeverSample else Cerbos(ParentBasedRatio(configured))
  }

  /** Suppression is closed under extension: every name that begins with a dropped name is dropped too. */
  lemma SuppressedExtends(name: string, suffix: string)
    requires Suppressed(name)
    ensures Suppressed(name + suffix)
  {
  }

  /** The three rules never overlap: no span name starts with two of the prefixes, so their order does not matter. */
  lemma PrefixesDisjoint(name: string, i: int, j: int)
    requires 0 <= i < |SUPPRESSED_PREFIXES| && 0 <= j < |SUPPRESSED_PREFIXES|
    requires Strings.HasPrefix(name, SUPPRESSED_PREFIXES[i]) && Strings.HasPrefix(name, SUPPRESSED_PREFIXES[j])
    ensures i == j
  {
    assert name[0] == SUPPRESSED_PREFIXES[i][0] == SUPPRESSED_PREFIXES[j][0];
  }

  /** Names the service produces: health checks and playground routes are dropped, API calls are not. */
  lemma ExampleNames()
    ensures Suppressed("grpc.health.v1.Health/Check")
    ensures Suppressed("/api/playground/validate")
    ensures !Suppressed("cerbos.svc.v1.CerbosService/CheckResources")
    ensures !Suppressed("/api/check/resources")
  {
    SuppressedIff("grpc.health.v1.Health/Check");
    assert Strings.HasPrefix("grpc.health.v1.Health/Check", "grpc.");
    SuppressedIff("/api/playground/validate");
    assert Strings.HasPrefix("/api/playground/validate", "/api/playground/");
    var api := "cerbos.svc.v1.CerbosService/CheckResources";
    SuppressedIff(api);
    assert api[0] != "grpc."[0] && api[20] != "cerbos.svc.v1.CerbosPlaygroundService."[20] && api[0] != "/api/playground/"[0];
    var route := "/api/check/resources";
    SuppressedIff(route);
    assert route[0] != "grpc."[0] && route[0] != "cerbos.svc.v1.CerbosPlaygroundService."[0] && route[5] != "/api/playground/"[5];
  }
}
