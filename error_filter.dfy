/**
 * The error handler installed next to the tracer provider: provider errors whose message contains
 * "unsupported sampler:" (emitted because the OpenCensus sampler is not recognised by the bridge)
 * are dropped silently; every other error is logged as a warning.
 */
module ErrorFilter {
  import Strings

  const UNSUPPORTED_SAMPLER := "unsupported sampler:"

  /** The one message family the handler treats as harmless. */
  predicate Benign(message: string) {
    Strings.Contains(message, UNSUPPORTED_SAMPLER)
  }

  /** The warnings the handler logs for one error message: none for a benign one, the message itself otherwise. */
  function Logged(message: string): (r: seq<string>)
    ensures r == [] <==> exists i :: Strings.OccursAt(message, UNSUPPORTED_SAMPLER, i)
    ensures r != [] ==> r == [message]
  {
    Strings.ContainsIffOccurs(message, UNSUPPORTED_SAMPLER);
    if Benign(message) then [] else [message]
  }

  /** Suppression survives Go's `fmt.Errorf("%s: %w", context, err)` wrapping, however deep. */
  lemma BenignSurvivesWrapping(context: string, message: string)
    requires Benign(message)
    ensures Benign(context + ": " + message)
  {
    Strings.ContainsSurvivesEmbedding(context + ": ", message, "", UNSUPPORTED_SAMPLER);
    assert context + ": " + message + "" == context + ": " + message;
  }

  /** A message that starts with the marker is dropped; one shorter than the marker is logged. */
  lemma ExampleMessages()
    ensures Logged("unsupported sampler: *trace.probabilitySampler") == []
    ensures Logged("export failed") == ["export failed"]
  {
    assert Strings.OccursAt("unsupported sampler: *trace.probabilitySampler", UNSUPPORTED_SAMPLER, 0);
  }
}
