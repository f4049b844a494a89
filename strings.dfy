/**
 * The two Go `strings` functions the tracing package relies on: `HasPrefix` for the sampler's
 * span-name rules and `Contains` (defined in Go as `Index(s, substr) >= 0`) for the error filter.
 * Strings are sequences of characters; every literal they are compared with is ASCII, so matching
 * characters and matching UTF-8 bytes give the same answers.
 */
module Strings {

  /** Go's `strings.HasPrefix`: `s` is at least as long as `prefix` and starts with it. */
  predicate HasPrefix(s: string, prefix: string) {
    |prefix| <= |s| && s[..|prefix|] == prefix
  }

  /** A prefix is exactly a piece that `s` can be split into, followed by some rest. */
  lemma HasPrefixIffSplits(s: string, prefix: string)
    ensures HasPrefix(s, prefix) <==> exists rest :: s == prefix + rest
  {
    if HasPrefix(s, prefix) {
      assert s == prefix + s[|prefix|..];
    }
    forall rest | s == prefix + rest
      ensures HasPrefix(s, prefix)
    {
      assert s[..|prefix|] == prefix;
    }
  }

  /** `sub` occurs in `s` starting at position `i`. */
  predicate OccursAt(s: string, sub: string, i: int) {
    0 <= i && i + |sub| <= |s| && s[i..i + |sub|] == sub
  }

  /** Occurrences in `s` from position 1 on are the occurrences in `s[1..]`, shifted by one. */
  lemma OccursAtShift(s: string, sub: string, i: int)
    requires |s| > 0 && i >= 1
    ensures OccursAt(s, sub, i) <==> OccursAt(s[1..], sub, i - 1)
  {
  }

  /**
   * Go's `strings.Index`: the first position at which `sub` occurs in `s`, or -1 when it occurs
   * nowhere. The empty string occurs at position 0. Go counts bytes and this counts characters, so
   * the two positions differ on non-ASCII text; only `Contains` uses the result, and whether an
   * occurrence exists is the same under both counts.
   */
  function Index(s: string, sub: string): (r: int)
    ensures -1 <= r <= |s|
    ensures r >= 0 ==> OccursAt(s, sub, r)
    ensures r >= 0 ==> forall i :: 0 <= i < r ==> !OccursAt(s, sub, i)
    ensures r == -1 ==> forall i :: !OccursAt(s, sub, i)
    decreases |s|
  {
    if |s| < |sub| then
      -1
    else if HasPrefix(s, sub) then
      0
    else
      var k := Index(s[1..], sub);
      assert forall i :: 1 <= i ==> (OccursAt(s, sub, i) <==> OccursAt(s[1..], sub, i - 1)) by {
        forall i | 1 <= i {
          OccursAtShift(s, sub, i);
        }
      }
      if k < 0 then -1 else k + 1
  }

  /** Go's `strings.Contains`, written as Go writes it. */
  predicate Contains(s: string, sub: string) {
    Index(s, sub) >= 0
  }

  /** `Contains` holds exactly when `sub` occurs somewhere in `s`. */
  lemma ContainsIffOccurs(s: string, sub: string)
    ensures Contains(s, sub) <==> exists i :: OccursAt(s, sub, i)
  {
  }

  /** A string that occurs in `s` still occurs once text is put before and after `s`. */
  lemma ContainsSurvivesEmbedding(before: string, s: string, after: string, sub: string)
    requires Contains(s, sub)
    ensures Contains(before + s + after, sub)
  {
    var i := Index(s, sub);
    var w := before + s + after;
    assert w[|before| + i..|before| + i + |sub|] == s[i..i + |sub|];
    assert OccursAt(w, sub, |before| + i);
  }
}
