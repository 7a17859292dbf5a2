/**
 * The duration of a call: both timestamps are normalised (every 'Z' becomes
 * "+00:00") and handed to an ISO-8601 parser, and the result is end minus
 * start in seconds. The parser itself is a parameter: `parse(s)` is the
 * instant `s` denotes, in seconds, or `None` where the library raises
 * ValueError.
 */
module Duration {
  import opened Wrappers
  import opened Sequences

  const UtcOffset: string := "+00:00"

  /** `s.replace('Z', '+00:00')`: every occurrence of 'Z' is rewritten. */
  function NormalizeZ(s: string): (r: string)
    ensures 'Z' !in r
    ensures |r| >= |s|
  {
    if s == [] then []
    else (if s[0] == 'Z' then UtcOffset else [s[0]]) + NormalizeZ(s[1..])
  }

  /** Rewriting works character by character, so it distributes over concatenation. */
  lemma {:induction false} NormalizeZAppend(a: string, b: string)
    ensures NormalizeZ(a + b) == NormalizeZ(a) + NormalizeZ(b)
  {
    if a == [] {
      assert a + b == b;
    } else {
      var head := if a[0] == 'Z' then UtcOffset else [a[0]];
      assert (a + b)[0] == a[0];
      assert (a + b)[1..] == a[1..] + b;
      NormalizeZAppend(a[1..], b);
      Associative(head, NormalizeZ(a[1..]), NormalizeZ(b));
    }
  }

  /** A string without 'Z' is left as it is; in particular the rewrite is idempotent. */
  lemma {:induction false} NormalizeZWithoutZ(s: string)
    requires 'Z' !in s
    ensures NormalizeZ(s) == s
  {
    if s != [] {
      assert 'Z' !in s[1..] by {
        forall k | 0 <= k < |s[1..]| ensures s[1..][k] != 'Z' {
          assert s[1..][k] == s[k + 1];
        }
      }
      NormalizeZWithoutZ(s[1..]);
    }
  }

  lemma NormalizeZIdempotent(s: string)
    ensures NormalizeZ(NormalizeZ(s)) == NormalizeZ(s)
  {
    NormalizeZWithoutZ(NormalizeZ(s));
  }

  /** A trailing 'Z' is read as the UTC offset "+00:00". */
  lemma TrailingZIsUtc(s: string)
    ensures NormalizeZ(s + "Z") == NormalizeZ(s) + UtcOffset
  {
    NormalizeZAppend(s, "Z");
    assert NormalizeZ("Z") == UtcOffset + NormalizeZ([]);
  }

  /**
   * `calculate_duration`: `None` when either timestamp fails to parse (the
   * ValueError that `filter_calls` catches), otherwise end minus start.
   */
  function CalculateDuration(parse: string -> Option<real>, startTime: string, endTime: string): (r: Option<real>)
    ensures r.Some? <==> parse(NormalizeZ(startTime)).Some? && parse(NormalizeZ(endTime)).Some?
    ensures r.Some? ==> parse(NormalizeZ(startTime)).value + r.value == parse(NormalizeZ(endTime)).value
  {
    match (parse(NormalizeZ(startTime)), parse(NormalizeZ(endTime)))
    case (Some(start), Some(end)) => Some(end - start)
    case _ => None
  }

  /** A trailing 'Z' and an explicit "+00:00" normalise to the same text. */
  lemma ZuluNormalizesAsOffset(s: string)
    ensures NormalizeZ(s + "Z") == NormalizeZ(s + UtcOffset)
  {
    TrailingZIsUtc(s);
    NormalizeZAppend(s, UtcOffset);
    NormalizeZWithoutZ(UtcOffset);
  }

  /** Writing a trailing 'Z' or an explicit "+00:00" gives the same duration, whatever the parser. */
  lemma ZuluMeansUtc(parse: string -> Option<real>, s: string, e: string)
    ensures CalculateDuration(parse, s + "Z", e) == CalculateDuration(parse, s + UtcOffset, e)
    ensures CalculateDuration(parse, s, e + "Z") == CalculateDuration(parse, s, e + UtcOffset)
  {
    ZuluNormalizesAsOffset(s);
    ZuluNormalizesAsOffset(e);
  }
}
