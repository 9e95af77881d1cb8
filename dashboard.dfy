/**
 * The dashboard summary endpoint: one model invocation, a single retry when the failure reads as
 * a rate limit, and a fixed fallback summary for every other failure. The model chain is an input,
 * indexed by the invocation number so that the two invocations may answer differently.
 */
module Dashboard {
  import opened Wrappers
  import opened Text

  datatype AISummary = AISummary(focus: string, opportunity: string, caution: string, action: string)

  /** What one `chain.ainvoke` produced: the parsed summary, or the text of the exception it raised. */
  datatype Attempt = Answered(summary: AISummary) | Raised(error: string)

  const ModelMissing: HttpError := HttpError(500, "AI model is not configured.")

  /** The summary returned when the model could not produce one. */
  const Fallback: AISummary := AISummary(
    "Maintain steady stock and monitor demand patterns across top categories.",
    "Capitalize on trending and weather-relevant products this week.",
    "Avoid overstocking slow-moving or seasonal items nearing demand decline.",
    "Review key listings and adjust pricing or bundles to improve visibility.")

  /** An exception text counts as a rate limit when it mentions `rate_limit` in any case, or `429`. */
  predicate IsRateLimit(error: string) {
    Contains(LowerAscii(error), "rate_limit") || Contains(error, "429")
  }

  /** Lower-casing twice is lower-casing once. */
  lemma LowerAsciiIdempotent(s: string)
    ensures LowerAscii(LowerAscii(s)) == LowerAscii(s)
  {
  }

  /** Lower-casing neither creates nor destroys an occurrence of `429`. */
  lemma DigitsSurviveLowering(s: string)
    ensures Contains(LowerAscii(s), "429") <==> Contains(s, "429")
  {
    var l := LowerAscii(s);
    if Contains(s, "429") {
      var i :| 0 <= i <= |s| - 3 && OccursAt(s, "429", i);
      assert s[i] == '4' && s[i + 1] == '2' && s[i + 2] == '9';
      assert l[i..i + 3] == "429";
      assert OccursAt(l, "429", i);
    }
    if Contains(l, "429") {
      var i :| 0 <= i <= |l| - 3 && OccursAt(l, "429", i);
      assert l[i] == '4' && l[i + 1] == '2' && l[i + 2] == '9';
      assert s[i..i + 3] == "429";
      assert OccursAt(s, "429", i);
    }
  }

  /** The rate-limit test does not depend on the letter case of the exception text. */
  lemma RateLimitIgnoresCase(error: string)
    ensures IsRateLimit(LowerAscii(error)) <==> IsRateLimit(error)
  {
    LowerAsciiIdempotent(error);
    DigitsSurviveLowering(error);
  }

  /** An HTTP 429 status in the text is recognised wherever it appears. */
  lemma StatusCodeIsRateLimit(prefix: string, suffix: string)
    ensures IsRateLimit(prefix + "429" + suffix)
  {
    var s := prefix + "429" + suffix;
    assert s[|prefix|..|prefix| + 3] == "429";
    assert OccursAt(s, "429", |prefix|);
  }

  /**
   * get_ai_dashboard_summary. `context` is what `get_rich_context` built from the products and the
   * pincode; `chain(n, input)` is what invocation `n` (0 or 1) did with `input`. `inputs` records
   * the input of every invocation, in order.
   */
  method GetSummary(modelConfigured: bool, context: string, chain: (nat, string) -> Attempt)
    returns (r: Result<AISummary, HttpError>, inputs: seq<string>)
    ensures !modelConfigured ==> r == Err(ModelMissing) && inputs == []
    ensures modelConfigured ==> r.Ok?
    ensures modelConfigured ==> 1 <= |inputs| <= 2 && forall i | 0 <= i < |inputs| :: inputs[i] == context
    ensures modelConfigured ==>
      (|inputs| == 2 <==> chain(0, context).Raised? && IsRateLimit(chain(0, context).error))
    ensures modelConfigured && chain(0, context).Answered? ==> r == Ok(chain(0, context).summary)
    ensures modelConfigured && |inputs| == 2 && chain(1, context).Answered? ==> r == Ok(chain(1, context).summary)
    ensures modelConfigured && chain(0, context).Raised? && !(|inputs| == 2 && chain(1, context).Answered?) ==>
      r == Ok(Fallback)
  {
    inputs := [];
    if !modelConfigured {
      return Err(ModelMissing), inputs;
    }
    var first := chain(0, context);
    inputs := inputs + [context];
    if first.Answered? {
      return Ok(first.summary), inputs;
    }
    var errText := first.error;
    if Contains(LowerAscii(errText), "rate_limit") || Contains(errText, "429") {
      var second := chain(1, context);
      inputs := inputs + [context];
      if second.Answered? {
        return Ok(second.summary), inputs;
      }
    }
    return Ok(Fallback), inputs;
  }
}
