/**
 * The transcript normaliser shared by the upload and atomise routes: one
 * prompt built from the (possibly truncated) raw text, at most two model
 * calls, and a fallback that wraps the raw text instead of raising.
 */
module SharedUtils {
  import opened Text
  import opened Llm

  const MaxRawLength: nat := 50000
  const TruncationNote: string := "\n\n[... text truncated due to length ...]"
  const FailureBanner: string := "[Normalization failed - returning raw text]\n\n"

  /** The text placed in the prompt: raw text longer than 50000 characters is cut and marked. */
  function PromptText(raw: string): (t: string)
    ensures |raw| <= MaxRawLength ==> t == raw
    ensures |raw| > MaxRawLength ==> |t| == MaxRawLength + |TruncationNote|
    ensures |raw| > MaxRawLength ==> StartsWith(t, raw[..MaxRawLength]) && EndsWith(t, TruncationNote)
  {
    if |raw| > MaxRawLength then raw[..MaxRawLength] + TruncationNote else raw
  }

  /** An attempt succeeds when the stripped answer is longer than ten characters. */
  predicate Accepted(reply: Reply)
  {
    reply.Answer? && |Strip(reply.text)| > 10
  }

  /**
   * What `run_llm_normalizer` promises about a run that made `calls` model
   * calls `oracle(start + k, PromptText(raw))`: one or two calls, every call
   * but the last rejected, a single call only when it was accepted, and the
   * result the stripped answer of the last call when that one was accepted,
   * the failure banner followed by the prompt text otherwise.
   */
  predicate IsNormalization(raw: string, oracle: Oracle, start: nat, result: string, calls: nat)
  {
    && 1 <= calls <= 2
    && (forall c :: start <= c < start + calls - 1 ==> !Accepted(oracle(c, PromptText(raw))))
    && (calls == 1 ==> Accepted(oracle(start, PromptText(raw))))
    && (Accepted(oracle(start + calls - 1, PromptText(raw))) ==>
          result == Strip(oracle(start + calls - 1, PromptText(raw)).text))
    && (!Accepted(oracle(start + calls - 1, PromptText(raw))) ==>
          result == FailureBanner + PromptText(raw))
  }

  /** `run_llm_normalizer`: the model calls are `oracle(start + k, PromptText(raw))`. */
  method RunNormalizer(raw: string, oracle: Oracle, start: nat) returns (result: string, calls: nat)
    ensures IsNormalization(raw, oracle, start, result, calls)
  {
    var text := raw;
    if |text| > MaxRawLength {
      text := text[..MaxRawLength] + TruncationNote;
    }
    calls := 0;
    while calls < 2
      invariant calls <= 2
      invariant text == PromptText(raw)
      invariant forall c :: start <= c < start + calls ==> !Accepted(oracle(c, text))
    {
      var reply := oracle(start + calls, text);
      calls := calls + 1;
      if reply.Answer? {
        var stripped := Strip(reply.text);
        if stripped != [] && |stripped| > 10 {
          return stripped, calls;
        }
      }
    }
    result := FailureBanner + text;
  }
}
