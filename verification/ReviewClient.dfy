/** The model client's bounded retry loop: which answer of the model, if any, becomes the review. */
module ReviewClient {
  import opened Text
  import opened Records
  import opened UnifiedDiff
  import opened DiffConservation

  /** One attempt, as the client sees it: a refusal that no retry can change, a failure worth retrying
      (a timeout, a transport error, an unusable body), an error outside both lists, or a well-formed review. */
  datatype Reply = Refused | Transient | Unexpected | Answer(findings: seq<Finding>)

  datatype Reviewed =
    | Accepted(findings: seq<Finding>)
    | TooLong
    | BadDiff(error: DiffError)
    | Rejected
    | Exhausted
    | Escaped

  datatype Config = Config(maxDiffBytes: nat, maxContextBytes: nat, maxAttempts: nat)

  /** The attempt is followed by another one, if any is left. */
  predicate Retryable(added: AddedLines, reply: Reply) {
    reply.Transient? || (reply.Answer? && !ValidResult(added, reply.findings))
  }

  /** What a decisive attempt makes of the review. */
  function Verdict(reply: Reply): Reviewed
    requires !reply.Transient?
  {
    match reply
    case Answer(findings) => Accepted(findings)
    case Refused => Rejected
    case Unexpected => Escaped
  }

  /** Another attempt may help: the reply failed in a way that may pass, or has a finding that is on no added line. */
  ghost predicate Indecisive(diff: string, reply: Reply) {
    reply == Transient || (reply.Answer? && !OnAddedLines(diff, reply.findings))
  }

  lemma RetryableExactly(diff: string, reply: Reply)
    requires Parse(SplitLines(diff)).Ok?
    ensures Retryable(Parse(SplitLines(diff)).value, reply) <==> Indecisive(diff, reply)
  {
    if reply.Answer? { ValidExactly(diff, reply.findings); }
    hide Parse, SplitLines, ValidResult, OnAddedLines;
  }

  /** The model is asked at most `maxAttempts` times and never again after its first decisive reply; an
      accepted review puts every finding on an added line; pauses are counted in base delays. */
  method Review(diff: string, context: string, config: Config, replies: nat -> Reply)
    returns (r: Reviewed, calls: nat, pauses: nat)
    ensures calls <= config.maxAttempts
    ensures Utf8Length(diff) > config.maxDiffBytes || Utf8Length(context) > config.maxContextBytes <==> r == TooLong
    ensures r.TooLong? ==> calls == 0
    ensures !r.TooLong? ==> (r.BadDiff? <==> Parse(SplitLines(diff)).Err?)
    ensures r.BadDiff? ==> r.error == Parse(SplitLines(diff)).error && calls == 0
    ensures !r.TooLong? && !r.BadDiff? ==>
              && (forall a :: 0 <= a < calls - 1 ==> Indecisive(diff, replies(a)))
              && (r == Exhausted ==> calls == config.maxAttempts && forall a :: 0 <= a < calls ==> Indecisive(diff, replies(a)))
              && (r != Exhausted ==> calls > 0 && !Indecisive(diff, replies(calls - 1)))
              && (r.Accepted? ==> replies(calls - 1) == Answer(r.findings) && OnAddedLines(diff, r.findings))
              && (r == Rejected ==> replies(calls - 1) == Refused)
              && (r == Escaped ==> replies(calls - 1) == Unexpected)
    ensures pauses == if calls == 0 then 0 else Power2(calls - 1) - 1
  {
    calls, pauses := 0, 0;
    if Utf8Length(diff) > config.maxDiffBytes || Utf8Length(context) > config.maxContextBytes {
      return TooLong, calls, pauses;
    }
    var parsed := ParseUnifiedDiff(diff);
    if parsed.Err? {
      return BadDiff(parsed.error), calls, pauses;
    }
    var added := parsed.value;
    hide Parse, SplitLines, ValidResult, OnAddedLines;
    for attempt := 0 to config.maxAttempts
      invariant calls == attempt
      invariant forall a :: 0 <= a < attempt ==> Indecisive(diff, replies(a))
      invariant pauses == if attempt == 0 then 0 else if attempt < config.maxAttempts then Power2(attempt) - 1 else Power2(attempt - 1) - 1
    {
      var reply := replies(attempt);
      calls := calls + 1;
      RetryableExactly(diff, reply);
      if !Retryable(added, reply) {
        return Verdict(reply), calls, pauses;
      }
      if attempt + 1 < config.maxAttempts {
        pauses := pauses + Power2(attempt);
      }
    }
    r := Exhausted;
  }
}
