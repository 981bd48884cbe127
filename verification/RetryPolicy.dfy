/** Eligibility of an explicit retry, and the delay before one is considered due. */
module RetryPolicy {
  import opened Common
  import opened OutboundModel

  datatype Denial =
    | MaximumAttemptsReached
    | CodeNotRetryable
    | ClassificationNotRetryable
    | ActionIsDelivered
    | ActionIsNotFailed
    | DelayNotElapsed

  /** `CodeRejected` is the exception raised for a stored failure code that is not a safe name. */
  datatype Eligibility = Allowed | Denied(reason: Denial) | CodeRejected

  datatype PolicySettings = PolicySettings(
    maximumAttempts: int, deniedCodes: set<string>, deniedClasses: set<FailureClass>)

  /** The constructor of the policy rejects every other maximum. */
  type Policy = p: PolicySettings | 1 <= p.maximumAttempts <= 100
    witness PolicySettings(3, {}, {})

  predicate IsSafeCode(s: string) {
    && 1 <= |s| <= 100
    && 'a' <= s[0] <= 'z'
    && forall i :: 1 <= i < |s| ==> 'a' <= s[i] <= 'z' || '0' <= s[i] <= '9' || s[i] == '_'
  }

  function NormalizeCode(s: string): Option<string> {
    var normalized := Lower(Strip(s));
    if IsSafeCode(normalized) then Some(normalized) else None
  }

  function Evaluate(p: Policy, attempts: nat, code: Option<string>, classification: Option<FailureClass>): Eligibility {
    if attempts >= p.maximumAttempts then Denied(MaximumAttemptsReached)
    else if code.Some? && NormalizeCode(code.value).None? then CodeRejected
    else if code.Some? && NormalizeCode(code.value).value in p.deniedCodes then Denied(CodeNotRetryable)
    else if classification.Some? && classification.value in p.deniedClasses then Denied(ClassificationNotRetryable)
    else Allowed
  }

  function EvaluateAction(p: Policy, a: Action, attempts: nat): Eligibility {
    if a.status == Delivered then Denied(ActionIsDelivered)
    else if a.status != Failed then Denied(ActionIsNotFailed)
    else Evaluate(p, attempts, a.failureCode, a.failureClass)
  }

  /** A failure code is accepted exactly when, trimmed and in lower case, it is a name of at most
      100 lower-case letters, digits and underscores that starts with a letter. */
  lemma SafeCodeIff(code: string, name: string)
    ensures NormalizeCode(code) == Some(name) <==>
      && name == Lower(Strip(code)) && 1 <= |name| <= 100
      && !('0' <= name[0] <= '9') && name[0] != '_'
      && forall k :: 0 <= k < |name| ==> 'a' <= name[k] <= 'z' || '0' <= name[k] <= '9' || name[k] == '_'
  {
    hide Lower, Strip;
  }
}
