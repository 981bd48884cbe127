/** The capped exponential delay before a retry counts as due. */
module RetryDelay {
  import opened Common

  datatype Strategy = Fixed | Exponential

  datatype DelaySettings = DelaySettings(strategy: Strategy, delay: int, maximum: int)

  /** The constructor of the policy rejects negative delays and a maximum below the delay. */
  type DelayPolicy = p: DelaySettings | 0 <= p.delay <= p.maximum
    witness DelaySettings(Fixed, 0, 0)

  const TICKS_PER_SECOND := 1_000_000

  function Pow2(n: nat): (r: nat)
    ensures r >= 1
  {
    if n == 0 then 1 else 2 * Pow2(n - 1)
  }

  function Min(a: int, b: int): int {
    if a <= b then a else b
  }

  function DelaySeconds(p: DelayPolicy, attempts: nat): int {
    var multiplier := if p.strategy == Fixed then 1 else Pow2(if attempts >= 1 then attempts - 1 else 0);
    Min(p.delay * multiplier, p.maximum)
  }

  function NextRetryAt(p: DelayPolicy, failedAt: Option<Time>, attempts: nat): Option<Time> {
    if failedAt.None? then None
    else Some(failedAt.value + DelaySeconds(p, attempts) * TICKS_PER_SECOND)
  }

  /** The same delays as a process: start at the delay, double after each failure, stop at the cap. */
  function Backoff(p: DelayPolicy, attempts: nat): int {
    if attempts <= 1 then p.delay else Min(2 * Backoff(p, attempts - 1), p.maximum)
  }

  lemma {:induction false} ExponentialIsBackoff(p: DelayPolicy, attempts: nat)
    requires p.strategy == Exponential
    ensures DelaySeconds(p, attempts) == Backoff(p, attempts)
  {
    if attempts > 1 {
      ExponentialIsBackoff(p, attempts - 1);
      var before := p.delay * Pow2(attempts - 2);
      assert Pow2(attempts - 1) == 2 * Pow2(attempts - 2);
      assert p.delay * Pow2(attempts - 1) == 2 * before;
    } else {
      assert p.delay * Pow2(0) == p.delay;
    }
  }

  lemma {:induction false} BackoffGrows(p: DelayPolicy, few: nat, many: nat)
    requires few <= many
    ensures p.delay <= Backoff(p, few) <= Backoff(p, many) <= p.maximum
    ensures Backoff(p, few) == p.maximum ==> Backoff(p, many) == p.maximum
  {
    if many > 1 {
      BackoffGrows(p, if few < many then few else many - 1, many - 1);
    }
  }

  /** For either strategy the delay stays between delay and cap, never shrinks with further
      attempts, and once at the cap remains there. */
  lemma DelayIsMonotone(p: DelayPolicy, few: nat, many: nat)
    requires few <= many
    ensures p.delay <= DelaySeconds(p, few) <= DelaySeconds(p, many) <= p.maximum
    ensures DelaySeconds(p, few) == p.maximum ==> DelaySeconds(p, many) == p.maximum
  {
    if p.strategy == Exponential {
      ExponentialIsBackoff(p, few);
      ExponentialIsBackoff(p, many);
      BackoffGrows(p, few, many);
    } else {
      assert p.delay * 1 == p.delay;
    }
  }

  /** The next retry is due after the fixed delay, or after the doubled and capped one, counted in
      seconds from the failure; before any failure there is none. */
  lemma NextRetryTime(p: DelayPolicy, failedAt: Option<Time>, attempts: nat)
    ensures NextRetryAt(p, failedAt, attempts).None? <==> failedAt.None?
    ensures failedAt.Some? && p.strategy == Fixed ==>
      NextRetryAt(p, failedAt, attempts) == Some(failedAt.value + 1_000_000 * p.delay)
    ensures failedAt.Some? && p.strategy == Exponential ==>
      NextRetryAt(p, failedAt, attempts) == Some(failedAt.value + 1_000_000 * Backoff(p, attempts))
  {
    if p.strategy == Exponential {
      ExponentialIsBackoff(p, attempts);
    } else {
      assert p.delay * 1 == p.delay;
    }
  }
}
