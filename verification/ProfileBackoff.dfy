/** The retry cooldown shared by the event loader and the profile coordinator. */
module ProfileBackoff {
  import opened Doubling

  const RETRY_BASE_MS := 30_000
  const RETRY_MAX_MS := 300_000
  const RETRY_MAX_ATTEMPTS := 6
  const RETRY_BUCKET_MS := 30_000

  datatype FailedFetch = FailedFetch(attempts: nat, nextRetryAt: int)

  function Min(a: int, b: int): int { if a < b then a else b }

  /** Round up to a multiple of the bucket. */
  function RoundUp(t: int, bucket: int): (r: int)
    requires bucket > 0
    ensures t <= r < t + bucket
  {
    var last := t + bucket - 1;
    last - last % bucket
  }

  /** The cooldown after the given attempt: 30 s, 1 m, 2 m, 4 m, then 5 m for good. */
  function Cooldown(attempts: nat): int
    requires attempts > 0
  {
    Min(RETRY_BASE_MS * Pow2(attempts - 1), RETRY_MAX_MS)
  }

  function Attempts<K>(failures: map<K, FailedFetch>, key: K): nat {
    if key in failures then failures[key].attempts else 0
  }

  function Failure(attempts: nat, now: int): FailedFetch {
    FailedFetch(attempts + 1, RoundUp(now + Cooldown(attempts + 1), RETRY_BUCKET_MS))
  }

  /** The ledger after one more failed fetch of key. */
  function Recorded<K>(failures: map<K, FailedFetch>, key: K, now: int): map<K, FailedFetch> {
    failures[key := Failure(Attempts(failures, key), now)]
  }

  method RecordFailedProfileFetch<K(==)>(failures: map<K, FailedFetch>, key: K, now: int)
    returns (after: map<K, FailedFetch>)
    ensures after == Recorded(failures, key, now)
  {
    var attempts := (if key in failures then failures[key].attempts else 0) + 1;
    var delay := Min(RETRY_BASE_MS * Pow2(attempts - 1), RETRY_MAX_MS);
    var due := now + delay + RETRY_BUCKET_MS - 1;
    after := failures[key := FailedFetch(attempts, due - due % RETRY_BUCKET_MS)];
  }

  predicate Exhausted(f: FailedFetch) { f.attempts >= RETRY_MAX_ATTEMPTS }

  lemma {:induction false} CooldownLadder(attempts: nat)
    requires attempts > 0
    ensures RETRY_BASE_MS <= Cooldown(attempts) <= RETRY_MAX_MS
    ensures attempts >= 5 ==> Cooldown(attempts) == RETRY_MAX_MS
    ensures attempts <= 4 ==> Cooldown(attempts) == RETRY_BASE_MS * Pow2(attempts - 1) < RETRY_MAX_MS
    ensures Cooldown(attempts) <= Cooldown(attempts + 1)
  {
    SmallPowers();
    if attempts > 5 { CooldownLadder(attempts - 1); }
  }

  /** A miss is never terminal and never retried early: its next attempt lies at least the cooldown
      away, and never more than five and a half minutes. */
  lemma RetryWindow(attempts: nat, now: int)
    ensures now + Cooldown(attempts + 1) <= Failure(attempts, now).nextRetryAt
    ensures Failure(attempts, now).nextRetryAt < now + Cooldown(attempts + 1) + RETRY_BUCKET_MS
    ensures Failure(attempts, now).nextRetryAt < now + RETRY_MAX_MS + RETRY_BUCKET_MS
    ensures Failure(attempts, now).nextRetryAt % RETRY_BUCKET_MS == 0
  {
    CooldownLadder(attempts + 1);
  }
}
