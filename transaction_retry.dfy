/**
 * Sending a transaction, or running any operation, with retries and
 * exponential backoff. What each attempt yields is given as a function of
 * the attempt number, and the sleeps are recorded instead of taken.
 */
module TransactionRetry {
  import opened Wrappers
  import opened Text

  /** Caller options; an absent key keeps the default. */
  datatype RetryOptions = RetryOptions(
    maxRetries: Option<int>,
    initialDelay: Option<int>,
    maxDelay: Option<int>,
    backoffMultiplier: Option<int>)

  const NO_OPTIONS := RetryOptions(None, None, None, None)

  datatype Settings = Settings(maxRetries: int, initialDelay: int, maxDelay: int, backoffMultiplier: int)

  /** Three retries, one second first, ten seconds at most, doubling. */
  const DEFAULT_RETRY_OPTIONS := Settings(3, 1000, 10000, 2)

  /** The defaults, overridden key by key by whatever the caller passed. */
  function Merge(o: RetryOptions): (s: Settings)
    ensures o.maxRetries.Some? ==> s.maxRetries == o.maxRetries.value
    ensures o.maxRetries.None? ==> s.maxRetries == 3
    ensures o.initialDelay.Some? ==> s.initialDelay == o.initialDelay.value
    ensures o.initialDelay.None? ==> s.initialDelay == 1000
    ensures o.maxDelay.Some? ==> s.maxDelay == o.maxDelay.value
    ensures o.maxDelay.None? ==> s.maxDelay == 10000
    ensures o.backoffMultiplier.Some? ==> s.backoffMultiplier == o.backoffMultiplier.value
    ensures o.backoffMultiplier.None? ==> s.backoffMultiplier == 2
  {
    var d := DEFAULT_RETRY_OPTIONS;
    Settings(
      if o.maxRetries.Some? then o.maxRetries.value else d.maxRetries,
      if o.initialDelay.Some? then o.initialDelay.value else d.initialDelay,
      if o.maxDelay.Some? then o.maxDelay.value else d.maxDelay,
      if o.backoffMultiplier.Some? then o.backoffMultiplier.value else d.backoffMultiplier)
  }

  function Pow(b: int, e: nat): int {
    if e == 0 then 1 else b * Pow(b, e - 1)
  }

  /** The value of `delay` after `k` failed attempts: multiplied by the backoff factor each time. */
  function Delay(s: Settings, k: nat): int {
    if k == 0 then s.initialDelay else Delay(s, k - 1) * s.backoffMultiplier
  }

  /** The pause before retry `k + 1`: the delay so far, capped. */
  function Backoff(s: Settings, k: nat): int {
    Min(Delay(s, k), s.maxDelay)
  }

  /** The delay grows geometrically: `initialDelay · multiplier^k`. */
  lemma {:induction false} DelayIsGeometric(s: Settings, k: nat)
    ensures Delay(s, k) == s.initialDelay * Pow(s.backoffMultiplier, k)
  {
    if k > 0 {
      DelayIsGeometric(s, k - 1);
      var p := Pow(s.backoffMultiplier, k - 1);
      assert s.initialDelay * (s.backoffMultiplier * p) == (s.initialDelay * p) * s.backoffMultiplier;
    }
  }

  /** Decimal digits of a count, as template literals print it. */
  function NatToString(n: nat): (r: string)
    ensures |r| >= 1
    ensures forall i | 0 <= i < |r| :: '0' <= r[i] <= '9'
  {
    if n < 10 then [(48 + n) as char] else NatToString(n / 10) + [(48 + n % 10) as char]
  }

  // -------------------------------------------------------------------------
  // Which errors are not retried
  // -------------------------------------------------------------------------

  const NON_RETRYABLE_PATTERNS: seq<string> := [
    "insufficient funds",
    "insufficient balance",
    "account not found",
    "invalid signature",
    "already processed",
    "already claimed",
    "unauthorized",
    "access denied",
    "invalid instruction"
  ]

  function LowerChar(c: char): char {
    if 'A' <= c <= 'Z' then (c as int + 32) as char else c
  }

  function Lower(s: string): (r: string)
    ensures |r| == |s|
    ensures forall i | 0 <= i < |s| :: r[i] == LowerChar(s[i])
  {
    if s == [] then [] else [LowerChar(s[0])] + Lower(s[1..])
  }

  /** The lower-cased message contains one of the patterns. */
  predicate IsNonRetryable(message: string) {
    var m := Lower(message);
    exists j | 0 <= j < |NON_RETRYABLE_PATTERNS| :: Contains(m, NON_RETRYABLE_PATTERNS[j])
  }

  lemma {:induction false} LowerIdempotent(s: string)
    ensures Lower(Lower(s)) == Lower(s)
  {
    var l := Lower(s);
    var ll := Lower(l);
    assert forall i | 0 <= i < |s| :: ll[i] == LowerChar(LowerChar(s[i])) == l[i];
  }

  /** Classification ignores case. */
  lemma NonRetryableIgnoresCase(message: string)
    ensures IsNonRetryable(Lower(message)) == IsNonRetryable(message)
  {
    LowerIdempotent(message);
  }

  /** Containing a pattern anywhere, in any case, makes an error final. */
  lemma PatternMakesFinal(prefix: string, middle: string, suffix: string, j: nat)
    requires j < |NON_RETRYABLE_PATTERNS| && Lower(middle) == NON_RETRYABLE_PATTERNS[j]
    ensures IsNonRetryable(prefix + middle + suffix)
  {
    var p := NON_RETRYABLE_PATTERNS[j];
    var m := Lower(prefix + middle + suffix);
    assert forall i | 0 <= i < |middle| :: (prefix + middle + suffix)[|prefix| + i] == middle[i];
    assert m[|prefix|..|prefix| + |p|] == p;
    assert OccursAt(m, p, |prefix|);
    assert Contains(m, NON_RETRYABLE_PATTERNS[j]);
  }

  // -------------------------------------------------------------------------
  // The attempts
  // -------------------------------------------------------------------------

  /** What one call of the operation did: returned a value or threw an error with a message. */
  datatype Outcome<T> = Returned(value: T) | Threw(message: string)

  /** A sent transaction's signature and the error its confirmation reported, if any. */
  datatype Confirmation = Confirmation(signature: string, err: Option<string>)

  /** The error a send-and-confirm attempt ends in: a thrown one, or a failed confirmation. */
  function AttemptError(o: Outcome<Confirmation>): Option<string> {
    match o
    case Threw(m) => Some(m)
    case Returned(c) => if c.err.Some? then Some("Transaction failed: " + c.err.value) else None
  }

  predicate Retryable(o: Outcome<Confirmation>) {
    AttemptError(o).Some? && !IsNonRetryable(AttemptError(o).value)
  }

  /**
   * Send a transaction, retrying transient failures. `outcomeAt(k)` is what
   * attempt `k` yields; `attempts` counts the attempts made and `sleeps`
   * lists the pauses taken between them.
   */
  method SendTransactionWithRetry(retryOptions: RetryOptions, outcomeAt: nat -> Outcome<Confirmation>)
    returns (r: Result<string, string>, attempts: nat, sleeps: seq<int>)
    ensures var s := Merge(retryOptions);
            && (s.maxRetries < 0 ==> attempts == 0 && r == Err("Transaction failed"))
            && (s.maxRetries >= 0 ==> 1 <= attempts <= s.maxRetries + 1)
            && |sleeps| == (if attempts == 0 then 0 else attempts - 1)
            && (forall k | 0 <= k < |sleeps| :: sleeps[k] == Backoff(s, k))
            && (forall k | 0 <= k < |sleeps| :: Retryable(outcomeAt(k)))
    ensures attempts > 0 ==>
              var last := outcomeAt(attempts - 1);
              var s := Merge(retryOptions);
              && (AttemptError(last).None? ==> r == Ok(last.value.signature))
              && (AttemptError(last).Some? && IsNonRetryable(AttemptError(last).value) ==>
                    r == Err(AttemptError(last).value))
              && (Retryable(last) ==>
                    attempts == s.maxRetries + 1
                    && r == Err("Transaction failed after " + NatToString(s.maxRetries + 1)
                                + " attempts: " + AttemptError(last).value))
  {
    var options := Merge(retryOptions);
    var lastError: Option<string> := None;
    var delay := options.initialDelay;
    sleeps := [];
    attempts := 0;
    var attempt := 0;
    while attempt <= options.maxRetries
      invariant attempt == 0 || attempt <= options.maxRetries
      invariant attempts == attempt && |sleeps| == attempt
      invariant lastError.None? <==> attempt == 0
      invariant delay == Delay(options, attempt)
      invariant forall k | 0 <= k < attempt :: sleeps[k] == Backoff(options, k)
      invariant forall k | 0 <= k < attempt :: Retryable(outcomeAt(k))
      decreases options.maxRetries - attempt
    {
      attempts := attempt + 1;
      var outcome := outcomeAt(attempt);
      var error := AttemptError(outcome);
      if error.None? {
        return Ok(outcome.value.signature), attempts, sleeps;
      }
      lastError := error;
      if IsNonRetryable(error.value) {
        return Err(error.value), attempts, sleeps;
      }
      if attempt == options.maxRetries {
        return Err("Transaction failed after " + NatToString(options.maxRetries + 1) + " attempts: " + error.value),
               attempts, sleeps;
      }
      sleeps := sleeps + [Min(delay, options.maxDelay)];
      delay := delay * options.backoffMultiplier;
      attempt := attempt + 1;
    }
    r := Err(if lastError.Some? then lastError.value else "Transaction failed");
  }

  /**
   * Run any operation with retries: every error is retried, and the last
   * one is rethrown unchanged.
   */
  method RetryOperation<T>(options: RetryOptions, outcomeAt: nat -> Outcome<T>)
    returns (r: Result<T, string>, attempts: nat, sleeps: seq<int>)
    ensures var s := Merge(options);
            && (s.maxRetries < 0 ==> attempts == 0 && r == Err("Operation failed"))
            && (s.maxRetries >= 0 ==> 1 <= attempts <= s.maxRetries + 1)
            && |sleeps| == (if attempts == 0 then 0 else attempts - 1)
            && (forall k | 0 <= k < |sleeps| :: sleeps[k] == Backoff(s, k))
            && (forall k | 0 <= k < |sleeps| :: outcomeAt(k).Threw?)
    ensures attempts > 0 ==>
              var last := outcomeAt(attempts - 1);
              && (last.Returned? ==> r == Ok(last.value))
              && (last.Threw? ==> attempts == Merge(options).maxRetries + 1 && r == Err(last.message))
  {
    var opts := Merge(options);
    var lastError: Option<string> := None;
    var delay := opts.initialDelay;
    sleeps := [];
    attempts := 0;
    var attempt := 0;
    while attempt <= opts.maxRetries
      invariant attempt == 0 || attempt <= opts.maxRetries
      invariant attempts == attempt && |sleeps| == attempt
      invariant lastError.None? <==> attempt == 0
      invariant delay == Delay(opts, attempt)
      invariant forall k | 0 <= k < attempt :: sleeps[k] == Backoff(opts, k)
      invariant forall k | 0 <= k < attempt :: outcomeAt(k).Threw?
      decreases opts.maxRetries - attempt
    {
      attempts := attempt + 1;
      var outcome := outcomeAt(attempt);
      if outcome.Returned? {
        return Ok(outcome.value), attempts, sleeps;
      }
      lastError := Some(outcome.message);
      if attempt == opts.maxRetries {
        return Err(outcome.message), attempts, sleeps;
      }
      sleeps := sleeps + [Min(delay, opts.maxDelay)];
      delay := delay * opts.backoffMultiplier;
      attempt := attempt + 1;
    }
    r := Err(if lastError.Some? then lastError.value else "Operation failed");
  }

  // -------------------------------------------------------------------------
  // Consequences
  // -------------------------------------------------------------------------

  /** With no options: up to four attempts, and pauses of one, two and four seconds. */
  lemma DefaultSchedule()
    ensures Merge(NO_OPTIONS) == DEFAULT_RETRY_OPTIONS
    ensures Merge(NO_OPTIONS).maxRetries + 1 == 4
    ensures Backoff(Merge(NO_OPTIONS), 0) == 1000
    ensures Backoff(Merge(NO_OPTIONS), 1) == 2000
    ensures Backoff(Merge(NO_OPTIONS), 2) == 4000
  {
    assert Delay(DEFAULT_RETRY_OPTIONS, 2) == Delay(DEFAULT_RETRY_OPTIONS, 1) * 2 == 4000;
  }

  /** No pause is longer than the maximum delay. */
  lemma BackoffCapped(s: Settings, k: nat)
    ensures Backoff(s, k) <= s.maxDelay
  {
  }

  /** With a multiplier of at least 1 and a non-negative initial delay, pauses never shrink. */
  lemma BackoffGrows(s: Settings, k: nat)
    requires s.backoffMultiplier >= 1 && s.initialDelay >= 0
    ensures Backoff(s, k) <= Backoff(s, k + 1)
  {
    DelayNonNegative(s, k);
    assert Delay(s, k) <= Delay(s, k) * s.backoffMultiplier;
  }

  lemma {:induction false} DelayNonNegative(s: Settings, k: nat)
    requires s.backoffMultiplier >= 0 && s.initialDelay >= 0
    ensures Delay(s, k) >= 0
  {
    if k > 0 {
      DelayNonNegative(s, k - 1);
    }
  }
}
