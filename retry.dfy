/** The retry controller of the non-streaming path: which errors are worth
    another attempt, how long to wait before it, and the loop of at most
    six attempts (`isRetryableError`, `calculateBackoffDelay`,
    `openaiGenerateWithRetry`). Durations are integers of nanoseconds. */
module Retry {
  import opened Wrappers
  import opened GoText
  import opened Ai
  import opened Translator

  const MaxRetries := 5
  const Second := 1_000_000_000
  const BaseDelay := 1 * Second
  const MaxDelay := 30 * Second
  const JitterFactor: real := 0.1

  /** The substrings that mark an error as transient: four HTTP statuses
      and four network conditions. */
  const RetryableMarkers := ["status: 502", "status: 503", "status: 504", "status: 429",
                             "connection refused", "timeout", "network", "temporary"]

  const NonRetryablePrefix := "failed to generate (non-retryable): "
  /** The exhaustion message, with the attempt count MaxRetries + 1
      written out. */
  const ExhaustedPrefix := "failed to generate after 6 attempts. Last error: "
  const CancelledPrefix := "context cancelled during retry: "

  // ---------------------------------------------------------------------
  // Classifying errors

  /** `isRetryableError`; `None` is the nil error. */
  predicate IsRetryable(err: Option<string>) {
    match err
    case None => false
    case Some(s) =>
      if || Contains(s, "status: 502") || Contains(s, "status: 503")
         || Contains(s, "status: 504") || Contains(s, "status: 429") then
        true
      else
        || Contains(s, "connection refused") || Contains(s, "timeout")
        || Contains(s, "network") || Contains(s, "temporary")
  }

  /** An error is retryable exactly when it is not nil and its message
      contains one of the markers. */
  lemma RetryableMeans(err: Option<string>)
    ensures IsRetryable(err) <==> err.Some? && exists m :: m in RetryableMarkers && Contains(err.value, m)
  {
    Markers();
  }

  lemma Markers()
    ensures && "status: 502" in RetryableMarkers && "status: 503" in RetryableMarkers
            && "status: 504" in RetryableMarkers && "status: 429" in RetryableMarkers
            && "connection refused" in RetryableMarkers && "timeout" in RetryableMarkers
            && "network" in RetryableMarkers && "temporary" in RetryableMarkers
    ensures forall m :: m in RetryableMarkers <==>
      || m == "status: 502" || m == "status: 503" || m == "status: 504" || m == "status: 429"
      || m == "connection refused" || m == "timeout" || m == "network" || m == "temporary"
  {
  }

  /** A string lacking some character of `sub` does not contain `sub`. */
  lemma MissingChar(s: string, sub: string, c: char)
    requires c in sub && c !in s
    ensures !Contains(s, sub)
  {
    ContainsMeans(s, sub);
    forall i | 0 <= i <= |s|
      ensures !(sub <= s[i..])
    {
      PrefixChar(sub, s[i..], c);
      SuffixChar(s, i, c);
    }
  }

  lemma PrefixChar(a: string, b: string, c: char)
    ensures a <= b && c in a ==> c in b
  {
    if a <= b && c in a {
      var k :| 0 <= k < |a| && a[k] == c;
      assert b[k] == c;
    }
  }

  lemma SuffixChar(s: string, i: nat, c: char)
    requires i <= |s|
    ensures c in s[i..] ==> c in s
  {
    if c in s[i..] {
      var k :| 0 <= k < |s[i..]| && s[i..][k] == c;
      assert s[i + k] == c;
    }
  }

  /** A string that starts with `sub` contains it. */
  lemma StartsWith(s: string, sub: string)
    requires sub <= s
    ensures Contains(s, sub)
  {
  }

  /** The retryable 502 and 503 cases of sanity_test.go, each found at the
      start of the message. */
  lemma RetryableVectors()
    ensures IsRetryable(Some("status: 502 Bad Gateway, code: 502"))
    ensures IsRetryable(Some("status: 503 Service Unavailable, code: 503"))
  {
    StartsWith("status: 502 Bad Gateway, code: 502", "status: 502");
    StartsWith("status: 503 Service Unavailable, code: 503", "status: 503");
  }

  /** The retryable 504 and 429 cases of sanity_test.go. */
  lemma TimeoutAndRateVectors()
    ensures IsRetryable(Some("status: 504 Gateway Timeout, code: 504"))
    ensures IsRetryable(Some("status: 429 Too Many Requests, code: 429"))
  {
    StartsWith("status: 504 Gateway Timeout, code: 504", "status: 504");
    StartsWith("status: 429 Too Many Requests, code: 429", "status: 429");
  }

  /** The network cases of sanity_test.go. */
  lemma NetworkVectors()
    ensures IsRetryable(Some("connection refused"))
    ensures IsRetryable(Some("timeout"))
    ensures IsRetryable(Some("network error"))
  {
    StartsWith("connection refused", "connection refused");
    StartsWith("timeout", "timeout");
    StartsWith("network error", "network");
  }

  /** The non-retryable cases of sanity_test.go: client errors 400 and 401
      and the nil error. */
  lemma NonRetryableVectors()
    ensures !IsRetryable(Some("status: 400 Bad Request, code: 400"))
    ensures !IsRetryable(Some("status: 401 Unauthorized, code: 401"))
    ensures !IsRetryable(None)
  {
    BadRequest();
    Unauthorized();
  }

  lemma BadRequest()
    ensures !IsRetryable(Some("status: 400 Bad Request, code: 400"))
  {
    var s := "status: 400 Bad Request, code: 400";
    BadRequestLacks();
    MissingChar(s, "status: 502", '5');
    MissingChar(s, "status: 503", '5');
    MissingChar(s, "status: 504", '5');
    MissingChar(s, "status: 429", '2');
    MissingChar(s, "connection refused", 'n');
    MissingChar(s, "timeout", 'i');
    MissingChar(s, "network", 'n');
    MissingChar(s, "temporary", 'm');
  }

  lemma BadRequestLacks()
    ensures '5' !in "status: 400 Bad Request, code: 400"
    ensures '2' !in "status: 400 Bad Request, code: 400"
    ensures 'n' !in "status: 400 Bad Request, code: 400"
    ensures 'i' !in "status: 400 Bad Request, code: 400"
    ensures 'm' !in "status: 400 Bad Request, code: 400"
  {
    var s := "status: 400 Bad Request, code: 400";
    assert forall k :: 0 <= k < |s| ==> s[k] !in "52nim";
  }

  lemma Unauthorized()
    ensures !IsRetryable(Some("status: 401 Unauthorized, code: 401"))
  {
    var s := "status: 401 Unauthorized, code: 401";
    UnauthorizedLacks();
    MissingChar(s, "status: 502", '5');
    MissingChar(s, "status: 503", '5');
    MissingChar(s, "status: 504", '5');
    MissingChar(s, "status: 429", '2');
    MissingChar(s, "connection refused", 'f');
    MissingChar(s, "timeout", 'm');
    MissingChar(s, "network", 'w');
    MissingChar(s, "temporary", 'm');
  }

  lemma UnauthorizedLacks()
    ensures '5' !in "status: 401 Unauthorized, code: 401"
    ensures '2' !in "status: 401 Unauthorized, code: 401"
    ensures 'f' !in "status: 401 Unauthorized, code: 401"
    ensures 'm' !in "status: 401 Unauthorized, code: 401"
    ensures 'w' !in "status: 401 Unauthorized, code: 401"
  {
    var s := "status: 401 Unauthorized, code: 401";
    forall k | 0 <= k < |s|
      ensures s[k] !in "52fmw"
    {
    }
  }

  // ---------------------------------------------------------------------
  // Backoff

  function Pow2(n: nat): (p: nat)
    ensures p >= 1
  {
    if n == 0 then 1 else 2 * Pow2(n - 1)
  }

  /** The exponential delay before jitter: base times 2 to the attempt,
      capped at the maximum. */
  function CappedDelay(attempt: nat): (d: int)
    ensures BaseDelay <= d <= MaxDelay
    ensures d <= BaseDelay * Pow2(attempt)
    ensures d == MaxDelay || d == BaseDelay * Pow2(attempt)
  {
    var delay := BaseDelay * Pow2(attempt);
    if delay > MaxDelay then MaxDelay else delay
  }

  /** `calculateBackoffDelay` with the random factor `r` drawn from [0, 1):
      the capped delay plus up to a tenth of it, truncated to whole
      nanoseconds. */
  function BackoffDelay(attempt: nat, r: real): int
    requires 0.0 <= r < 1.0
  {
    Jittered(CappedDelay(attempt), r)
  }

  /** A delay plus its share `r` of a tenth of it, truncated. */
  function Jittered(delay: int, r: real): int {
    var d := delay as real;
    (d + d * JitterFactor * r).Floor
  }

  /** The delay is at least the capped delay and below a tenth more. */
  lemma BackoffBounds(attempt: nat, r: real)
    requires 0.0 <= r < 1.0
    ensures CappedDelay(attempt) <= BackoffDelay(attempt, r)
    ensures (BackoffDelay(attempt, r) as real) < (CappedDelay(attempt) as real) * (1.0 + JitterFactor)
  {
    JitteredBounds(CappedDelay(attempt), r);
  }

  lemma JitteredBounds(delay: int, r: real)
    requires delay > 0 && 0.0 <= r < 1.0
    ensures delay <= Jittered(delay, r)
    ensures (Jittered(delay, r) as real) < (delay as real) * (1.0 + JitterFactor)
  {
    var c := delay as real;
    var x := c + c * JitterFactor * r;
    JitterBelow(c, r);
    TenthMore(c, c * JitterFactor * r, x);
    assert Jittered(delay, r) == x.Floor;
    assert x.Floor as real <= x;
  }

  /** The jitter of a positive delay `c` is below a tenth of it. */
  lemma JitterBelow(c: real, r: real)
    requires c > 0.0 && 0.0 <= r < 1.0
    ensures 0.0 <= c * JitterFactor * r < 0.1 * c
  {
    var span := c * JitterFactor;
    assert span == 0.1 * c;
    assert span * r < span;
  }

  lemma TenthMore(c: real, j: real, x: real)
    requires 0.0 <= j < 0.1 * c && x == c + j
    ensures c <= x < c * (1.0 + JitterFactor)
  {
  }

  lemma {:induction false} Pow2Monotone(a: nat, b: nat)
    requires a <= b
    ensures Pow2(a) <= Pow2(b)
    decreases b - a
  {
    if a < b {
      Pow2Monotone(a, b - 1);
    }
  }

  /** The capped delay never shrinks from one attempt to the next. */
  lemma CappedMonotone(a: nat, b: nat)
    requires a <= b
    ensures CappedDelay(a) <= CappedDelay(b)
  {
    Pow2Monotone(a, b);
  }

  /** The delay reaches the cap exactly when base times 2 to the attempt
      does, which is from attempt 5 on. */
  lemma CappedFrom(attempt: nat)
    ensures CappedDelay(attempt) == MaxDelay <==> BaseDelay * Pow2(attempt) >= MaxDelay
    ensures CappedDelay(attempt) == MaxDelay <==> attempt >= 5
  {
    assert Pow2(5) == 32;
    if attempt >= 5 {
      Pow2Monotone(5, attempt);
    } else {
      Pow2Monotone(attempt, 4);
      assert Pow2(4) == 16;
    }
  }

  /** The cases of sanity_test.go: the delay of attempts 0, 1, 2 and 10 lies
      within a tenth of 1, 2, 4 and 30 seconds, whatever the random factor. */
  lemma BackoffVectors(r: real)
    requires 0.0 <= r < 1.0
    ensures 0.9 * (1 * Second) as real <= BackoffDelay(0, r) as real <= 1.1 * (1 * Second) as real
    ensures 0.9 * (2 * Second) as real <= BackoffDelay(1, r) as real <= 1.1 * (2 * Second) as real
    ensures 0.9 * (4 * Second) as real <= BackoffDelay(2, r) as real <= 1.1 * (4 * Second) as real
    ensures 0.9 * MaxDelay as real <= BackoffDelay(10, r) as real <= 1.1 * MaxDelay as real
  {
    assert Pow2(2) == 4;
    CappedFrom(10);
    BackoffBounds(0, r);
    BackoffBounds(1, r);
    BackoffBounds(2, r);
    BackoffBounds(10, r);
  }

  // ---------------------------------------------------------------------
  // The retry loop

  /** What one call to the API gives: the assistant's reply or an error. */
  datatype CallOutcome = Success(reply: Message) | Failure(err: string)

  /** How the loop ends: the result, the number of calls made and the
      number of waits begun. */
  datatype Verdict = Verdict(result: Result<Message>, calls: nat, waits: nat)

  /** Attempt `k` failed with a retryable error, is not the last, and the
      wait after it was not cancelled: the loop goes on. */
  predicate Retries(o: nat -> CallOutcome, cancelled: nat -> bool, k: nat) {
    && o(k).Failure? && IsRetryable(Some(o(k).err))
    && k < MaxRetries && !cancelled(k)
  }

  /** The loop from attempt `k` on, given the outcome of every attempt and
      whether the wait after it is cancelled. */
  function Attempts(o: nat -> CallOutcome, cancelled: nat -> bool, reason: string, k: nat): Verdict
    requires k <= MaxRetries
    decreases MaxRetries - k
  {
    match o(k)
    case Success(m) => Verdict(Ok(m), k + 1, k)
    case Failure(e) =>
      if !IsRetryable(Some(e)) then Verdict(Err(NonRetryablePrefix + e), k + 1, k)
      else if k == MaxRetries then Verdict(Err(ExhaustedPrefix + e), k + 1, k)
      else if cancelled(k) then Verdict(Err(CancelledPrefix + reason), k + 1, k + 1)
      else Attempts(o, cancelled, reason, k + 1)
  }

  /** The waits begun after attempts 0 to n - 1, in order. */
  function Delays(jitter: nat -> real, n: nat): (ds: seq<int>)
    requires forall k: nat :: 0.0 <= jitter(k) < 1.0
    ensures |ds| == n
    ensures forall k :: 0 <= k < n ==> ds[k] == BackoffDelay(k, jitter(k))
  {
    if n == 0 then [] else Delays(jitter, n - 1) + [BackoffDelay(n - 1, jitter(n - 1))]
  }

  /** The outcome of attempt `k`: the call is given the converted messages
      and tools, and told which attempt it is, so that the outcome may
      differ from one attempt to the next. */
  function Outcomes(call: (nat, seq<WireMessage>, seq<WireTool>) -> CallOutcome,
                    messages: seq<Message>, tools: seq<Tool>): nat -> CallOutcome
  {
    (k: nat) => call(k, ConvertMessages(messages), ConvertTools(tools))
  }

  /** `openaiGenerateWithRetry`. The API call, the random factor of every
      wait and whether the context is cancelled during it are inputs;
      `reason` is the context's error. Besides the result, the method
      reports how many calls it made and the waits it began. */
  method GenerateWithRetry(messages: seq<Message>, tools: seq<Tool>,
                           call: (nat, seq<WireMessage>, seq<WireTool>) -> CallOutcome,
                           jitter: nat -> real, cancelled: nat -> bool, reason: string)
    returns (res: Result<Message>, calls: nat, waits: seq<int>)
    requires forall k: nat :: 0.0 <= jitter(k) < 1.0
    ensures var v := Attempts(Outcomes(call, messages, tools), cancelled, reason, 0);
      res == v.result && calls == v.calls && waits == Delays(jitter, v.waits)
  {
    ghost var o := Outcomes(call, messages, tools);
    var lastErr := "";
    calls := 0;
    waits := [];
    var attempt := 0;
    while attempt <= MaxRetries
      invariant 0 <= attempt <= MaxRetries
      invariant calls == attempt
      invariant waits == Delays(jitter, attempt)
      invariant Attempts(o, cancelled, reason, 0) == Attempts(o, cancelled, reason, attempt)
    {
      var openaiMessages := ConvertMessages(messages);
      var openaiTools := ConvertTools(tools);
      var response := call(attempt, openaiMessages, openaiTools);
      calls := calls + 1;
      if response.Success? {
        return Ok(response.reply), calls, waits;
      }
      lastErr := response.err;
      if !IsRetryable(Some(lastErr)) {
        return Err(NonRetryablePrefix + lastErr), calls, waits;
      }
      if attempt == MaxRetries {
        break;
      }
      var delay := BackoffDelay(attempt, jitter(attempt));
      waits := waits + [delay];
      if cancelled(attempt) {
        return Err(CancelledPrefix + reason), calls, waits;
      }
      attempt := attempt + 1;
    }
    return Err(ExhaustedPrefix + lastErr), calls, waits;
  }

  // ---------------------------------------------------------------------
  // What the loop promises

  /** Attempts before `k` all led on to the next. */
  lemma {:induction false} SkipTo(o: nat -> CallOutcome, cancelled: nat -> bool, reason: string, j: nat, k: nat)
    requires j <= k <= MaxRetries
    requires forall i :: j <= i < k ==> Retries(o, cancelled, i)
    ensures Attempts(o, cancelled, reason, j) == Attempts(o, cancelled, reason, k)
    decreases k - j
  {
    if j < k {
      assert Retries(o, cancelled, j);
      SkipTo(o, cancelled, reason, j + 1, k);
    }
  }

  /** One attempt: either it leads on to the next, or the loop ends with
      it, having waited after it only if the wait was cancelled. */
  lemma AttemptStep(o: nat -> CallOutcome, cancelled: nat -> bool, reason: string, k: nat)
    requires k <= MaxRetries
    ensures Retries(o, cancelled, k) ==> Attempts(o, cancelled, reason, k) == Attempts(o, cancelled, reason, k + 1)
    ensures !Retries(o, cancelled, k) ==> Attempts(o, cancelled, reason, k).calls == k + 1
    ensures !Retries(o, cancelled, k) ==>
      var v := Attempts(o, cancelled, reason, k);
      v.waits == k || (v.waits == k + 1 && v.result == Err(CancelledPrefix + reason))
  {
  }

  /** At least one and at most MaxRetries + 1 calls are made, and only a
      cancelled wait is not followed by a call. */
  lemma {:induction false} AttemptsBound(o: nat -> CallOutcome, cancelled: nat -> bool, reason: string, k: nat)
    requires k <= MaxRetries
    ensures var v := Attempts(o, cancelled, reason, k);
      && k + 1 <= v.calls <= MaxRetries + 1
      && (v.waits == v.calls - 1 || (v.waits == v.calls && v.result == Err(CancelledPrefix + reason)))
    decreases MaxRetries - k
  {
    AttemptStep(o, cancelled, reason, k);
    if Retries(o, cancelled, k) {
      AttemptsBound(o, cancelled, reason, k + 1);
      assert Attempts(o, cancelled, reason, k) == Attempts(o, cancelled, reason, k + 1);
    }
  }

  /** Every call but the last led on to the next. */
  lemma {:induction false} AttemptsLedOn(o: nat -> CallOutcome, cancelled: nat -> bool, reason: string, k: nat)
    requires k <= MaxRetries
    ensures forall i :: k <= i < Attempts(o, cancelled, reason, k).calls - 1 ==> Retries(o, cancelled, i)
    decreases MaxRetries - k
  {
    AttemptStep(o, cancelled, reason, k);
    if Retries(o, cancelled, k) {
      AttemptsLedOn(o, cancelled, reason, k + 1);
    }
  }

  /** The first success is returned unchanged, and no further call is made. */
  lemma FirstSuccess(o: nat -> CallOutcome, cancelled: nat -> bool, reason: string, k: nat)
    requires k <= MaxRetries && o(k).Success?
    requires forall i :: 0 <= i < k ==> Retries(o, cancelled, i)
    ensures Attempts(o, cancelled, reason, 0) == Verdict(Ok(o(k).reply), k + 1, k)
  {
    SkipTo(o, cancelled, reason, 0, k);
  }

  /** A non-retryable error is returned at once, annotated, with no wait
      after it. */
  lemma NonRetryableStops(o: nat -> CallOutcome, cancelled: nat -> bool, reason: string, k: nat)
    requires k <= MaxRetries && o(k).Failure? && !IsRetryable(Some(o(k).err))
    requires forall i :: 0 <= i < k ==> Retries(o, cancelled, i)
    ensures Attempts(o, cancelled, reason, 0) == Verdict(Err(NonRetryablePrefix + o(k).err), k + 1, k)
  {
    SkipTo(o, cancelled, reason, 0, k);
  }

  /** A cancellation during the wait after attempt `k` returns the
      context's error, and no further call is made. */
  lemma CancelledStops(o: nat -> CallOutcome, cancelled: nat -> bool, reason: string, k: nat)
    requires k < MaxRetries && o(k).Failure? && IsRetryable(Some(o(k).err)) && cancelled(k)
    requires forall i :: 0 <= i < k ==> Retries(o, cancelled, i)
    ensures Attempts(o, cancelled, reason, 0) == Verdict(Err(CancelledPrefix + reason), k + 1, k + 1)
  {
    SkipTo(o, cancelled, reason, 0, k);
  }

  /** After six retryable failures the last error is returned, annotated
      with the attempt count; there are five waits, none after the last
      attempt. */
  lemma Exhausted(o: nat -> CallOutcome, cancelled: nat -> bool, reason: string)
    requires forall i :: 0 <= i < MaxRetries ==> Retries(o, cancelled, i)
    requires o(MaxRetries).Failure? && IsRetryable(Some(o(MaxRetries).err))
    ensures Attempts(o, cancelled, reason, 0)
         == Verdict(Err(ExhaustedPrefix + o(MaxRetries).err), MaxRetries + 1, MaxRetries)
  {
    SkipTo(o, cancelled, reason, 0, MaxRetries);
  }

  /** Every wait the loop begins lasts between the capped delay of its
      attempt and a tenth more. */
  lemma WaitBounds(jitter: nat -> real, n: nat)
    requires forall k: nat :: 0.0 <= jitter(k) < 1.0
    ensures forall k :: 0 <= k < n ==>
      CappedDelay(k) <= Delays(jitter, n)[k] && (Delays(jitter, n)[k] as real) < (CappedDelay(k) as real) * 1.1
  {
    forall k | 0 <= k < n
      ensures CappedDelay(k) <= Delays(jitter, n)[k] && (Delays(jitter, n)[k] as real) < (CappedDelay(k) as real) * 1.1
    {
      BackoffBounds(k, jitter(k));
    }
  }
}
