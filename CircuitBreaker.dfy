/**
 * The circuit-breaker flow: requests on `circuitBreaker.input` go to an HTTP
 * service through two advices, a retry advice outside and a circuit-breaker
 * advice inside. The breaker counts consecutive failures and, once the count
 * reaches its threshold, refuses calls with `CircuitBreakerOpenException`
 * until `halfOpenAfter` milliseconds have passed since the last failure. The
 * retry template retries every failure except a breaker refusal (found
 * anywhere in the cause chain) and, once it gives up, hands the failure to the
 * recovery channel, whose `fallbackService` turns it into a reply.
 *
 * The rules of the breaker advice and of the retry template are library
 * behaviour; they are stated here as the definitions `Denies`, `AttemptOnce`
 * and `CanRetry`.
 */
module CircuitBreakerApplication {
  import opened JavaLang

  const FALLBACK_PREFIX: string := "The REST service is not available at the moment: "
  const HELLO: string := "Hello "
  const ADVICE_PACKAGE: string := "org.springframework.integration.handler.advice."
  const OPEN_EXCEPTION_NAME: string := "RequestHandlerCircuitBreakerAdvice$CircuitBreakerOpenException"
  const OPEN_EXCEPTION_CLASS: string := ADVICE_PACKAGE + OPEN_EXCEPTION_NAME
  const HOLDER_CLASS: string := ADVICE_PACKAGE + "AbstractRequestHandlerAdvice$ThrowableHolderException"

  // ----- messages, failures and the two services -----------------------------------

  datatype Message = Message(payload: string, headers: map<string, string>)

  /** A thrown exception: its class name, its message and its cause. */
  datatype Failure = Failure(className: string, message: string, cause: Option<Failure>)

  /** What the breaker throws when it refuses a call to `target`. */
  function CircuitBreakerOpen(target: string): Failure
  {
    Failure(OPEN_EXCEPTION_CLASS, "Circuit Breaker is Open for " + target, None)
  }

  /** `Throwable.toString()`: the class name, `": "` and the message. */
  function Describe(f: Failure): string
  {
    f.className + ": " + f.message
  }

  /**
   * The advices' `ThrowableHolderException` around a failure of the advised
   * call: its message is the failure's `toString()`, and its cause the failure.
   */
  function Holder(f: Failure): Failure
  {
    Failure(HOLDER_CLASS, Describe(f), Some(f))
  }

  /** The payload of the error message sent to the recovery channel. */
  datatype MessagingException = MessagingException(failedMessage: Message, cause: Failure)

  /** `fallbackService`: a fixed text followed by the cause, under the failed request's headers. */
  function FallbackService(errorPayload: MessagingException): Message
  {
    Message(FALLBACK_PREFIX + Describe(errorPayload.cause), errorPayload.failedMessage.headers)
  }

  /** The transform of the remote service: `"Hello "::concat`. */
  function RestService(name: string): string
  {
    HELLO + name
  }

  /** `t` occurs in `s` at position `i`. */
  predicate OccursAt(s: string, t: string, i: int)
  {
    0 <= i <= |s| - |t| && s[i..i + |t|] == t
  }

  /** `String.contains`. */
  predicate Contains(s: string, t: string)
  {
    exists i | 0 <= i <= |s| - |t| :: OccursAt(s, t, i)
  }

  lemma OccursAtEnd(a: string, t: string)
    ensures OccursAt(a + t, t, |a|)
  {
    assert (a + t)[|a|..|a| + |t|] == t;
  }

  lemma OccursAtStart(t: string, b: string)
    ensures OccursAt(t + b, t, 0)
  {
    assert (t + b)[..|t|] == t;
  }

  lemma OccursBefore(s: string, b: string, t: string, i: int)
    requires OccursAt(s, t, i)
    ensures OccursAt(s + b, t, i)
  {
    assert (s + b)[i..i + |t|] == s[i..i + |t|];
  }

  lemma OccursAfter(a: string, s: string, t: string, i: int)
    requires OccursAt(s, t, i)
    ensures OccursAt(a + s, t, |a| + i)
  {
    assert (a + s)[|a| + i..|a| + i + |t|] == s[i..i + |t|];
  }

  /** The fallback text starts with the fixed notice, and what follows it is exactly the cause. */
  lemma FallbackParts(e: MessagingException)
    ensures |FallbackService(e).payload| >= |FALLBACK_PREFIX|
    ensures FallbackService(e).payload[..|FALLBACK_PREFIX|] == FALLBACK_PREFIX
    ensures FallbackService(e).payload[|FALLBACK_PREFIX|..] == Describe(e.cause)
    ensures FallbackService(e).headers == e.failedMessage.headers
  {
  }

  /** Two fallbacks carry the same text exactly when their causes print the same. */
  lemma FallbackInjective(e1: MessagingException, e2: MessagingException)
    ensures FallbackService(e1).payload == FallbackService(e2).payload <==> Describe(e1.cause) == Describe(e2.cause)
  {
    FallbackParts(e1);
    FallbackParts(e2);
  }

  /**
   * The fallback for a breaker refusal, which reaches the recovery channel
   * inside its holder, contains the notice and the name of
   * `CircuitBreakerOpenException`.
   */
  lemma FallbackNamesOpenException(request: Message, target: string)
    ensures Contains(FallbackService(MessagingException(request, Holder(CircuitBreakerOpen(target)))).payload, FALLBACK_PREFIX)
    ensures Contains(FallbackService(MessagingException(request, Holder(CircuitBreakerOpen(target)))).payload, OPEN_EXCEPTION_NAME)
  {
    var open := CircuitBreakerOpen(target);
    var before := FALLBACK_PREFIX + HOLDER_CLASS + ": ";
    assert FallbackService(MessagingException(request, Holder(open))).payload == FALLBACK_PREFIX + Describe(Holder(open));
    assert FALLBACK_PREFIX + Describe(Holder(open)) == before + Describe(open);
    OccursAtStart(FALLBACK_PREFIX, Describe(Holder(open)));
    OccursAtEnd(ADVICE_PACKAGE, OPEN_EXCEPTION_NAME);
    OccursBefore(OPEN_EXCEPTION_CLASS, ": ", OPEN_EXCEPTION_NAME, |ADVICE_PACKAGE|);
    OccursBefore(OPEN_EXCEPTION_CLASS + ": ", open.message, OPEN_EXCEPTION_NAME, |ADVICE_PACKAGE|);
    OccursAfter(before, Describe(open), OPEN_EXCEPTION_NAME, |ADVICE_PACKAGE|);
  }

  /** The service's reply is `"Hello "` followed by the unchanged name; `"world"` gives `"Hello world"`. */
  lemma RestServiceReply(name: string)
    ensures |RestService(name)| == |HELLO| + |name|
    ensures RestService(name)[..|HELLO|] == HELLO && RestService(name)[|HELLO|..] == name
    ensures RestService("world") == "Hello world"
  {
  }

  // ----- which failures are retried ----------------------------------------------------

  /** The failure chain: the failure itself, then its cause, and so on. */
  function Causes(f: Failure): (cs: seq<Failure>)
    decreases f
    ensures |cs| >= 1 && cs[0] == f
    ensures forall i :: 0 <= i < |cs| - 1 ==> cs[i].cause == Some(cs[i + 1])
    ensures cs[|cs| - 1].cause.None?
  {
    [f] + if f.cause.Some? then Causes(f.cause.value) else []
  }

  /** `notRetryOn(CircuitBreakerOpenException.class).traversingCauses()`: a refusal anywhere in the chain. */
  predicate ContainsOpen(f: Failure)
    decreases f
  {
    f.className == OPEN_EXCEPTION_CLASS || (f.cause.Some? && ContainsOpen(f.cause.value))
  }

  /** The traversal finds a refusal exactly when some failure of the chain is one. */
  lemma {:induction false} ContainsOpenIff(f: Failure)
    decreases f
    ensures ContainsOpen(f) <==> exists i :: 0 <= i < |Causes(f)| && Causes(f)[i].className == OPEN_EXCEPTION_CLASS
  {
    if f.cause.Some? {
      var c := f.cause.value;
      ContainsOpenIff(c);
      assert Causes(f) == [f] + Causes(c);
      if ContainsOpen(c) {
        var i :| 0 <= i < |Causes(c)| && Causes(c)[i].className == OPEN_EXCEPTION_CLASS;
        assert Causes(f)[i + 1] == Causes(c)[i];
      }
      if exists i :: 0 <= i < |Causes(f)| && Causes(f)[i].className == OPEN_EXCEPTION_CLASS {
        var i :| 0 <= i < |Causes(f)| && Causes(f)[i].className == OPEN_EXCEPTION_CLASS;
        if i > 0 {
          assert Causes(c)[i - 1] == Causes(f)[i];
        }
      }
    } else {
      assert Causes(f) == [f];
    }
  }

  /** The retry policy given to the template builder; `MaxAttempts` is the builder's default. */
  datatype RetryPolicy = AlwaysRetry | MaxAttempts(maxAttempts: nat)

  /**
   * The retry template's test before each attempt: the base policy allows
   * another attempt and the last failure, if any, is not a breaker refusal.
   */
  predicate CanRetry(policy: RetryPolicy, count: nat, last: Option<Failure>)
  {
    (policy.AlwaysRetry? || count < policy.maxAttempts) && (last.None? || !ContainsOpen(last.value))
  }

  /** A breaker refusal is never retried, whatever the policy and however deeply it is nested. */
  lemma OpenNeverRetried(policy: RetryPolicy, count: nat, f: Failure, c: Failure)
    requires c in Causes(f) && c.className == OPEN_EXCEPTION_CLASS
    ensures !CanRetry(policy, count, Some(f))
  {
    ContainsOpenIff(f);
  }

  /** With `AlwaysRetryPolicy` every other failure is retried, with no cap on the attempts. */
  lemma OthersAlwaysRetried(count: nat, f: Failure)
    requires forall c :: c in Causes(f) ==> c.className != OPEN_EXCEPTION_CLASS
    ensures CanRetry(AlwaysRetry, count, Some(f))
  {
    ContainsOpenIff(f);
  }

  /**
   * The template records each failure inside the advices' holder; since the
   * classifier traverses causes, it judges the holder as the failure it holds.
   */
  lemma HolderTransparent(policy: RetryPolicy, count: nat, f: Failure)
    ensures CanRetry(policy, count, Some(Holder(f))) == CanRetry(policy, count, Some(f))
  {
  }

  // ----- one attempt through the breaker ----------------------------------------------------

  /** The breaker advice's metadata: consecutive failures and the time of the last one. */
  datatype Breaker = Breaker(failures: nat, lastFailure: int)

  /** The configuration the flow runs with. */
  datatype Config = Config(
    target: string,
    threshold: Int,
    halfOpenAfter: Long,
    policy: RetryPolicy,
    backOffPeriod: nat,
    recovery: bool)

  /** Whether the HTTP service answers. */
  datatype Downstream = Reachable | Unreachable(error: Failure)

  /** The HTTP service at each attempt of one call: attempt `i` finds it in state `service(i)`. */
  type Service = nat -> Downstream

  /** The service's outcome when the breaker lets the call through. */
  function ServiceCall(request: Message, d: Downstream): Attempt
  {
    match d
    case Reachable => Replied(RestService(request.payload))
    case Unreachable(error) => Threw(error)
  }

  /** The breaker refuses while the threshold is reached and `halfOpenAfter` has not passed. */
  predicate Denies(s: Config, b: Breaker, now: int)
  {
    b.failures >= s.threshold && now - b.lastFailure < s.halfOpenAfter
  }

  datatype Attempt = Replied(reply: string) | Threw(failure: Failure)

  /**
   * The inner advice around one call of the service: a refusal, or the call,
   * whose success resets the failure count and whose failure is counted and
   * time-stamped.
   */
  function AttemptOnce(s: Config, b: Breaker, now: int, request: Message, d: Downstream): (Attempt, Breaker)
  {
    if Denies(s, b, now) then (Threw(CircuitBreakerOpen(s.target)), b)
    else match d
      case Reachable => (Replied(RestService(request.payload)), b.(failures := 0))
      case Unreachable(error) => (Threw(error), Breaker(b.failures + 1, now))
  }

  /** A closed breaker, below its threshold, lets every attempt through to the service. */
  lemma ClosedBreakerAdmits(s: Config, b: Breaker, now: int, request: Message, d: Downstream)
    requires b.failures < s.threshold
    ensures AttemptOnce(s, b, now, request, d).0 == ServiceCall(request, d)
  {
  }

  /**
   * The failure that reaches the threshold at time `t` opens the breaker:
   * every attempt before `t + halfOpenAfter` is refused, whatever the service
   * does, and leaves the breaker as it is.
   */
  lemma FailureOpensBreaker(s: Config, b: Breaker, t: int, request: Message, error: Failure, now: int, d: Downstream)
    requires !Denies(s, b, t) && b.failures + 1 >= s.threshold && now < t + s.halfOpenAfter
    ensures AttemptOnce(s, b, t, request, Unreachable(error)) == (Threw(error), Breaker(b.failures + 1, t))
    ensures AttemptOnce(s, Breaker(b.failures + 1, t), now, request, d) ==
      (Threw(CircuitBreakerOpen(s.target)), Breaker(b.failures + 1, t))
  {
  }

  /**
   * Once `halfOpenAfter` has passed since the last failure, the breaker lets
   * the next attempt through; if the service answers, the breaker closes.
   */
  lemma HalfOpenAdmits(s: Config, b: Breaker, t: int, request: Message, error: Failure, now: int, d: Downstream)
    requires !Denies(s, b, t) && now >= t + s.halfOpenAfter
    ensures var tripped := AttemptOnce(s, b, t, request, Unreachable(error)).1;
      AttemptOnce(s, tripped, now, request, d).0 == ServiceCall(request, d) &&
      (d.Reachable? ==> AttemptOnce(s, tripped, now, request, d).1.failures == 0)
  {
  }

  // ----- the retry loop, as a function -------------------------------------------------------

  /** How the retry template's loop ended. */
  datatype Ended = Succeeded(reply: string) | Exhausted(last: Failure)

  /** The end of the loop, the breaker and the clock afterwards, and the number of attempts. */
  datatype Run = Run(ended: Ended, breaker: Breaker, now: int, attempts: nat)

  /**
   * The conditions under which the loop ends: a policy with a cap, or a
   * backoff shorter than `halfOpenAfter`, so that once the threshold is
   * reached the very next attempt is refused. Inside the loop, after a
   * retried failure the clock stands one backoff past that failure.
   */
  predicate LoopState(s: Config, b: Breaker, now: int, count: nat, last: Option<Failure>)
  {
    (count == 0 <==> last.None?) &&
    (s.policy.MaxAttempts? && count == 0 ==> s.policy.maxAttempts >= 1) &&
    (s.policy.AlwaysRetry? ==> s.backOffPeriod < s.halfOpenAfter) &&
    (s.policy.AlwaysRetry? && count > 0 && CanRetry(s.policy, count, last) ==> now - b.lastFailure == s.backOffPeriod)
  }

  function Remaining(s: Config, b: Breaker): nat
  {
    if b.failures >= s.threshold then 0 else s.threshold - b.failures
  }

  /** What is left of the loop: nothing once it cannot retry. */
  function LoopMeasure(s: Config, b: Breaker, count: nat, last: Option<Failure>): nat
  {
    if !CanRetry(s.policy, count, last) then 0
    else if s.policy.MaxAttempts? then s.policy.maxAttempts - count
    else if count == 0 then Remaining(s, b) + 2
    else Remaining(s, b) + 1
  }

  /** The state after a failed attempt: the clock moves by one backoff only if another attempt follows. */
  function AfterFailure(s: Config, now: int, count: nat, f: Failure): int
  {
    if CanRetry(s.policy, count + 1, Some(f)) then now + s.backOffPeriod else now
  }

  /** The retry template's loop from attempt number `count` on, `last` being the failure of the one before. */
  function Execute(s: Config, b: Breaker, now: int, request: Message, d: Service, count: nat, last: Option<Failure>): (r: Run)
    requires LoopState(s, b, now, count, last)
    decreases LoopMeasure(s, b, count, last)
    ensures r.attempts >= count
  {
    if !CanRetry(s.policy, count, last) then Run(Exhausted(last.value), b, now, count)
    else
      var (a, b') := AttemptOnce(s, b, now, request, d(count));
      match a
      case Replied(reply) => Run(Succeeded(reply), b', now, count + 1)
      case Threw(f) =>
        NextLoopState(s, b, now, request, d(count), count, last);
        Execute(s, b', AfterFailure(s, now, count, f), request, d, count + 1, Some(f))
  }

  /** A failed attempt keeps the loop's conditions and shrinks what is left of it. */
  lemma NextLoopState(s: Config, b: Breaker, now: int, request: Message, d: Downstream, count: nat, last: Option<Failure>)
    requires LoopState(s, b, now, count, last) && CanRetry(s.policy, count, last)
    requires AttemptOnce(s, b, now, request, d).0.Threw?
    ensures var (a, b') := AttemptOnce(s, b, now, request, d);
      LoopState(s, b', AfterFailure(s, now, count, a.failure), count + 1, Some(a.failure)) &&
      LoopMeasure(s, b', count + 1, Some(a.failure)) < LoopMeasure(s, b, count, last)
  {
  }

  /** What a request on `circuitBreaker.input` gets back, or the exception it ends with. */
  datatype Outcome = Reply(message: Message) | Thrown(failure: Failure)

  /**
   * The outcome of a run: the service's reply, or the last failure. With a
   * recovery channel, the failure reaches `fallbackService` inside its holder;
   * without one, the advice unwraps the holder and rethrows the failure.
   */
  function Conclude(s: Config, request: Message, ended: Ended): Outcome
  {
    match ended
    case Succeeded(reply) => Reply(Message(reply, request.headers))
    case Exhausted(last) =>
      if s.recovery then Reply(FallbackService(MessagingException(request, Holder(last)))) else Thrown(last)
  }

  /**
   * With a recovery channel a request always gets a reply, under its own
   * headers; when the loop gave up, the reply is the notice followed by the
   * holder of the last failure, whose text contains that failure's.
   */
  lemma RecoveredOutcome(s: Config, request: Message, ended: Ended)
    requires s.recovery
    ensures Conclude(s, request, ended).Reply?
    ensures Conclude(s, request, ended).message.headers == request.headers
    ensures ended.Exhausted? ==>
      Conclude(s, request, ended).message.payload == FALLBACK_PREFIX + HOLDER_CLASS + ": " + Describe(ended.last)
    ensures ended.Exhausted? ==> Contains(Conclude(s, request, ended).message.payload, Describe(ended.last))
  {
    if ended.Exhausted? {
      var before := FALLBACK_PREFIX + HOLDER_CLASS + ": ";
      assert Conclude(s, request, ended).message.payload == before + Describe(ended.last);
      OccursAtEnd(before, Describe(ended.last));
    }
  }

  /** Without a recovery channel a request gets an exception exactly when the loop gave up, and it is the last failure. */
  lemma UnrecoveredOutcome(s: Config, request: Message, ended: Ended)
    requires !s.recovery
    ensures Conclude(s, request, ended).Thrown? <==> ended.Exhausted?
    ensures ended.Exhausted? ==> Conclude(s, request, ended).failure == ended.last
  {
  }

  // ----- the runs the application goes through ------------------------------------------------

  predicate Terminates(s: Config)
  {
    match s.policy
    case AlwaysRetry => s.backOffPeriod < s.halfOpenAfter
    case MaxAttempts(n) => n >= 1
  }

  /** A refused first attempt ends the loop at once and leaves the breaker and the clock as they were. */
  lemma DeniedRun(s: Config, b: Breaker, now: int, request: Message, d: Service)
    requires Terminates(s) && Denies(s, b, now)
    ensures Execute(s, b, now, request, d, 0, None) == Run(Exhausted(CircuitBreakerOpen(s.target)), b, now, 1)
  {
    var f := CircuitBreakerOpen(s.target);
    assert ContainsOpen(f);
    assert Execute(s, b, now, request, d, 1, Some(f)) == Run(Exhausted(f), b, now, 1);
  }

  /** An admitted attempt to a reachable service succeeds with its reply and resets the failure count. */
  lemma ReachableRun(s: Config, b: Breaker, now: int, request: Message, d: Service)
    requires Terminates(s) && !Denies(s, b, now) && d(0).Reachable?
    ensures Execute(s, b, now, request, d, 0, None) ==
      Run(Succeeded(RestService(request.payload)), b.(failures := 0), now, 1)
  {
  }

  /** The service is down, with the same error, at every attempt. */
  ghost predicate Down(d: Service, error: Failure)
  {
    forall i: nat :: d(i) == Unreachable(error)
  }

  /** The time `n` backoffs of `period` take. */
  function Backoffs(n: nat, period: nat): (t: nat)
  {
    if n == 0 then 0 else Backoffs(n - 1, period) + period
  }

  lemma {:induction false} BackoffsTime(n: nat, period: nat)
    ensures Backoffs(n, period) == n * period
  {
    if n > 0 {
      BackoffsTime(n - 1, period);
    }
  }

  /**
   * Retrying against an unreachable service under `AlwaysRetryPolicy`: each
   * admitted attempt fails and is counted by the breaker, one backoff apart,
   * until the threshold is reached; the next attempt is refused and that
   * refusal ends the loop.
   */
  lemma {:induction false} UnreachableRetries(s: Config, b: Breaker, now: int, request: Message, d: Service, error: Failure, count: nat)
    requires s.policy.AlwaysRetry? && s.backOffPeriod < s.halfOpenAfter && !ContainsOpen(error)
    requires Down(d, error)
    requires count > 0 && now - b.lastFailure == s.backOffPeriod
    decreases Remaining(s, b)
    ensures var r := Execute(s, b, now, request, d, count, Some(error));
      r.ended == Exhausted(CircuitBreakerOpen(s.target)) &&
      r.breaker.failures == b.failures + Remaining(s, b) &&
      r.now == now + Backoffs(Remaining(s, b), s.backOffPeriod) &&
      r.now - r.breaker.lastFailure == s.backOffPeriod &&
      r.attempts == count + Remaining(s, b) + 1
  {
    if b.failures >= s.threshold {
      var f := CircuitBreakerOpen(s.target);
      assert ContainsOpen(f);
      assert Execute(s, b, now, request, d, count + 1, Some(f)) == Run(Exhausted(f), b, now, count + 1);
    } else {
      var b' := Breaker(b.failures + 1, now);
      var now' := now + s.backOffPeriod;
      assert d(count) == Unreachable(error);
      assert AttemptOnce(s, b, now, request, d(count)) == (Threw(error), b');
      assert CanRetry(s.policy, count, Some(error)) && AfterFailure(s, now, count, error) == now';
      assert Execute(s, b, now, request, d, count, Some(error)) == Execute(s, b', now', request, d, count + 1, Some(error));
      UnreachableRetries(s, b', now', request, d, error, count + 1);
      assert Remaining(s, b') == Remaining(s, b) - 1;
    }
  }

  /** An admitted first attempt that fails with a retryable error is counted, and the retry follows one backoff later. */
  lemma FirstAttemptFails(s: Config, b: Breaker, now: int, request: Message, d: Service, error: Failure)
    requires s.policy.AlwaysRetry? && s.backOffPeriod < s.halfOpenAfter && !ContainsOpen(error)
    requires !Denies(s, b, now) && d(0) == Unreachable(error)
    ensures Execute(s, b, now, request, d, 0, None) ==
      Execute(s, Breaker(b.failures + 1, now), now + s.backOffPeriod, request, d, 1, Some(error))
  {
    assert AttemptOnce(s, b, now, request, d(0)) == (Threw(error), Breaker(b.failures + 1, now));
    assert CanRetry(s.policy, 0, None) && AfterFailure(s, now, 0, error) == now + s.backOffPeriod;
  }

  /**
   * A call from a breaker that admits it, with the service unreachable:
   * `max(1, threshold - failures)` failed attempts, then one refused one, whose
   * `CircuitBreakerOpenException` is the failure the loop gives up with.
   */
  lemma UnreachableRun(s: Config, b: Breaker, now: int, request: Message, d: Service, error: Failure)
    requires s.policy.AlwaysRetry? && s.backOffPeriod < s.halfOpenAfter && !ContainsOpen(error)
    requires !Denies(s, b, now) && Down(d, error)
    ensures var r := Execute(s, b, now, request, d, 0, None);
      var failed := if Remaining(s, b) == 0 then 1 else Remaining(s, b);
      r.ended == Exhausted(CircuitBreakerOpen(s.target)) &&
      r.breaker.failures == b.failures + failed &&
      r.breaker.failures >= s.threshold &&
      r.now == now + Backoffs(failed, s.backOffPeriod) &&
      r.now - r.breaker.lastFailure == s.backOffPeriod &&
      r.attempts == failed + 1
  {
    var b' := Breaker(b.failures + 1, now);
    assert d(0) == Unreachable(error);
    FirstAttemptFails(s, b, now, request, d, error);
    UnreachableRetries(s, b', now + s.backOffPeriod, request, d, error, 1);
    var failed := if Remaining(s, b) == 0 then 1 else Remaining(s, b);
    assert failed == Remaining(s, b') + 1;
  }

  /**
   * The point of retrying: a first attempt that fails while the breaker stays
   * below its threshold is retried one backoff later, and a service that
   * answers by then gives the reply, after two attempts, with the breaker
   * closed again.
   */
  lemma RetryRecovers(s: Config, b: Breaker, now: int, request: Message, d: Service, error: Failure)
    requires Terminates(s) && (s.policy.AlwaysRetry? || s.policy.maxAttempts >= 2)
    requires !Denies(s, b, now) && b.failures + 1 < s.threshold && !ContainsOpen(error)
    requires d(0) == Unreachable(error) && d(1).Reachable?
    ensures Execute(s, b, now, request, d, 0, None) ==
      Run(Succeeded(RestService(request.payload)), Breaker(0, now), now + s.backOffPeriod, 2)
  {
    var b' := Breaker(b.failures + 1, now);
    assert AttemptOnce(s, b, now, request, d(0)) == (Threw(error), b');
    assert CanRetry(s.policy, 1, Some(error)) && AfterFailure(s, now, 0, error) == now + s.backOffPeriod;
    assert AttemptOnce(s, b', now + s.backOffPeriod, request, d(1)) == (Replied(RestService(request.payload)), Breaker(0, now));
  }

  // ----- the flow as an object ------------------------------------------------------------------

  /** The retry template built from the builder when the flow is built; a period of 0 is no backoff. */
  datatype RetryTemplate = RetryTemplate(policy: RetryPolicy, backOffPeriod: nat)

  /** `FixedBackOffPolicy.setBackOffPeriod`: a period that is not positive becomes 1 ms. */
  function FixedPeriod(period: Long): (r: nat)
    ensures r >= 1
    ensures period > 0 ==> r == period
  {
    if period > 0 then period else 1
  }

  /**
   * `CircuitBreaker`: the flow adapter with its breaker advice (threshold,
   * half-open delay and failure metadata), its retry-template builder and its
   * retry advice (template and recovery channel). The wall clock the advices
   * read is the field `now`.
   */
  class CircuitBreaker {
    /** The service handler the advices wrap, by name. */
    const service: string
    var threshold: Int
    var halfOpenAfter: Long
    var failures: nat
    var lastFailure: int
    /** The builder's selected retry policy, if one was selected. */
    var retryPolicy: Option<RetryPolicy>
    /** The period of the builder's selected `FixedBackOffPolicy`, if one was selected. */
    var backOffPeriod: Option<nat>
    var retryTemplate: Option<RetryTemplate>
    var recoveryChannel: bool
    var now: int

    /** A new flow: the advices' defaults, nothing selected in the builder, no template yet, the clock at `clock`. */
    constructor(service: string, clock: int)
      ensures this.service == service && now == clock
      ensures threshold == 5 && halfOpenAfter == 1000 && failures == 0 && lastFailure == 0
      ensures retryPolicy == None && backOffPeriod == None
      ensures retryTemplate == None && !recoveryChannel
    {
      this.service := service;
      threshold := 5;
      halfOpenAfter := 1000;
      failures := 0;
      lastFailure := 0;
      retryPolicy := None;
      backOffPeriod := None;
      retryTemplate := None;
      recoveryChannel := false;
      now := clock;
    }

    method SetThreshold(threshold: Int)
      modifies this`threshold
      ensures this.threshold == threshold
    {
      this.threshold := threshold;
    }

    method SetHalfOpenAfter(halfOpenAfter: Long)
      modifies this`halfOpenAfter
      ensures this.halfOpenAfter == halfOpenAfter
    {
      this.halfOpenAfter := halfOpenAfter;
    }

    /** `RetryTemplateBuilder.customPolicy`: selects the policy, or throws if one was selected before. */
    method SetRetryPolicy(retryPolicy: RetryPolicy) returns (thrown: Option<Throwable>)
      modifies this`retryPolicy
      ensures old(this.retryPolicy).None? ==> thrown == None && this.retryPolicy == Some(retryPolicy)
      ensures old(this.retryPolicy).Some? ==>
        thrown == Some(IllegalArgumentException) && this.retryPolicy == old(this.retryPolicy)
    {
      if this.retryPolicy.Some? {
        thrown := Some(IllegalArgumentException);
      } else {
        this.retryPolicy := Some(retryPolicy);
        thrown := None;
      }
    }

    /**
     * `RetryTemplateBuilder.customBackoff` of a `FixedBackOffPolicy` with the
     * given period in milliseconds: selects it, or throws if a backoff was
     * selected before.
     */
    method SetBackOffPolicy(backOffPeriod: Long) returns (thrown: Option<Throwable>)
      modifies this`backOffPeriod
      ensures old(this.backOffPeriod).None? ==> thrown == None && this.backOffPeriod == Some(FixedPeriod(backOffPeriod))
      ensures old(this.backOffPeriod).Some? ==>
        thrown == Some(IllegalArgumentException) && this.backOffPeriod == old(this.backOffPeriod)
    {
      if this.backOffPeriod.Some? {
        thrown := Some(IllegalArgumentException);
      } else {
        this.backOffPeriod := Some(FixedPeriod(backOffPeriod));
        thrown := None;
      }
    }

    method SetRecoveryChannel()
      modifies this`recoveryChannel
      ensures recoveryChannel
    {
      recoveryChannel := true;
    }

    /**
     * `buildFlow`: installs the template built from the builder's selections,
     * with three attempts when no policy was selected and no backoff when no
     * backoff was.
     */
    method BuildFlow()
      modifies this`retryTemplate
      ensures retryTemplate.Some?
      ensures retryTemplate.value.policy == (if retryPolicy.Some? then retryPolicy.value else MaxAttempts(3))
      ensures retryTemplate.value.backOffPeriod == (if backOffPeriod.Some? then backOffPeriod.value else 0)
    {
      var policy := MaxAttempts(3);
      if retryPolicy.Some? {
        policy := retryPolicy.value;
      }
      var period := 0;
      if backOffPeriod.Some? {
        period := backOffPeriod.value;
      }
      retryTemplate := Some(RetryTemplate(policy, period));
    }

    /** The configuration in force: the installed template and the advices' current fields. */
    function Settings(): Config
      reads this
      requires retryTemplate.Some?
    {
      Config(service, threshold, halfOpenAfter,
        retryTemplate.value.policy, retryTemplate.value.backOffPeriod, recoveryChannel)
    }

    function Metadata(): Breaker
      reads this
    {
      Breaker(failures, lastFailure)
    }

    /** `Thread.sleep`: the clock moves on. */
    method Sleep(millis: nat)
      modifies this`now
      ensures now == old(now) + millis
    {
      now := now + millis;
    }

    /** The breaker advice around one call of the service. */
    method Attempt(request: Message, d: Downstream) returns (a: Attempt)
      requires retryTemplate.Some?
      modifies this`failures, this`lastFailure
      ensures (a, Metadata()) == AttemptOnce(Settings(), old(Metadata()), now, request, d)
    {
      if failures >= threshold && now - lastFailure < halfOpenAfter {
        a := Threw(CircuitBreakerOpen(service));
      } else {
        match d
        case Reachable =>
          a := Replied(RestService(request.payload));
          failures := 0;
        case Unreachable(error) =>
          a := Threw(error);
          failures := failures + 1;
          lastFailure := now;
      }
    }

    /**
     * A request sent to `circuitBreaker.input` and its reply: the retry
     * template's loop around the breaker advice, then the recovery channel.
     */
    method Handle(request: Message, d: Service) returns (outcome: Outcome)
      requires retryTemplate.Some? && Terminates(Settings())
      modifies this`failures, this`lastFailure, this`now
      ensures var r := Execute(old(Settings()), old(Metadata()), old(now), request, d, 0, None);
        outcome == Conclude(Settings(), request, r.ended) && Metadata() == r.breaker && now == r.now
    {
      var s := Settings();
      ghost var run := Execute(s, Metadata(), now, request, d, 0, None);
      var count: nat := 0;
      var last: Option<Failure> := None;
      while CanRetry(s.policy, count, last)
        invariant Settings() == s
        invariant LoopState(s, Metadata(), now, count, last)
        invariant Execute(s, Metadata(), now, request, d, count, last) == run
        decreases LoopMeasure(s, Metadata(), count, last)
      {
        ghost var b := Metadata();
        var a := Attempt(request, d(count));
        match a
        case Replied(reply) =>
          return Reply(Message(reply, request.headers));
        case Threw(f) =>
          NextLoopState(s, b, now, request, d(count), count, last);
          if CanRetry(s.policy, count + 1, Some(f)) {
            Sleep(s.backOffPeriod);
          }
          count := count + 1;
          last := Some(f);
      }
      outcome := if recoveryChannel then Reply(FallbackService(MessagingException(request, Holder(last.value)))) else Thrown(last.value);
    }
  }

  /** The flow's configuration: threshold 3, half-open after 500 ms, `AlwaysRetryPolicy`, 100 ms backoff, recovery. */
  const APPLICATION_CONFIG: Config := Config("httpService", 3, 500, AlwaysRetry, 100, true)

  /** The `circuitBreaker` bean, with its flow built. */
  method CircuitBreakerBean(clock: int) returns (cb: CircuitBreaker)
    ensures fresh(cb) && cb.retryTemplate.Some? && cb.Settings() == APPLICATION_CONFIG
    ensures cb.Metadata() == Breaker(0, 0) && cb.now == clock
  {
    cb := new CircuitBreaker("httpService", clock);
    cb.SetThreshold(3);
    cb.SetHalfOpenAfter(500);
    cb.SetRecoveryChannel();
    var thrown := cb.SetRetryPolicy(AlwaysRetry);
    thrown := cb.SetBackOffPolicy(100);
    cb.BuildFlow();
  }

  /**
   * The application's scenario on the configured flow. A first call while the
   * service is down ends in the fallback naming `CircuitBreakerOpenException`;
   * a call shortly after the service comes up still gets the fallback, since
   * the breaker is open; after a second's sleep the call reaches the service
   * and gets `"Hello world"`.
   */
  method CircuitBreakerInAction(clock: int, connectionError: Failure, pause: nat, extraSleep: nat, headers: map<string, string>)
    returns (first: Outcome, second: Outcome, third: Outcome)
    requires !ContainsOpen(connectionError)
    requires pause < 400
    ensures first.Reply? && Contains(first.message.payload, FALLBACK_PREFIX)
    ensures first.Reply? && Contains(first.message.payload, OPEN_EXCEPTION_NAME)
    ensures second.Reply? && Contains(second.message.payload, FALLBACK_PREFIX)
    ensures third == Reply(Message("Hello world", headers))
  {
    var cb := CircuitBreakerBean(clock);
    var s := APPLICATION_CONFIG;
    var request := Message("world", headers);
    var down: Service := _ => Unreachable(connectionError);
    var up: Service := _ => Reachable;
    UnreachableRun(s, cb.Metadata(), cb.now, request, down, connectionError);
    first := cb.Handle(request, down);
    FallbackNamesOpenException(request, "httpService");
    assert cb.failures == 3 && cb.now - cb.lastFailure == 100;

    cb.Sleep(pause);
    DeniedRun(s, cb.Metadata(), cb.now, request, up);
    second := cb.Handle(request, up);
    FallbackNamesOpenException(request, "httpService");

    cb.Sleep(1000 + extraSleep);
    ReachableRun(s, cb.Metadata(), cb.now, request, up);
    RestServiceReply("world");
    third := cb.Handle(request, up);
  }
}
