# Spring Integration microservice patterns, modelled in Dafny

This project models the parts of the Spring Integration microservice-patterns
samples that carry behaviour of their own, and proves properties of them.

- **Circuit breaker with retry and fallback** (`CircuitBreaker.dfy`, module
  `CircuitBreakerApplication`). Requests on `circuitBreaker.input` reach an HTTP
  service through two advices: a retry advice outside and a circuit-breaker
  advice inside. The breaker counts consecutive failures. Once the count
  reaches the threshold, it refuses calls with `CircuitBreakerOpenException`
  until `halfOpenAfter` milliseconds have passed since the last failure. The
  retry template retries every failure except a refusal, which it also finds
  when nested as a cause. When the template gives up, the recovery channel's
  `fallbackService` turns the failure into a reply. The `CircuitBreaker` flow
  adapter is a class: its setters change the advice and builder fields, and
  `BuildFlow` installs the template. `Handle` is the retry loop, a `while` loop
  over the breaker's fields and a clock field. It is proved equal to the pure
  function `Execute`, and the lemmas about `Execute` give the three calls of the
  application's scenario.
- **Sliding-window framer** (`Framer.dfy`, module `FramerApplication`).
  - The splitter `slidingWindows` takes the counter value as its key. It sends
    each payload into the groups with correlation ids `key`, `key - 1` and
    `key - 2`, leaving out ids below zero.
  - The aggregator releases a group of three messages as the list of its
    payloads, and removes the group from the `SimpleMessageStore`.
  - The store and the output queue channel are classes that the flow updates in
    place.
  - The flow's invariant ties the store to a closed form of the inputs so far:
    one open group for each of the last two keys. The windows released so far
    are `[p_k, p_k+1, p_k+2]`.
- **Normalizer** (`Normalizer.dfy`, module `NormalizerApplication`). The normalizer:
  - routes on the `contentType` header;
  - turns a CSV record, or the properties loaded from a file, into a
    `CreditCardTransaction`;
  - enriches the headers of file input;
  - derives the output file name.

  `Numbers.dfy` (module `Numbers`) models the Java number text it depends on:
  `Long.parseLong`, `String.valueOf(long)`, `new BigDecimal(String)` and
  `BigDecimal.toPlainString()`. Numbers are only the plain form, without an
  exponent.
- **Value types** (`CreditCardTransaction.dfy`, module `Transactions`, and
  `ShoppingOrder.dfy`, module `Orders`). Each is a class with getters,
  setters, `equals` and `hashCode`. `JavaLang.dfy` holds:
  - `null` as `Option` and thrown exceptions as `Result`;
  - the ranges of `int` and `long`, and 32-bit wrap-around;
  - the Java hash codes that `Objects.hash` combines.

Assumptions about library code that is not part of this model. Each is stated
as a definition:
- `Denies`: the breaker refuses while `failures >= threshold && now - lastFailure < halfOpenAfter`.
- `AttemptOnce`: a success resets the failure count to 0. A failure adds one to
  the count and records the time.
- `CanRetry`: the base policy allows another attempt and the last failure has
  no refusal in its cause chain.
- `CanRelease`: a group is released when its size equals the sequence size of
  its first message.
- `Payloads`: the aggregator's default output, the payloads in arrival order.
- `Holder` and `Conclude`: the advices wrap a failure of the advised call in a
  `ThrowableHolderException`, whose message is the failure's `toString()`.
  The recovery channel gets a `MessagingException` whose cause is that holder.
  Without a recovery channel, the advice unwraps the holder and rethrows the failure.
- `Normalize`: the router throws `MessageDeliveryException` when the message
  has no `contentType` header. For a header value that maps to no sub-flow, the
  router first tries the value as a channel name and fails with a
  `MessagingException`; the model approximates that case by the same
  `MessageDeliveryException`. The transforming handler wraps what its transform throws in a
  `MessageTransformationException`, with the original as its cause.

The wall clock is the field `CircuitBreaker.now`, which `Sleep` advances.
The HTTP service is a parameter of type `Service`. It gives the service's
state, `Reachable` or `Unreachable(error)`, at each attempt number of a call,
so a retry can find the service up after a failed attempt.

## Model

Paths are relative to the repository root.

| member | source | states |
|---|---|---|
| CircuitBreakerApplication.FallbackParts | circuit-breaker/src/main/java/org/springframework/integration/microservices/circuitbreaker/CircuitBreakerApplication.java:60-66 | the fallback payload is the fixed notice followed by exactly the `toString()` of the error payload's cause, and the reply carries the failed request's headers unchanged |
| CircuitBreakerApplication.FallbackInjective | circuit-breaker/src/main/java/org/springframework/integration/microservices/circuitbreaker/CircuitBreakerApplication.java:63 | two fallback texts are equal if and only if their causes print the same, so the text determines the printed cause |
| CircuitBreakerApplication.FallbackNamesOpenException | circuit-breaker/src/test/java/org/springframework/integration/microservices/circuitbreaker/CircuitBreakerApplicationTests.java:30-33 | the fallback for a breaker refusal, which reaches the recovery channel inside the advices' holder exception, contains the notice and the class name `RequestHandlerCircuitBreakerAdvice$CircuitBreakerOpenException` |
| CircuitBreakerApplication.RestServiceReply | circuit-breaker/src/main/java/org/springframework/integration/microservices/circuitbreaker/CircuitBreakerApplication.java:49 | the service reply is `"Hello "` followed by the unchanged name; `"world"` gives `"Hello world"` |
| CircuitBreakerApplication.Causes | circuit-breaker/src/main/java/org/springframework/integration/microservices/circuitbreaker/CircuitBreakerApplication.java:93-96 | the cause chain starts with the failure itself, each element's cause is the next one, and the last has no cause |
| CircuitBreakerApplication.ContainsOpenIff | circuit-breaker/src/main/java/org/springframework/integration/microservices/circuitbreaker/CircuitBreakerApplication.java:93-96 | the cause-traversing classifier finds a refusal if and only if some failure in the cause chain is a `CircuitBreakerOpenException` |
| CircuitBreakerApplication.OpenNeverRetried | circuit-breaker/src/main/java/org/springframework/integration/microservices/circuitbreaker/CircuitBreakerApplication.java:93-96 | a failure with a refusal anywhere in its cause chain is never retried, under any policy and after any number of attempts |
| CircuitBreakerApplication.OthersAlwaysRetried | circuit-breaker/src/main/java/org/springframework/integration/microservices/circuitbreaker/CircuitBreakerApplication.java:84 | under `AlwaysRetryPolicy`, every failure without a refusal in its chain is retried, whatever the attempt count |
| CircuitBreakerApplication.HolderTransparent | circuit-breaker/src/main/java/org/springframework/integration/microservices/circuitbreaker/CircuitBreakerApplication.java:93-96 | the holder the advices wrap a failure in does not change the retry decision, since the classifier traverses causes |
| CircuitBreakerApplication.ClosedBreakerAdmits | circuit-breaker/src/main/java/org/springframework/integration/microservices/circuitbreaker/CircuitBreakerApplication.java:108-110 | while the failure count is below the threshold, every attempt is let through to the service and has the service's outcome |
| CircuitBreakerApplication.FailureOpensBreaker | circuit-breaker/src/main/java/org/springframework/integration/microservices/circuitbreaker/CircuitBreakerApplication.java:108-114 | the failure that reaches the threshold at time `t` is counted and time-stamped; every later attempt before `t + halfOpenAfter` is refused with `CircuitBreakerOpenException` and leaves the breaker unchanged, whatever the service does |
| CircuitBreakerApplication.HalfOpenAdmits | circuit-breaker/src/main/java/org/springframework/integration/microservices/circuitbreaker/CircuitBreakerApplication.java:112-114 | an attempt at or after `t + halfOpenAfter` following a failure at `t` is let through to the service, and if the service answers, the failure count goes back to 0 |
| CircuitBreakerApplication.RecoveredOutcome | circuit-breaker/src/main/java/org/springframework/integration/microservices/circuitbreaker/CircuitBreakerApplication.java:124-126 | with a recovery channel every request gets a reply under its own headers; when the loop gave up, the reply is the notice followed by the holder of the last failure, and it contains that failure's text |
| CircuitBreakerApplication.UnrecoveredOutcome | circuit-breaker/src/main/java/org/springframework/integration/microservices/circuitbreaker/CircuitBreakerApplication.java:124-126 | without a recovery channel a request ends in an exception exactly when the loop gave up, and the exception is the last failure |
| CircuitBreakerApplication.DeniedRun | circuit-breaker/src/test/java/org/springframework/integration/microservices/circuitbreaker/CircuitBreakerApplicationTests.java:35-39 | while the breaker refuses, a call ends after one attempt with the refusal, whatever state the service is in, and the breaker and clock are unchanged |
| CircuitBreakerApplication.ReachableRun | circuit-breaker/src/test/java/org/springframework/integration/microservices/circuitbreaker/CircuitBreakerApplicationTests.java:41-45 | an admitted call that finds the service up succeeds on the first attempt with `"Hello " + name` and resets the failure count |
| CircuitBreakerApplication.RetryRecovers | circuit-breaker/src/main/java/org/springframework/integration/microservices/circuitbreaker/CircuitBreakerApplication.java:84-87 | a first attempt that fails while the breaker stays below its threshold is retried one backoff later; a service that answers by then gives its reply after two attempts, with the failure count back at 0 |
| CircuitBreakerApplication.BackoffsTime | circuit-breaker/src/main/java/org/springframework/integration/microservices/circuitbreaker/CircuitBreakerApplication.java:85-87 | `n` fixed backoffs take `n` times the period |
| CircuitBreakerApplication.UnreachableRetries | circuit-breaker/src/main/java/org/springframework/integration/microservices/circuitbreaker/CircuitBreakerApplication.java:84-87 | with the service down and a backoff shorter than `halfOpenAfter`, every admitted retry fails and is counted, one backoff apart, until the threshold; the next attempt is refused and that refusal ends the loop |
| CircuitBreakerApplication.UnreachableRun | circuit-breaker/src/test/java/org/springframework/integration/microservices/circuitbreaker/CircuitBreakerApplicationTests.java:30-33 | a call that the breaker admits while the service stays down makes `max(1, threshold - failures)` failed attempts and then one refused attempt. The loop gives up with `CircuitBreakerOpenException`, the breaker has reached its threshold, and the clock has moved by that many backoffs |
| CircuitBreakerApplication.CircuitBreaker.constructor | circuit-breaker/src/main/java/org/springframework/integration/microservices/circuitbreaker/CircuitBreakerApplication.java:104-106 | a new flow adapter keeps its service and starts from the advice defaults, threshold 5 and 1000 ms, with nothing selected in the builder, no template and no recovery channel |
| CircuitBreakerApplication.CircuitBreaker.SetThreshold | circuit-breaker/src/main/java/org/springframework/integration/microservices/circuitbreaker/CircuitBreakerApplication.java:108-110 | sets the breaker threshold and changes nothing else |
| CircuitBreakerApplication.CircuitBreaker.SetHalfOpenAfter | circuit-breaker/src/main/java/org/springframework/integration/microservices/circuitbreaker/CircuitBreakerApplication.java:112-114 | sets the half-open delay and changes nothing else |
| CircuitBreakerApplication.CircuitBreaker.SetRetryPolicy | circuit-breaker/src/main/java/org/springframework/integration/microservices/circuitbreaker/CircuitBreakerApplication.java:116-118 | the first call selects the builder's policy; a later call throws `IllegalArgumentException` and keeps the earlier selection; nothing else changes |
| CircuitBreakerApplication.CircuitBreaker.SetBackOffPolicy | circuit-breaker/src/main/java/org/springframework/integration/microservices/circuitbreaker/CircuitBreakerApplication.java:120-122 | the first call selects a fixed backoff, whose period is the given one if positive and 1 ms otherwise; a later call throws `IllegalArgumentException` and keeps the earlier selection; nothing else changes |
| CircuitBreakerApplication.CircuitBreaker.SetRecoveryChannel | circuit-breaker/src/main/java/org/springframework/integration/microservices/circuitbreaker/CircuitBreakerApplication.java:124-126 | installs the recovery callback and changes nothing else |
| CircuitBreakerApplication.CircuitBreaker.BuildFlow | circuit-breaker/src/main/java/org/springframework/integration/microservices/circuitbreaker/CircuitBreakerApplication.java:128-135 | the retry advice gets a template built from the builder's selections: the selected policy, or three attempts when none was selected; the selected backoff period, or no backoff when none was selected |
| CircuitBreakerApplication.CircuitBreaker.Sleep | circuit-breaker/src/test/java/org/springframework/integration/microservices/circuitbreaker/CircuitBreakerApplicationTests.java:42 | the clock moves on by the given milliseconds |
| CircuitBreakerApplication.CircuitBreaker.Attempt | circuit-breaker/src/main/java/org/springframework/integration/microservices/circuitbreaker/CircuitBreakerApplication.java:133-134 | the in-place breaker advice does what `AttemptOnce` specifies, both for the attempt and for the new failure metadata |
| CircuitBreakerApplication.CircuitBreaker.Handle | circuit-breaker/src/main/java/org/springframework/integration/microservices/circuitbreaker/CircuitBreakerApplication.java:128-135 | the retry loop around the breaker, calling the service in its state at each attempt, leaves the metadata and clock where `Execute` ends, and replies or throws as `Conclude` says for that end |
| CircuitBreakerApplication.CircuitBreakerBean | circuit-breaker/src/main/java/org/springframework/integration/microservices/circuitbreaker/CircuitBreakerApplication.java:76-89 | the bean is configured with threshold 3, half-open after 500 ms, `AlwaysRetryPolicy`, a 100 ms fixed backoff and the recovery channel, and its flow is built |
| CircuitBreakerApplication.CircuitBreakerInAction | circuit-breaker/src/test/java/org/springframework/integration/microservices/circuitbreaker/CircuitBreakerApplicationTests.java:27-46 | the three calls of the scenario, for any connection failure without a refusal in its chain. Service down: fallback naming the open exception. Service up but breaker open: fallback. After the sleep: `"Hello world"` under the request's headers |
| FramerApplication.Entries | framer/src/main/java/org/springframework/integration/microservices/framer/FramerApplication.java:58-60 | the range stream has exactly `n` entries |
| FramerApplication.EntriesAt | framer/src/main/java/org/springframework/integration/microservices/framer/FramerApplication.java:58-60 | entry `s` has correlation id `key - s`, sequence number `s` and sequence size 3 |
| FramerApplication.KeepNonNegative | framer/src/main/java/org/springframework/integration/microservices/framer/FramerApplication.java:61 | the filter keeps no more entries than it is given, and only those with non-negative ids |
| FramerApplication.FilterKeepsPrefix | framer/src/main/java/org/springframework/integration/microservices/framer/FramerApplication.java:58-61 | since ids fall as sequence numbers rise, the filter keeps exactly the first `min(n, key + 1)` entries |
| FramerApplication.SplitWindowsShape | framer/src/main/java/org/springframework/integration/microservices/framer/FramerApplication.java:58-66 | key `n` yields `min(3, n + 1)` messages in ascending sequence number; message `s` carries the unchanged payload, correlation id `n - s >= 0` and sequence size 3 |
| FramerApplication.Payloads | framer/src/main/java/org/springframework/integration/microservices/framer/FramerApplication.java:47 | the released list has one payload per message of the group, in arrival order |
| FramerApplication.Aggregate | framer/src/main/java/org/springframework/integration/microservices/framer/FramerApplication.java:47-49 | a message joins only its own group. The group is released, with its payloads in order, exactly when it is complete, and a released group is no longer in the store. If nothing is released, the group has grown by the message |
| FramerApplication.AggregateKeepsPending | framer/src/main/java/org/springframework/integration/microservices/framer/FramerApplication.java:47-49 | the store never holds a complete group, and each group holds only its own correlation id |
| FramerApplication.OpenGroup | framer/src/main/java/org/springframework/integration/microservices/framer/FramerApplication.java:47-49 | the open group of id `k` after `n` inputs holds the `n - k` inputs from `k` on |
| FramerApplication.OpenGroupAt | framer/src/main/java/org/springframework/integration/microservices/framer/FramerApplication.java:47-49 | message `j` of the open group `k` carries input `k + j`, correlation id `k`, sequence number `j` and sequence size 3 |
| FramerApplication.PayloadsOfOpenGroup | framer/src/main/java/org/springframework/integration/microservices/framer/FramerApplication.java:47-49 | the payloads of the open group `k` are the inputs from `k` on, in order |
| FramerApplication.Released | framer/src/test/java/org/springframework/integration/microservices/framer/FramerApplicationTests.java:44-51 | after `n` inputs, `max(0, n - 2)` windows have been released |
| FramerApplication.ReleasedAt | framer/src/test/java/org/springframework/integration/microservices/framer/FramerApplicationTests.java:44-51 | released window `k` is the three inputs from `k` on, `h[k..k+3]` |
| FramerApplication.SendStep | framer/src/main/java/org/springframework/integration/microservices/framer/FramerApplication.java:44-50 | splitting and aggregating one more input takes the store from the open groups of the inputs so far to those of one more input. It releases exactly the windows that the longer input has beyond the shorter |
| FramerApplication.GroupCount | framer/src/test/java/org/springframework/integration/microservices/framer/FramerApplicationTests.java:55-56 | after `n` inputs the store holds `min(n, 2)` groups |
| FramerApplication.NewWindows | framer/src/main/java/org/springframework/integration/microservices/framer/FramerApplication.java:44-50 | the windows one more input releases are exactly those that the longer input has beyond the shorter |
| FramerApplication.SimpleMessageStore.constructor | framer/src/main/java/org/springframework/integration/microservices/framer/FramerApplication.java:26-28 | a new store holds no groups |
| FramerApplication.SimpleMessageStore.GetMessageGroupCount | framer/src/test/java/org/springframework/integration/microservices/framer/FramerApplicationTests.java:56 | the group count is the number of correlation ids in the store |
| FramerApplication.SimpleMessageStore.AddMessageToGroup | framer/src/main/java/org/springframework/integration/microservices/framer/FramerApplication.java:47-48 | the message is appended to its group, and no other group changes |
| FramerApplication.SimpleMessageStore.RemoveMessageGroup | framer/src/main/java/org/springframework/integration/microservices/framer/FramerApplication.java:49 | the group is removed, and no other group changes |
| FramerApplication.QueueChannel.constructor | framer/src/main/java/org/springframework/integration/microservices/framer/FramerApplication.java:50 | a new queue channel holds nothing and has delivered nothing |
| FramerApplication.QueueChannel.Send | framer/src/main/java/org/springframework/integration/microservices/framer/FramerApplication.java:50 | the element joins the end of the queue |
| FramerApplication.QueueChannel.Receive | framer/src/test/java/org/springframework/integration/microservices/framer/FramerApplicationTests.java:45-53 | `receive` returns the oldest queued element and removes it, or `null` on an empty queue; delivered elements followed by the queue never change |
| FramerApplication.Framer.constructor | framer/src/main/java/org/springframework/integration/microservices/framer/FramerApplication.java:39-41 | a framer over an empty store starts with no inputs, counter 0 and an empty output queue |
| FramerApplication.Framer.SlidingWindows | framer/src/main/java/org/springframework/integration/microservices/framer/FramerApplication.java:53-68 | the call takes the current counter value as its key, advances the counter by exactly one, and returns that key's messages |
| FramerApplication.Framer.HandleMessage | framer/src/main/java/org/springframework/integration/microservices/framer/FramerApplication.java:47-50 | the in-place aggregator updates the store as `Aggregate` says, and appends the released window to the output queue |
| FramerApplication.Framer.HandleMessages | framer/src/main/java/org/springframework/integration/microservices/framer/FramerApplication.java:46-50 | the splitter's messages are aggregated in order, as the fold `AggregateAll` says |
| FramerApplication.Framer.Send | framer/src/main/java/org/springframework/integration/microservices/framer/FramerApplication.java:44-50 | sending a payload keeps the invariant: the counter is the number of inputs, the store holds the open groups of the inputs, and delivered plus queued windows are the released windows. The queue gains exactly the new windows |
| FramerApplication.FramerIsSlidingDataIntoWindows | framer/src/test/java/org/springframework/integration/microservices/framer/FramerApplicationTests.java:34-57 | five prices give three windows `prices[k..k+3]` in order, no fourth window, and two groups left in the store |
| NormalizerApplication.Route | normalizer/src/main/java/org/springframework/integration/microservices/normalizer/NormalizerApplication.java:117-121 | the router picks the sub-flow mapped to the `contentType` header, and none when no mapping matches |
| NormalizerApplication.RouteByMediaType | normalizer/src/main/java/org/springframework/integration/microservices/normalizer/NormalizerApplication.java:117-121 | each sub-flow is chosen if and only if `contentType` is its media type: `application/xml`, `text/csv` or `application/properties` |
| NormalizerApplication.EnrichFileHeaders | normalizer/src/main/java/org/springframework/integration/microservices/normalizer/NormalizerApplication.java:71-73 | the enricher adds `contentType` `application/properties` and `replyChannel` `normalizerFilesOutput.input` where absent, and keeps every existing header |
| NormalizerApplication.FileInputRoute | normalizer/src/main/java/org/springframework/integration/microservices/normalizer/NormalizerApplication.java:60-75 | every file input takes the properties route, replies to the file output flow and keeps its file name |
| NormalizerApplication.SplitOn | normalizer/src/main/java/org/springframework/integration/microservices/normalizer/NormalizerApplication.java:131 | a split has at least one token and no token contains the delimiter |
| NormalizerApplication.SplitJoin | normalizer/src/main/java/org/springframework/integration/microservices/normalizer/NormalizerApplication.java:131 | splitting fields joined by the delimiter gives the same fields back when none of them contains the delimiter |
| NormalizerApplication.JoinSplit | normalizer/src/main/java/org/springframework/integration/microservices/normalizer/NormalizerApplication.java:131 | joining the tokens of a split gives the same text back |
| NormalizerApplication.SplitAppend | normalizer/src/main/java/org/springframework/integration/microservices/normalizer/NormalizerApplication.java:131 | a delimiter splits the text into the tokens before it and the tokens after it |
| NormalizerApplication.CsvToTransaction | normalizer/src/main/java/org/springframework/integration/microservices/normalizer/NormalizerApplication.java:130-139 | the CSV transform succeeds if and only if there are five fields and the id, the date and the amount parse. Fields 0 to 4 then become id, card number, date, amount and merchant. A bad id or date is a `NumberFormatException`; a missing field reached with every earlier field parsed is an `ArrayIndexOutOfBoundsException` |
| NormalizerApplication.ExtraFieldsIgnored | normalizer/src/main/java/org/springframework/integration/microservices/normalizer/NormalizerApplication.java:131-138 | text after the fifth field does not change the transaction |
| NormalizerApplication.CsvRoundTrip | normalizer/src/main/java/org/springframework/integration/microservices/normalizer/NormalizerApplication.java:130-139 | the CSV transform reads a transaction written as a comma-joined record, with card number and merchant free of commas, back as an equal transaction |
| NormalizerApplication.ParseNullableLong | normalizer/src/main/java/org/springframework/integration/microservices/normalizer/NormalizerApplication.java:146 | `Long.parseLong(null)` throws `NumberFormatException` |
| NormalizerApplication.ParseNullableDecimal | normalizer/src/main/java/org/springframework/integration/microservices/normalizer/NormalizerApplication.java:149 | `new BigDecimal(null)` throws `NullPointerException` |
| NormalizerApplication.PropertiesToTransaction | normalizer/src/main/java/org/springframework/integration/microservices/normalizer/NormalizerApplication.java:144-151 | the properties transform succeeds if and only if the id, date and amount keys hold parseable text; each of the five keys goes to its own field, and a missing card number or merchant stays `null` |
| NormalizerApplication.PropertiesReadsOnlyFiveKeys | normalizer/src/main/java/org/springframework/integration/microservices/normalizer/NormalizerApplication.java:146-150 | only the five `card-transaction.*` keys influence the transform |
| NormalizerApplication.PropertiesRoundTrip | normalizer/src/test/java/org/springframework/integration/microservices/normalizer/NormalizerApplicationTests.java:114-121 | a transaction stored under the five keys, with `toPlainString` for the amount, normalizes to an equal transaction |
| NormalizerApplication.NormalizeCsv | normalizer/src/main/java/org/springframework/integration/microservices/normalizer/NormalizerApplication.java:117-139 | a `text/csv` request normalizes to a transaction exactly when the id, date and amount fields parse, and the transaction holds the five fields; otherwise the caller gets the transform's exception as the cause of a `MessageTransformationException` |
| NormalizerApplication.NormalizeProperties | normalizer/src/main/java/org/springframework/integration/microservices/normalizer/NormalizerApplication.java:117-152 | an `application/properties` message normalizes to a transaction exactly when the id, date and amount keys parse, and the transaction holds the five keys' values; otherwise the caller gets the transform's exception as the cause of a `MessageTransformationException` |
| NormalizerApplication.NormalizeUnrouted | normalizer/src/main/java/org/springframework/integration/microservices/normalizer/NormalizerApplication.java:116-120 | a message without a `contentType` header, or with one that is none of the three media types, fails in the router with `MessageDeliveryException`, whatever its payload |
| NormalizerApplication.CsvRequestRoundTrip | normalizer/src/test/java/org/springframework/integration/microservices/normalizer/NormalizerApplicationTests.java:88-111 | the test's CSV request: a transaction written as a comma-joined record and posted as `text/csv` normalizes to an equal transaction |
| NormalizerApplication.BaseName | normalizer/src/main/java/org/springframework/integration/microservices/normalizer/NormalizerApplication.java:83 | `split("\\.")[0]` is the dot-free text before the first `.`. It throws `ArrayIndexOutOfBoundsException` exactly when the name is non-empty and all dots |
| NormalizerApplication.OutputFileName | normalizer/src/main/java/org/springframework/integration/microservices/normalizer/NormalizerApplication.java:82-83 | the output name is the base name followed by `.json`; a missing `file_name` header is a `NullPointerException` |
| NormalizerApplication.FileRoundTrip | normalizer/src/main/java/org/springframework/integration/microservices/normalizer/NormalizerApplication.java:60-83 | a transaction stored as `<base>.properties`, for a base name without a dot, is written as `<base>.json` holding an equal transaction |
| NormalizerApplication.TestCardTransactionFile | normalizer/src/test/java/org/springframework/integration/microservices/normalizer/NormalizerApplicationTests.java:123-136 | `testCardTransaction.properties` becomes `testCardTransaction.json` holding an equal transaction |
| Numbers.DigitsRoundTrip | normalizer/src/main/java/org/springframework/integration/microservices/normalizer/NormalizerApplication.java:133 | the decimal digits of `n` read back as `n` |
| Numbers.LeadingZerosValue | normalizer/src/main/java/org/springframework/integration/microservices/normalizer/NormalizerApplication.java:136 | leading zeros do not change the value of a digit string |
| Numbers.ParseLong | normalizer/src/main/java/org/springframework/integration/microservices/normalizer/NormalizerApplication.java:133-135 | `Long.parseLong` accepts only an optional sign followed by digits, and otherwise throws only `NumberFormatException`; unsigned digits give their value |
| Numbers.LongRoundTrip | normalizer/src/test/java/org/springframework/integration/microservices/normalizer/NormalizerApplicationTests.java:90-94 | `Long.parseLong(String.valueOf(n))` is `n` for every `long` |
| Numbers.ParseDecimal | normalizer/src/main/java/org/springframework/integration/microservices/normalizer/NormalizerApplication.java:136 | `new BigDecimal(String)` throws only `NumberFormatException`, and never accepts empty text |
| Numbers.DecimalRoundTrip | normalizer/src/test/java/org/springframework/integration/microservices/normalizer/NormalizerApplicationTests.java:120 | `new BigDecimal(d.toPlainString())` equals `d`, unscaled value and scale both |
| Transactions.CreditCardTransaction.constructor | normalizer/src/main/java/org/springframework/integration/microservices/normalizer/CreditCardTransaction.java:14-22 | a new bean has all five properties `null` |
| Transactions.CreditCardTransaction.SetId | normalizer/src/main/java/org/springframework/integration/microservices/normalizer/CreditCardTransaction.java:24-30 | the getter returns the value given, and no other property changes |
| Transactions.CreditCardTransaction.SetCardNumber | normalizer/src/main/java/org/springframework/integration/microservices/normalizer/CreditCardTransaction.java:32-38 | the getter returns the value given, and no other property changes |
| Transactions.CreditCardTransaction.SetTransactionDate | normalizer/src/main/java/org/springframework/integration/microservices/normalizer/CreditCardTransaction.java:40-46 | the getter returns the value given, and no other property changes |
| Transactions.CreditCardTransaction.SetAmount | normalizer/src/main/java/org/springframework/integration/microservices/normalizer/CreditCardTransaction.java:48-54 | the getter returns the value given, and no other property changes |
| Transactions.CreditCardTransaction.SetMerchant | normalizer/src/main/java/org/springframework/integration/microservices/normalizer/CreditCardTransaction.java:56-62 | the getter returns the value given, and no other property changes |
| Transactions.CreditCardTransaction.Equals | normalizer/src/main/java/org/springframework/integration/microservices/normalizer/CreditCardTransaction.java:64-74 | `equals` holds if and only if the other object is a transaction whose five properties are pairwise equal, with `null` equal to `null`. It is reflexive, and false for `null` and for other classes |
| Transactions.Build | normalizer/src/main/java/org/springframework/integration/microservices/normalizer/NormalizerApplication.java:132-138 | a transform's fresh bean, filled through the five setters, holds exactly the given properties |
| Transactions.EqualsSymmetric | normalizer/src/main/java/org/springframework/integration/microservices/normalizer/CreditCardTransaction.java:69-73 | `equals` is symmetric |
| Transactions.EqualsTransitive | normalizer/src/main/java/org/springframework/integration/microservices/normalizer/CreditCardTransaction.java:69-73 | `equals` is transitive |
| Transactions.HashCodeConsistent | normalizer/src/main/java/org/springframework/integration/microservices/normalizer/CreditCardTransaction.java:76-79 | equal transactions have equal hash codes |
| Orders.ShoppingOrder.constructor | outbox/src/main/java/org/springframework/integration/microservices/outbox/ShoppingOrder.java:17-25 | a new order has id 0 and a `null` name and amount |
| Orders.ShoppingOrder.SetId | outbox/src/main/java/org/springframework/integration/microservices/outbox/ShoppingOrder.java:27-33 | the getter returns the value given, and no other field changes |
| Orders.ShoppingOrder.SetName | outbox/src/main/java/org/springframework/integration/microservices/outbox/ShoppingOrder.java:35-41 | the getter returns the value given, and no other field changes |
| Orders.ShoppingOrder.SetAmount | outbox/src/main/java/org/springframework/integration/microservices/outbox/ShoppingOrder.java:43-49 | the getter returns the value given, and no other field changes |
| Orders.ShoppingOrder.Equals | outbox/src/main/java/org/springframework/integration/microservices/outbox/ShoppingOrder.java:51-57 | `equals` returns true if and only if the other object is this order, or an order with the same id and equal, non-null name and amount. It is reflexive and false for `null` and other classes. It throws `NullPointerException` exactly when the ids match and the receiver's own name, or its amount after equal names, is `null` |
| Orders.EqualsSymmetric | outbox/src/main/java/org/springframework/integration/microservices/outbox/ShoppingOrder.java:56 | between orders whose names and amounts are set, `equals` returns normally and is symmetric |
| Orders.NullNameThrows | outbox/src/main/java/org/springframework/integration/microservices/outbox/ShoppingOrder.java:56 | comparing from an order with a `null` name throws; the reverse comparison, from an order with a name, returns false |
| Orders.HashCodeConsistent | outbox/src/main/java/org/springframework/integration/microservices/outbox/ShoppingOrder.java:59-62 | equal orders have equal hash codes |
| JavaLang.Wrap32 | normalizer/src/main/java/org/springframework/integration/microservices/normalizer/CreditCardTransaction.java:78 | 32-bit `int` arithmetic: the result differs from the exact value by a multiple of 2^32, and equals it inside the `int` range |

## Left out

- HTTP inbound and outbound gateways, file polling, file writing and channel delivery are not modelled. The HTTP service is the `Service` parameter, and a file's loaded properties are a map.
- JAXB unmarshalling of XML is not modelled: the XML sub-flow yields `UnmarshalledXml` holding its payload. Jackson's JSON output of the properties sub-flow is also not modelled; the model keeps the transaction bean.
- The library rules of `RequestHandlerCircuitBreakerAdvice`, `RequestHandlerRetryAdvice`, `RetryTemplate`, `ErrorMessageSendingRecoverer` and the sequence-size release strategy are assumptions, stated as `Denies`, `AttemptOnce`, `CanRetry`, `Conclude` and `CanRelease`. No other guarantee, such as a single half-open probe, is claimed.
- Concurrency is not modelled: the breaker's thread safety, concurrent callers, and the atomicity of the framer's `AtomicLong`. The counter is an ordinary `nat` field, with no wrap-around at 2^63.
- Real time is the field `now`, which `Sleep` advances. An HTTP call takes no time.
- CircuitBreakerApplication.CircuitBreaker.Handle: requires that the loop terminates: a cap of at least one attempt, or under `AlwaysRetryPolicy` a backoff shorter than `halfOpenAfter`. Without it, the Java loop retries an unreachable service forever, because the breaker never refuses.
- CircuitBreakerApplication.RetryPolicy: `MaxAttempts(0)` is not given a meaning, and `Handle` excludes it through `Terminates`. `RetryTemplateBuilder`'s default of three attempts is assumed.
- CircuitBreakerApplication.CircuitBreaker.SetRetryPolicy: only `AlwaysRetryPolicy` and `MaxAttemptsRetryPolicy` can be passed, where the Java setter takes any `RetryPolicy`. A `null` policy cannot be passed. The `IllegalArgumentException` for a second selection is assumed from `RetryTemplateBuilder.customPolicy`, which is not part of this model.
- CircuitBreakerApplication.CircuitBreaker.SetBackOffPolicy: only a `FixedBackOffPolicy`, given by its period, can be passed, where the Java setter takes any `BackOffPolicy`. A `null` policy cannot be passed. The `IllegalArgumentException` for a second selection, and the 1 ms that a period of at most 0 becomes, are assumed from `RetryTemplateBuilder.customBackoff` and `FixedBackOffPolicy`, which are not part of this model.
- CircuitBreakerApplication.Denies: ignores the overflow of `now - lastFailure` in `long` arithmetic.
- CircuitBreakerApplication.Conclude: the holder and the recoverer's wrapping are assumptions about library code. Any further wrapping inside the breaker advice, and the exact text of the `MessagingException`'s own message, are not modelled.
- CircuitBreakerApplication.Service: the service's state depends only on the attempt number within one call, not on the clock.
- NormalizerApplication.Normalize: a `contentType` value that maps to no sub-flow gives `MessageDeliveryException` in the model, where the router fails resolving the value as a channel name with a `MessagingException`.
- NormalizerApplication.Normalize: a payload of the wrong type for its sub-flow is modelled as a `ClassCastException` inside the transformation exception. That stands for the library's payload conversion failure, whose exact class is not modelled. So does any further wrapping of the exception by the HTTP inbound gateway on its way to the caller.
- CircuitBreakerApplication.Describe: always prints `": "` and the message; `Throwable.toString()` with a `null` message is not modelled.
- CircuitBreakerApplication.CircuitBreakerOpen: the exact message text of the library's `CircuitBreakerOpenException` is an assumption; only its class name is asserted.
- CircuitBreakerApplication.CircuitBreakerInAction: requires the pause between the first and second call to be under 400 ms, so that the second call falls inside the half-open delay; the test relies on this without stating it. The connection failure may be any failure with no refusal in its cause chain.
- FramerApplication.Framer.constructor: requires an empty store, as the application's fresh `SimpleMessageStore` bean is.
- FramerApplication.SimpleMessageStore: only the group operations the aggregator uses are modelled.
- Numbers.ParseDecimal: accepts only plain decimal strings. The exponent forms of `new BigDecimal(String)`, such as `1E+3`, are not modelled and give `NumberFormatException` in the model.
- Numbers.ParseLong: accepts only ASCII digits; `Character.digit`'s other Unicode digits are not modelled.
- NormalizerApplication.CsvRecord: writes the amount with `toPlainString()`, where the test writes `BigDecimal.toString()`. The two agree except when `toString()` picks exponent notation.
- NormalizerApplication.TransactionProperties: `Properties.store` and `load` (escaping, comments) are not modelled; the written map is the loaded map.
- The `java.util.Date` of a transaction is its epoch milliseconds, and `Date.hashCode` is taken as `Long.hashCode` of them.
- JavaLang.StringHash: takes each character as its code point, which agrees with Java's UTF-16 code units only outside the supplementary planes.
- The JPA annotations of `ShoppingOrder` (`@GeneratedValue`, `nullable = false`) are not modelled; `equals` is modelled for every field value, `null` included.
- The distributed-tracing, outbox flow and mrpc modules are message-broker and persistence wiring, and are not part of this model.
