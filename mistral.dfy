/**
  The upstream AI call policy of backend/app/services/ai/mistral.py: a
  three-state circuit breaker, a bounded retry loop that classifies every
  answer of the chat-completions endpoint, ordered model fallback on an
  invalid-model answer, and the extraction of the reply text from the
  response body.

  The network and the clock are an oracle: `env(k)` is what happens around
  the k-th post the client makes (the clock reading when the breaker is
  consulted, the outcome of the post, and the clock reading after it).
  Clock readings are integers in microseconds.
*/
module Mistral {
  import opened Wrappers
  import opened JsonValue
  import opened Http
  import Text

  // ================================================================ circuit breaker

  datatype Phase = Closed | Open | HalfOpen

  datatype BreakerState = BreakerState(count: nat, phase: Phase, openedAt: int)

  /** A fresh breaker: no failures, closed, opened at time 0. */
  const InitialBreaker := BreakerState(0, Closed, 0)

  /** The breaker invariant: a breaker that is not closed has seen at least
      `threshold` failures since its last success. */
  predicate BreakerInv(s: BreakerState, threshold: int) {
    s.phase != Closed ==> s.count >= threshold
  }

  /** `record_success`. */
  function Succeed(s: BreakerState): (r: BreakerState)
    ensures r.count == 0 && r.phase == Closed
  {
    BreakerState(0, Closed, s.openedAt)
  }

  /** `record_failure` at clock reading `now`. */
  function Fail(s: BreakerState, threshold: int, now: int): (r: BreakerState)
    ensures r.count == s.count + 1
    ensures r.count >= threshold ==> r.phase == Open && r.openedAt == now
    ensures r.count < threshold ==> r.phase == s.phase && r.openedAt == s.openedAt
  {
    if s.count + 1 >= threshold then BreakerState(s.count + 1, Open, now)
    else BreakerState(s.count + 1, s.phase, s.openedAt)
  }

  datatype Admission = Admission(allowed: bool, next: BreakerState)

  /** `allows_request` at clock reading `now`. */
  function Admit(s: BreakerState, recoverySeconds: int, now: int): (r: Admission)
    ensures r.next.count == s.count && r.next.openedAt == s.openedAt
    ensures s.phase != Open ==> r == Admission(true, s)
    ensures s.phase == Open ==> (r.allowed <==> now - s.openedAt > recoverySeconds * MicrosPerSecond)
    ensures s.phase == Open ==> r.next.phase == (if r.allowed then HalfOpen else Open)
  {
    match s.phase
    case Closed => Admission(true, s)
    case Open =>
      if now - s.openedAt > recoverySeconds * MicrosPerSecond then Admission(true, s.(phase := HalfOpen))
      else Admission(false, s)
    case HalfOpen => Admission(true, s)
  }

  lemma BreakerInvPreserved(s: BreakerState, threshold: int, recoverySeconds: int, now: int)
    requires BreakerInv(s, threshold)
    ensures BreakerInv(Succeed(s), threshold)
    ensures BreakerInv(Fail(s, threshold, now), threshold)
    ensures BreakerInv(Admit(s, recoverySeconds, now).next, threshold)
  {
  }

  /** Applies `record_failure` once per clock reading in `times`. */
  function FailAll(s: BreakerState, threshold: int, times: seq<int>): BreakerState
  {
    if times == [] then s else Fail(FailAll(s, threshold, times[..|times| - 1]), threshold, times[|times| - 1])
  }

  /** From a reset breaker, `n` consecutive failures leave the count at `n` and
      open the breaker exactly when `n` reaches the threshold, stamped with the
      last failure's clock reading. */
  lemma {:induction false} ConsecutiveFailures(s: BreakerState, threshold: int, times: seq<int>)
    requires s.count == 0 && s.phase == Closed && threshold >= 1
    ensures FailAll(s, threshold, times).count == |times|
    ensures FailAll(s, threshold, times).phase == Open <==> |times| >= threshold
    ensures |times| >= threshold ==> FailAll(s, threshold, times).openedAt == times[|times| - 1]
    ensures FailAll(s, threshold, times).phase != HalfOpen
  {
    if times != [] {
      ConsecutiveFailures(s, threshold, times[..|times| - 1]);
    }
  }

  /** At exactly `recovery_seconds` after opening, the breaker still refuses. */
  lemma RecoveryIsStrict(s: BreakerState, recoverySeconds: int)
    requires s.phase == Open
    ensures !Admit(s, recoverySeconds, s.openedAt + recoverySeconds * MicrosPerSecond).allowed
    ensures Admit(s, recoverySeconds, s.openedAt + recoverySeconds * MicrosPerSecond + 1).allowed
  {
  }

  /** Applies `allows_request` once per clock reading, collecting the answers. */
  function AdmitAll(s: BreakerState, recoverySeconds: int, times: seq<int>): (BreakerState, seq<bool>)
    decreases |times|
  {
    if times == [] then (s, [])
    else
      var a := Admit(s, recoverySeconds, times[0]);
      var rest := AdmitAll(a.next, recoverySeconds, times[1..]);
      (rest.0, [a.allowed] + rest.1)
  }

  /** A half-open breaker admits every request, not only a single trial. */
  lemma {:induction false} HalfOpenAdmitsAll(s: BreakerState, recoverySeconds: int, times: seq<int>)
    requires s.phase == HalfOpen
    ensures AdmitAll(s, recoverySeconds, times).0 == s
    ensures |AdmitAll(s, recoverySeconds, times).1| == |times|
    ensures forall i :: 0 <= i < |times| ==> AdmitAll(s, recoverySeconds, times).1[i]
  {
    if times != [] {
      HalfOpenAdmitsAll(s, recoverySeconds, times[1..]);
    }
  }

  /** The count is not reset on the way to half-open, so one failure there
      re-opens the breaker and re-stamps the opening time. */
  lemma HalfOpenFailureReopens(s: BreakerState, threshold: int, now: int)
    requires BreakerInv(s, threshold) && s.phase == HalfOpen
    ensures Fail(s, threshold, now) == BreakerState(s.count + 1, Open, now)
  {
  }

  class Breaker {
    const failureThreshold: int
    const recoverySeconds: int
    var failureCount: nat
    var phase: Phase
    var openedAt: int

    function State(): BreakerState
      reads this
    {
      BreakerState(failureCount, phase, openedAt)
    }

    constructor (failureThreshold: int, recoverySeconds: int)
      ensures this.failureThreshold == failureThreshold && this.recoverySeconds == recoverySeconds
      ensures State() == InitialBreaker
    {
      this.failureThreshold := failureThreshold;
      this.recoverySeconds := recoverySeconds;
      failureCount := 0;
      phase := Closed;
      openedAt := 0;
    }

    method RecordSuccess()
      modifies this
      ensures State() == Succeed(old(State()))
    {
      failureCount := 0;
      if phase != Closed {
        phase := Closed;
      }
    }

    method RecordFailure(now: int)
      modifies this
      ensures State() == Fail(old(State()), failureThreshold, now)
    {
      failureCount := failureCount + 1;
      if failureCount >= failureThreshold {
        phase := Open;
        openedAt := now;
      }
    }

    method AllowsRequest(now: int) returns (allowed: bool)
      modifies this
      ensures Admission(allowed, State()) == Admit(old(State()), recoverySeconds, now)
    {
      if phase == Closed {
        return true;
      }
      if phase == Open {
        if now - openedAt > recoverySeconds * MicrosPerSecond {
          phase := HalfOpen;
          return true;
        }
        return false;
      }
      return true;
    }
  }

  // ================================================================ client configuration

  datatype ChatMessage = ChatMessage(role: string, content: string)

  /** The request body. The temperature is in hundredths (0.3 is 30). */
  datatype Payload = Payload(model: string, messages: seq<ChatMessage>, maxTokens: int, temperature: int)

  datatype Config = Config(
    apiKey: string,
    defaultModel: string,
    fallbackModels: seq<string>,
    maxRetries: int,
    failureThreshold: int,
    recoverySeconds: int)

  datatype ConfigError = MissingApiKey

  /** The constructor's checks and defaults: an empty key is refused, and
      absent fallbacks become ["mistral-small", "mistral-tiny"]. */
  function Configure(apiKey: string, defaultModel: string, fallbackModels: Option<seq<string>>,
                     maxRetries: int, failureThreshold: int, recoverySeconds: int): (r: Result<Config, ConfigError>)
    ensures r.Err? <==> apiKey == []
    ensures r.Ok? ==> r.value.fallbackModels == fallbackModels.GetOr(["mistral-small", "mistral-tiny"])
    ensures r.Ok? ==> r.value.maxRetries == maxRetries && r.value.defaultModel == defaultModel
  {
    if apiKey == [] then Err(MissingApiKey)
    else Ok(Config(apiKey, defaultModel, fallbackModels.GetOr(["mistral-small", "mistral-tiny"]),
                   maxRetries, failureThreshold, recoverySeconds))
  }

  /** The constructor with every default argument. */
  function DefaultConfig(apiKey: string): Result<Config, ConfigError> {
    Configure(apiKey, "mistral-medium", None, 2, 4, 60)
  }

  // ================================================================ the retry loop

  datatype PostOutcome = Response(status: int, body: Json) | RequestError

  /** What surrounds the k-th post: the clock when the breaker is consulted,
      the outcome, and the clock when a failure is recorded. */
  datatype Step = Step(checkAt: int, outcome: PostOutcome, doneAt: int)

  const CircuitOpenError := HttpError(503, JStr("Service temporarily unavailable (circuit open)"))
  const ExhaustedError := HttpError(503, JStr("Mistral API unavailable after retries"))

  predicate IsTransient(o: PostOutcome) {
    o.RequestError? || o.status == 429 || o.status == 502 || o.status == 503
  }

  /** A 400 whose dict body carries a message mentioning "Invalid model". */
  predicate IsInvalidModel(o: PostOutcome) {
    o.Response? && o.status == 400 && IsDict(o.body)
    && Text.Contains(PyStr(GetOr(o.body, "message", JStr(""))), "Invalid model")
  }

  datatype RetryOut = RetryOut(result: Result<Json, HttpError>, breaker: BreakerState, next: nat)

  /** One pass of the loop body of `_request_with_retry`: `verdict` is `None`
      when the loop goes on, and `posted` says whether a request went out. */
  datatype AttemptOut = AttemptOut(verdict: Option<Result<Json, HttpError>>, breaker: BreakerState, posted: bool)

  /** The loop body: the breaker check, then the classification of the answer. */
  function TryOnce(cfg: Config, b: BreakerState, step: Step): (s: AttemptOut)
    ensures !s.posted ==> s.verdict == Some(Err(CircuitOpenError))
    ensures s.verdict.None? ==> s.posted && IsTransient(step.outcome)
  {
    var a := Admit(b, cfg.recoverySeconds, step.checkAt);
    if !a.allowed then AttemptOut(Some(Err(CircuitOpenError)), a.next, false)
    else if IsTransient(step.outcome) then AttemptOut(None, Fail(a.next, cfg.failureThreshold, step.doneAt), true)
    else if step.outcome.status == 200 then AttemptOut(Some(Ok(step.outcome.body)), Succeed(a.next), true)
    else if IsInvalidModel(step.outcome) then AttemptOut(Some(Err(HttpError(400, step.outcome.body))), a.next, true)
    else
      AttemptOut(Some(Err(HttpError(502, JObj([Member("status", JInt(step.outcome.status)), Member("body", step.outcome.body)])))),
                 Fail(a.next, cfg.failureThreshold, step.doneAt), true)
  }

  /** After an admitted check, each answer moves the breaker as the loop body
      says: a transient outcome and a non-retriable status other than an
      invalid model record one failure at the reading after the post, a 200
      resets the breaker, and an invalid-model 400 leaves it as admitted. */
  lemma TryOnceBreaker(cfg: Config, b: BreakerState, step: Step)
    requires Admit(b, cfg.recoverySeconds, step.checkAt).allowed
    ensures var a := Admit(b, cfg.recoverySeconds, step.checkAt).next;
      var s := TryOnce(cfg, b, step);
      && s.posted
      && (IsTransient(step.outcome) ==> s.breaker == Fail(a, cfg.failureThreshold, step.doneAt) && s.breaker.count == a.count + 1)
      && (!IsTransient(step.outcome) && step.outcome.status != 200 && !IsInvalidModel(step.outcome) ==>
            s.breaker == Fail(a, cfg.failureThreshold, step.doneAt) && s.breaker.count == a.count + 1)
      && (!IsTransient(step.outcome) && step.outcome.status == 200 ==> s.breaker == Succeed(a))
      && (!IsTransient(step.outcome) && step.outcome.status != 200 && IsInvalidModel(step.outcome) ==> s.breaker == a)
  {
  }

  /** `_request_with_retry` from attempt number `attempt` on, with the breaker in
      state `b` and `k` posts made so far. */
  function RetryFrom(cfg: Config, b: BreakerState, env: nat -> Step, k: nat, attempt: nat): (out: RetryOut)
    ensures out.next >= k
    decreases cfg.maxRetries - attempt + 1
  {
    if attempt > cfg.maxRetries then RetryOut(Err(ExhaustedError), b, k)
    else
      var s := TryOnce(cfg, b, env(k));
      var next := if s.posted then k + 1 else k;
      if s.verdict.None? then RetryFrom(cfg, s.breaker, env, next, attempt + 1)
      else RetryOut(s.verdict.value, s.breaker, next)
  }

  /** One turn of the retry loop: a verdict ends it, `None` goes on to the
      next attempt after one post. */
  lemma RetryStep(cfg: Config, b: BreakerState, env: nat -> Step, k: nat, attempt: nat)
    requires attempt <= cfg.maxRetries
    ensures var s := TryOnce(cfg, b, env(k));
      && (s.verdict.Some? ==> RetryFrom(cfg, b, env, k, attempt) == RetryOut(s.verdict.value, s.breaker, if s.posted then k + 1 else k))
      && (s.verdict.None? ==> RetryFrom(cfg, b, env, k, attempt) == RetryFrom(cfg, s.breaker, env, k + 1, attempt + 1))
  {
  }

  /** At most `max_retries` posts, and the breaker is consulted before each. */
  lemma {:induction false} RetryPostsAtMost(cfg: Config, b: BreakerState, env: nat -> Step, k: nat, attempt: nat)
    requires attempt >= 1
    ensures var out := RetryFrom(cfg, b, env, k, attempt);
      out.next - k <= if cfg.maxRetries >= attempt then cfg.maxRetries - attempt + 1 else 0
    decreases cfg.maxRetries - attempt + 1
  {
    if attempt <= cfg.maxRetries {
      var s := TryOnce(cfg, b, env(k));
      if s.verdict.None? {
        RetryPostsAtMost(cfg, s.breaker, env, k + 1, attempt + 1);
      }
    }
  }

  /** How each result of the retry loop arises. A success is the body of a 200
      and closes the breaker; a 400 is an invalid-model answer passed through;
      a 502 wraps the status and body of a non-retriable answer; a 503 means
      every post so far was transient, and either the breaker refused or all
      attempts were spent. */
  lemma {:induction false} RetryClassified(cfg: Config, b: BreakerState, env: nat -> Step, k: nat, attempt: nat)
    requires attempt >= 1
    ensures var out := RetryFrom(cfg, b, env, k, attempt);
      && (out.result.Ok? ==>
            out.next > k && env(out.next - 1).outcome == Response(200, out.result.value)
            && out.breaker.count == 0 && out.breaker.phase == Closed)
      && (out.result.Err? && out.result.error.status == 400 ==>
            out.next > k && IsInvalidModel(env(out.next - 1).outcome)
            && out.result.error.detail == env(out.next - 1).outcome.body)
      && (out.result.Err? && out.result.error.status == 502 ==>
            out.next > k && !IsTransient(env(out.next - 1).outcome) && !IsInvalidModel(env(out.next - 1).outcome)
            && env(out.next - 1).outcome.status != 200)
      && (out.result.Err? && out.result.error.status == 503 ==>
            (forall j :: k <= j < out.next ==> IsTransient(env(j).outcome))
            && (out.result.error == CircuitOpenError || out.result.error == ExhaustedError))
      && (out.result.Err? ==> out.result.error.status in {400, 502, 503})
    decreases cfg.maxRetries - attempt + 1
  {
    if attempt <= cfg.maxRetries {
      var s := TryOnce(cfg, b, env(k));
      if s.verdict.None? {
        RetryClassified(cfg, s.breaker, env, k + 1, attempt + 1);
      }
    }
  }

  /** A refused breaker check raises 503 without posting. */
  lemma RetryDeniedWithoutPost(cfg: Config, b: BreakerState, env: nat -> Step, k: nat)
    requires cfg.maxRetries >= 1
    requires !Admit(b, cfg.recoverySeconds, env(k).checkAt).allowed
    ensures RetryFrom(cfg, b, env, k, 1) == RetryOut(Err(CircuitOpenError), b, k)
  {
  }

  /** An invalid-model answer is not recorded as a breaker failure. */
  lemma InvalidModelNotAFailure(cfg: Config, b: BreakerState, env: nat -> Step, k: nat)
    requires cfg.maxRetries >= 1 && b.phase != Open
    requires IsInvalidModel(env(k).outcome)
    ensures RetryFrom(cfg, b, env, k, 1) == RetryOut(Err(HttpError(400, env(k).outcome.body)), b, k + 1)
  {
  }

  // ================================================================ fallback

  datatype ChatOut = ChatOut(result: Result<string, HttpError>, breaker: BreakerState, posted: seq<string>)

  function Repeat(m: string, n: nat): (r: seq<string>)
    ensures |r| == n && forall i :: 0 <= i < n ==> r[i] == m
  {
    seq(n, _ => m)
  }

  /** The fallback loop of `chat` from index `i` of `fbs` on, re-raising `orig`
      when no fallback succeeds. */
  function FallbackFrom(cfg: Config, b: BreakerState, env: nat -> Step, k: nat,
                        fbs: seq<string>, i: nat, model: string, orig: HttpError): (out: ChatOut)
    requires i <= |fbs|
    decreases |fbs| - i
  {
    if i == |fbs| then ChatOut(Err(orig), b, [])
    else if fbs[i] == model then FallbackFrom(cfg, b, env, k, fbs, i + 1, model, orig)
    else
      var r := RetryFrom(cfg, b, env, k, 1);
      var sent := Repeat(fbs[i], r.next - k);
      if r.result.Ok? then ChatOut(Ok(ExtractText(r.result.value)), r.breaker, sent)
      else
        var rest := FallbackFrom(cfg, r.breaker, env, r.next, fbs, i + 1, model, orig);
        ChatOut(rest.result, rest.breaker, sent + rest.posted)
  }

  /** `chat`: the requested (or default) model first, then the fallbacks on a 400. */
  function ChatSpec(cfg: Config, b: BreakerState, env: nat -> Step, k: nat, model: Option<string>): ChatOut
  {
    var m := model.GetOr(cfg.defaultModel);
    var r := RetryFrom(cfg, b, env, k, 1);
    var sent := Repeat(m, r.next - k);
    match r.result
    case Ok(body) => ChatOut(Ok(ExtractText(body)), r.breaker, sent)
    case Err(e) =>
      if e.status == 400 && cfg.fallbackModels != [] then
        var rest := FallbackFrom(cfg, r.breaker, env, r.next, cfg.fallbackModels, 0, m, e);
        ChatOut(rest.result, rest.breaker, sent + rest.posted)
      else ChatOut(Err(e), r.breaker, sent)
  }

  /** The fallback loop posts only fallbacks from index `i` on, never the
      requested model, and its only error is the original one. */
  lemma {:induction false} FallbackFacts(cfg: Config, b: BreakerState, env: nat -> Step, k: nat,
                                         fbs: seq<string>, i: nat, model: string, orig: HttpError)
    requires i <= |fbs|
    ensures var out := FallbackFrom(cfg, b, env, k, fbs, i, model, orig);
      && (forall x :: x in out.posted ==> x != model && x in fbs[i..])
      && (out.result.Err? ==> out.result.error == orig)
    decreases |fbs| - i
  {
    if i < |fbs| {
      if fbs[i] == model {
        FallbackFacts(cfg, b, env, k, fbs, i + 1, model, orig);
      } else {
        var r := RetryFrom(cfg, b, env, k, 1);
        if r.result.Err? {
          FallbackFacts(cfg, r.breaker, env, r.next, fbs, i + 1, model, orig);
        }
      }
    }
  }

  /** What the fallback loop has done so far: `done` models posted, and the
      rest of the loop from `(b, k, i)` finishes what the whole loop does. */
  ghost predicate FallbackInv(cfg: Config, b0: BreakerState, k0: nat, b: BreakerState, k: nat, env: nat -> Step,
                              fbs: seq<string>, i: nat, model: string, orig: HttpError, done: seq<string>)
  {
    i <= |fbs| && k == k0 + |done| &&
    var rest := FallbackFrom(cfg, b, env, k, fbs, i, model, orig);
    var whole := FallbackFrom(cfg, b0, env, k0, fbs, 0, model, orig);
    whole.result == rest.result && whole.breaker == rest.breaker && whole.posted == done + rest.posted
  }

  lemma FallbackSkip(cfg: Config, b0: BreakerState, k0: nat, b: BreakerState, k: nat, env: nat -> Step,
                     fbs: seq<string>, i: nat, model: string, orig: HttpError, done: seq<string>)
    requires FallbackInv(cfg, b0, k0, b, k, env, fbs, i, model, orig, done) && i < |fbs| && fbs[i] == model
    ensures FallbackInv(cfg, b0, k0, b, k, env, fbs, i + 1, model, orig, done)
  {
  }

  lemma FallbackTry(cfg: Config, b0: BreakerState, k0: nat, b: BreakerState, k: nat, env: nat -> Step,
                    fbs: seq<string>, i: nat, model: string, orig: HttpError, done: seq<string>)
    requires FallbackInv(cfg, b0, k0, b, k, env, fbs, i, model, orig, done) && i < |fbs| && fbs[i] != model
    ensures var r := RetryFrom(cfg, b, env, k, 1);
      var sent := Repeat(fbs[i], r.next - k);
      var whole := FallbackFrom(cfg, b0, env, k0, fbs, 0, model, orig);
      && (r.result.Ok? ==> whole == ChatOut(Ok(ExtractText(r.result.value)), r.breaker, done + sent))
      && (r.result.Err? ==> FallbackInv(cfg, b0, k0, r.breaker, r.next, env, fbs, i + 1, model, orig, done + sent))
  {
    var r := RetryFrom(cfg, b, env, k, 1);
    var sent := Repeat(fbs[i], r.next - k);
    var rest := FallbackFrom(cfg, r.breaker, env, r.next, fbs, i + 1, model, orig);
    assert (done + sent) + rest.posted == done + (sent + rest.posted);
  }

  /** A failure other than 400 propagates untouched and nothing else is tried. */
  lemma ChatPropagatesOtherErrors(cfg: Config, b: BreakerState, env: nat -> Step, k: nat, model: Option<string>)
    requires var r := RetryFrom(cfg, b, env, k, 1); r.result.Err? && r.result.error.status != 400
    ensures var r := RetryFrom(cfg, b, env, k, 1);
      ChatSpec(cfg, b, env, k, model) == ChatOut(Err(r.result.error), r.breaker, Repeat(model.GetOr(cfg.defaultModel), r.next - k))
  {
  }

  /** When the requested model is refused and no fallback succeeds, `chat`
      re-raises the original 400; the requested model is never re-posted. */
  lemma ChatFallbackFacts(cfg: Config, b: BreakerState, env: nat -> Step, k: nat, model: Option<string>)
    requires var r := RetryFrom(cfg, b, env, k, 1); r.result.Err? && r.result.error.status == 400
    ensures var r := RetryFrom(cfg, b, env, k, 1);
      var out := ChatSpec(cfg, b, env, k, model);
      var m := model.GetOr(cfg.defaultModel);
      && (out.result.Err? ==> out.result.error == r.result.error)
      && out.posted[..r.next - k] == Repeat(m, r.next - k)
      && (forall x :: x in out.posted[r.next - k..] ==> x != m && x in cfg.fallbackModels)
  {
    var r := RetryFrom(cfg, b, env, k, 1);
    var m := model.GetOr(cfg.defaultModel);
    if cfg.fallbackModels != [] {
      FallbackFacts(cfg, r.breaker, env, r.next, cfg.fallbackModels, 0, m, r.result.error);
      var rest := FallbackFrom(cfg, r.breaker, env, r.next, cfg.fallbackModels, 0, m, r.result.error);
      assert ChatSpec(cfg, b, env, k, model).posted == Repeat(m, r.next - k) + rest.posted;
    }
  }

  // ================================================================ reply extraction

  datatype ExtractError = AttributeError

  /** `_extract_text`, with the handling of a dict `content` whose "text" is not
      a string selected by `fixed`: as written (`fixed == false`) that calls
      `.strip()` on a non-string and raises; `fixed` renders it with `str()`. */
  function ExtractWith(body: Json, fixed: bool): Result<string, ExtractError>
  {
    if !body.JObj? then Ok(PyStr(body))
    else
      var choices := Or(Get(body, "choices"), JArr([]));
      var dumped := Ok(Dumps(body));
      if Truthy(choices) && choices.JArr? then
        var first := choices.items[0];
        if first.JObj? then
          var msg := Or(Get(first, "message"), JObj([]));
          var content := Or(Get(msg, "content"), Get(msg, "text"));
          if msg.JObj? && content.JObj? then
            var t := GetOr(content, "text", JStr(""));
            if t.JStr? then Ok(Text.Strip(t.s))
            else if fixed then Ok(Text.Strip(PyStr(t)))
            else Err(AttributeError)
          else if msg.JObj? && Truthy(content) then Ok(Text.Strip(PyStr(content)))
          else
            var text := Or(Get(first, "text"), Get(first, "content"));
            if Truthy(text) then Ok(Text.Strip(PyStr(text))) else dumped
        else dumped
      else dumped
  }

  /** `_extract_text` as the source writes it. */
  function ExtractTextAsWritten(body: Json): Result<string, ExtractError> {
    ExtractWith(body, false)
  }

  /** `_extract_text` as intended: total over every body shape. */
  function ExtractText(body: Json): (r: string)
    ensures ExtractWith(body, true) == Ok(r)
  {
    var e := ExtractWith(body, true);
    assert e.Ok?;
    e.value
  }

  /** Where the as-written extractor answers, the corrected one agrees. */
  lemma ExtractAgrees(body: Json)
    requires ExtractTextAsWritten(body).Ok?
    ensures ExtractTextAsWritten(body).value == ExtractText(body)
  {
  }

  /** The as-written extractor raises on a dict content whose "text" is a number. */
  lemma ExtractAsWrittenRaises()
    ensures ExtractTextAsWritten(
      JObj([Member("choices", JArr([JObj([Member("message", JObj([Member("content",
        JObj([Member("text", JInt(5))]))]))])]))])) == Err(AttributeError)
  {
  }

  /** A dict `content` ends the extraction as written: for every body whose
      `choices[0].message.content` is a non-empty dict with a string "text",
      the answer is that text stripped, whatever else `choices[0]` holds... */
  lemma ExtractDictTextFinal(body: Json)
    requires body.JObj? && Get(body, "choices").JArr? && Get(body, "choices").items != []
    requires var first := Get(body, "choices").items[0];
      first.JObj? && Get(first, "message").JObj? && Get(Get(first, "message"), "content").JObj?
      && Get(Get(first, "message"), "content").members != []
      && GetOr(Get(Get(first, "message"), "content"), "text", JStr("")).JStr?
    ensures var content := Get(Get(Get(body, "choices").items[0], "message"), "content");
      ExtractTextAsWritten(body) == Ok(Text.Strip(GetOr(content, "text", JStr("")).s))
  {
    var choices := Get(body, "choices");
    var first := choices.items[0];
    var msg := Get(first, "message");
    var content := Get(msg, "content");
    assert Or(choices, JArr([])) == choices;
    assert Or(msg, JObj([])) == msg;
    assert Or(content, Get(msg, "text")) == content;
    assert ExtractWith(body, false) == Ok(Text.Strip(GetOr(content, "text", JStr("")).s));
  }

  /** ...so an empty "text" answers "" even when `choices[0]` has a "text" of
      its own... */
  lemma ExtractEmptyDictText()
    ensures ExtractTextAsWritten(
      JObj([Member("choices", JArr([JObj([Member("message", JObj([Member("content",
        JObj([Member("text", JStr(""))]))])), Member("text", JStr("hi"))])]))])) == Ok("")
  {
    var content := JObj([Member("text", JStr(""))]);
    var msg := JObj([Member("content", content)]);
    var first := JObj([Member("message", msg), Member("text", JStr("hi"))]);
    var body := JObj([Member("choices", JArr([first]))]);
    assert Get(body, "choices") == JArr([first]);
    assert Get(first, "message") == msg;
    assert Get(msg, "content") == content;
    assert GetOr(content, "text", JStr("")) == JStr("");
    ExtractDictTextFinal(body);
    Text.StripOfTrimmed("");
  }

  /** ...and the corrected extractor answers `str(content.get("text", ""))`,
      stripped, for every non-empty dict `content`: a non-string "text" is
      rendered, as the branch for a truthy non-dict `content` renders any
      value, rather than skipped for `choices[0]`'s own fields... */
  lemma ExtractDictTextRendered(body: Json)
    requires body.JObj? && Get(body, "choices").JArr? && Get(body, "choices").items != []
    requires var first := Get(body, "choices").items[0];
      first.JObj? && Get(first, "message").JObj? && Get(Get(first, "message"), "content").JObj?
      && Get(Get(first, "message"), "content").members != []
    ensures var content := Get(Get(Get(body, "choices").items[0], "message"), "content");
      ExtractText(body) == Text.Strip(PyStr(GetOr(content, "text", JStr(""))))
  {
    var choices := Get(body, "choices");
    var first := choices.items[0];
    var msg := Get(first, "message");
    var content := Get(msg, "content");
    assert Or(choices, JArr([])) == choices;
    assert Or(msg, JObj([])) == msg;
    assert Or(content, Get(msg, "text")) == content;
    var t := GetOr(content, "text", JStr(""));
    assert ExtractWith(body, true) == Ok(Text.Strip(PyStr(t)));
  }

  /** ...so the number 5 there answers "5", whatever `choices[0]`'s own
      "text" says. */
  lemma ExtractNumberDictText()
    ensures ExtractText(
      JObj([Member("choices", JArr([JObj([Member("message", JObj([Member("content",
        JObj([Member("text", JInt(5))]))])), Member("text", JStr("hi"))])]))])) == "5"
  {
    var content := JObj([Member("text", JInt(5))]);
    var msg := JObj([Member("content", content)]);
    var first := JObj([Member("message", msg), Member("text", JStr("hi"))]);
    var body := JObj([Member("choices", JArr([first]))]);
    assert Get(body, "choices") == JArr([first]);
    assert Get(first, "message") == msg;
    assert Get(msg, "content") == content;
    ExtractDictTextRendered(body);
    assert GetOr(content, "text", JStr("")) == JInt(5);
    assert PyStr(JInt(5)) == "5";
    Text.StripOfTrimmed("5");
  }

  /** The usual answer shape yields the stripped `choices[0].message.content`. */
  lemma ExtractMessageContent(s: string, rest: seq<Json>)
    requires s != []
    ensures ExtractText(JObj([Member("choices", JArr([JObj([Member("message",
      JObj([Member("content", JStr(s))]))])] + rest))])) == Text.Strip(s)
  {
    var msg := JObj([Member("content", JStr(s))]);
    var first := JObj([Member("message", msg)]);
    var body := JObj([Member("choices", JArr([first] + rest))]);
    var choices := Get(body, "choices");
    assert choices == JArr([first] + rest) && Truthy(choices);
    assert choices.items[0] == first;
    assert Get(first, "message") == msg;
    assert Get(msg, "content") == JStr(s) && Truthy(JStr(s));
    assert ExtractWith(body, true) == Ok(Text.Strip(PyStr(JStr(s))));
  }

  /** A body that is not a dict (the raw text of a non-JSON answer, say) is
      returned as `str(body)`; a dict without usable choices is dumped as JSON. */
  lemma ExtractFallbacks(body: Json)
    ensures !body.JObj? ==> ExtractText(body) == PyStr(body)
    ensures body.JObj? && !Truthy(Get(body, "choices")) ==> ExtractText(body) == Dumps(body)
  {
  }

  // ================================================================ the client

  function PostsFor(models: seq<string>, messages: seq<ChatMessage>, maxTokens: int, temperature: int): (r: seq<Payload>)
    ensures |r| == |models|
    ensures forall j :: 0 <= j < |models| ==> r[j] == Payload(models[j], messages, maxTokens, temperature)
  {
    seq(|models|, j requires 0 <= j < |models| => Payload(models[j], messages, maxTokens, temperature))
  }

  lemma PostsForAppend(a: seq<string>, b: seq<string>, messages: seq<ChatMessage>, maxTokens: int, temperature: int)
    ensures PostsFor(a + b, messages, maxTokens, temperature)
         == PostsFor(a, messages, maxTokens, temperature) + PostsFor(b, messages, maxTokens, temperature)
  {
  }

  /** One more post of `payload` extends the record of posts by one payload. */
  lemma RepeatPosts(start: seq<Payload>, before: seq<Payload>, after: seq<Payload>, payload: Payload, k0: nat)
    requires |start| == k0 <= |before|
    requires before == start + PostsFor(Repeat(payload.model, |before| - k0), payload.messages, payload.maxTokens, payload.temperature)
    requires after == before || after == before + [payload]
    ensures after == start + PostsFor(Repeat(payload.model, |after| - k0), payload.messages, payload.maxTokens, payload.temperature)
  {
    var n := |before| - k0;
    if after != before {
      assert Repeat(payload.model, n + 1) == Repeat(payload.model, n) + [payload.model];
      PostsForAppend(Repeat(payload.model, n), [payload.model], payload.messages, payload.maxTokens, payload.temperature);
    }
  }

  lemma ChatSpecFallback(cfg: Config, b: BreakerState, env: nat -> Step, k: nat, model: Option<string>)
    requires var r := RetryFrom(cfg, b, env, k, 1);
      r.result.Err? && r.result.error.status == 400 && cfg.fallbackModels != []
    ensures var r := RetryFrom(cfg, b, env, k, 1);
      var m := model.GetOr(cfg.defaultModel);
      var rest := FallbackFrom(cfg, r.breaker, env, r.next, cfg.fallbackModels, 0, m, r.result.error);
      ChatSpec(cfg, b, env, k, model) == ChatOut(rest.result, rest.breaker, Repeat(m, r.next - k) + rest.posted)
  {
  }

  /** Two batches of posts in a row are the posts of both model lists. */
  lemma PostsChain(p0: seq<Payload>, p1: seq<Payload>, p2: seq<Payload>, a: seq<string>, b: seq<string>,
                   messages: seq<ChatMessage>, maxTokens: int, temperature: int)
    requires p1 == p0 + PostsFor(a, messages, maxTokens, temperature)
    requires p2 == p1 + PostsFor(b, messages, maxTokens, temperature)
    ensures p2 == p0 + PostsFor(a + b, messages, maxTokens, temperature)
  {
    PostsForAppend(a, b, messages, maxTokens, temperature);
  }

  class Client {
    const config: Config
    const breaker: Breaker
    /** Every payload posted so far, in order. */
    var posts: seq<Payload>

    predicate Valid()
      reads this
    {
      breaker.failureThreshold == config.failureThreshold && breaker.recoverySeconds == config.recoverySeconds
    }

    constructor (config: Config)
      ensures Valid() && this.config == config && posts == []
      ensures fresh(breaker) && breaker.State() == InitialBreaker
    {
      this.config := config;
      breaker := new Breaker(config.failureThreshold, config.recoverySeconds);
      posts := [];
    }

    /** The loop body of `_request_with_retry`: the breaker check, the post
        and the classification of its answer. */
    method PostOnce(payload: Payload, step: Step) returns (verdict: Option<Result<Json, HttpError>>)
      requires Valid()
      modifies this, breaker
      ensures var s := TryOnce(config, old(breaker.State()), step);
        verdict == s.verdict && breaker.State() == s.breaker
        && posts == if s.posted then old(posts) + [payload] else old(posts)
    {
      var allowed := breaker.AllowsRequest(step.checkAt);
      if !allowed {
        return Some(Err(CircuitOpenError));
      }
      posts := posts + [payload];
      if IsTransient(step.outcome) {
        breaker.RecordFailure(step.doneAt);
        return None;
      } else if step.outcome.status == 200 {
        breaker.RecordSuccess();
        return Some(Ok(step.outcome.body));
      } else if IsInvalidModel(step.outcome) {
        return Some(Err(HttpError(400, step.outcome.body)));
      }
      breaker.RecordFailure(step.doneAt);
      return Some(Err(HttpError(502, JObj([Member("status", JInt(step.outcome.status)), Member("body", step.outcome.body)]))));
    }

    /** One turn of the retry loop, stated against the rest of the loop. */
    method Turn(payload: Payload, env: nat -> Step, attempt: nat) returns (verdict: Option<Result<Json, HttpError>>)
      requires Valid() && attempt <= config.maxRetries
      modifies this, breaker
      ensures var goal := RetryFrom(config, old(breaker.State()), env, old(|posts|), attempt);
        verdict.Some? ==> goal == RetryOut(verdict.value, breaker.State(), |posts|)
      ensures verdict.None? ==>
        RetryFrom(config, old(breaker.State()), env, old(|posts|), attempt)
        == RetryFrom(config, breaker.State(), env, |posts|, attempt + 1)
      ensures posts == old(posts) || posts == old(posts) + [payload]
    {
      RetryStep(config, breaker.State(), env, |posts|, attempt);
      verdict := PostOnce(payload, env(|posts|));
    }

    method RequestWithRetry(payload: Payload, env: nat -> Step) returns (r: Result<Json, HttpError>)
      requires Valid()
      modifies this, breaker
      ensures var out := RetryFrom(config, old(breaker.State()), env, old(|posts|), 1);
        r == out.result && breaker.State() == out.breaker
        && posts == old(posts) + PostsFor(Repeat(payload.model, out.next - old(|posts|)), payload.messages, payload.maxTokens, payload.temperature)
    {
      ghost var k0 := |posts|;
      ghost var goal := RetryFrom(config, breaker.State(), env, k0, 1);
      var attempt := 1;
      while attempt <= config.maxRetries
        invariant attempt >= 1 && |posts| >= k0 && Valid()
        invariant RetryFrom(config, breaker.State(), env, |posts|, attempt) == goal
        invariant posts == old(posts) + PostsFor(Repeat(payload.model, |posts| - k0), payload.messages, payload.maxTokens, payload.temperature)
        decreases config.maxRetries - attempt
      {
        ghost var before := posts;
        var verdict := Turn(payload, env, attempt);
        RepeatPosts(old(posts), before, posts, payload, k0);
        if verdict.Some? {
          return verdict.value;
        }
        attempt := attempt + 1;
      }
      return Err(ExhaustedError);
    }

    method Chat(messages: seq<ChatMessage>, model: Option<string>, maxTokens: int, temperature: int, env: nat -> Step)
      returns (r: Result<string, HttpError>)
      requires Valid()
      modifies this, breaker
      ensures var out := ChatSpec(config, old(breaker.State()), env, old(|posts|), model);
        r == out.result && breaker.State() == out.breaker
        && posts == old(posts) + PostsFor(out.posted, messages, maxTokens, temperature)
    {
      var m := model.GetOr(config.defaultModel);
      ghost var k0, b0, p0 := |posts|, breaker.State(), posts;
      var first := RequestWithRetry(Payload(m, messages, maxTokens, temperature), env);
      ghost var sent := Repeat(m, |posts| - k0);
      if first.Ok? {
        return Ok(ExtractText(first.value));
      }
      var e := first.error;
      if e.status == 400 && config.fallbackModels != [] {
        ghost var r0 := RetryFrom(config, b0, env, k0, 1);
        ghost var p1 := posts;
        assert |p1| == r0.next;
        r := Fallback(config.fallbackModels, m, e, messages, maxTokens, temperature, env);
        ChatSpecFallback(config, b0, env, k0, model);
        PostsChain(p0, p1, posts, sent, FallbackFrom(config, r0.breaker, env, r0.next, config.fallbackModels, 0, m, e).posted,
                   messages, maxTokens, temperature);
        return;
      }
      return Err(e);
    }

    /** The loop over the fallback models after the requested model was refused. */
    method Fallback(fbs: seq<string>, m: string, e: HttpError, messages: seq<ChatMessage>,
                    maxTokens: int, temperature: int, env: nat -> Step)
      returns (r: Result<string, HttpError>)
      requires Valid()
      modifies this, breaker
      ensures var out := FallbackFrom(config, old(breaker.State()), env, old(|posts|), fbs, 0, m, e);
        r == out.result && breaker.State() == out.breaker
        && posts == old(posts) + PostsFor(out.posted, messages, maxTokens, temperature)
    {
      ghost var bA, kA := breaker.State(), |posts|;
      ghost var done: seq<string> := [];
      var i := 0;
      while i < |fbs|
        invariant 0 <= i <= |fbs| && Valid()
        invariant posts == old(posts) + PostsFor(done, messages, maxTokens, temperature)
        invariant FallbackInv(config, bA, kA, breaker.State(), |posts|, env, fbs, i, m, e, done)
      {
        ghost var b, k, p := breaker.State(), |posts|, posts;
        if fbs[i] == m {
          FallbackSkip(config, bA, kA, b, k, env, fbs, i, m, e, done);
          i := i + 1;
          continue;
        }
        var res := RequestWithRetry(Payload(fbs[i], messages, maxTokens, temperature), env);
        ghost var sent := Repeat(fbs[i], |posts| - k);
        PostsChain(old(posts), p, posts, done, sent, messages, maxTokens, temperature);
        FallbackTry(config, bA, kA, b, k, env, fbs, i, m, e, done);
        done := done + sent;
        if res.Ok? {
          return Ok(ExtractText(res.value));
        }
        i := i + 1;
      }
      assert done + [] == done;
      return Err(e);
    }
  }
}
