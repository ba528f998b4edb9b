/**
 * The completion-service client: construction, model selection, the system prompt,
 * the non-streaming call with its retry and backoff policy, the streaming call that
 * assembles fragments, and the connection test.
 *
 * The SDK is abstract. A non-streaming call is answered by `answers(i)`, how the
 * SDK call of attempt `i` ends; a streaming call is answered by a `Stream`, the
 * fragments that arrive and how the stream ends. Each `time.sleep` is recorded, in
 * seconds, in the `delays` of the returned `Call`, each request issued in its
 * `sent`, and each invocation of the streaming callback in its `delivered`.
 */
module ClaudeApi {
  import opened Wrappers
  import opened Py
  import opened Constants
  import opened CodeExtraction

  /** The SDK exceptions the client tells apart. */
  datatype Fault = AuthenticationFailure | RateLimited | TimedOut | OtherFailure(detail: string)

  /** How one non-streaming SDK call ends: the response text, or an exception. */
  datatype Reply = Answered(text: string) | Raised(fault: Fault)

  datatype StreamEnd = Finished | Broke(fault: Fault)

  /** The fragments a stream delivers before it ends, normally or by raising. */
  datatype Stream = Stream(fragments: seq<string>, end: StreamEnd)

  /** The exceptions the client raises. `EmptyInput` and `NoApiKey` are `ValueError`s,
      the others `RuntimeError`s. */
  datatype ApiError =
    | EmptyInput
    | NoApiKey
    | InvalidApiKey
    | TooManyRequests
    | NetworkFailure
    | ServiceFailure(detail: string)
    | GenerationFailed

  /** The text each exception carries. */
  function Message(e: ApiError): string {
    match e
    case EmptyInput => EmptyInputMessage
    case NoApiKey => NoApiKeyMessage
    case InvalidApiKey => InvalidApiKeyMessage
    case TooManyRequests => "API 请求过于频繁，请稍后再试"
    case NetworkFailure => NetworkErrorMessage
    case ServiceFailure(detail) => ApiErrorMessage(detail)
    case GenerationFailed => "代码生成失败"
  }

  /** Different errors carry different texts, so the message alone tells which failure
      ended a call, and a service failure's message gives back its detail. */
  lemma MessagesIdentifyErrors(a: ApiError, b: ApiError)
    ensures Message(a) == Message(b) ==> a == b
  {
    if Message(a) == Message(b) {
      var m := Message(a);
      assert m[0] == Message(b)[0] && m[4] == Message(b)[4];
      if a.ServiceFailure? && b.ServiceFailure? {
        assert a.detail == m[|ApiErrorMessage("")|..] == b.detail;
      }
    }
  }

  /** One request to the service; `None` marks an argument the call leaves to the SDK. */
  datatype Request = Request(
    model: string,
    system: Option<string>,
    prompt: string,
    temperature: Option<real>,
    maxTokens: int)

  /** What a generation call observably does. */
  datatype Call = Call(
    result: Result<string, ApiError>,
    sent: seq<Request>,
    delays: seq<nat>,
    delivered: seq<string>)

  // ----- The system prompt -----

  const SystemIntro: string := "You are an expert "
  const SystemMiddle: string :=
    " programmer. Your task is to generate clean, efficient, and well-documented code.\n"
    + "\n"
    + "Requirements:\n"
    + "- Follow "
  const SystemRest: string :=
    " best practices and conventions\n"
    + "- Include proper error handling\n"
    + "- Add clear comments for complex logic\n"
    + "- Use meaningful variable and function names\n"
    + "- Consider edge cases and validation\n"
    + "- Structure the code in a readable and maintainable way\n"
    + "\n"
    + "Respond ONLY with the code block. Do not include explanations or markdown formatting outside the code block.\n"
    + "Start your response directly with the code."

  /** The system instructions for a target language: the opening words, the language,
      the middle text, the language again, and the closing requirements. */
  function SystemPrompt(language: string): (p: string)
    ensures |p| == |SystemIntro| + |SystemMiddle| + |SystemRest| + 2 * |language|
    ensures p[..|SystemIntro|] == SystemIntro
    ensures p[|SystemIntro|..|SystemIntro| + |language|] == language
    ensures p[|SystemIntro| + |language|..|SystemIntro| + |language| + |SystemMiddle|] == SystemMiddle
    ensures var second := |SystemIntro| + |language| + |SystemMiddle|;
            p[second..second + |language|] == language
    ensures p[|p| - |SystemRest|..] == SystemRest
  {
    Framed(SystemIntro, SystemMiddle, SystemRest, language)
  }

  /** The text `intro + x + middle + x + rest`, with where each part lies. */
  function Framed(intro: string, middle: string, rest: string, x: string): (t: string)
    ensures |t| == |intro| + |middle| + |rest| + 2 * |x|
    ensures t[..|intro|] == intro
    ensures t[|intro|..|intro| + |x|] == x
    ensures t[|intro| + |x|..|intro| + |x| + |middle|] == middle
    ensures var second := |intro| + |x| + |middle|;
            t[second..second + |x|] == x
    ensures t[|t| - |rest|..] == rest
  {
    var t := intro + x + middle + x + rest;
    var second := |intro| + |x| + |middle|;
    assert t[..|intro|] == intro;
    assert t[|intro|..|intro| + |x|] == x;
    assert t[|intro| + |x|..|intro| + |x| + |middle|] == middle;
    assert t[second..second + |x|] == x;
    assert t[|t| - |rest|..] == rest;
    t
  }

  /** A text built as `intro + x + middle + x + rest` names `x` right after `intro`,
      and different `x` give different texts. */
  lemma FramedDetermines(intro: string, middle: string, rest: string, a: string, b: string)
    ensures (intro + a + middle + a + rest)[|intro|..|intro| + |a|] == a
    ensures intro + a + middle + a + rest == intro + b + middle + b + rest ==> a == b
  {
    var pa := intro + a + middle + a + rest;
    var pb := intro + b + middle + b + rest;
    assert pa[|intro|..|intro| + |a|] == a;
    assert pb[|intro|..|intro| + |b|] == b;
    if pa == pb {
      assert |pa| == |intro| + |middle| + |rest| + 2 * |a|;
      assert |pb| == |intro| + |middle| + |rest| + 2 * |b|;
    }
  }

  /** The instructions name the language right after the opening words, and different
      languages give different instructions. */
  lemma SystemPromptDeterminesLanguage(a: string, b: string)
    ensures SystemPrompt(a)[|SystemIntro|..|SystemIntro| + |a|] == a
    ensures SystemPrompt(a) == SystemPrompt(b) ==> a == b
  {
    FramedDetermines(SystemIntro, SystemMiddle, SystemRest, a, b);
  }

  // ----- Retry policy -----

  function Pow2(n: nat): (p: nat)
    ensures p >= 1
  {
    if n == 0 then 1 else 2 * Pow2(n - 1)
  }

  /** `model or self.model` */
  function ModelToUse(model: Option<string>, current: string): string {
    if model.Some? && model.value != [] then model.value else current
  }

  /** A failure the loop answers with a sleep and another attempt, when attempts remain. */
  predicate Retryable(r: Reply) {
    r.Raised? && r.fault != AuthenticationFailure
  }

  /** The sleep before the next attempt: doubling per attempt for rate limits,
      the base delay otherwise. */
  function Backoff(f: Fault, attempt: nat): nat {
    if f.RateLimited? then ApiRetryDelay * Pow2(attempt) else ApiRetryDelay
  }

  /** The exception a failure is raised as once it is not retried. */
  function FinalError(f: Fault): ApiError {
    match f
    case AuthenticationFailure => InvalidApiKey
    case RateLimited => TooManyRequests
    case TimedOut => NetworkFailure
    case OtherFailure(detail) => ServiceFailure(detail)
  }

  /** The outcome the loop settles on at the reply where it stops: the response text,
      from which the code is then extracted, or the error for the failure. */
  function Settle(r: Reply): Result<string, ApiError> {
    match r
    case Answered(text) => Success(text)
    case Raised(f) => Failure(FinalError(f))
  }

  /** Outcome (response text or error), number of SDK calls and sleeps of the attempts
      from `attempt` on. */
  datatype Run = Run(result: Result<string, ApiError>, calls: nat, delays: seq<nat>)

  /** The retry loop from attempt `attempt` on; past the last attempt it reaches the
      fallback failure after the loop. */
  function RetryFrom(answers: nat -> Reply, attempt: nat): Run
    decreases ApiRetryAttempts - attempt
  {
    if attempt >= ApiRetryAttempts then Run(Failure(GenerationFailed), 0, [])
    else
      var reply := answers(attempt);
      if Retryable(reply) && attempt < ApiRetryAttempts - 1 then
        var rest := RetryFrom(answers, attempt + 1);
        Run(rest.result, rest.calls + 1, [Backoff(reply.fault, attempt)] + rest.delays)
      else Run(Settle(reply), 1, [])
  }

  function Repeat(req: Request, n: nat): (s: seq<Request>)
    ensures |s| == n && forall i :: 0 <= i < n ==> s[i] == req
  {
    if n == 0 then [] else Repeat(req, n - 1) + [req]
  }

  /** What the client returns for the outcome the loop settles on: the code extracted
      from the response text, or the error. */
  function Outcome(result: Result<string, ApiError>): Result<string, ApiError> {
    match result
    case Success(text) => Success(Extracted(text))
    case Failure(e) => Failure(e)
  }

  /** The non-streaming call for a request. */
  function Blocking(req: Request, answers: nat -> Reply): Call {
    if Blank(req.prompt) then Call(Failure(EmptyInput), [], [], [])
    else
      var run := RetryFrom(answers, 0);
      Call(Outcome(run.result), Repeat(req, run.calls), run.delays, [])
  }

  /** `''.join(fragments)` */
  function Concat(fragments: seq<string>): string {
    if fragments == [] then "" else Concat(fragments[..|fragments| - 1]) + fragments[|fragments| - 1]
  }

  /** The streaming call for a request: one SDK call, every fragment handed to the
      callback, the extracted concatenation or the failure as its exception. */
  function Streaming(req: Request, stream: Stream): Call {
    if Blank(req.prompt) then Call(Failure(EmptyInput), [], [], [])
    else
      var result := match stream.end
        case Finished => Success(Extracted(Concat(stream.fragments)))
        case Broke(f) => Failure(FinalError(f));
      Call(result, [req], [], stream.fragments)
  }

  /** The attempts from `attempt` on, after `attempt` calls and the sleeps `done`. */
  ghost function After(attempt: nat, done: seq<nat>, r: Run): Run {
    Run(r.result, attempt + r.calls, done + r.delays)
  }

  /** The call ends at an attempt it does not retry, whose reply settles the outcome. */
  lemma BlockingSettles(req: Request, answers: nat -> Reply, attempt: nat, sent: seq<Request>, delays: seq<nat>)
    requires !Blank(req.prompt) && attempt < ApiRetryAttempts
    requires !Retryable(answers(attempt)) || attempt == ApiRetryAttempts - 1
    requires sent == Repeat(req, attempt + 1)
    requires RetryFrom(answers, 0) == After(attempt, delays, RetryFrom(answers, attempt))
    ensures Blocking(req, answers) == Call(Outcome(Settle(answers(attempt))), sent, delays, [])
  {
    assert RetryFrom(answers, attempt) == Run(Settle(answers(attempt)), 1, []);
    assert delays + [] == delays;
  }

  /** The answer to a response: the code extracted from its text. */
  method Respond(text: string, sent: seq<Request>, delays: seq<nat>) returns (c: Call)
    ensures c == Call(Outcome(Success(text)), sent, delays, [])
  {
    var code := ExtractCode(text);
    c := Call(Success(code), sent, delays, []);
  }

  /** The retry loop of the non-streaming call, once the prompt has been checked: up
      to three attempts, a rate limit or another failure followed by its sleep, an
      authentication failure ending it at once. */
  method Attempts(req: Request, answers: nat -> Reply) returns (c: Call)
    requires !Blank(req.prompt)
    ensures c == Blocking(req, answers)
  {
    ghost var whole := RetryFrom(answers, 0);
    var sent: seq<Request> := [];
    var delays: seq<nat> := [];
    var attempt: nat := 0;
    while attempt < ApiRetryAttempts
      invariant attempt <= ApiRetryAttempts
      invariant sent == Repeat(req, attempt)
      invariant whole == After(attempt, delays, RetryFrom(answers, attempt))
    {
      sent := sent + [req];
      match answers(attempt)
      case Answered(text) =>
        BlockingSettles(req, answers, attempt, sent, delays);
        c := Respond(text, sent, delays);
        return;
      case Raised(f) =>
        if f == AuthenticationFailure {
          BlockingSettles(req, answers, attempt, sent, delays);
          return Call(Failure(InvalidApiKey), sent, delays, []);
        }
        if attempt < ApiRetryAttempts - 1 {
          ghost var rest := RetryFrom(answers, attempt + 1);
          assert RetryFrom(answers, attempt) == Run(rest.result, rest.calls + 1, [Backoff(f, attempt)] + rest.delays);
          assert delays + ([Backoff(f, attempt)] + rest.delays) == (delays + [Backoff(f, attempt)]) + rest.delays;
          delays := delays + [Backoff(f, attempt)];
          attempt := attempt + 1;
        } else {
          BlockingSettles(req, answers, attempt, sent, delays);
          return Call(Failure(FinalError(f)), sent, delays, []);
        }
    }
    return Call(Failure(GenerationFailed), sent, delays, []);
  }

  class ClaudeApiClient {
    const apiKey: string
    var model: string

    constructor (apiKey: string)
      requires apiKey != []
      ensures this.apiKey == apiKey && model == DefaultModel
    {
      this.apiKey := apiKey;
      model := DefaultModel;
    }

    method SetModel(model: string)
      modifies this`model
      ensures this.model == model
    {
      this.model := model;
    }

    /** The request both generation methods send. */
    function RequestFor(prompt: string, language: string, model: Option<string>,
                        temperature: real, maxTokens: int): (req: Request)
      reads this
      ensures req.model == if model.Some? && model.value != [] then model.value else this.model
      ensures req.system == Some(SystemPrompt(language)) && req.prompt == prompt
      ensures req.temperature == Some(temperature) && req.maxTokens == maxTokens
    {
      Request(ModelToUse(model, this.model), Some(SystemPrompt(language)), prompt, Some(temperature), maxTokens)
    }

    /** Non-streaming generation: the retry loop with early return and raise. */
    method GenerateCode(prompt: string, language: string, model: Option<string>,
                        temperature: real, maxTokens: int, answers: nat -> Reply)
      returns (c: Call)
      ensures c == Blocking(RequestFor(prompt, language, model, temperature, maxTokens), answers)
      ensures Blank(prompt) ==> c.result == Failure(EmptyInput) && c.sent == [] && c.delays == []
      ensures |c.sent| <= ApiRetryAttempts && c.delivered == []
    {
      if Blank(prompt) {
        return Call(Failure(EmptyInput), [], [], []);
      }
      var req := RequestFor(prompt, language, model, temperature, maxTokens);
      c := Attempts(req, answers);
    }

    /** Streaming generation: a single attempt that appends every fragment to the
        buffer and hands it to the callback, then extracts the code. */
    method GenerateCodeStream(prompt: string, language: string, model: Option<string>,
                              temperature: real, maxTokens: int, stream: Stream)
      returns (c: Call)
      ensures c == Streaming(RequestFor(prompt, language, model, temperature, maxTokens), stream)
      ensures Blank(prompt) ==> c.result == Failure(EmptyInput) && c.sent == [] && c.delivered == []
      ensures !Blank(prompt) ==> |c.sent| == 1 && c.delivered == stream.fragments
      ensures !Blank(prompt) && stream.end.Finished? ==> c.result == Success(Extracted(Concat(c.delivered)))
      ensures c.delays == []
    {
      if Blank(prompt) {
        return Call(Failure(EmptyInput), [], [], []);
      }
      var req := RequestFor(prompt, language, model, temperature, maxTokens);
      var fragments := stream.fragments;
      var fullCode := "";
      var delivered: seq<string> := [];
      var i := 0;
      while i < |fragments|
        invariant 0 <= i <= |fragments|
        invariant fullCode == Concat(fragments[..i])
        invariant delivered == fragments[..i]
      {
        assert fragments[..i + 1][..i] == fragments[..i];
        fullCode := fullCode + fragments[i];
        delivered := delivered + [fragments[i]];
        i := i + 1;
      }
      assert fragments[..i] == fragments;
      match stream.end
      case Finished =>
        var code := ExtractCode(fullCode);
        return Call(Success(code), [req], [], delivered);
      case Broke(f) =>
        return Call(Failure(FinalError(f)), [req], [], delivered);
    }

    /** The connection test: one minimal request; any failure gives false. */
    method TestConnection(answer: Reply) returns (ok: bool, sent: Request)
      ensures ok <==> answer.Answered?
      ensures sent == Request(this.model, None, "test", None, 10)
    {
      sent := Request(model, None, "test", None, 10);
      ok := answer.Answered?;
    }
  }

  /** `ClaudeAPIClient(api_key)`: an empty key raises before anything is built. */
  method NewClient(apiKey: string) returns (r: Result<ClaudeApiClient, ApiError>)
    ensures r.Failure? <==> apiKey == []
    ensures r.Failure? ==> r.error == NoApiKey
    ensures r.Success? ==> fresh(r.value) && r.value.apiKey == apiKey && r.value.model == DefaultModel
  {
    if apiKey == [] {
      return Failure(NoApiKey);
    }
    var client := new ClaudeApiClient(apiKey);
    return Success(client);
  }

  // ----- What the retry loop promises -----

  /** At least one and at most `API_RETRY_ATTEMPTS` SDK calls are made, and the
      fallback failure after the loop is never reached. */
  lemma {:induction false} RetryBounded(answers: nat -> Reply, attempt: nat)
    requires attempt < ApiRetryAttempts
    ensures var r := RetryFrom(answers, attempt);
            1 <= r.calls <= ApiRetryAttempts - attempt && r.result != Failure(GenerationFailed)
    decreases ApiRetryAttempts - attempt
  {
    if Retryable(answers(attempt)) && attempt < ApiRetryAttempts - 1 {
      RetryBounded(answers, attempt + 1);
    }
  }

  /** Every call but the last failed in a retryable way and was followed by a sleep:
      doubling for rate limits, the base delay otherwise. The outcome is settled by
      the last call, and a retryable failure is raised only on the final attempt. */
  lemma {:induction false} RetryTrace(answers: nat -> Reply, attempt: nat)
    requires attempt < ApiRetryAttempts
    ensures var r := RetryFrom(answers, attempt);
            var last := attempt + r.calls - 1;
            && r.calls >= 1
            && |r.delays| == r.calls - 1
            && (forall i :: 0 <= i < |r.delays| ==>
                  Retryable(answers(attempt + i)) && r.delays[i] == Backoff(answers(attempt + i).fault, attempt + i))
            && r.result == Settle(answers(last))
            && (Retryable(answers(last)) ==> last == ApiRetryAttempts - 1)
    decreases ApiRetryAttempts - attempt
  {
    var a := answers(attempt);
    var r := RetryFrom(answers, attempt);
    if Retryable(a) && attempt < ApiRetryAttempts - 1 {
      RetryTrace(answers, attempt + 1);
      var rest := RetryFrom(answers, attempt + 1);
      assert r == Run(rest.result, rest.calls + 1, [Backoff(a.fault, attempt)] + rest.delays);
      assert attempt + r.calls - 1 == attempt + 1 + rest.calls - 1;
      forall i | 0 <= i < |r.delays|
        ensures Retryable(answers(attempt + i)) && r.delays[i] == Backoff(answers(attempt + i).fault, attempt + i)
      {
        if i > 0 {
          assert r.delays[i] == rest.delays[i - 1];
          assert attempt + 1 + (i - 1) == attempt + i;
        }
      }
    } else {
      assert r == Run(Settle(a), 1, []);
    }
  }

  /** From the first call on: the whole non-streaming call in terms of the replies. */
  lemma NonStreamingTrace(answers: nat -> Reply)
    ensures var r := RetryFrom(answers, 0);
            && 1 <= r.calls <= ApiRetryAttempts
            && r.result != Failure(GenerationFailed)
            && |r.delays| == r.calls - 1
            && (forall i :: 0 <= i < |r.delays| ==>
                  Retryable(answers(i)) && r.delays[i] == Backoff(answers(i).fault, i))
            && r.result == Settle(answers(r.calls - 1))
  {
    RetryBounded(answers, 0);
    RetryTrace(answers, 0);
  }

  /** An authentication failure after `k` retryable failures raises the invalid-key
      error at once: `k + 1` calls, no sleep after it. */
  lemma {:induction false} AuthenticationFailureStops(answers: nat -> Reply, k: nat, attempt: nat)
    requires attempt <= k < ApiRetryAttempts
    requires forall i :: attempt <= i < k ==> Retryable(answers(i))
    requires answers(k) == Raised(AuthenticationFailure)
    ensures var r := RetryFrom(answers, attempt);
            r.result == Failure(InvalidApiKey) && r.calls == k - attempt + 1 && |r.delays| == k - attempt
    decreases k - attempt
  {
    if attempt < k {
      AuthenticationFailureStops(answers, k, attempt + 1);
    }
  }

  /** Two rate limits and then a response: the response, after sleeping one base delay
      and then two. */
  lemma RateLimitedTwiceThenAnswered(answers: nat -> Reply, text: string)
    requires answers(0) == Raised(RateLimited) && answers(1) == Raised(RateLimited)
    requires answers(2) == Answered(text)
    ensures RetryFrom(answers, 0)
            == Run(Success(text), 3, [ApiRetryDelay * 1, ApiRetryDelay * 2])
  {
    assert Pow2(1) == 2;
  }

  /** The streaming call makes exactly one request, never sleeps, hands the callback
      every fragment in order, and its result is the extraction of what the callback
      received. */
  lemma StreamingSingleAttempt(req: Request, stream: Stream)
    requires !Blank(req.prompt)
    ensures var c := Streaming(req, stream);
            && c.sent == [req] && c.delays == [] && c.delivered == stream.fragments
            && (stream.end.Finished? <==> c.result.Success?)
            && (stream.end.Finished? ==> c.result.value == Extracted(Concat(c.delivered)))
            && (stream.end.Broke? ==> c.result.error == FinalError(stream.end.fault))
  {
  }
}
