/**
 * `ApiClient`: one request performed step by step against the settings
 * object and the usage accumulator, proved to have exactly the effect the
 * functions of module Exchange describe; and the continuous loop, driven
 * one worker step at a time, proved to follow the state machine of module
 * RunLoop, so that every property proved there holds of the client.
 *
 * The HTTP exchange is the parameter `respond`, and the rendering of a
 * float inside an f-string is the parameter `floatText`.
 */
module Client {
  import opened Wrappers
  import opened Settings
  import PyText
  import opened TokenTracker
  import opened Exchange
  import opened RunLoop

  class ApiClient {
    /** `token_usage`. */
    const tokenUsage: TokenUsage
    /** The settings object the client reads and writes (the module-level singleton). */
    const config: Config
    /** `is_running`. */
    var isRunning: bool
    /** `should_stop`. */
    var shouldStop: bool
    /** Where the worker thread is, with its local `call_count` and sleep counter. */
    var phase: Phase
    /** The prompt the worker sends, fixed when it is started. */
    var loopPrompt: string

    ghost predicate Valid()
      reads this, config, tokenUsage
    {
      config.Valid() && tokenUsage.Valid() && Inv(State())
    }

    /**
     * The settings and the usage are those a call with reaction `x` leaves
     * behind, starting from `entries0`, `saved0` and `updates0`: the new
     * `max_tokens` (if any) is set and saved, and the counted tokens (if
     * any) are one more update.
     */
    ghost predicate Reacted(x: Reaction, entries0: map<Key, Value>, saved0: Option<map<Key, Value>>,
                            updates0: seq<(int, int)>)
      reads config, tokenUsage
    {
      && config.entries == WithMaxTokens(entries0, x.newMaxTokens)
      && (x.newMaxTokens.Some? ==> config.saved == Some(config.entries))
      && (x.newMaxTokens.None? ==> config.saved == saved0)
      && tokenUsage.updates == updates0 + if x.counted.Some? then [x.counted.value] else []
    }

    function State(): RunState
      reads this
    {
      RunState(isRunning, shouldStop, phase)
    }

    /** `ApiClient(token_usage)`: the given accumulator, or a fresh one; no worker. */
    constructor (config: Config, tokenUsage: Option<TokenUsage>)
      requires config.Valid()
      requires tokenUsage.Some? ==> tokenUsage.value.Valid()
      ensures Valid() && State() == Initial
      ensures this.config == config
      ensures tokenUsage.Some? ==> this.tokenUsage == tokenUsage.value
      ensures tokenUsage.None? ==> fresh(this.tokenUsage) && this.tokenUsage.updates == []
    {
      this.config := config;
      if tokenUsage.Some? {
        this.tokenUsage := tokenUsage.value;
      } else {
        var usage := new TokenUsage();
        this.tokenUsage := usage;
      }
      isRunning, shouldStop, phase := false, false, Idle;
      loopPrompt := "";
    }

    /**
     * `make_api_request(prompt)`: its result, and the settings and usage it
     * leaves behind, are those `RequestReaction` gives for the state it
     * starts from.
     */
    method MakeApiRequest(prompt: string, floatText: real -> string, respond: Request -> HttpOutcome) returns (ret: Return)
      requires Valid()
      modifies config, tokenUsage
      ensures Valid()
      ensures var x := RequestReaction(old(config.entries), old(tokenUsage.inputTokens), old(tokenUsage.outputTokens),
                                       prompt, floatText, respond);
        && ret == x.ret
        && Reacted(x, old(config.entries), old(config.saved), old(tokenUsage.updates))
    {
      ghost var x := RequestReaction(config.entries, tokenUsage.inputTokens, tokenUsage.outputTokens,
                                     prompt, floatText, respond);
      var payload := Payload(
        config.Read(Model),
        [Message("system", config.Read(SystemPrompt)), Message("user", Str(prompt))],
        None);
      var maxTokens := config.Read(MaxTokens);
      var capped := IsPositive(maxTokens);
      if capped.None? {
        return Raised;
      }
      if capped.value {
        payload := payload.(maxTokens := Some(maxTokens));
      }
      var request := Request(config.Read(ApiEndpoint), config.GetHeaders(floatText), payload,
                             config.Read(RequestTimeout));
      assert Outgoing(config.entries, prompt, floatText) == Some(request);
      assert x == React(respond(request), Setting(config.entries, RefractorySeconds),
                        Cost(config.entries, tokenUsage.inputTokens, tokenUsage.outputTokens));
      match respond(request) {
        case RequestFailed(status, description) =>
          ret := HandleRequestException(status, description);
        case Undecodable =>
          ret := Returned(Failed);
        case Parsed(body) =>
          ret := HandleSuccessfulResponse(body);
        case OtherFailure(_) =>
          ret := Returned(Failed);
      }
    }

    /**
     * `_handle_successful_response(body)`: a non-empty `choices` list is
     * counted once in the accumulator; otherwise an error message
     * mentioning "afford" is scanned for a new `max_tokens`.
     */
    method HandleSuccessfulResponse(body: Body) returns (ret: Return)
      requires Valid()
      modifies config`entries, config`saved, tokenUsage
      ensures Valid()
      ensures var x := HandleResponse(body);
        && ret == x.ret
        && Reacted(x, old(config.entries), old(config.saved), old(tokenUsage.updates))
    {
      if body.choices.Some? && |body.choices.value| > 0 {
        var message := body.choices.value[0].message;
        var content := if message.Some? then GetOr(message.value.content, NoContent) else Some(NoContent);
        var usage := if body.usage.Some? then body.usage.value else Usage(None, None);
        var promptTokens := if usage.promptTokens.Some? then usage.promptTokens.value else 0;
        var completionTokens := if usage.completionTokens.Some? then usage.completionTokens.value else 0;
        tokenUsage.Update(promptTokens, completionTokens);
        var metadata := Metadata(GetOr(body.model, "unknown"), usage, GetOr(body.created, 0), GetOr(body.id, ""));
        return Returned(CallResult(true, content, Some(metadata)));
      }
      if body.error.Some? {
        var errMessage := if body.error.value.message.Some? then body.error.value.message.value else "";
        if PyText.Contains(errMessage, "afford") {
          ScanAfford(PyText.Split(errMessage));
        }
      }
      return Returned(Failed);
    }

    /**
     * The loop over the words of an "afford" message: every "afford"
     * followed by a word that reads as an integer sets and saves
     * `max_tokens`, so the last such word wins.
     */
    method ScanAfford(words: seq<string>)
      requires config.Valid()
      modifies config`entries, config`saved
      ensures config.Valid()
      ensures config.entries == WithMaxTokens(old(config.entries), LastHint(words, |words|))
      ensures LastHint(words, |words|).Some? ==> config.saved == Some(config.entries)
      ensures LastHint(words, |words|).None? ==> config.saved == old(config.saved)
    {
      for i := 0 to |words|
        invariant config.Valid()
        invariant config.entries == WithMaxTokens(old(config.entries), LastHint(words, i))
        invariant LastHint(words, i).Some? ==> config.saved == Some(config.entries)
        invariant LastHint(words, i).None? ==> config.saved == old(config.saved)
      {
        if words[i] == "afford" && i + 1 < |words| {
          var newMaxTokens := PyText.ParseInt(PyText.RStripPunct(words[i + 1]));
          if newMaxTokens.Some? {
            KeyOfName(MaxTokens);
            config.Set(Name(MaxTokens), Int(newMaxTokens.value));
            config.SaveConfig();
          }
        }
      }
    }

    /**
     * `_handle_request_exception`: HTTP 402 zeroes and saves `max_tokens`
     * (once the two status lines have been computed), 401 and 403 report
     * an authentication failure, anything else the exception's text.
     */
    method HandleRequestException(status: Option<int>, description: string) returns (ret: Return)
      requires Valid()
      modifies config`entries, config`saved
      ensures Valid()
      ensures var x := Exchange.HandleRequestException(status, description,
                         old(Setting(config.entries, RefractorySeconds)), old(tokenUsage.CalculateCost(config)));
        && ret == x.ret
        && Reacted(x, old(config.entries), old(config.saved), old(tokenUsage.updates))
    {
      if status == Some(402) {
        var refractory := config.Read(RefractorySeconds);
        if Number(refractory).None? {
          return Raised;
        }
        var cost := tokenUsage.CalculateCost(config);
        if cost.None? {
          return Raised;
        }
        KeyOfName(MaxTokens);
        config.Set(Name(MaxTokens), Int(0));
        config.SaveConfig();
        return Returned(CallResult(false, Some(CreditsExhausted), None));
      }
      if status == Some(401) || status == Some(403) {
        return Returned(CallResult(false, Some(AuthenticationFailed), None));
      }
      return Returned(CallResult(false, Some("Request error: " + description), None));
    }

    /** `start_continuous_requests(prompt)`: launches a worker unless one is marked running. */
    method StartContinuousRequests(prompt: string)
      requires Valid()
      modifies this
      ensures Valid()
      ensures State() == OnStart(old(State()))
      ensures loopPrompt == if old(isRunning) then old(loopPrompt) else prompt
    {
      if isRunning {
        return;
      }
      isRunning := true;
      shouldStop := false;
      phase := AtTop(0);
      loopPrompt := prompt;
    }

    /** `stop_continuous_requests`: only raises the flag; the worker notices it at its next test. */
    method StopContinuousRequests()
      requires Valid()
      modifies this`shouldStop
      ensures Valid()
      ensures Transition(State(), Quiet) == Next(old(State()), Stop)
    {
      shouldStop := true;
    }

    /**
     * The worker step that makes call #n+1 (`call_count += 1`, the request,
     * the callback): an escaping exception ends the worker.
     */
    method CallStep(floatText: real -> string, respond: Request -> HttpOutcome) returns (obs: Obs)
      requires Valid() && phase.AtTop? && !shouldStop
      modifies this`phase, config, tokenUsage
      ensures Valid()
      ensures var x := RequestReaction(old(config.entries), old(tokenUsage.inputTokens), old(tokenUsage.outputTokens),
                                       loopPrompt, floatText, respond);
        && Transition(State(), obs) == OnStep(old(State()), x.ret, Int(0))
        && Reacted(x, old(config.entries), old(config.saved), old(tokenUsage.updates))
    {
      ghost var before := State();
      var n := phase.calls;
      var ret := MakeApiRequest(loopPrompt, floatText, respond);
      assert State() == before;
      match ret {
        case Raised =>
          phase, obs := Idle, Crashed;
          assert OnStep(before, ret, Int(0)) == Transition(before.(phase := Idle), Crashed);
        case Returned(r) =>
          phase, obs := AfterCall(n + 1), Called(n + 1, r);
          assert OnStep(before, ret, Int(0)) == Transition(before.(phase := AfterCall(n + 1)), Called(n + 1, r));
      }
    }

    /**
     * One step of the worker `run_requests`. A step that makes the call
     * has the effects of `MakeApiRequest`; every other step leaves the
     * settings and the accumulator alone. Either way the flags, the
     * worker's position and what the step shows are those `OnStep` gives.
     */
    method WorkerStep(floatText: real -> string, respond: Request -> HttpOutcome) returns (obs: Obs)
      requires Valid()
      modifies this, config, tokenUsage
      ensures Valid()
      ensures loopPrompt == old(loopPrompt)
      ensures old(phase.AtTop? && !shouldStop) ==>
        var x := RequestReaction(old(config.entries), old(tokenUsage.inputTokens), old(tokenUsage.outputTokens),
                                 loopPrompt, floatText, respond);
        && Transition(State(), obs) == OnStep(old(State()), x.ret, Int(0))
        && Reacted(x, old(config.entries), old(config.saved), old(tokenUsage.updates))
      ensures !old(phase.AtTop? && !shouldStop) ==>
        && Transition(State(), obs) == OnStep(old(State()), Raised, old(Setting(config.entries, RequestDelaySeconds)))
        && unchanged(config) && unchanged(tokenUsage)
    {
      match phase {
        case Idle =>
          obs := Quiet;
        case AtTop(n) =>
          if shouldStop {
            isRunning, phase, obs := false, Idle, Exited;
          } else {
            obs := CallStep(floatText, respond);
          }
        case AfterCall(n) =>
          if shouldStop {
            isRunning, phase, obs := false, Idle, Exited;
          } else {
            var ticks := TickCount(config.Read(RequestDelaySeconds));
            if ticks.None? {
              phase, obs := Idle, Crashed;
            } else {
              phase, obs := Waiting(n, ticks.value), Quiet;
            }
          }
        case Waiting(n, k) =>
          if k == 0 || shouldStop {
            phase, obs := AtTop(n), Quiet;
          } else {
            phase, obs := Waiting(n, k - 1), Slept;
          }
      }
    }
  }
}
