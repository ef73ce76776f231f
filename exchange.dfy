/**
 * One request of the engine, as pure functions: the JSON payload built
 * from the settings and a prompt, the outcome of the HTTP exchange as an
 * abstract datatype, and the classification of that outcome into the
 * `(success, content, metadata)` triple together with its two side
 * effects: one usage update (on success only) and an optional new value
 * for the `max_tokens` setting (the "afford" hint, or 0 on HTTP 402).
 *
 * The class `ApiClient` (module Client) performs these effects step by
 * step and is proved to agree with the functions here.
 */
module Exchange {
  import opened Wrappers
  import opened Settings
  import PyText
  import TokenTracker

  // ---------------------------------------------------------------- payload

  datatype Message = Message(role: string, content: Value)

  /** The JSON body: `model`, the two `messages` and, when capped, `max_tokens`. */
  datatype Payload = Payload(model: Value, messages: seq<Message>, maxTokens: Option<Value>)

  /** Python's `v > 0`; `None` where the comparison raises `TypeError` (a string). */
  function IsPositive(v: Value): (b: Option<bool>)
    ensures b.Some? <==> Number(v).Some?
    ensures b.Some? ==> (b.value <==> Number(v).value > 0.0)
  {
    match v
    case Int(i) => Some(i > 0)
    case Real(r) => Some(r > 0.0)
    case Str(_) => None
  }

  /**
   * The payload `make_api_request` sends for `prompt`; `None` when the
   * `max_tokens > 0` test raises, which happens before anything is sent.
   */
  function BuildPayload(cfg: map<Key, Value>, prompt: string): (p: Option<Payload>)
    ensures p.Some? <==> Number(Setting(cfg, MaxTokens)).Some?
    ensures p.Some? ==> p.value.model == Setting(cfg, Model)
    ensures p.Some? ==>
      p.value.messages == [Message("system", Setting(cfg, SystemPrompt)), Message("user", Str(prompt))]
    ensures p.Some? ==> (p.value.maxTokens.Some? <==> Number(Setting(cfg, MaxTokens)).value > 0.0)
    ensures p.Some? && p.value.maxTokens.Some? ==> p.value.maxTokens.value == Setting(cfg, MaxTokens)
  {
    var maxTokens := Setting(cfg, MaxTokens);
    match IsPositive(maxTokens)
    case None => None
    case Some(capped) =>
      Some(Payload(
        Setting(cfg, Model),
        [Message("system", Setting(cfg, SystemPrompt)), Message("user", Str(prompt))],
        if capped then Some(maxTokens) else None))
  }

  /** A zero or negative `max_tokens` is never sent: a cap in the payload is always a positive number. */
  lemma SentCapIsPositive(cfg: map<Key, Value>, prompt: string)
    requires BuildPayload(cfg, prompt).Some? && BuildPayload(cfg, prompt).value.maxTokens.Some?
    ensures Number(BuildPayload(cfg, prompt).value.maxTokens.value).Some?
    ensures Number(BuildPayload(cfg, prompt).value.maxTokens.value).value > 0.0
  {
  }

  /** The default settings (`max_tokens` 0, "no limit") send no `max_tokens` field. */
  lemma DefaultPayloadIsUncapped(prompt: string)
    ensures BuildPayload(DefaultTable, prompt).Some?
    ensures BuildPayload(DefaultTable, prompt).value.maxTokens == None
    ensures BuildPayload(DefaultTable, prompt).value.model == Str("openai/o1-pro")
  {
    DefaultTableIsDefault();
  }

  /** Everything `requests.post` is handed: the endpoint, the headers, the JSON payload and the timeout. */
  datatype Request = Request(endpoint: Value, headers: map<string, Value>, payload: Payload, timeout: Value)

  /** The POST `make_api_request` issues for `prompt`; `None` when building the payload raises. */
  function Outgoing(cfg: map<Key, Value>, prompt: string, floatText: real -> string): (r: Option<Request>)
    ensures r.Some? <==> BuildPayload(cfg, prompt).Some?
    ensures r.Some? ==> r.value.payload == BuildPayload(cfg, prompt).value
    ensures r.Some? ==> r.value.endpoint == Setting(cfg, ApiEndpoint) && r.value.timeout == Setting(cfg, RequestTimeout)
    ensures r.Some? ==> r.value.headers == Headers(cfg, floatText)
  {
    match BuildPayload(cfg, prompt)
    case None => None
    case Some(payload) =>
      Some(Request(Setting(cfg, ApiEndpoint), Headers(cfg, floatText), payload, Setting(cfg, RequestTimeout)))
  }

  // ---------------------------------------------------------------- the HTTP exchange

  /** A field of a JSON object: missing, JSON `null`, or present with a value. */
  datatype Field<T> = Absent | Null | Present(value: T)

  /** Python's `obj.get(name, default)`: the default for a missing field, `None` for a JSON `null`. */
  function GetOr<T>(f: Field<T>, default: T): (v: Option<T>)
    ensures v.None? <==> f.Null?
    ensures f.Absent? ==> v == Some(default)
    ensures f.Present? ==> v == Some(f.value)
  {
    match f
    case Absent => Some(default)
    case Null => None
    case Present(x) => Some(x)
  }

  datatype ResponseMessage = ResponseMessage(content: Field<string>)
  datatype Choice = Choice(message: Option<ResponseMessage>)
  datatype Usage = Usage(promptTokens: Option<int>, completionTokens: Option<int>)
  datatype ApiError = ApiError(message: Option<string>)

  /**
   * A decoded JSON response body. A field that may be missing is an
   * `Option`; the four fields that are passed on unchanged may also be
   * JSON `null`, which Python reads as `None`.
   */
  datatype Body = Body(
    choices: Option<seq<Choice>>,
    usage: Option<Usage>,
    model: Field<string>,
    created: Field<int>,
    id: Field<string>,
    error: Option<ApiError>)

  /** How the exchange ended, as the `try` block of `make_api_request` can observe it. */
  datatype HttpOutcome =
    | RequestFailed(status: Option<int>, description: string)  // a RequestException; the status of its response, if any
    | Undecodable                                              // json.JSONDecodeError
    | Parsed(body: Body)                                       // a 2xx response whose body decoded
    | OtherFailure(description: string)                        // any other exception inside the try block

  /** The metadata dictionary; `None` stands for a JSON `null` the body carried. */
  datatype Metadata = Metadata(model: Option<string>, usage: Usage, created: Option<int>, id: Option<string>)

  /** The `(success, content, metadata)` triple handed to callers. */
  datatype CallResult = CallResult(success: bool, content: Option<string>, metadata: Option<Metadata>)

  /** What `make_api_request` does: return a triple, or let an exception escape. */
  datatype Return = Returned(result: CallResult) | Raised

  /** The result together with the state changes the call makes. */
  datatype Reaction = Reaction(ret: Return, counted: Option<(int, int)>, newMaxTokens: Option<int>)

  const Failed := CallResult(false, None, None)
  const NoContent := "No content found in response."
  const CreditsExhausted := "API credits exhausted (402). Please wait or try with a different API key."
  const AuthenticationFailed := "Authentication failed. Please check your API key."

  // ---------------------------------------------------------------- the afford heuristic

  /**
   * The hint the `i`-th word gives: when it is exactly "afford" and has a
   * successor, the successor read by `int(...)` after `rstrip('.,:;')`.
   */
  function HintAt(words: seq<string>, i: nat): (h: Option<int>)
    requires i < |words|
    ensures h.Some? <==>
      words[i] == "afford" && i + 1 < |words| && PyText.IsIntLiteral(PyText.RStripPunct(words[i + 1]))
  {
    if words[i] == "afford" && i + 1 < |words| then PyText.ParseInt(PyText.RStripPunct(words[i + 1])) else None
  }

  /** The value `max_tokens` last receives while the scan visits words `0 .. n-1`. */
  function LastHint(words: seq<string>, n: nat): Option<int>
    requires n <= |words|
  {
    if n == 0 then None
    else if HintAt(words, n - 1).Some? then HintAt(words, n - 1)
    else LastHint(words, n - 1)
  }

  /** The last successful parse wins: the result is a hint no later word overrides. */
  lemma {:induction false} LastHintIsLast(words: seq<string>, n: nat, v: int)
    requires n <= |words|
    ensures LastHint(words, n) == Some(v) <==>
      exists i :: 0 <= i < n && HintAt(words, i) == Some(v) && forall j :: i < j < n ==> HintAt(words, j) == None
  {
    if n > 0 {
      LastHintIsLast(words, n - 1, v);
      if HintAt(words, n - 1) == None && !(LastHint(words, n) == Some(v)) {
        forall i | 0 <= i < n && HintAt(words, i) == Some(v)
          ensures !forall j :: i < j < n ==> HintAt(words, j) == None
        {
          assert i < n - 1;
        }
      }
    }
  }

  /** Unparseable hints leave `max_tokens` untouched: there is no new value unless some word gives one. */
  lemma {:induction false} NoHintWithoutParse(words: seq<string>, n: nat)
    requires n <= |words|
    ensures LastHint(words, n) == None <==> forall i :: 0 <= i < n ==> HintAt(words, i) == None
  {
    if n > 0 {
      NoHintWithoutParse(words, n - 1);
    }
  }

  /**
   * The new `max_tokens` the afford scan of `_handle_successful_response`
   * leaves behind, given the error message: only a message containing
   * "afford" is scanned, and a new value is always the parse of a word
   * that follows an "afford".
   */
  function AffordHint(message: string): (h: Option<int>)
    ensures h.Some? ==> PyText.Contains(message, "afford")
    ensures h.Some? ==> exists i :: (0 <= i < |PyText.Split(message)| - 1 &&
      PyText.Split(message)[i] == "afford" && h == PyText.ParseInt(PyText.RStripPunct(PyText.Split(message)[i + 1])))
  {
    if PyText.Contains(message, "afford") then
      var words := PyText.Split(message);
      var h := LastHint(words, |words|);
      if h.Some? then LastHintIsLast(words, |words|, h.value); h else h
    else None
  }

  /** The substring pre-check never hides a hint: it only spares scanning messages no word of which is "afford". */
  lemma AffordGuardIsShortcut(message: string)
    ensures AffordHint(message) == LastHint(PyText.Split(message), |PyText.Split(message)|)
  {
    var words := PyText.Split(message);
    if !PyText.Contains(message, "afford") {
      PyText.SplitWordsOccur(message);
      forall i | 0 <= i < |words| ensures HintAt(words, i) == None {
        assert PyText.Contains(message, words[i]);
      }
      NoHintWithoutParse(words, |words|);
    }
  }

  // ---------------------------------------------------------------- classification

  /** The message of the body's `error` object: `None` when there is none, "" when it has no message. */
  function ErrorMessage(body: Body): (m: Option<string>)
    ensures m.Some? <==> body.error.Some?
    ensures body.error.Some? && body.error.value.message.Some? ==> m == body.error.value.message
    ensures body.error.Some? && body.error.value.message.None? ==> m == Some("")
  {
    match body.error
    case None => None
    case Some(e) => Some(match e.message case Some(m) => m case None => "")
  }

  /** The `(prompt_tokens, completion_tokens)` a body reports, each defaulting to 0. */
  function UsageTokens(usage: Option<Usage>): (tokens: (int, int))
    ensures usage.None? ==> tokens == (0, 0)
    ensures usage.Some? && usage.value.promptTokens.Some? ==> tokens.0 == usage.value.promptTokens.value
    ensures usage.Some? && usage.value.promptTokens.None? ==> tokens.0 == 0
    ensures usage.Some? && usage.value.completionTokens.Some? ==> tokens.1 == usage.value.completionTokens.value
    ensures usage.Some? && usage.value.completionTokens.None? ==> tokens.1 == 0
  {
    match usage
    case None => (0, 0)
    case Some(u) =>
      (if u.promptTokens.Some? then u.promptTokens.value else 0,
       if u.completionTokens.Some? then u.completionTokens.value else 0)
  }

  /** `_handle_successful_response`. */
  function HandleResponse(body: Body): (x: Reaction)
    ensures x.ret.Returned?
    ensures x.ret.result.success <==> body.choices.Some? && |body.choices.value| > 0
    ensures x.counted.Some? <==> x.ret.result.success
    ensures x.ret.result.success ==> x.counted == Some(UsageTokens(body.usage))
    ensures x.ret.result.success ==> x.ret.result.metadata.Some?
    ensures x.ret.result.success ==>
      var m := body.choices.value[0].message;
      && (m.None? || m.value.content.Absent? ==> x.ret.result.content == Some(NoContent))
      && (m.Some? && m.value.content.Null? ==> x.ret.result.content == None)
      && (m.Some? && m.value.content.Present? ==> x.ret.result.content == Some(m.value.content.value))
    ensures x.ret.result.success ==>
      var md := x.ret.result.metadata.value;
      && (body.model.Present? ==> md.model == Some(body.model.value))
      && (body.model.Absent? ==> md.model == Some("unknown")) && (body.model.Null? ==> md.model == None)
      && (body.created.Present? ==> md.created == Some(body.created.value))
      && (body.created.Absent? ==> md.created == Some(0)) && (body.created.Null? ==> md.created == None)
      && (body.id.Present? ==> md.id == Some(body.id.value))
      && (body.id.Absent? ==> md.id == Some("")) && (body.id.Null? ==> md.id == None)
      && (body.usage.Some? ==> md.usage == body.usage.value) && (body.usage.None? ==> md.usage == Usage(None, None))
    ensures x.ret.result.success ==> x.newMaxTokens == None
    ensures !x.ret.result.success ==> x.ret.result == Failed
    ensures !x.ret.result.success ==>
      x.newMaxTokens == match ErrorMessage(body) case Some(m) => AffordHint(m) case None => None
  {
    if body.choices.Some? && |body.choices.value| > 0 then
      var message := body.choices.value[0].message;
      var content := if message.Some? then GetOr(message.value.content, NoContent) else Some(NoContent);
      var usage := if body.usage.Some? then body.usage.value else Usage(None, None);
      var metadata := Metadata(GetOr(body.model, "unknown"), usage, GetOr(body.created, 0), GetOr(body.id, ""));
      Reaction(Returned(CallResult(true, content, Some(metadata))), Some(UsageTokens(body.usage)), None)
    else
      var hint := match ErrorMessage(body) case Some(m) => AffordHint(m) case None => None;
      Reaction(Returned(Failed), None, hint)
  }

  /**
   * `_handle_request_exception`. `refractory` is the `refractory_seconds`
   * setting and `cost` the accumulator's cost (`None` when computing it
   * raises); both are used only for status lines, but an exception while
   * computing them escapes.
   */
  function HandleRequestException(status: Option<int>, description: string, refractory: Value, cost: Option<real>): (x: Reaction)
    ensures x.counted == None
    ensures x.ret.Returned? ==> !x.ret.result.success && x.ret.result.metadata == None
    ensures x.newMaxTokens.Some? <==> status == Some(402) && x.ret.Returned?
    ensures x.newMaxTokens.Some? ==> x.newMaxTokens.value == 0
    ensures x.ret.Raised? <==> status == Some(402) && (Number(refractory).None? || cost.None?)
    ensures status == Some(402) && x.ret.Returned? ==> x.ret.result.content == Some(CreditsExhausted)
    ensures status == Some(401) || status == Some(403) ==> x.ret == Returned(CallResult(false, Some(AuthenticationFailed), None))
    ensures status.None? || status.value !in {401, 402, 403} ==>
      x.ret == Returned(CallResult(false, Some("Request error: " + description), None))
  {
    if status == Some(402) then
      if Number(refractory).None? || cost.None? then Reaction(Raised, None, None)
      else Reaction(Returned(CallResult(false, Some(CreditsExhausted), None)), None, Some(0))
    else if status == Some(401) || status == Some(403) then
      Reaction(Returned(CallResult(false, Some(AuthenticationFailed), None)), None, None)
    else
      Reaction(Returned(CallResult(false, Some("Request error: " + description), None)), None, None)
  }

  /** The `try`/`except` of `make_api_request`, once the payload has gone out. */
  function React(outcome: HttpOutcome, refractory: Value, cost: Option<real>): (x: Reaction)
    ensures x.counted.Some? ==> outcome.Parsed?
    ensures x.ret.Raised? ==> outcome.RequestFailed? && outcome.status == Some(402)
    ensures outcome.Undecodable? || outcome.OtherFailure? ==> x == Reaction(Returned(Failed), None, None)
    ensures outcome.Parsed? ==> x == HandleResponse(outcome.body)
    ensures outcome.RequestFailed? ==>
      x == HandleRequestException(outcome.status, outcome.description, refractory, cost)
  {
    match outcome
    case RequestFailed(status, description) => HandleRequestException(status, description, refractory, cost)
    case Undecodable => Reaction(Returned(Failed), None, None)
    case Parsed(body) => HandleResponse(body)
    case OtherFailure(_) => Reaction(Returned(Failed), None, None)
  }

  /**
   * `make_api_request(prompt)` against the settings `cfg` and the
   * accumulator's counters, with the exchange itself given by `respond`.
   * Tokens are counted exactly on success, and every failure and every
   * escaping exception leaves the counters alone.
   */
  function RequestReaction(cfg: map<Key, Value>, inputTokens: int, outputTokens: int, prompt: string,
                           floatText: real -> string, respond: Request -> HttpOutcome): (x: Reaction)
    ensures x.counted.Some? <==> x.ret.Returned? && x.ret.result.success
    ensures x.ret.Raised? ==> x.counted == None && x.newMaxTokens == None
    ensures x.newMaxTokens.Some? ==> x.ret.Returned? && !x.ret.result.success
    ensures BuildPayload(cfg, prompt).None? ==> x.ret.Raised?
    ensures x.ret.Returned? && !x.ret.result.success ==> x.ret.result.metadata == None
  {
    match Outgoing(cfg, prompt, floatText)
    case None => Reaction(Raised, None, None)
    case Some(request) =>
      React(respond(request), Setting(cfg, RefractorySeconds), TokenTracker.Cost(cfg, inputTokens, outputTokens))
  }

  /** The settings after a call: `max_tokens` takes the new value, if there is one. */
  function WithMaxTokens(cfg: map<Key, Value>, newMaxTokens: Option<int>): map<Key, Value> {
    match newMaxTokens
    case Some(n) => cfg[MaxTokens := Int(n)]
    case None => cfg
  }

  /**
   * A new `max_tokens` governs the next request: a positive hint is sent as
   * the cap, and zero (the 402 reaction) or a negative hint sends none.
   */
  lemma NextPayloadFollowsNewMaxTokens(cfg: map<Key, Value>, prompt: string, n: int)
    ensures BuildPayload(WithMaxTokens(cfg, Some(n)), prompt).Some?
    ensures BuildPayload(WithMaxTokens(cfg, Some(n)), prompt).value.maxTokens == if n > 0 then Some(Int(n)) else None
  {
  }

  /**
   * After HTTP 402, when the status lines can be computed (a numeric
   * refractory period and a computable cost), the call returns the
   * credits-exhausted triple and the next request goes out uncapped.
   */
  lemma CreditsExhaustedUncapsNextRequest(cfg: map<Key, Value>, inputTokens: int, outputTokens: int,
                                          prompt: string, floatText: real -> string, description: string,
                                          respond: Request -> HttpOutcome)
    requires Number(Setting(cfg, RefractorySeconds)).Some?
    requires TokenTracker.Cost(cfg, inputTokens, outputTokens).Some?
    ensures BuildPayload(cfg, prompt).Some? &&
            respond(Outgoing(cfg, prompt, floatText).value) == RequestFailed(Some(402), description) ==>
      var x := RequestReaction(cfg, inputTokens, outputTokens, prompt, floatText, respond);
      && x.ret == Returned(CallResult(false, Some(CreditsExhausted), None))
      && BuildPayload(WithMaxTokens(cfg, x.newMaxTokens), prompt).value.maxTokens == None
  {
    NextPayloadFollowsNewMaxTokens(cfg, prompt, 0);
  }

  // ---------------------------------------------------------------- worked cases

  /** A body with `usage = {prompt_tokens: 10, completion_tokens: 5}` counts exactly 10 and 5. */
  lemma SuccessCountsUsage(content: string)
    ensures var body := Body(Some([Choice(Some(ResponseMessage(Present(content))))]), Some(Usage(Some(10), Some(5))),
                             Absent, Absent, Absent, None);
      var x := HandleResponse(body);
      && x.ret == Returned(CallResult(true, Some(content),
                                      Some(Metadata(Some("unknown"), Usage(Some(10), Some(5)), Some(0), Some("")))))
      && x.counted == Some((10, 5))
  {
  }

  /** "can't afford 1234 tokens." sets `max_tokens` to 1234. */
  lemma AffordNumberIsAdopted(message: string)
    requires message == "can't afford 1234 tokens."
    ensures AffordHint(message) == Some(1234)
  {
    var words := ["can't", "afford", "1234", "tokens."];
    ExampleMentionsAfford(message);
    ExampleSplits(message, words);
    ExampleHint(words);
  }

  lemma ExampleMentionsAfford(message: string)
    requires message == "can't afford 1234 tokens."
    ensures PyText.Contains(message, "afford")
  {
    assert message[6..][..6] == "afford";
    PyText.ContainsInSuffix(message, 6, "afford");
  }

  lemma ExampleSplits(message: string, words: seq<string>)
    requires message == "can't afford 1234 tokens."
    requires words == ["can't", "afford", "1234", "tokens."]
    ensures PyText.Split(message) == words
  {
    JoinFour(words);
    assert words[0] + " " + words[1] + " " + words[2] + " " + words[3] == message;
    ExampleWords(words);
    PyText.SplitJoin(words);
  }

  lemma ExampleWords(words: seq<string>)
    requires words == ["can't", "afford", "1234", "tokens."]
    ensures forall i :: 0 <= i < |words| ==> PyText.IsWord(words[i])
  {
  }

  lemma JoinFour(words: seq<string>)
    requires |words| == 4
    ensures PyText.Join(words) == words[0] + " " + words[1] + " " + words[2] + " " + words[3]
  {
    var j3 := PyText.Join(words[3..]);
    assert j3 == words[3];
    assert words[2..][1..] == words[3..];
    var j2 := PyText.Join(words[2..]);
    assert j2 == words[2] + " " + j3;
    assert words[1..][1..] == words[2..];
    var j1 := PyText.Join(words[1..]);
    assert j1 == words[1] + " " + j2;
    assert PyText.Join(words) == words[0] + " " + j1;
  }

  lemma ExampleNumber(w: string)
    requires w == "1234"
    ensures PyText.ParseInt(PyText.RStripPunct(w)) == Some(1234)
  {
    assert PyText.RStripPunct(w) == w;
    assert "1234"[..3] == "123" && "123"[..2] == "12" && "12"[..1] == "1";
    assert PyText.DigitsValue(w) == 1234;
  }

  lemma ExampleHint(words: seq<string>)
    requires words == ["can't", "afford", "1234", "tokens."]
    ensures LastHint(words, |words|) == Some(1234)
  {
    ExampleNumber(words[2]);
    assert HintAt(words, 1) == Some(1234);
    assert HintAt(words, 3) == None;
    assert HintAt(words, 2) == None;
    assert LastHint(words, 2) == Some(1234);
  }

  /** "cannot afford abc": nothing parses, so the setting is left untouched. */
  lemma AffordWordIsIgnored(message: string)
    requires message == "cannot afford abc"
    ensures AffordHint(message) == None
  {
    var words := ["cannot", "afford", "abc"];
    assert PyText.Join(words[2..]) == "abc";
    assert PyText.Join(words[1..]) == "afford abc";
    assert PyText.Join(words) == message;
    PyText.SplitJoin(words);
    assert PyText.ParseInt("abc") == None;
    NoHintWithoutParse(words, 3);
  }
}
