# OpenRouter API testing client: request engine, usage accumulator and settings store

This project models the core of the OpenRouter API testing client in Dafny and proves properties of that model. The core has three parts:

- **The request engine** (`ApiClient`). It builds a chat-completion payload from the settings and a prompt, and sends it. It classifies every outcome of the HTTP exchange into a `(success, content, metadata)` triple. Along the way it performs two self-corrections of `max_tokens`:
  - the "afford" word scan over error messages;
  - forcing the value to 0 on HTTP 402.

  It also drives a continuous loop of requests. The loop is controlled by the `is_running` and `should_stop` flags and a delay polled in tenths of a second.
- **The usage accumulator** (`TokenUsage`). It keeps three counters and derives the cost from them, using the prices held in the settings at the moment the cost is asked for.
- **The settings store** (`Config`). It is a table over the fixed schema `DEFAULT_CONFIG`:
  - reads fall back to the defaults;
  - writes to unknown keys are ignored;
  - loading merges only the schema's keys;
  - a reset restores and saves the defaults.

Layout, one module per file:

| file | module | contents |
|---|---|---|
| `wrappers.dfy` | `Wrappers` | `Option` |
| `py_text.dfy` | `PyText` | the pieces of Python the afford scan relies on: `str.split()`, `rstrip('.,:;')`, the substring test, `int(text)`, `str(n)` |
| `settings.dfy` | `Settings` | the key schema and its defaults, `get`, `get_headers`, and the class `Config` |
| `token_tracker.dfy` | `TokenTracker` | totals over a history of updates, the cost function, and the class `TokenUsage` |
| `exchange.dfy` | `Exchange` | one request as pure functions: payload, outgoing request, HTTP outcome, classification, afford hint |
| `run_loop.dfy` | `RunLoop` | the continuous loop as a state machine over events, and lemmas about every run |
| `api_client.dfy` | `Client` | the class `ApiClient`; its methods change the settings, the accumulator and the flags step by step, and are proved to agree with `Exchange` and `RunLoop` |

The settings keys form an enumeration `Key`. `Name` gives each key's spelling in `get`, `set` and the settings file. `KeyOf` maps a name back to its key and is proved to be `Name`'s inverse. A value is a string, an integer or a real; floats are modelled as exact reals. Three operations raise `TypeError` on a string setting, and the model carries that outcome explicitly:

- `max_tokens > 0` (client.py line 67);
- `refractory_seconds / 60` in the 402 handler (client.py line 186);
- the price products of `calculate_cost` (token_tracker.py lines 36-37), which the 402 handler reaches at client.py line 187.

`delay * 10` at client.py line 234 does not raise: it repeats a string ten times, and `int()` then reads the repetition (`RunLoop.TickCount`). Where a `TypeError` or `ValueError` escapes, the model records it as follows:

- in `make_api_request` it is `Return.Raised`, an exception that escapes the call;
- in the continuous loop it ends the worker thread (`Obs.Crashed`).

The HTTP exchange is the function parameter `respond`. It maps the outgoing `Request` (endpoint, headers, payload, timeout) to an `HttpOutcome`:

- a request exception, with an optional status;
- an undecodable body;
- a parsed body;
- some other exception.

The rendering of a float inside an f-string is the parameter `floatText`.

Points where the code's behaviour is easy to misread:

- When the loop exits, only `is_running` is cleared. `should_stop` stays set until the next start (`RunLoop.StopIsHonoured` proves the final state `RunState(false, true, Idle)`).
- `stop_continuous_requests` sets `should_stop` even when no loop runs.
- Not every failure returns control to the caller:
  - A non-numeric `max_tokens` raises before the `try` block (client.py line 67).
  - So does a non-numeric `refractory_seconds` or price in the 402 handler.
  - Such an exception escapes `make_api_request`. In the loop it kills the worker while `is_running` stays set. From then on every start is a no-op (`RunLoop.CrashLeavesClientStuck`).
- The refractory period after a 402 is only reported, never waited for.

## Model

| member | source | states |
|---|---|---|
| PyText.Split | openrouter_client/api/client.py:149 | `str.split()` yields only non-empty, whitespace-free words |
| PyText.SplitWord | openrouter_client/api/client.py:149 | a non-empty, whitespace-free string splits into itself |
| PyText.SplitAtSpace | openrouter_client/api/client.py:149 | any whitespace character splits the text on either side independently; with `SplitWord` and the empty case this fixes `split()` on every string, leading, trailing and repeated whitespace included |
| PyText.SplitJoin | openrouter_client/api/client.py:149 | splitting undoes joining with single spaces, for every list of words |
| PyText.ContainsOccurs | openrouter_client/api/client.py:148 | `p in s` (`PyText.Contains`) holds exactly when `p` occurs in `s` at some offset |
| PyText.SplitWordsOccur | openrouter_client/api/client.py:148-150 | every word of `s.split()` is a substring of `s` |
| PyText.RStripPunct | openrouter_client/api/client.py:153 | `rstrip('.,:;')` returns a prefix that does not end in one of the four marks, and it removed only those marks |
| PyText.ParseInt | openrouter_client/api/client.py:153 | `int(text)` succeeds exactly on an optional sign followed by digits, of any length (no digit limit, see Left out); a negative result needs a leading minus |
| PyText.ParseIntToString | openrouter_client/api/client.py:153-154 | `int(str(n)) == n` for every integer, in the model's `int()` without a digit limit |
| Settings.Number | openrouter_client/utils/token_tracker.py:36-37 | arithmetic on a setting raises exactly when the setting is a string |
| Settings.DefaultKinds | openrouter_client/config/settings.py:14-39 | `DEFAULT_CONFIG` (`Settings.Default`): the seven texts are string defaults, the rest integers; every numeric default is positive except `max_tokens`, which is 0 ("no limit") |
| Settings.KeysEnumerateSchema | openrouter_client/config/settings.py:14-39 | the declaration-order key list names every schema key exactly once |
| Settings.KeyOf | openrouter_client/config/settings.py:81 | a name recognised as a schema key is that key's name |
| Settings.KeyOfName | openrouter_client/config/settings.py:81 | every key's name is recognised as that key (names and keys correspond one to one) |
| Settings.UnknownName | openrouter_client/config/settings.py:81 | a name is outside the schema exactly when no key has it |
| Settings.DefaultTableIsDefault | openrouter_client/config/settings.py:14-39 | the default table holds every key, each with its `DEFAULT_CONFIG` value |
| Settings.Setting | openrouter_client/config/settings.py:77 | a key reads its stored value, and its `DEFAULT_CONFIG` value when the table lacks it |
| Settings.Lookup | openrouter_client/config/settings.py:75-77 | `get` reads `None` exactly for names outside the schema |
| Settings.LookupByName | openrouter_client/config/settings.py:75-77 | `get` of a key's name reads the stored value, falling back to the default |
| Settings.LookupUnknown | openrouter_client/config/settings.py:75-77 | `get` of a name no key has reads `None` |
| Settings.Format | openrouter_client/config/settings.py:87 | the f-string renders a string as itself and an integer as text that `int()` reads back; a float's text is `floatText` |
| Settings.Headers | openrouter_client/config/settings.py:84-91 | exactly four headers: `Bearer ` plus the rendered key, the configured referer and title, and `application/json` |
| Settings.BearerCarriesKey | openrouter_client/config/settings.py:87 | a string API key is exactly what follows `Bearer ` in the Authorization header |
| Settings.DefaultHeaders | openrouter_client/config/settings.py:87-89 | the default settings send `Bearer ` with an empty key and the default title |
| Settings.Config.constructor | openrouter_client/config/settings.py:41-45 | each key holds the file's value when the file has its name, else its default |
| Settings.Config.LoadConfig | openrouter_client/config/settings.py:54-65 | the table stays complete; a key takes the file's value exactly when the file has its name, otherwise it keeps its value; other names in the file are ignored |
| Settings.Config.SaveConfig | openrouter_client/config/settings.py:67-73 | the saved snapshot is the current table |
| Settings.Config.Get | openrouter_client/config/settings.py:75-77 | a schema name reads its key's current setting (`Read`); any other name reads `None` |
| Settings.Config.Set | openrouter_client/config/settings.py:79-82 | a schema name's key takes the value and reads it back; an unknown name changes nothing; no other name's reading changes |
| Settings.Config.GetHeaders | openrouter_client/config/settings.py:84-91 | exactly four headers: `Bearer ` plus the rendered current `api_key`, the current `http_referer` and `x_title` as `get` reads them, and `application/json` |
| Settings.Config.ResetToDefaults | openrouter_client/config/settings.py:93-96 | every name reads its default again, and the defaults are the saved snapshot |
| TokenTracker.TotalsOfConcatenation | openrouter_client/utils/token_tracker.py:25-26 | the totals of two runs of updates, one after the other, add up |
| TokenTracker.TotalsNonNegative | openrouter_client/utils/token_tracker.py:17-27 | non-negative update arguments keep both totals non-negative (`update` itself checks nothing) |
| TokenTracker.Cost | openrouter_client/utils/token_tracker.py:36-38 | the cost exists exactly when both prices are numbers, and it is 0 with no tokens |
| TokenTracker.CostOfConcatenation | openrouter_client/utils/token_tracker.py:29-38 | the cost of all updates is the sum of the costs of the parts |
| TokenTracker.CostFollowsInputPrice | openrouter_client/utils/token_tracker.py:36 | the price is read at call time: changing only the input price changes the cost whenever input tokens were counted |
| TokenTracker.TokenUsage.constructor | openrouter_client/utils/token_tracker.py:11-15 | all three counters start at 0, with no update recorded |
| TokenTracker.TokenUsage.Update | openrouter_client/utils/token_tracker.py:17-27 | both arguments are added, the call count goes up by one, and the counters remain the totals of the update history |
| TokenTracker.TokenUsage.Reset | openrouter_client/utils/token_tracker.py:67-71 | all three counters are 0 and the history is empty |
| TokenTracker.TokenUsage.CalculateCost | openrouter_client/utils/token_tracker.py:29-38 | exactly the cost of the totals of every update so far, at the prices the settings hold now; it raises exactly when a price is a string; 0 after a reset |
| TokenTracker.TokenUsage.GetUsageDict | openrouter_client/utils/token_tracker.py:52-65 | present exactly when the cost can be computed; input and output tokens are the two totals of the update history, the total is their sum, and the call count is the number of updates |
| Exchange.IsPositive | openrouter_client/api/client.py:67 | `max_tokens > 0` raises exactly for a string, and otherwise is the numeric comparison |
| Exchange.BuildPayload | openrouter_client/api/client.py:57-68 | the configured model; two messages, system prompt first, then the user's prompt; `max_tokens` present exactly when the setting is positive, and then equal to it; `None` when the comparison raises |
| Exchange.SentCapIsPositive | openrouter_client/api/client.py:66-68 | a zero or negative `max_tokens` is never sent |
| Exchange.DefaultPayloadIsUncapped | openrouter_client/api/client.py:66-68 | the default settings (`max_tokens` 0) send no `max_tokens` field, and they send the default model |
| Exchange.Outgoing | openrouter_client/api/client.py:74-79 | the POST goes to the configured endpoint with `get_headers()`, the payload and the configured timeout |
| Exchange.HintAt | openrouter_client/api/client.py:150-153 | a word yields a hint exactly when it is "afford", has a successor, and the successor without trailing `.,:;` is an integer literal |
| Exchange.LastHintIsLast | openrouter_client/api/client.py:150-156 | the scan leaves the value of a successful parse that no later word overrides: the last one wins |
| Exchange.NoHintWithoutParse | openrouter_client/api/client.py:150-158 | `max_tokens` keeps its value exactly when no "afford" is followed by a parseable word |
| Exchange.AffordHint | openrouter_client/api/client.py:146-158 | a new `max_tokens` needs "afford" in the message and is the parse of a word that directly follows an "afford" word |
| Exchange.AffordGuardIsShortcut | openrouter_client/api/client.py:148-150 | the substring pre-check hides no hint: the result equals scanning every message |
| Exchange.ErrorMessage | openrouter_client/api/client.py:143-144 | a message exists exactly when the body has an `error`; it is that error's `message`, or "" without one |
| Exchange.GetOr | openrouter_client/api/client.py:117-135 | `dict.get(name, default)`: the default for a missing field, `None` for JSON `null`, else the value |
| Exchange.UsageTokens | openrouter_client/api/client.py:119-127 | the counted tokens are the reported ones, each defaulting to 0 |
| Exchange.HandleResponse | openrouter_client/api/client.py:116-160 | never raises; success exactly with non-empty `choices`; then exactly one count of the reported tokens; content is the message's, "No content found in response." when missing and `None` when JSON `null`; metadata fields likewise take their defaults when missing and `None` when `null`; otherwise `(False, None, None)` with the afford hint of the error message as the only effect |
| Exchange.HandleRequestException | openrouter_client/api/client.py:175-199 | 402 sets `max_tokens` to 0 and reports credits exhausted, or raises when the status lines cannot be computed; 401/403 report an authentication failure and leave `max_tokens` alone; anything else reports `Request error: ...`; nothing is counted |
| Exchange.React | openrouter_client/api/client.py:72-100 | a parsed body goes to the response handler, a request exception to the exception handler, and a decode or other failure returns `(False, None, None)` with no effect; only a parsed body counts tokens, and only a 402 can raise |
| Exchange.RequestReaction | openrouter_client/api/client.py:43-100 | tokens are counted exactly on success; a raise changes nothing; a new `max_tokens` comes only with a failure; failures carry no metadata |
| Exchange.NextPayloadFollowsNewMaxTokens | openrouter_client/api/client.py:155 | after a new `max_tokens`, the next payload carries it exactly when it is positive |
| Exchange.CreditsExhaustedUncapsNextRequest | openrouter_client/api/client.py:184-192 | after a 402 whose status lines can be computed (numeric refractory period and cost), the result is the credits-exhausted triple and the next request goes out uncapped |
| Exchange.SuccessCountsUsage | openrouter_client/api/client.py:116-137 | a body with one choice and usage 10/5, and no `model`, `created` or `id`, returns its content with default metadata and counts exactly 10 and 5 |
| Exchange.AffordNumberIsAdopted | openrouter_client/api/client.py:143-156 | "can't afford 1234 tokens." sets `max_tokens` to 1234 |
| Exchange.AffordWordIsIgnored | openrouter_client/api/client.py:152-158 | "cannot afford abc" leaves `max_tokens` untouched |
| RunLoop.Repeat | openrouter_client/api/client.py:234 | `text * 10` for a string delay: ten times as long, ending in the same character |
| RunLoop.Truncate | openrouter_client/api/client.py:234 | `int()` of a float truncates toward zero |
| RunLoop.TickCount | openrouter_client/api/client.py:230-237 | a numeric delay allows the largest whole number of 0.1 s sleeps not above `10 * delay`, and none when the delay is not positive; a string delay survives exactly when its ten-fold repetition is an integer literal (no digit limit, see Left out) |
| RunLoop.NonDigitDelayRaises | openrouter_client/api/client.py:234 | a string delay not ending in a digit ends the worker |
| RunLoop.DigitDelayIsRead | openrouter_client/api/client.py:234 | a string delay of digits is read as a number |
| RunLoop.OnStart | openrouter_client/api/client.py:209-213 | a no-op while running; otherwise running, not stopping, before call #1 |
| RunLoop.OnStep | openrouter_client/api/client.py:217-240 | exit only on `should_stop`, and the exit alone clears `is_running`; a call is numbered one past the last and hands over the triple `make_api_request` returned, success or failure; an escaping exception ends the worker with `is_running` still set; the delay sets the sleep budget; one sleep per tick; `should_stop` never changes |
| RunLoop.Next | openrouter_client/api/client.py:247-250 | a stop request sets `should_stop` and nothing else |
| RunLoop.StopIsIdempotent | openrouter_client/api/client.py:247-250 | asking to stop twice is asking once |
| RunLoop.RunKeepsInv | openrouter_client/api/client.py:209-240 | in every run, a worker exists only while `is_running` is set |
| RunLoop.NoCallsWithoutWorker | openrouter_client/api/client.py:209-245 | without a worker and without a start, nothing is called |
| RunLoop.CallsNumberedConsecutively | openrouter_client/api/client.py:218-221 | between two starts, the callback sees calls numbered consecutively |
| RunLoop.FreshStartNumbersFromOne | openrouter_client/api/client.py:212-221 | after a start that launches a worker, calls are numbered 1, 2, 3, ... |
| RunLoop.StopIsHonoured | openrouter_client/api/client.py:219-239 | once `should_stop` is set and no start intervenes, there is no call, no sleep and no crash; within two worker steps the worker is gone and `is_running` is clear |
| RunLoop.CrashLeavesClientStuck | openrouter_client/api/client.py:209-210 | after the worker dies of an exception, `is_running` stays set whatever happens next, and nothing is ever called again |
| RunLoop.SleepsBoundedByDelay | openrouter_client/api/client.py:233-237 | before the next call, no more sleeps happen than the delay loop had iterations left |
| Client.ApiClient.constructor | openrouter_client/api/client.py:24-35 | the given accumulator or a fresh zeroed one; both flags clear; no worker |
| Client.ApiClient.MakeApiRequest | openrouter_client/api/client.py:43-100 | the result, the settings (including the saved snapshot) and the update history are those `RequestReaction` gives |
| Client.ApiClient.HandleSuccessfulResponse | openrouter_client/api/client.py:102-160 | the result and the effects are those `HandleResponse` gives |
| Client.ApiClient.ScanAfford | openrouter_client/api/client.py:149-158 | `max_tokens` ends at the last hint, and it is saved exactly when some hint was found |
| Client.ApiClient.HandleRequestException | openrouter_client/api/client.py:162-199 | the result and the effects are those `Exchange.HandleRequestException` gives, for the refractory setting and the cost at the time of the call |
| Client.ApiClient.StartContinuousRequests | openrouter_client/api/client.py:201-245 | the flags and the worker are those `OnStart` gives; the prompt is fixed only by a start that launches a worker |
| Client.ApiClient.StopContinuousRequests | openrouter_client/api/client.py:247-250 | the flags are those of a `Stop` event |
| Client.ApiClient.CallStep | openrouter_client/api/client.py:219-224 | the step makes exactly one request with the effects of `MakeApiRequest`, then one callback with its result |
| Client.ApiClient.WorkerStep | openrouter_client/api/client.py:217-240 | the state and observation follow `OnStep`; only the calling step touches the settings and the accumulator |

## Left out

- HTTP transport: `requests.post`, `raise_for_status` and `response.json()` are the parameter `respond`. The model does not decide which outcome a given server reply produces.
- Library exception hierarchy: a JSON decode failure is modelled as reaching the `json.JSONDecodeError` handler (client.py line 92). A `requests` version whose decode error is a `RequestException` gives `RequestFailed(None, ...)` instead, which `respond` can also return.
- Exchange.HandleResponse: JSON `null` is modelled only for `content`, `model`, `created` and `id`, which Python passes on as `None`.
- Exchange.HandleResponse: a `null` `message`, `usage` or token count, and any field with the wrong JSON type (a non-list `choices`, a non-object `message`, string token counts), fall outside the `Body` datatype. The `AttributeError` or `TypeError` they raise, caught at client.py line 97, is not modelled. Neither is the partly applied usage update that a string or `null` `completion_tokens` leaves behind.
- Threads and real time: each worker step is atomic, and `time.sleep(0.1)` is the observation `Slept`. The daemon flag is left out.
- Races between a one-shot call from the GUI and the running loop are left out. Within the loop, only interleavings at worker-step granularity are modelled.
- The result callback is the observation `Called`. An exception raised inside the callback is not modelled.
- Status lines and logging (`_update_status`, `status_callback`, `logger`) are left out. They have no effect on the modelled state, except that computing the 402 status lines can raise, and that is modelled.
- Float arithmetic is exact real arithmetic, so the rounding of `delay * 10` and of the cost is not modelled. `round(..., 2)` in `get_usage_dict` is left out, and `get_usage_summary` is not part of this model.
- PyText.ParseInt: CPython 3.11 and later (and the 3.7.14–3.10.7 security releases) raise `ValueError` in `int(text)` for more than 4300 digits, and in `str(n)` for such an `n`. The model has no digit limit, because it depends on the interpreter version and the repository pins none. So for an "afford" followed by a number of more than 4300 digits, `AffordHint` adopts the number, where such an interpreter swallows the error at client.py line 157 and leaves `max_tokens` as it was. Likewise a string `request_delay_seconds` longer than 430 digits is read by `RunLoop.TickCount`, where such an interpreter crashes the worker at client.py line 234.
- `int(text)` accepts surrounding whitespace, underscores between digits and non-ASCII digits. The model reads only an optional sign followed by ASCII digits. After `split()` a word never has surrounding whitespace.
- Settings file I/O (`Path.home`, `mkdir`, `open`, `json.load`, `json.dump`, printing the `IOError`) is left out. Loading takes the parsed file, or `None` when it is absent or does not decode. Saving records a ghost snapshot.
- Settings values are strings, integers or reals. JSON `null`, booleans, lists and objects in the settings file, and a file whose top level is not an object, are not modelled.
- Settings.Format: the text of a float inside an f-string (`repr` of a double) is the parameter `floatText`.
- GUI files (`app.py`, `gui/components`, `gui/utils/theme.py`, `main.py`) are not part of this model.
