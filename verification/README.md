# SonarChrome core, modelled in Dafny

SonarChrome is a browser extension for Threads. It spots posts that are
gaining likes quickly and drafts replies to them with a language model. This
project models the parts of it that decide things, and proves properties of
that model:

- **Providers** (`Base`, `Adapter`, `OpenAI`, `Claude`, `Gemini`, `OpenRouter`):
  - the prompt every provider sends and the clean-up of the reply it returns;
  - API key shape checks and the network probe;
  - the three-attempt retry loop with its linear back-off;
  - the status-to-error mapping and the `handleError` tables that turn
    thrown messages into user-facing text;
  - the response-body extraction of each vendor.

  Each HTTP exchange is a value of a datatype, so a provider call becomes a
  function from the exchanges it would see to the response it gives and the
  traffic it causes (requests sent, waits taken).
- **Prompt builder** (`PromptText`, `PromptBuilder`):
  - the strategy table and its fallback;
  - the dynamic-style override, the persona and the emoji/kaomoji rules;
  - the style-cloning block and the length tiers;
  - the two prompt templates, with what each prompt always or conditionally
    contains.
- **Constants** (`Constants`): the reply styles, brand tones and storage keys,
  and the facts the rest of the model relies on (distinct ids and labels, no
  `auto` entry).
- **Background** (`Background`):
  - the provider registry;
  - the selected model and the model-to-key routing;
  - the key status answer;
  - `handleGenerateReply` with its refusal paths and `catch` table;
  - the message dispatch.
- **Content-script helpers**:
  - like-count parsing, threshold bands, viral potential and hourly growth
    (`ContentMetrics`);
  - the post-text filter (`PostText`);
  - batch targets (`BatchQueue`, `AutoBatch`) and random batch styles
    (`BatchStyle`);
  - the smart-auto analysis: request, regex field parsing, style resolution,
    reason clean-up and plan (`AnalysisParse`, `SmartAuto`, `SmartAutoWiring`);
  - the removal of the `STYLE:`/`REASON:` metadata and code fences from a
    generated reply (`ReplyMeta`).

Regular expressions are modelled as the search they perform: the leftmost
starting position, greedy or lazy quantifiers with the backtracking that
matters, and `/i` as ASCII case folding. `\s` and `trim` use JavaScript's
exact whitespace set. `Strings` holds the JavaScript string operations the
source relies on (`trim`, `includes`, `indexOf`, first-occurrence `replace`,
`join`, decimal rendering). `Results` holds `Option` and `Result`.

## Model

| member | source | states |
|---|---|---|
| Strings.Trim | src/lib/providers/base.ts:47 | `trim()`: the result is a slice with no whitespace at either end, and only whitespace is cut |
| Strings.IndexOf | src/content.ts:1892 | the first occurrence, present exactly when the text contains the pattern |
| Strings.ReplaceFirst | src/content.ts:1892 | `replace` with a string pattern swaps only the first occurrence; without one the text is unchanged |
| Strings.NatToDecimal | src/lib/providers/openai.ts:230 | a status number renders as a non-empty run of digits |
| Strings.DecimalRoundTrip | src/lib/providers/openai.ts:230 | the rendered digits read back as the number |
| Strings.JoinContainsLine | src/content.ts:1996 | a joined text contains each of its lines |
| Base.FormatPrompt | src/lib/providers/base.ts:30-43 | the prompt starts with the style prompt and quotes the post text in 「」 |
| Base.StripQuotes | src/lib/providers/base.ts:48 | at most one opening quote and one closing quote are removed; what is left is a contiguous slice of the input |
| Base.CollapseRuns | src/lib/providers/base.ts:49-50 | every run of the given whitespace class becomes one space, and no two class characters stay adjacent |
| Base.CollapseSpacesNormalized | src/lib/providers/base.ts:50 | collapsing `\s+` leaves a normalized string: every whitespace character is a plain space, none adjacent |
| Base.CleanupReply | src/lib/providers/base.ts:45-52 | the cleaned reply is trimmed, normalized (no newline, single plain spaces) and no longer than the raw reply |
| Base.TrimKeepsVisible | src/lib/providers/base.ts:47 | trimming removes no visible character |
| Base.CollapseKeepsVisible | src/lib/providers/base.ts:49-50 | collapsing whitespace runs removes no visible character |
| Base.CleanupKeepsVisible | src/lib/providers/base.ts:45-52 | clean-up keeps every visible character except the stripped quotes, in order |
| Base.NormalizedFixed | src/lib/providers/base.ts:45-52 | a trimmed, normalized reply without quotes at its ends is its own clean-up |
| Base.CleanupIdempotent | src/lib/providers/base.ts:45-52 | cleaning twice is cleaning once when the cleaned reply has no quote at either end |
| Base.QuotesNeedNotMatch | src/lib/providers/base.ts:48 | the opening and closing quote are removed independently: 「x" and "x」 both become x |
| Base.CleanupNotIdempotent | src/lib/providers/base.ts:45-52 | a doubly quoted reply loses one quote pair per clean-up, so clean-up is not idempotent in general |
| Base.OpeningQuotes | src/lib/providers/base.ts:48 | at most one opening quote is removed |
| Base.SingleQuotedCleans | src/lib/providers/base.ts:45-52 | `"x"` cleans to `x` |
| Base.DoubleQuotedCleansOnce | src/lib/providers/base.ts:45-52 | `""x""` cleans to `"x"`: only one quote pair goes per clean-up |
| Adapter.Describe | src/lib/providers/openrouter.ts:80 | `String(error)` of an Error joins name and message with ": ", dropping an empty part; other values are their own text |
| Adapter.ProbeError | src/lib/providers/openai.ts:266-309 | the probe passes exactly on a status in [200, 500); another status is reported with its number; an abort is a time-out; an Error whose message mentions `Failed to fetch` is the unreachable-host text, one mentioning `NetworkError` the firewall text, any other Error its own message; a non-Error throw the unknown-error text |
| Adapter.UnreachableProbeNamesApi | src/lib/providers/openai.ts:299-300 | a `Failed to fetch` rejection gives the unreachable-host text, which names the API |
| Adapter.RetryFrom | src/lib/providers/openai.ts:108-175 | from a given attempt on, the loop stops at the first success or terminal failure, otherwise after attempt 3; every wait is the linear back-off of the attempt before it |
| Adapter.Outcomes | src/lib/providers/openai.ts:110 | three outcomes, the k-th being what the vendor's loop body makes of the k-th exchange; the same loop is at src/lib/providers/claude.ts:103 and src/lib/providers/gemini.ts:98 |
| Adapter.Retry | src/lib/providers/openai.ts:108-175 | at most three requests; the result is the last attempt's; every earlier attempt failed transiently; waits are 2000 ms × attempt |
| Adapter.TerminalFirstIsSingleCall | src/lib/providers/openai.ts:158-165 | a terminal first failure sends exactly one request and never waits |
| Adapter.TransientThenSuccess | src/lib/providers/openai.ts:166-171 | two transient failures then a reply: three requests, waits of 2000 and 4000 ms |
| Adapter.AllTransientRethrowsLast | src/lib/providers/openai.ts:166-175 | three transient failures rethrow the third error after waits of 2000 and 4000 ms |
| Adapter.FirstMarker | src/lib/providers/openai.ts:242-256 | the first row of the table whose needle occurs in the message, or none |
| Adapter.MarkerMessage | src/lib/providers/openai.ts:234-263 | the first matching row's text, or the default message when no needle occurs |
| Adapter.MarkerMessageAt | src/lib/providers/openai.ts:242-256 | the first row whose needle occurs decides the message, whatever later rows match |
| Adapter.FirstRowWins | src/lib/providers/openai.ts:242-243 | a message holding the first row's needle gets the first row's text |
| Adapter.HandleError | src/lib/providers/openai.ts:234-263 | always a failure with debug info; an Error maps through the table with its message as debug info; anything else gets the default text and empty debug info |
| Adapter.StatusError | src/lib/providers/openai.ts:208-232 | 400 gives the invalid-key marker when the text holds it, else the bad-request text with the response text; 401 gives the invalid-key marker; 403 gives the quota marker when the text holds it, else the access-denied text; 429 gives the rate-limit marker; 500/502/503/504 give the network-error message naming the server and status; any other status gives `API 請求失敗: <status>` |
| Adapter.BadRequestMarkers | src/lib/providers/openai.ts:209-213 | the 400 message holds a terminal marker exactly when the response text does |
| Adapter.ServerErrorUnmarked | src/lib/providers/openai.ts:223-228 | the 5xx message holds no terminal marker, so 5xx is retried |
| Adapter.RequestFailedUnmarked | src/lib/providers/openai.ts:229-230 | the catch-all status message holds no terminal marker |
| Adapter.MarkersAreTerminal | src/lib/providers/openai.ts:208-232 | the invalid-key, quota and rate-limit markers stop the loop; the 403 access-denied text does not |
| Adapter.NoMarkerWithoutChars | src/lib/providers/openai.ts:158-165 | a message with none of the marker letters is never terminal |
| Adapter.StatusErrorTerminal | src/lib/providers/openai.ts:158-165 | a non-OK status ends the loop at once exactly for 401, 429, a 400 whose text holds a marker, or a 403 whose text holds the quota marker |
| Adapter.KeyQuotaRateTable | src/lib/providers/openai.ts:242-256 | the seven-row `handleError` chain, invalid key first and network error fourth |
| Adapter.Generate | src/lib/providers/openai.ts:48-82 | a bad key fails with no traffic; otherwise the probe runs, and a failed probe reports it with no request; after a passed probe, a reply exactly when the retry loop returns one, and otherwise the loop's last error through `handleError`: the first matching table row's text with the error message as debug info (Adapter.AdapterContract, stated on the outcomes directly) |
| Adapter.TerminalErrorIsReported | src/lib/providers/openai.ts:48-82 | with a reachable host and a terminal first failure: one request and the table's message |
| OpenAI.ExtractReply | src/lib/providers/openai.ts:178-206 | a reply exactly when there is a first choice, not stopped by `content_filter` or `length`, with non-blank content, and it is that content cleaned; no choice gives the no-reply error, `content_filter` the filter error, `length` the truncation error, blank content the unknown-format error |
| OpenAI.Attempt | src/lib/providers/openai.ts:111-153 | a rejected fetch fails with its message, a non-OK status with the status error, and a reply needs an OK, decodable, error-free body |
| OpenAI.GenerateReply | src/lib/providers/openai.ts:48-82 | a key not starting with `sk-` or shorter than 20 fails with no traffic; a failed probe fails with its message and no request; otherwise requests stop at the first reply or terminal failure, or after the third, with waits of 2000 ms times the attempt, and the last attempt decides: its reply, or its error mapped through the OpenAI table with the error as debug info |
| OpenAI.UnauthorizedStopsAtOnce | src/lib/providers/openai.ts:214-215 | a 401 on the first attempt: one request, no wait, the invalid-key text |
| OpenAI.InvalidKeyRow | src/lib/providers/openai.ts:242-243 | the invalid-key marker selects the OpenAI invalid-key text |
| OpenAI.ServerErrorTransient | src/lib/providers/openai.ts:223-228 | a 5xx attempt fails transiently |
| OpenAI.ServerErrorsThenReply | src/lib/providers/openai.ts:108-175 | two 5xx answers then a good one: three requests, waits of 2 s and 4 s, the reply |
| OpenAI.MalformedKeySendsNothing | src/lib/providers/openai.ts:53-59 | a malformed key never probes and sends no request |
| Claude.FirstTextBlock | src/lib/providers/claude.ts:178 | the first content block of type `text`, or none |
| Claude.ExtractReply | src/lib/providers/claude.ts:172-205 | no content fails; no text block fails; with a first text block, `max_tokens` gives the truncation error, and any other stop reason (`stop_sequence` included) gives the block's text cleaned when it is non-blank, else the unknown-format error |
| Claude.Attempt | src/lib/providers/claude.ts:104-148 | a rejected fetch fails with its message, a non-OK status with the status error, and a reply needs an OK, decodable, error-free body |
| Claude.GenerateReply | src/lib/providers/claude.ts:46-80 | a key not starting with `sk-ant-` or shorter than 30 fails with no traffic; a failed probe fails with its message and no request; otherwise requests stop at the first reply or terminal failure, or after the third, with linear waits, and the last attempt decides: its reply, or its error mapped through the Claude table |
| Claude.RateLimitedStopsAtOnce | src/lib/providers/claude.ts:221-222 | a 429 on the first attempt: one request, no wait, the rate-limit text |
| Claude.RateLimitRow | src/lib/providers/claude.ts:245-246 | the rate-limit marker selects the Claude rate-limit text, not an earlier row |
| Claude.TextBlockAfterOtherBlocks | src/lib/providers/claude.ts:178-200 | a text block after a non-text block is found, and `stop_sequence` does not block it |
| Gemini.StatusError | src/lib/providers/gemini.ts:199-222 | 400 gives the key marker when the text holds it or `invalid`, else the bad-request text; 401/403 give the quota marker when the text holds `quota` or `limit`, else the key marker; 404 gives the model-unavailable text; 429 the quota marker; 500 and above the network-error message; any other status `API 請求失敗: <status>` |
| Gemini.GeminiMarkersAreTerminal | src/lib/providers/gemini.ts:148-149 | the key and quota markers stop the loop; the 404 text does not |
| Gemini.BadRequestGeminiMarkers | src/lib/providers/gemini.ts:205 | the 400 message holds a terminal marker exactly when the response text does |
| Gemini.StatusMessagesUnmarked | src/lib/providers/gemini.ts:216-220 | the 5xx and catch-all messages hold no terminal marker |
| Gemini.StatusErrorTerminal | src/lib/providers/gemini.ts:199-222 | a non-OK status ends the loop at once exactly for 400 with an `invalid` text or a marker, 401, 403 and 429 |
| Gemini.ExtractReply | src/lib/providers/gemini.ts:165-197 | no candidates fails with the block reason when there is feedback, else with the no-reply error; a SAFETY stop gives the filter error, a MAX_TOKENS stop the truncation error, a missing or blank first part the unknown-format error; a reply exactly otherwise, the first candidate's first part cleaned |
| Gemini.OnlyFirstPartRead | src/lib/providers/gemini.ts:189 | a blank first part fails even when a second part holds text |
| Gemini.Attempt | src/lib/providers/gemini.ts:99-142 | a rejected fetch fails with its message, a non-OK status with the status error, and a reply needs an OK, decodable, error-free body |
| Gemini.ErrorTable | src/lib/providers/gemini.ts:224-252 | the six-row chain, key-invalid first and quota second |
| Gemini.GenerateReply | src/lib/providers/gemini.ts:43-77 | a key not starting with `AIza` or shorter than 30 fails with no traffic; a failed probe fails with its message and no request; otherwise requests stop at the first reply or terminal failure, or after the third, with linear waits, and the last attempt decides: its reply, or its error mapped through the Gemini table |
| Gemini.QuotaStopsAtOnce | src/lib/providers/gemini.ts:214-215 | a 429 on the first attempt: one request, no wait, the quota text |
| Gemini.QuotaRow | src/lib/providers/gemini.ts:234-235 | the quota marker selects the Gemini quota text |
| Gemini.NotFoundIsRetried | src/lib/providers/gemini.ts:212-213 | a 404 is retried: three 404s give three requests and waits of 2000 and 4000 ms |
| OpenRouter.MakeConfig | src/lib/providers/openrouter.ts:6-16 | id and name as given, provider `openrouter`, key required, free exactly when the id contains `:free` |
| OpenRouter.DefaultIsFree | src/lib/providers/openrouter.ts:6 | the constructor's default model is a free one |
| OpenRouter.MakeOutgoing | src/lib/providers/openrouter.ts:22-41 | the request names the configured model, sends the formatted prompt, and carries the key as a bearer token |
| OpenRouter.CatchAll | src/lib/providers/openrouter.ts:75-82 | an Error's message, or the generic network text, with `String(error)` as debug info |
| OpenRouter.GenerateReply | src/lib/providers/openrouter.ts:20-83 | a reply exactly when the answer is OK with a first choice whose message has string content, and it is that content cleaned; a non-OK answer gives the status text with the body's error detail appended and the body as debug info; a `null` body, or a `null` or missing content, gives the engine's `TypeError` for the property it reads; no choice gives the format error; every failure carries debug info |
| OpenRouter.ErrorDetailAppended | src/lib/providers/openrouter.ts:47-50 | a non-OK body's error message is appended after the status text |
| OpenRouter.UnreadableErrorBody | src/lib/providers/openrouter.ts:44 | a non-JSON error body reports the bare status text with `{}` as debug info |
| OpenRouter.StatusMessage | src/lib/providers/openrouter.ts:47-49 | 401 gives `API Key 無效`, 402 gives `餘額不足`, and exactly the other statuses give `API 請求失敗 (<status>)` naming the status |
| OpenRouter.PaymentRequired | src/lib/providers/openrouter.ts:49 | a 402 is reported as an exhausted balance, whenever its body is not the JSON value `null` |
| OpenRouter.NullErrorBodyHidesStatus | src/lib/providers/openrouter.ts:44-50 | a non-OK answer whose body is `null` reports the `TypeError` of reading `error`, not the status |
| OpenRouter.NullContentReported | src/lib/providers/openrouter.ts:62 | a `null` content fails with the `null` wording of the `trim` error |
| OpenRouter.MissingContentReported | src/lib/providers/openrouter.ts:62 | a missing content fails with the `undefined` wording of the `trim` error |
| PromptBuilder.KeyOf | src/lib/prompt-builder.ts:107-156 | an id has a table entry exactly when it is one of the twelve strategy ids |
| PromptBuilder.GetStyleStrategy | src/lib/prompt-builder.ts:106-162 | a listed id gets its own entry, name and definition; any other id gets `Friendly Echo`, and only then (inherited property names excepted, see "## Left out") |
| PromptBuilder.SelectableStylesStrategies | src/lib/prompt-builder.ts:106-162 | the selectable styles whose ids are in the table get their strategies; the rest fall back |
| PromptBuilder.ResolveStrategy | src/lib/prompt-builder.ts:20-25 | the definition is never changed; the name becomes the dynamic style name only for `dynamic` with a non-empty name |
| PromptBuilder.Persona | src/lib/prompt-builder.ts:28-34 | the tone's name and description, or the default persona; the author sentence is appended exactly for a self post |
| PromptBuilder.VisualRules | src/lib/prompt-builder.ts:37-45 | always the no-emoji rule; the kaomoji rule exactly when asked, the no-kaomoji rule exactly otherwise (stated on the rule text: the whole prompt embeds the post verbatim, which may itself contain either rule) |
| PromptBuilder.TaskConstraint | src/lib/prompt-builder.ts:38-42 | always "Do NOT use emojis"; the kaomoji request exactly when asked |
| PromptBuilder.PersonalStyleRule | src/lib/prompt-builder.ts:48-56 | empty exactly when the examples are missing or blank; otherwise it embeds the trimmed examples |
| PromptBuilder.StrategyClause | src/lib/prompt-builder.ts:96 | ` Strategy: X.` exactly when a non-empty strategy is given |
| PromptBuilder.ReplyContext | src/lib/prompt-builder.ts:82-85 | the context block quotes the post and names the persona and the target style |
| PromptBuilder.ReplyContract | src/lib/prompt-builder.ts:87-93 | the output rules carry the STYLE and REASON lines |
| PromptBuilder.ReplyTask | src/lib/prompt-builder.ts:95-100 | the task names the style, holds the strategy clause when given and the emoji constraint, and ends with `REPLY:` |
| PromptBuilder.FormatReplyPrompt | src/lib/prompt-builder.ts:59-100 | the reply prompt holds the post, persona, target style, STYLE/REASON contract, the visual rules and task constraint chosen by the options, and ends with `REPLY:` |
| PromptBuilder.BuildReplyPrompt | src/lib/prompt-builder.ts:7-101 | for any template text, including the extension's own: the reply prompt ends with `REPLY:`, quotes the post, carries the metadata contract, follows the kaomoji option, falls back to `Friendly Echo` for an unknown id (inherited property names excepted) and shows a dynamic style under its own name; "exactly one kaomoji rule" is stated on the rule fragment, since the post is embedded verbatim |
| PromptBuilder.LengthRule | src/lib/prompt-builder.ts:186-191 | medium and long have their own tier; anything else is one or two sentences; each rule names only its own tier |
| PromptBuilder.MergedVisualRule | src/lib/prompt-builder.ts:178-183 | the merged prompt's visual rule is the kaomoji rule exactly when asked, and never the no-emoji rule (that assignment is overwritten) |
| PromptBuilder.MergedIntro | src/lib/prompt-builder.ts:195-203 | the merged prompt's opening holds the styles list and the persona line |
| PromptBuilder.MergedRuleBlock | src/lib/prompt-builder.ts:204-219 | the rule block follows the kaomoji and length options |
| PromptBuilder.FormatMergedPrompt | src/lib/prompt-builder.ts:195-225 | the merged prompt holds the styles list, the post and the persona line, follows the options, and ends with `Response:` |
| PromptBuilder.BuildMergedPrompt | src/lib/prompt-builder.ts:168-226 | the merged prompt ends with `Response:`, holds the styles list and the post, names the tone and its description as persona (the default description without a tone), carries the kaomoji rule asked for, and the long, medium or (otherwise) short length tier |
| Constants.FindStyle | src/lib/constants.ts:3-73 | the style with that id, present exactly when the table lists the id |
| Constants.StylesWellFormed | src/lib/constants.ts:3-73 | eleven styles with distinct ids and distinct labels |
| Constants.StyleIdsListed | src/lib/constants.ts:3-73 | the style ids in table order |
| Constants.StyleLabelsIdeographic | src/lib/constants.ts:3-73 | every label is one to three CJK ideographs |
| Constants.TonesWellFormed | src/lib/constants.ts:75-118 | six built-in tones with distinct ids, none custom |
| Constants.StorageKeysDistinct | src/lib/constants.ts:122-133 | ten storage keys, all different |
| Constants.NoAutoStyle | src/lib/constants.ts:3-73 | the table has no `auto`, `connection` or `lust` entry |
| Constants.QuestionStyle | src/lib/constants.ts:22-28 | `question` is offered, with the prompt name `Curious Spark` |
| Background.RegisteredIds | src/background.ts:27-41 | the four model ids in registration order |
| Background.Providers | src/background.ts:27-41 | each registered id is bound to an OpenRouter configuration for that id that requires a key |
| Background.RegistryServesDefault | src/lib/storage.ts:29 | the default model is registered, and no registered model is a free one |
| Background.NoFreeMarker | src/background.ts:27-41 | no registered model id contains `:free` |
| Background.SelectedModel | src/lib/storage.ts:26-34 | the stored model when present and non-empty, else the default |
| Background.KeyForModel | src/background.ts:130-144 | a non-empty key or none; the three legacy ids use their vendor keys, every other id the OpenRouter key |
| Background.RegisteredModelsUseOpenRouterKey | src/background.ts:134-139 | every registered model is served with the OpenRouter key |
| Background.ApiKeyStatus | src/background.ts:146-172 | each flag says whether that key is set; `hasApiKey` mirrors the Gemini key |
| Background.ResolveModel | src/background.ts:48-51 | the message's non-empty model, else the stored choice |
| Background.StylePrompt | src/background.ts:79-82 | the tone prompt and a blank line before the rendered prompt when a tone is set, the prompt alone otherwise |
| Background.CatchTable | src/background.ts:107-119 | six rows in source order; each key and quota marker is paired with its other spelling under the same text, then the network and rate-limit rows |
| Background.HandleGenerateReply | src/background.ts:43-128 | the provider is called exactly when the model is registered and has a key, with the post text, the combined prompt and that key; a reply only comes from the provider; an unregistered model gets the unsupported-model answer, a missing key the missing-key answer, and a missing request payload the `catch` table's answer for the engine's `TypeError` |
| Background.UnsupportedModel | src/background.ts:55-61 | the refusal ends with the model id and its debug text lists every registered id |
| Background.MissingKey | src/background.ts:67-75 | the refusal and its debug text both name the provider |
| Background.NoDataAnswer | src/background.ts:43-127 | a request without a payload gets the generic error message, with the engine's `TypeError` text as debug info |
| Background.UnknownModelRefused | src/background.ts:53-62 | an unregistered id is refused, naming it, before any key lookup or provider call |
| Background.AvailableList | src/background.ts:60 | the refusal lists the registered ids in registration order, joined by ", " |
| Background.HandleWithOpenRouter | src/background.ts:85-101 | with the OpenRouter provider, the handler answers with that provider's response |
| Background.SentPromptCarriesPrompts | src/background.ts:79-89 | the prompt sent holds the tone prompt and the message's prompt |
| Background.Dispatch | src/background.ts:178-200 | `verifyCode` is refused; GENERATE_REPLY runs the handler; API_KEY_STATUS answers the key status; OPEN_OPTIONS opens the options page and answers nothing; anything else gets no answer |
| Background.AnalyzePostUnanswered | src/background.ts:178-200 | an ANALYZE_POST message gets no answer |
| ContentMetrics.ThresholdFor | src/content.ts:184-191 | the first band, in list order, whose bounds include the count; none exactly when no band does |
| ContentMetrics.DisjointBandIsFound | src/content.ts:184-191 | with disjoint bands the answer is the one band holding the count |
| ContentMetrics.DigitsOf | src/content.ts:177 | `replace(/\D/g, "")` keeps only digits |
| ContentMetrics.LikeCount | src/content.ts:160-182 | no label reads 0; otherwise the decimal value of the label's digits |
| ContentMetrics.LikeCountReadsDecimal | src/content.ts:177 | a count written in decimal reads back as itself, whatever follows it |
| ContentMetrics.GroupedCount | src/content.ts:177 | `1,234` reads as 1234 |
| ContentMetrics.AbbreviatedCount | src/content.ts:177 | `1.2萬` reads as 12 |
| ContentMetrics.ViralPotential | src/content.ts:193-210 | viral only for a dated post under 100 likes, 3 to 60 minutes old, with at least one like; the exact test is ContentMetrics.ViralMeansOneLikePerMinute |
| ContentMetrics.ViralMeansOneLikePerMinute | src/content.ts:193-210 | viral exactly when the post has fewer than 100 likes, is 3 to 60 minutes old, and has at least one like per minute |
| ContentMetrics.Round | src/content.ts:124 | `Math.round` is the nearest integer |
| ContentMetrics.HourlyGrowth | src/content.ts:108-125 | nothing for no time, no likes or under half an hour; "over a day" past 24 hours; otherwise the rounded likes per hour |
| ContentMetrics.GrowthRateBounds | src/content.ts:118-124 | a shown rate lies between 0 and twice the likes |
| BatchQueue.SliceBound | src/content.ts:1085 | a `slice` bound: negative counts from the end, then clamped to the length |
| BatchQueue.Slice | src/content.ts:1085 | `slice(start, end)` between the two absolute bounds, or empty |
| BatchQueue.ArrayIndexOf | src/content.ts:1075 | the first position of the post, or -1 exactly when it is absent |
| BatchQueue.NextPosts | src/content.ts:1085-1090 | the posts below the selected one, refused when there are none; a batch is never empty |
| BatchQueue.BatchTargets | src/content.ts:1062-1093 | no selection and a lost post are refused; a batch is never empty |
| BatchQueue.NextPostsForward | src/content.ts:1085-1090 | from the last post nothing is below; otherwise the posts right after it, up to the count |
| BatchQueue.BatchTakesNextPosts | src/content.ts:1074-1090 | the batch is the posts right after the selected one, up to the count, or refused when none is below |
| BatchQueue.BatchWithinCount | src/content.ts:1085 | with a positive count, the batch has at most that many posts, all directly after the selected one |
| BatchQueue.TakesWithinCount | src/content.ts:1085 | the slice of up to `count` posts after position `i` has at most `count` posts and starts right after `i` |
| BatchStyle.WithoutIds | src/content.ts:1128 | the filter keeps styles of the table, none with an excluded id |
| BatchStyle.TableWithoutUnusedIds | src/content.ts:1128 | excluding ids the table does not hold keeps the whole table |
| BatchStyle.BatchCandidatesAreAllStyles | src/content.ts:1128 | excluding `auto`, or `auto` and `lust`, keeps the whole table |
| BatchStyle.RandomIndex | src/content.ts:1129 | `Math.floor(r * n)` for r in [0, 1) is an index of the list |
| BatchStyle.EveryIndexReachable | src/content.ts:1129 | every index is drawn for some r in [0, 1) |
| BatchStyle.RandomBatchStyle | src/content.ts:2154-2155 | a random batch reply uses a table style, never `auto` or `lust` |
| AutoBatch.ParseInt | src/content.ts:1005 | `parseInt(s, 10)` is a number exactly when digits follow the whitespace and optional sign |
| AutoBatch.ParseIntReads | src/content.ts:1005 | spaces, an optional minus, a decimal number and a non-digit tail parse as that signed number |
| AutoBatch.ParseIntNaN | src/content.ts:1005 | text without any digit parses as NaN |
| AutoBatch.BatchCount | src/content.ts:1005 | the parsed number, or 5 when it is NaN or zero; never zero, and not bounded |
| AutoBatch.BatchCountReadsField | src/content.ts:1005 | a typed positive count is used as typed; an empty field or zero gives 5 |
| AutoBatch.BatchCountNegative | src/content.ts:1005 | a typed negative count is used as typed |
| AutoBatch.NegativeCountOverruns | src/content.ts:1005 | a typed `-2` with the first of ten posts selected processes eight posts |
| AutoBatch.OversizedCountNotCapped | src/content.ts:1005 | a typed count above 20 is used in full |
| AutoBatch.ClampedCount | src/content.ts:1005 | the count kept between 1 and 20, unchanged when already inside |
| AutoBatch.ClampedTargets | src/content.ts:1062-1093 | with the count clamped, a batch holds 1 to 20 posts, all directly after the selected one |
| PostText.AuthorName | src/content.ts:1959-1961 | the author link's trimmed text, or nothing without a link |
| PostText.KeptLines | src/content.ts:1968-1994 | every kept line is trimmed and passes the filter |
| PostText.KeptLinesComplete | src/content.ts:1968-1994 | every element text that passes the filter is kept |
| PostText.KeptLinesSound | src/content.ts:1968-1994 | every kept line is the trimmed text of some element |
| PostText.ExtractPostText | src/content.ts:1957-1997 | the kept lines joined by a blank line |
| PostText.JoinTrimmed | src/content.ts:1996 | joining non-empty trimmed lines is already trimmed and starts with the first line |
| PostText.PostTextCarriesKeptLines | src/content.ts:1957-1997 | the post text contains every element text that passes the filter, verbatim |
| PostText.TimestampRecognized | src/content.ts:1966 | a count, optional spaces and a unit is a timestamp and is dropped |
| PostText.FurnitureDropped | src/content.ts:1971-1991 | bare counts, handles, dollar tickers, interface labels and the author's name are dropped |
| PostText.TickerRecognized | src/content.ts:1983 | `[CAPS +d.d%]` anywhere in a line is a ticker |
| PostText.ProseKept | src/content.ts:1970-1994 | ordinary prose is kept |
| AnalysisParse.LineEnd | src/content.ts:1702-1704 | the first line terminator at or after a position, or the end |
| AnalysisParse.FirstMatch | src/content.ts:1702-1704 | the leftmost successful attempt, or none exactly when every attempt fails |
| AnalysisParse.Field | src/content.ts:1702-1708 | the trimmed capture, or the default when the pattern does not match |
| AnalysisParse.FieldReadsValue | src/content.ts:1702-1704 | a key followed by one space and a plain value, then a stop or the end, reads as that value |
| AnalysisParse.MissingFieldDefaults | src/content.ts:1706-1708 | a missing key gives the default |
| AnalysisParse.FieldBetween | src/content.ts:1702-1704 | a field between text without the key and a following stop reads back its value |
| AnalysisParse.AnalysisRoundTrip | src/content.ts:1702-1708 | the three-line analysis reads back each of its three values, trimmed |
| AnalysisParse.NoEarlierKey | src/content.ts:1702-1704 | a key cannot match before a line whose parts lack it |
| AnalysisParse.StyleRead | src/content.ts:1702 | the style line of the analysis reads back its value, trimmed |
| AnalysisParse.StrategyRead | src/content.ts:1703 | the strategy line reads back its value when the style value does not name the strategy key |
| AnalysisParse.ReasonRead | src/content.ts:1704 | the reason line reads back its value when the earlier values do not name the reason key |
| SmartAuto.OfferedNames | src/content.ts:1685 | the labels of the styles whose id is not `auto` |
| SmartAuto.OfferedNamesAll | src/content.ts:1685 | without an `auto` entry every label is offered, in order |
| SmartAuto.RequestFor | src/content.ts:1675-1691 | an empty post text is an error before anything is sent; otherwise the request carries the text |
| SmartAuto.EveryStyleOffered | src/content.ts:1685-1691 | every style of the table is offered to the analysis under its label |
| SmartAuto.FirstWhere | src/content.ts:1723-1725 | the first position satisfying the test, as `find` scans |
| SmartAuto.ChooseFrom | src/content.ts:1713-1726 | `Custom:` makes a dynamic style with the trimmed rest; otherwise an exact label, then a contained label, then the first non-`auto` style |
| SmartAuto.ChooseFallsBack | src/content.ts:1725 | a choice that neither names nor contains a label gets the first style |
| SmartAuto.ChooseBuiltIn | src/content.ts:1723 | a table label selects its own style |
| SmartAuto.ChooseCustom | src/content.ts:1714-1721 | `Custom:` followed by spaces and a label gives a dynamic style with that label |
| SmartAuto.AsciiChoiceFallsBack | src/content.ts:1723-1725 | an ASCII choice, such as an English style name, falls back to the first style |
| SmartAuto.DefaultChoiceFallsBack | src/content.ts:1706 | the default choice `Casual Insight` falls back to the first style |
| SmartAuto.ShownStyle | src/content.ts:1736 | the chosen style's label, or the raw choice when the label is empty |
| SmartAuto.EmptyCustomShowsMarker | src/content.ts:1714-1736 | a bare `Custom:` shows the marker itself as the label |
| SmartAuto.CleanReason | src/content.ts:1729 | trimmed and never longer; a reason without the label is just trimmed |
| SmartAuto.CleanReasonDropsLabel | src/content.ts:1729 | the label in any case, with an ASCII or full-width colon and the spaces after it, is removed |
| SmartAuto.CleanReasonKeepsPlain | src/content.ts:1729 | a trimmed reason without the label is kept as it is |
| SmartAuto.FailureMessage | src/content.ts:1693-1694 | the answer's non-empty error, else `分析失敗` |
| SmartAuto.SmartAutoPlan | src/content.ts:1674-1743 | fails exactly for an empty post or a missing or failed answer, with the matching message; on success the reason is trimmed and the style is a table style or a dynamic one |
| SmartAuto.PlanFollowsAnalysis | src/content.ts:1698-1736 | an analysis naming a table label gives that style, the trimmed strategy and the reason |
| SmartAuto.EmptyAnalysisDefaults | src/content.ts:1698-1725 | an answer without analysis gives the first style, the default strategy and the default reason |
| SmartAutoWiring.ReplyStylesTable | src/lib/constants.ts:3-73 | the extension's style table has the shape the choice relies on |
| SmartAutoWiring.SmartAutoUnanswered | src/content.ts:1688-1694 | the background gives ANALYZE_POST no answer, so every smart-auto run fails with `分析失敗` |
| ReplyMeta.TextStart | src/content.ts:1889-1890 | backtracking into `\s*`: the last position at which `.` can start the group |
| ReplyMeta.LineMatchEnd | src/content.ts:1889-1890 | a match at a position starts with the key and ends past it, at the end of a line |
| ReplyMeta.StripFences | src/content.ts:1894 | the fence replacements leave a slice of the text, and a text without fences unchanged |
| ReplyMeta.CleanedIsSingleLine | src/lib/providers/base.ts:49-50 | a cleaned reply holds no line terminator |
| ReplyMeta.LineMatchSingle | src/content.ts:1889-1890 | on one line the pattern matches from the first label to the end, and not at all without a label |
| ReplyMeta.CutAtLabel | src/content.ts:1892 | removing the matched text leaves what is before the first label |
| ReplyMeta.FirstLabel | src/content.ts:1889-1890 | the first position of a label with text after it; none exactly when there is no label |
| ReplyMeta.WithoutFirstMatch | src/content.ts:1892-1893 | on one line, removing the match keeps the text before the first label, or the whole text without a label |
| ReplyMeta.StrippedAtStyle | src/content.ts:1889-1894 | on one line, the reply is cut at the first `STYLE:` label whether the reason comes before or after it |
| ReplyMeta.StrippedAtReason | src/content.ts:1889-1894 | on one line without a style label, the reply is cut at the first `REASON:` label |
| ReplyMeta.UnlabelledReply | src/content.ts:1889-1894 | a reply without labels is only trimmed and unfenced |
| ReplyMeta.RequestedFormatStripped | src/content.ts:1889-1894 | a reply in the requested format, its lines joined by the provider, becomes the reply text alone |
| ReplyMeta.StripMetadata | src/content.ts:1889-1894 | never longer than the reply; without either label only trimmed and unfenced; per case its result is ReplyMeta.StrippedAtStyle, ReplyMeta.StrippedAtReason and ReplyMeta.UnlabelledReply |
| ReplyMeta.ReasonBeforeStyleLeaks | src/content.ts:1889-1893 | `REASON: x STYLE: y` becomes `REASON: x`: a reason before the style stays in the reply |
| ReplyMeta.StripMetadataSequential | src/content.ts:1889-1894 | the corrected strip, with the reason matched after the style is removed: never longer than the reply, and without a style label it only removes the reason; ReplyMeta.CorrectedLeavesNoLabel and ReplyMeta.CorrectedAgrees carry the rest |
| ReplyMeta.CorrectedLeavesNoLabel | src/content.ts:1889-1894 | matching the reason after the style is removed leaves neither label in a one-line reply |
| ReplyMeta.CorrectedAgrees | src/content.ts:1889-1894 | when no reason precedes the style, the corrected stripping gives what the code gives |

## Left out

- The DOM, the UI, toasts, timers, `setTimeout` delays, `AbortController` time-outs and `console` logging. Element lookup is replaced by its result, such as the like label's text, the element texts or the post list.
- `fetch`, `response.json()`, storage reads and `runtime.sendMessage`. Each is the value it produces: an exchange datatype per HTTP attempt, a decoded or undecodable body, optional stored values, an optional answer.
- `Math.random`: a draw is a real in [0, 1) passed in. `Date`: elapsed time is an optional real passed in.
- Floating point: likes per hour and per minute are exact reals. ContentMetrics.HourlyGrowth rounds an exact quotient, not a double.
- ContentMetrics.LikeCount: `parseInt` of a very long digit string loses precision as a double; the model reads the exact value.
- AutoBatch.ParseInt: the same precision loss is not modelled, and neither are `parseInt`'s hexadecimal prefix rules, which radix 10 switches off anyway.
- The like-count thresholds come from a types file that is not part of this model, so ContentMetrics.ThresholdFor takes the band list as a parameter.
- SmartAuto.SmartAutoPlan takes the style table as a parameter; SmartAutoWiring proves the extension's table has the shape the plan's contract needs. The reply generation that follows the plan is the reply pipeline modelled elsewhere.
- The unreachable `auto` fallback of the style search (src/content.ts:1725): the table has no `auto` style, so the fallback is the first style.
- OpenRouter.GenerateReply: JSON values the response shape does not allow are not modelled. These are a `choices` entry that is not an object, a `content` that is neither a string nor `null`, and an `error.message` that is not a string. Each would give a further engine error or a stringified value; the model covers objects, `null` bodies and missing, `null` or string content.
- The background's `catch` path (src/background.ts:103-127) cannot be reached with the OpenRouter provider, which never throws. It is modelled for an arbitrary provider outcome.
- PromptBuilder.GetStyleStrategy: an id that names a property every JavaScript object inherits, such as `constructor` or `__proto__`, is not modelled. The source's `strategies[styleId] || fallback` then returns that inherited value instead of the fallback, so `constructor` yields the `Object` function (no name or definition) and `__proto__` yields `Object.prototype`. The model gives `Friendly Echo` for them. No caller passes such an id: style ids come from the extension's own style table.
- PromptBuilder.BuildReplyPrompt: for the same inherited names the source would show an undefined style name and definition; the model's `Friendly Echo` fallback clause does not cover them, for the reason given for GetStyleStrategy.
- ReplyMeta.StripMetadata: the properties are proved for replies without line terminators, the only kind the background returns, because every provider cleans its reply. The multi-line matching is defined but has no lemma.
- The analysis toast text in `generateReply` (src/content.ts:1896-1911) is display only and is left out. `extractFullContext`, the reply-box filling and the batch scheduling are DOM work and are left out too.
- The style catalogue sent for analysis is the labels joined with ", " (src/content.ts:1685), not one label per line; SmartAuto.OfferedNames models that join.
- The background registers no ANALYZE_POST handler (src/background.ts:178-200), so the smart-auto request is never answered; Background.AnalyzePostUnanswered and SmartAutoWiring.SmartAutoUnanswered state this.

## Findings

| source | as written | input that shows it | evidently intended | confidence | as-written member | corrected member |
|---|---|---|---|---|---|---|
| src/content.ts:1005 | the batch count is `parseInt(value, 10) \|\| 5`, with no bound | a typed `-2` with the first of ten posts selected processes eight posts; a typed 50 processes fifty | a count between the field's `min` of 1 and `max` of 20 | medium, not executed | AutoBatch.NegativeCountOverruns | AutoBatch.ClampedTargets |
| src/content.ts:1889-1893 | both metadata matches are taken from the original reply, then removed one after the other | `REASON: x STYLE: y` (a one-line reply, as every provider returns) becomes `REASON: x` | both labels are removed, whatever their order | medium, not executed | ReplyMeta.ReasonBeforeStyleLeaks | ReplyMeta.CorrectedLeavesNoLabel |
