/**
  The OpenAI adapter (`gpt-4o` over the chat-completions endpoint): key
  shape check, reachability probe, three attempts with back-off, reply
  extraction and error mapping.
 */
module OpenAI {
  import opened Results
  import opened Strings
  import opened Base
  import opened Adapter

  const Config := ModelConfig("gpt-4o", "OpenAI GPT-4o", "最新的 GPT-4 模型，智能程度高，適合複雜對話",
                              "OpenAI", false, true)

  const KeyPrefix := "sk-"
  const MinKeyLength: nat := 20
  const KeyFormatError := "OpenAI API Key 格式不正確，請檢查設定"

  /** The key must be non-empty, start with `sk-` and be at least 20 UTF-16 units long. */
  predicate KeyShapeOk(key: string) {
    key != "" && StartsWith(key, KeyPrefix) && Utf16Length(key) >= MinKeyLength
  }

  // ------------------------------------------------------- response body

  /** One entry of `choices`: `message?.content` and `finish_reason`. */
  datatype Choice = Choice(content: Option<string>, finishReason: Option<string>)

  /** The `error` object of a body; its `message` may be missing. */
  datatype ApiError = ApiError(message: Option<string>)

  /** The decoded JSON body of a chat completion. */
  datatype Body = Body(choices: Option<seq<Choice>>, error: Option<ApiError>)

  const NoReplyError := "沒有收到有效的回覆，請嘗試修改貼文內容"
  const FilteredError := "內容被安全過濾器阻止，請嘗試修改貼文內容"
  const TruncatedError := "回覆過長被截斷，請嘗試簡化貼文內容"
  const UnknownFormatError := "未知的回覆格式，請聯繫開發者"

  /** `finish_reason` set to something other than `stop`. */
  predicate StoppedEarly(c: Choice) {
    c.finishReason.Some? && c.finishReason.value != "" && c.finishReason.value != "stop"
  }

  /**
    `extractReplyFromResponse`: the first choice's content, cleaned up.
    A content-filter or length stop is an error; any other early stop
    falls through to the content.
   */
  function ExtractReply(body: Body): (r: Result<string, string>)
    ensures r.Success? <==>
              body.choices.Some? && |body.choices.value| > 0
              && body.choices.value[0].finishReason !in {Some("content_filter"), Some("length")}
              && body.choices.value[0].content.Some? && Trim(body.choices.value[0].content.value) != ""
    ensures r.Success? ==> r.value == CleanupReply(body.choices.value[0].content.value)
    ensures body.choices.None? || body.choices.value == [] ==> r == Failure(NoReplyError)
    ensures r.Failure? ==> r.error in {NoReplyError, FilteredError, TruncatedError, UnknownFormatError}
    ensures body.choices.Some? && |body.choices.value| > 0 && body.choices.value[0].finishReason == Some("content_filter") ==>
              r == Failure(FilteredError)
    ensures body.choices.Some? && |body.choices.value| > 0 && body.choices.value[0].finishReason == Some("length") ==>
              r == Failure(TruncatedError)
    ensures body.choices.Some? && |body.choices.value| > 0
            && body.choices.value[0].finishReason !in {Some("content_filter"), Some("length")}
            && (body.choices.value[0].content.None? || Trim(body.choices.value[0].content.value) == "") ==>
              r == Failure(UnknownFormatError)
  {
    if body.choices.None? || |body.choices.value| == 0 then Failure(NoReplyError)
    else
      var choice := body.choices.value[0];
      if StoppedEarly(choice) && choice.finishReason.value == "content_filter" then Failure(FilteredError)
      else if StoppedEarly(choice) && choice.finishReason.value == "length" then Failure(TruncatedError)
      else if choice.content.Some? && choice.content.value != "" && Trim(choice.content.value) != "" then
        Success(CleanupReply(choice.content.value))
      else Failure(UnknownFormatError)
  }

  // ------------------------------------------------------- one attempt

  /**
    One pass of the retry loop body: the reply, or the message of the
    error it throws (a rejected fetch, a non-OK status, a body that is
    not JSON, an `error` object in the body, or an extraction error).
   */
  function Attempt(ex: Exchange<Body>): (r: Result<string, string>)
    ensures ex.Rejected? ==> r == Failure(MessageOf(ex.thrown))
    ensures ex.Answered? && !IsOk(ex.status) ==> r == Failure(StatusError("OpenAI", ex.status, ex.text))
    ensures r.Success? ==> ex.Answered? && IsOk(ex.status) && ex.json.Valid? && ex.json.body.error.None?
                           && ExtractReply(ex.json.body) == r
  {
    match ex
    case Rejected(thrown) => Failure(MessageOf(thrown))
    case Answered(status, text, json) =>
      if !IsOk(status) then Failure(StatusError("OpenAI", status, text))
      else match json
        case Invalid(syntaxError) => Failure(syntaxError)
        case Valid(body) =>
          if body.error.Some? then Failure("OpenAI API 錯誤: " + Rendered(body.error.value.message))
          else ExtractReply(body)
  }

  function ErrorTable(): seq<Marker> {
    KeyQuotaRateTable("OpenAI")
  }

  /**
    `generateReply`: the response and the traffic behind it, given the
    probe outcome and what each of the three attempts would receive.
   */
  function GenerateReply(request: ReplyRequest, probe: ProbeOutcome, exchanges: seq<Exchange<Body>>): (run: AdapterRun)
    requires |exchanges| >= MaxAttempts
    ensures !KeyShapeOk(request.apiKey) ==> run == AdapterRun(Failed(KeyFormatError, None), false, 0, [])
    ensures run.response.Replied? ==>
              KeyShapeOk(request.apiKey) && ProbeError(probe, "OpenAI").None? && 1 <= run.calls <= MaxAttempts
              && Attempt(exchanges[run.calls - 1]) == Success(run.response.reply)
    ensures run.calls <= MaxAttempts
    ensures AdapterContract(run, KeyShapeOk(request.apiKey), KeyFormatError, probe, "OpenAI", Outcomes(exchanges, Attempt),
                            KeyQuotaOrRate, ErrorTable())
  {
    Generate(KeyShapeOk(request.apiKey), KeyFormatError, probe, "OpenAI", Outcomes(exchanges, Attempt), KeyQuotaOrRate, ErrorTable())
  }

  // ------------------------------------------------------- scenarios

  /** A 401 on the first attempt: one request, no wait, the invalid-key message. */
  lemma UnauthorizedStopsAtOnce(request: ReplyRequest, probe: ProbeOutcome, exchanges: seq<Exchange<Body>>)
    requires |exchanges| >= MaxAttempts
    requires KeyShapeOk(request.apiKey) && ProbeError(probe, "OpenAI").None?
    requires exchanges[0].Answered? && exchanges[0].status == 401
    ensures GenerateReply(request, probe, exchanges)
            == AdapterRun(Failed("OpenAI" + InvalidKeyAdvice, Some(InvalidKeyMarker)), true, 1, [])
  {
    var outcomes := Outcomes(exchanges, Attempt);
    var table := ErrorTable();
    assert outcomes[0] == Failure(InvalidKeyMarker);
    MarkersAreTerminal();
    TerminalErrorIsReported(KeyFormatError, probe, "OpenAI", outcomes, KeyQuotaOrRate, table);
    InvalidKeyRow();
  }

  /** The invalid-key marker selects the table's first row. */
  lemma InvalidKeyRow()
    ensures MarkerMessage(InvalidKeyMarker, ErrorTable()) == "OpenAI" + InvalidKeyAdvice
  {
    var table := ErrorTable();
    ContainsSelf(InvalidKeyMarker);
    FirstRowWins(InvalidKeyMarker, table);
  }

  /** A 5xx status is a transient failure: the loop tries again. */
  lemma ServerErrorTransient(ex: Exchange<Body>)
    requires ex.Answered? && ex.status in {500, 502, 503, 504}
    ensures Attempt(ex).Failure? && !KeyQuotaOrRate(Attempt(ex).error)
  {
    assert Avoids("OpenAI", MarkerChars);
    StatusErrorTerminal("OpenAI", ex.status, ex.text);
  }

  /** Two server errors and then a good reply: three requests, waits of 2 s and 4 s. */
  lemma ServerErrorsThenReply(request: ReplyRequest, probe: ProbeOutcome, exchanges: seq<Exchange<Body>>)
    requires |exchanges| >= MaxAttempts
    requires KeyShapeOk(request.apiKey) && ProbeError(probe, "OpenAI").None?
    requires exchanges[0].Answered? && exchanges[0].status in {500, 502, 503, 504}
    requires exchanges[1].Answered? && exchanges[1].status in {500, 502, 503, 504}
    requires Attempt(exchanges[2]).Success?
    ensures GenerateReply(request, probe, exchanges)
            == AdapterRun(Replied(Attempt(exchanges[2]).value), true, 3, [2000, 4000])
  {
    var outcomes := Outcomes(exchanges, Attempt);
    ServerErrorTransient(exchanges[0]);
    ServerErrorTransient(exchanges[1]);
    TransientThenSuccess(outcomes, KeyQuotaOrRate);
  }

  /** A malformed key never reaches the network. */
  lemma MalformedKeySendsNothing(probe: ProbeOutcome, exchanges: seq<Exchange<Body>>, postText: string, stylePrompt: string)
    requires |exchanges| >= MaxAttempts
    ensures GenerateReply(ReplyRequest(postText, stylePrompt, "sk-short"), probe, exchanges).calls == 0
    ensures !GenerateReply(ReplyRequest(postText, stylePrompt, "sk-short"), probe, exchanges).probed
  {
    assert Utf16Length("sk-short") == 8;
  }
}
