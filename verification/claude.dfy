/**
  The Claude adapter (`claude-3-haiku` over the messages endpoint): the
  same key check, probe, retry loop and error markers as the OpenAI
  adapter, with a content-block reply format.
 */
module Claude {
  import opened Results
  import opened Strings
  import opened Base
  import opened Adapter

  const Config := ModelConfig("claude-3-haiku", "Anthropic Claude 3 Haiku", "快速且經濟的 Claude 模型，適合日常對話",
                              "Anthropic", false, true)

  const KeyPrefix := "sk-ant-"
  const MinKeyLength: nat := 30
  const KeyFormatError := "Claude API Key 格式不正確，請檢查設定"

  /** The key must be non-empty, start with `sk-ant-` and be at least 30 UTF-16 units long. */
  predicate KeyShapeOk(key: string) {
    key != "" && StartsWith(key, KeyPrefix) && Utf16Length(key) >= MinKeyLength
  }

  // ------------------------------------------------------- response body

  /** One content block: its `type` and its `text`. */
  datatype Block = Block(kind: string, text: Option<string>)

  datatype ApiError = ApiError(message: Option<string>)

  /** The decoded JSON body of a messages call. */
  datatype Body = Body(content: Option<seq<Block>>, stopReason: Option<string>, error: Option<ApiError>)

  const NoReplyError := "沒有收到有效的回覆，請嘗試修改貼文內容"
  const NoTextBlockError := "回覆格式異常，沒有找到文字內容"
  const TruncatedError := "回覆過長被截斷，請嘗試簡化貼文內容"
  const UnknownFormatError := "未知的回覆格式，請聯繫開發者"

  /** `content.find(item => item.type === 'text')`, as an index. */
  function FirstTextBlock(blocks: seq<Block>, from: nat): (r: Option<nat>)
    requires from <= |blocks|
    ensures r.Some? ==> from <= r.value < |blocks| && blocks[r.value].kind == "text"
    ensures r.Some? ==> forall j :: from <= j < r.value ==> blocks[j].kind != "text"
    ensures r.None? ==> forall j :: from <= j < |blocks| ==> blocks[j].kind != "text"
    decreases |blocks| - from
  {
    if from == |blocks| then None
    else if blocks[from].kind == "text" then Some(from)
    else FirstTextBlock(blocks, from + 1)
  }

  /** Block `k` is the first text block of the body's content. */
  predicate FirstTextAt(body: Body, k: int) {
    body.content.Some? && 0 <= k < |body.content.value| && body.content.value[k].kind == "text"
    && forall j :: 0 <= j < k ==> body.content.value[j].kind != "text"
  }

  /**
    `extractReplyFromResponse`: the first text block, cleaned up. A
    `max_tokens` stop is an error; any other stop reason is accepted.
   */
  function ExtractReply(body: Body): (r: Result<string, string>)
    ensures body.content.None? || body.content.value == [] ==> r == Failure(NoReplyError)
    ensures body.content.Some? && body.content.value != []
            && (forall j :: 0 <= j < |body.content.value| ==> body.content.value[j].kind != "text") ==>
              r == Failure(NoTextBlockError)
    ensures body.stopReason == Some("max_tokens") && r.Failure? ==> r.error in {NoReplyError, NoTextBlockError, TruncatedError}
    ensures r.Success? ==>
              body.stopReason != Some("max_tokens")
              && exists k :: FirstTextAt(body, k) && body.content.value[k].text.Some?
                          && Trim(body.content.value[k].text.value) != ""
                          && r.value == CleanupReply(body.content.value[k].text.value)
    ensures forall k :: FirstTextAt(body, k) && body.stopReason == Some("max_tokens") ==> r == Failure(TruncatedError)
    ensures forall k :: FirstTextAt(body, k) && body.stopReason != Some("max_tokens") ==>
              if body.content.value[k].text.Some? && Trim(body.content.value[k].text.value) != ""
              then r == Success(CleanupReply(body.content.value[k].text.value))
              else r == Failure(UnknownFormatError)
  {
    if body.content.None? || |body.content.value| == 0 then Failure(NoReplyError)
    else match FirstTextBlock(body.content.value, 0)
      case None => Failure(NoTextBlockError)
      case Some(k) =>
        FirstTextOnly(body, k);
        var block := body.content.value[k];
        if body.stopReason.Some? && body.stopReason.value != "" && body.stopReason.value != "end_turn"
           && body.stopReason.value == "max_tokens" then Failure(TruncatedError)
        else if block.text.Some? && block.text.value != "" && Trim(block.text.value) != "" then
          Success(CleanupReply(block.text.value))
        else Failure(UnknownFormatError)
  }

  /** The block `find` returns is the first text block, and no other block is. */
  lemma FirstTextOnly(body: Body, k: nat)
    requires body.content.Some? && FirstTextBlock(body.content.value, 0) == Some(k)
    ensures FirstTextAt(body, k)
    ensures forall k' :: FirstTextAt(body, k') ==> k' == k
  {
  }

  // ------------------------------------------------------- one attempt

  /** One pass of the retry loop body: the reply or the message of the error it throws. */
  function Attempt(ex: Exchange<Body>): (r: Result<string, string>)
    ensures ex.Rejected? ==> r == Failure(MessageOf(ex.thrown))
    ensures ex.Answered? && !IsOk(ex.status) ==> r == Failure(StatusError("Claude", ex.status, ex.text))
    ensures r.Success? ==> ex.Answered? && IsOk(ex.status) && ex.json.Valid? && ex.json.body.error.None?
                           && ExtractReply(ex.json.body) == r
  {
    match ex
    case Rejected(thrown) => Failure(MessageOf(thrown))
    case Answered(status, text, json) =>
      if !IsOk(status) then Failure(StatusError("Claude", status, text))
      else match json
        case Invalid(syntaxError) => Failure(syntaxError)
        case Valid(body) =>
          if body.error.Some? then Failure("Claude API 錯誤: " + Rendered(body.error.value.message))
          else ExtractReply(body)
  }

  function ErrorTable(): seq<Marker> {
    KeyQuotaRateTable("Claude")
  }

  /** `generateReply`: the response and the traffic behind it. */
  function GenerateReply(request: ReplyRequest, probe: ProbeOutcome, exchanges: seq<Exchange<Body>>): (run: AdapterRun)
    requires |exchanges| >= MaxAttempts
    ensures !KeyShapeOk(request.apiKey) ==> run == AdapterRun(Failed(KeyFormatError, None), false, 0, [])
    ensures run.response.Replied? ==>
              KeyShapeOk(request.apiKey) && ProbeError(probe, "Claude").None? && 1 <= run.calls <= MaxAttempts
              && Attempt(exchanges[run.calls - 1]) == Success(run.response.reply)
    ensures run.calls <= MaxAttempts
    ensures AdapterContract(run, KeyShapeOk(request.apiKey), KeyFormatError, probe, "Claude", Outcomes(exchanges, Attempt),
                            KeyQuotaOrRate, ErrorTable())
  {
    var outcomes := Outcomes(exchanges, Attempt);
    Generate(KeyShapeOk(request.apiKey), KeyFormatError, probe, "Claude", outcomes, KeyQuotaOrRate, ErrorTable())
  }

  // ------------------------------------------------------- scenarios

  /** A 429 on the first attempt: one request, no wait, the rate-limit message. */
  lemma RateLimitedStopsAtOnce(request: ReplyRequest, probe: ProbeOutcome, exchanges: seq<Exchange<Body>>)
    requires |exchanges| >= MaxAttempts
    requires KeyShapeOk(request.apiKey) && ProbeError(probe, "Claude").None?
    requires exchanges[0].Answered? && exchanges[0].status == 429
    ensures GenerateReply(request, probe, exchanges)
            == AdapterRun(Failed("Claude" + RateLimitAdvice, Some(RateLimitMarker)), true, 1, [])
  {
    var outcomes := Outcomes(exchanges, Attempt);
    var table := ErrorTable();
    assert GenerateReply(request, probe, exchanges)
           == Generate(true, KeyFormatError, probe, "Claude", outcomes, KeyQuotaOrRate, table);
    assert outcomes[0] == Failure(RateLimitMarker);
    MarkersAreTerminal();
    TerminalErrorIsReported(KeyFormatError, probe, "Claude", outcomes, KeyQuotaOrRate, table);
    RateLimitRow(table);
  }

  lemma RateLimitRow(table: seq<Marker>)
    requires table == ErrorTable()
    ensures MarkerMessage(RateLimitMarker, table) == "Claude" + RateLimitAdvice
  {
    RateRowWins("Claude");
  }

  /** A text block after a non-text block is still found; an unknown stop reason does not block it. */
  lemma TextBlockAfterOtherBlocks(reply: string)
    requires Trim(reply) != ""
    ensures ExtractReply(Body(Some([Block("tool_use", None), Block("text", Some(reply))]), Some("stop_sequence"), None))
            == Success(CleanupReply(reply))
  {
    var blocks := [Block("tool_use", None), Block("text", Some(reply))];
    assert FirstTextBlock(blocks, 0) == Some(1);
  }
}
