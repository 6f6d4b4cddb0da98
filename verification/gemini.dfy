/**
  The Gemini adapter (`gemini-1.5-flash` over generateContent): key shape
  check, probe, the shared retry loop with Gemini's own terminal markers,
  candidate extraction and error mapping.
 */
module Gemini {
  import opened Results
  import opened Strings
  import opened Base
  import opened Adapter

  const Config := ModelConfig("gemini-1.5-flash", "Google Gemini 1.5 Flash", "免費額度大，響應快速，適合日常使用",
                              "Google", true, true)

  const KeyPrefix := "AIza"
  const MinKeyLength: nat := 30
  const KeyFormatError := "Gemini API Key 格式不正確，請檢查設定"

  /** The key must be non-empty, start with `AIza` and be at least 30 UTF-16 units long. */
  predicate KeyShapeOk(key: string) {
    key != "" && StartsWith(key, KeyPrefix) && Utf16Length(key) >= MinKeyLength
  }

  // ------------------------------------------------------- markers

  const KeyInvalidMarker := "API_KEY_INVALID"
  const QuotaExceededMarker := "QUOTA_EXCEEDED"

  /** The Gemini retry loop gives up at once on a message with one of these markers. */
  predicate KeyOrQuota(message: string) {
    Contains(message, KeyInvalidMarker) || Contains(message, QuotaExceededMarker)
  }

  /** One letter of each marker. */
  const GeminiMarkerChars: set<char> := {'V', 'Q'}

  const ModelUnavailableMessage := "模型不可用 (404): gemini-1.5-flash"

  /** `createHttpError`: the message of the error a non-OK response becomes. */
  function StatusError(status: int, text: string): (r: string)
    ensures status == 400 && (Contains(text, KeyInvalidMarker) || Contains(text, "invalid")) ==> r == KeyInvalidMarker
    ensures status == 400 && !(Contains(text, KeyInvalidMarker) || Contains(text, "invalid")) ==> r == BadRequestPrefix + text
    ensures status in {401, 403} && (Contains(text, "quota") || Contains(text, "limit")) ==> r == QuotaExceededMarker
    ensures status in {401, 403} && !(Contains(text, "quota") || Contains(text, "limit")) ==> r == KeyInvalidMarker
    ensures status == 404 ==> r == ModelUnavailableMessage
    ensures status == 429 ==> r == QuotaExceededMarker
    ensures status >= 500 ==> r == ServerErrorMessage("Google", status)
    ensures status < 500 && status !in {400, 401, 403, 404, 429} ==> r == RequestFailedMessage(status)
  {
    if status == 400 then
      (if Contains(text, KeyInvalidMarker) || Contains(text, "invalid") then KeyInvalidMarker
       else BadRequestPrefix + text)
    else if status == 401 || status == 403 then
      (if Contains(text, "quota") || Contains(text, "limit") then QuotaExceededMarker else KeyInvalidMarker)
    else if status == 404 then ModelUnavailableMessage
    else if status == 429 then QuotaExceededMarker
    else if status >= 500 then ServerErrorMessage("Google", status)
    else RequestFailedMessage(status)
  }

  lemma NoGeminiMarkerWithoutChars(s: string)
    requires Avoids(s, GeminiMarkerChars)
    ensures !KeyOrQuota(s)
  {
    AvoidsExcludes(s, KeyInvalidMarker, GeminiMarkerChars, 10);
    AvoidsExcludes(s, QuotaExceededMarker, GeminiMarkerChars, 0);
  }

  lemma GeminiMarkersAreTerminal()
    ensures KeyOrQuota(KeyInvalidMarker) && KeyOrQuota(QuotaExceededMarker)
    ensures !KeyOrQuota(ModelUnavailableMessage)
  {
    ContainsSelf(KeyInvalidMarker);
    ContainsSelf(QuotaExceededMarker);
    assert Avoids(ModelUnavailableMessage, GeminiMarkerChars);
    NoGeminiMarkerWithoutChars(ModelUnavailableMessage);
  }

  lemma BadRequestGeminiMarkers(text: string)
    ensures KeyOrQuota(BadRequestPrefix + text) <==> KeyOrQuota(text)
  {
    var p := BadRequestPrefix;
    assert Avoids(p, GeminiMarkerChars);
    NoGeminiMarkerWithoutChars(p);
    assert p[|p| - 1] == ' ';
    assert ' ' !in KeyInvalidMarker && ' ' !in QuotaExceededMarker;
    PrefixedContains(p, text, KeyInvalidMarker);
    PrefixedContains(p, text, QuotaExceededMarker);
  }

  lemma StatusMessagesUnmarked(status: int)
    ensures !KeyOrQuota(ServerErrorMessage("Google", status)) && !KeyOrQuota(RequestFailedMessage(status))
  {
    ServerMessageUnmarked(status);
    FailedMessageUnmarked(status);
  }

  lemma ServerMessageUnmarked(status: int)
    ensures !KeyOrQuota(ServerErrorMessage("Google", status))
  {
    IntToStringAvoids(status, GeminiMarkerChars);
    var d := IntToString(status);
    var head := NetworkMarker + ": " + "Google" + " API 伺服器錯誤 (";
    ServerHeadAvoids();
    AvoidsAppend(head, d, GeminiMarkerChars);
    AvoidsAppend(head + d, ")", GeminiMarkerChars);
    NoGeminiMarkerWithoutChars(ServerErrorMessage("Google", status));
  }

  lemma FailedMessageUnmarked(status: int)
    ensures !KeyOrQuota(RequestFailedMessage(status))
  {
    IntToStringAvoids(status, GeminiMarkerChars);
    FailedHeadAvoids();
    AvoidsAppend("API 請求失敗: ", IntToString(status), GeminiMarkerChars);
    NoGeminiMarkerWithoutChars(RequestFailedMessage(status));
  }

  lemma ServerHeadAvoids()
    ensures Avoids(NetworkMarker + ": " + "Google" + " API 伺服器錯誤 (", GeminiMarkerChars)
  {
    assert Avoids(NetworkMarker + ": " + "Google" + " API 伺服器錯誤 (", GeminiMarkerChars);
  }

  lemma FailedHeadAvoids()
    ensures Avoids("API 請求失敗: ", GeminiMarkerChars)
  {
    assert Avoids("API 請求失敗: ", GeminiMarkerChars);
  }

  /**
    Which non-OK responses stop the Gemini retry loop at once: 401, 403 and
    429 always, 400 when the text says `invalid` or holds a marker; a 404
    and the 5xx server errors are retried.
   */
  lemma StatusErrorTerminal(status: int, text: string)
    ensures KeyOrQuota(StatusError(status, text)) <==>
              status in {401, 403, 429}
              || (status == 400 && (Contains(text, "invalid") || KeyOrQuota(text)))
  {
    GeminiMarkersAreTerminal();
    if status == 400 {
      BadRequestGeminiMarkers(text);
    } else if status !in {401, 403, 404, 429} {
      StatusMessagesUnmarked(status);
    }
  }

  // ------------------------------------------------------- response body

  datatype Part = Part(text: Option<string>)

  /** One candidate: `content?.parts` and `finishReason`. */
  datatype Candidate = Candidate(parts: Option<seq<Part>>, finishReason: Option<string>)

  /** `promptFeedback`, present when the prompt itself was blocked. */
  datatype Feedback = Feedback(blockReason: Option<string>)

  datatype ApiError = ApiError(message: Option<string>)

  datatype Body = Body(candidates: Option<seq<Candidate>>, error: Option<ApiError>, promptFeedback: Option<Feedback>)

  const NoReplyError := "沒有收到有效的回覆，請嘗試修改貼文內容"
  const FilteredError := "內容被安全過濾器阻止，請嘗試修改貼文內容"
  const TruncatedError := "回覆過長被截斷，請嘗試簡化貼文內容"
  const UnknownFormatError := "未知的回覆格式，請聯繫開發者"

  /** `內容被過濾: ${blockReason || '未知原因'}`. */
  function BlockedError(f: Feedback): string {
    "內容被過濾: " + (if f.blockReason.Some? && f.blockReason.value != "" then f.blockReason.value else "未知原因")
  }

  /** `candidate.content?.parts?.[0]?.text`: only the first part is read. */
  function FirstPartText(c: Candidate): Option<string> {
    if c.parts.Some? && |c.parts.value| > 0 then c.parts.value[0].text else None
  }

  /**
    `extractReplyFromResponse`: the first candidate's first part, cleaned
    up. Without candidates, prompt feedback names the block reason; a
    SAFETY or MAX_TOKENS finish is an error.
   */
  function ExtractReply(body: Body): (r: Result<string, string>)
    ensures (body.candidates.None? || body.candidates.value == []) && body.promptFeedback.Some? ==>
              r == Failure(BlockedError(body.promptFeedback.value))
    ensures (body.candidates.None? || body.candidates.value == []) && body.promptFeedback.None? ==>
              r == Failure(NoReplyError)
    ensures r.Success? <==>
              body.candidates.Some? && |body.candidates.value| > 0
              && body.candidates.value[0].finishReason !in {Some("SAFETY"), Some("MAX_TOKENS")}
              && FirstPartText(body.candidates.value[0]).Some?
              && Trim(FirstPartText(body.candidates.value[0]).value) != ""
    ensures r.Success? ==> r.value == CleanupReply(FirstPartText(body.candidates.value[0]).value)
    ensures body.candidates.Some? && |body.candidates.value| > 0 ==>
              (body.candidates.value[0].finishReason == Some("SAFETY") ==> r == Failure(FilteredError))
              && (body.candidates.value[0].finishReason == Some("MAX_TOKENS") ==> r == Failure(TruncatedError))
              && (body.candidates.value[0].finishReason !in {Some("SAFETY"), Some("MAX_TOKENS")}
                  && (FirstPartText(body.candidates.value[0]).None? || Trim(FirstPartText(body.candidates.value[0]).value) == "")
                  ==> r == Failure(UnknownFormatError))
  {
    if body.candidates.None? || |body.candidates.value| == 0 then
      if body.promptFeedback.Some? then Failure(BlockedError(body.promptFeedback.value))
      else Failure(NoReplyError)
    else
      var c := body.candidates.value[0];
      var early := c.finishReason.Some? && c.finishReason.value != "" && c.finishReason.value != "STOP";
      if early && c.finishReason.value == "SAFETY" then Failure(FilteredError)
      else if early && c.finishReason.value == "MAX_TOKENS" then Failure(TruncatedError)
      else match FirstPartText(c)
        case Some(text) =>
          if text != "" && Trim(text) != "" then Success(CleanupReply(text)) else Failure(UnknownFormatError)
        case None => Failure(UnknownFormatError)
  }

  /** A second part is never read, even when the first is blank. */
  lemma OnlyFirstPartRead(blank: string, reply: string)
    requires Trim(blank) == ""
    ensures ExtractReply(Body(Some([Candidate(Some([Part(Some(blank)), Part(Some(reply))]), None)]), None, None))
            == Failure(UnknownFormatError)
  {
  }

  // ------------------------------------------------------- one attempt

  function Attempt(ex: Exchange<Body>): (r: Result<string, string>)
    ensures ex.Rejected? ==> r == Failure(MessageOf(ex.thrown))
    ensures ex.Answered? && !IsOk(ex.status) ==> r == Failure(StatusError(ex.status, ex.text))
    ensures r.Success? ==> ex.Answered? && IsOk(ex.status) && ex.json.Valid? && ex.json.body.error.None?
                           && ExtractReply(ex.json.body) == r
  {
    match ex
    case Rejected(thrown) => Failure(MessageOf(thrown))
    case Answered(status, text, json) =>
      if !IsOk(status) then Failure(StatusError(status, text))
      else match json
        case Invalid(syntaxError) => Failure(syntaxError)
        case Valid(body) =>
          if body.error.Some? then Failure("Gemini API 錯誤: " + Rendered(body.error.value.message))
          else ExtractReply(body)
  }

  /** The `handleError` chain of the Gemini adapter. */
  function ErrorTable(): (table: seq<Marker>)
    ensures |table| == 6 && table[0].needle == KeyInvalidMarker && table[1].needle == QuotaExceededMarker
  {
    [ Marker(KeyInvalidMarker, "Gemini API Key 無效，請前往設定頁面檢查"),
      Marker(QuotaExceededMarker, "Gemini API 使用額度已超限，請稍後再試"),
      Marker(NetworkMarker, NetworkErrorMessage),
      Marker("Failed to fetch", "無法連接到 Google API，請檢查網路連線"),
      Marker("請求超時", TimeoutErrorMessage),
      Marker("aborted", AbortedErrorMessage) ]
  }

  /** `generateReply`: the response and the traffic behind it. */
  function GenerateReply(request: ReplyRequest, probe: ProbeOutcome, exchanges: seq<Exchange<Body>>): (run: AdapterRun)
    requires |exchanges| >= MaxAttempts
    ensures !KeyShapeOk(request.apiKey) ==> run == AdapterRun(Failed(KeyFormatError, None), false, 0, [])
    ensures run.response.Replied? ==>
              KeyShapeOk(request.apiKey) && ProbeError(probe, "Google").None? && 1 <= run.calls <= MaxAttempts
              && Attempt(exchanges[run.calls - 1]) == Success(run.response.reply)
    ensures run.calls <= MaxAttempts
    ensures AdapterContract(run, KeyShapeOk(request.apiKey), KeyFormatError, probe, "Google", Outcomes(exchanges, Attempt),
                            KeyOrQuota, ErrorTable())
  {
    var outcomes := Outcomes(exchanges, Attempt);
    Generate(KeyShapeOk(request.apiKey), KeyFormatError, probe, "Google", outcomes, KeyOrQuota, ErrorTable())
  }

  // ------------------------------------------------------- scenarios

  /** A 429 on the first attempt: one request, no wait, the quota message. */
  lemma QuotaStopsAtOnce(request: ReplyRequest, probe: ProbeOutcome, exchanges: seq<Exchange<Body>>)
    requires |exchanges| >= MaxAttempts
    requires KeyShapeOk(request.apiKey) && ProbeError(probe, "Google").None?
    requires exchanges[0].Answered? && exchanges[0].status == 429
    ensures GenerateReply(request, probe, exchanges)
            == AdapterRun(Failed("Gemini API 使用額度已超限，請稍後再試", Some(QuotaExceededMarker)), true, 1, [])
  {
    var outcomes := Outcomes(exchanges, Attempt);
    var table := ErrorTable();
    assert GenerateReply(request, probe, exchanges)
           == Generate(true, KeyFormatError, probe, "Google", outcomes, KeyOrQuota, table);
    assert outcomes[0] == Failure(QuotaExceededMarker);
    GeminiMarkersAreTerminal();
    TerminalErrorIsReported(KeyFormatError, probe, "Google", outcomes, KeyOrQuota, table);
    QuotaRow(table);
  }

  lemma QuotaRow(table: seq<Marker>)
    requires table == ErrorTable()
    ensures MarkerMessage(QuotaExceededMarker, table) == "Gemini API 使用額度已超限，請稍後再試"
  {
    assert Avoids(QuotaExceededMarker, {'V'});
    AvoidsExcludes(QuotaExceededMarker, KeyInvalidMarker, {'V'}, 10);
    ContainsSelf(QuotaExceededMarker);
    MarkerMessageAt(QuotaExceededMarker, table, 1);
  }

  /** A 404 is retried like a server error: three 404s give three requests and the retry waits. */
  lemma NotFoundIsRetried(request: ReplyRequest, probe: ProbeOutcome, exchanges: seq<Exchange<Body>>)
    requires |exchanges| >= MaxAttempts
    requires KeyShapeOk(request.apiKey) && ProbeError(probe, "Google").None?
    requires forall k :: 0 <= k < MaxAttempts ==> exchanges[k].Answered? && exchanges[k].status == 404
    ensures GenerateReply(request, probe, exchanges).calls == 3
    ensures GenerateReply(request, probe, exchanges).delays == [2000, 4000]
  {
    var outcomes := Outcomes(exchanges, Attempt);
    GeminiMarkersAreTerminal();
    assert forall k :: 0 <= k < MaxAttempts ==> outcomes[k] == Failure(ModelUnavailableMessage);
    AllTransientRethrowsLast(outcomes, KeyOrQuota);
  }
}
