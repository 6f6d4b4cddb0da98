/**
  The OpenRouter adapter, the one the background service registers for
  every model: a single chat-completions call, no key check, no probe and
  no retry; every failure, thrown or not, becomes a failed response.
 */
module OpenRouter {
  import opened Results
  import opened Strings
  import opened Base
  import opened Adapter

  /** The constructor's defaults. */
  const DefaultModelId := "google/gemini-2.0-flash-exp:free"
  const DefaultName := "OpenRouter (Gemini 2.0 Flash)"

  /** The configuration the constructor builds for a model id and display name. */
  function MakeConfig(modelId: string, name: string): (c: ModelConfig)
    ensures c.id == modelId && c.name == name
    ensures c.provider == "openrouter" && c.requiresApiKey
    ensures c.isFree <==> Contains(modelId, ":free")
    ensures EndsWith(c.description, name)
  {
    ModelConfig(modelId, name, "透過 OpenRouter 使用 " + name, "openrouter", Contains(modelId, ":free"), true)
  }

  /** The default configuration is a free model. */
  lemma DefaultIsFree()
    ensures MakeConfig(DefaultModelId, DefaultName).isFree
  {
    var s := DefaultModelId;
    assert s == "google/gemini-2.0-flash-exp" + ":free";
    ContainsSelf(":free");
    ContainsInSuffix("google/gemini-2.0-flash-exp", ":free", ":free");
  }

  // ------------------------------------------------------- the request

  /** What is sent: the model id, the single user message and the bearer token. */
  datatype Outgoing = Outgoing(model: string, content: string, authorization: string)

  function MakeOutgoing(config: ModelConfig, request: ReplyRequest): (o: Outgoing)
    ensures o.model == config.id
    ensures StartsWith(o.content, request.stylePrompt)
    ensures Contains(o.content, "「" + request.postText + "」")
    ensures EndsWith(o.authorization, request.apiKey)
  {
    Outgoing(config.id, FormatPrompt(request.postText, request.stylePrompt), "Bearer " + request.apiKey)
  }

  // ------------------------------------------------------- the response

  /** A JSON property that may be missing, `null`, or set. */
  datatype Field<T> = Missing | Null | Set(value: T)

  datatype ChatMessage = ChatMessage(content: Field<string>)

  datatype Choice = Choice(message: Option<ChatMessage>)

  datatype ApiError = ApiError(message: Option<string>)

  /**
    A decoded JSON body: an object, or the JSON value `null`. `serialized`
    is what `JSON.stringify` gives for an object, which the adapter reports
    as debug info.
   */
  datatype Body =
    | Object(choices: Option<seq<Choice>>, error: Option<ApiError>, serialized: string)
    | JsonNull

  /** `{}`: what a non-OK response's body becomes when it is not JSON. */
  const EmptyBody := Object(None, None, "{}")

  /**
    One `fetch`: rejected, or answered with a status and the outcome of
    `response.json()`.
   */
  datatype Exchange = Unreached(thrown: Thrown) | Responded(status: int, json: Parsed<Body>)

  const FormatError := "API 回傳格式錯誤"
  const FetchFailedMessage := "網路請求失敗"

  /** `cleanupReply` of a message whose `content` is missing. */
  const MissingContentError := ReadError("undefined", "trim")

  /** `cleanupReply` of a message whose `content` is `null`. */
  const NullContentError := ReadError("null", "trim")

  /** Reading `choices` of an OK body that is `null`. */
  const NullChoicesError := ReadError("null", "choices")

  /** Reading `error` of a non-OK body that is `null`. */
  const NullErrorDataError := ReadError("null", "error")

  /** The `catch` clause: an error's message, or a generic text, with `String(error)` as debug info. */
  function CatchAll(t: Thrown): (r: ReplyResponse)
    ensures r.Failed? && r.debugInfo == Some(Describe(t))
    ensures t.ErrorValue? ==> r.error == t.message
    ensures t.OtherValue? ==> r.error == FetchFailedMessage
  {
    Failed(if t.ErrorValue? then t.message else FetchFailedMessage, Some(Describe(t)))
  }

  /** The status part of a non-OK message. */
  function StatusMessage(status: int): (m: string)
    ensures status == 401 ==> m == "API Key 無效"
    ensures status == 402 ==> m == "餘額不足"
    ensures StartsWith(m, GenericStatusHead) <==> status !in {401, 402}
    ensures status !in {401, 402} ==> Contains(m, IntToString(status))
  {
    if status == 402 then
      assert "餘額不足"[0] != GenericStatusHead[0];
      "餘額不足"
    else if status == 401 then
      assert "API Key 無效"[4] != GenericStatusHead[4];
      "API Key 無效"
    else
      ContainsMiddle(GenericStatusHead, IntToString(status), ")");
      GenericStatusHead + IntToString(status) + ")"
  }

  const GenericStatusHead := "API 請求失敗 ("

  /** The `error.message` of an object body, when it is a non-empty string. */
  function ErrorDetail(b: Body): Option<string> {
    if b.Object? && b.error.Some? && b.error.value.message.Some? && b.error.value.message.value != "" then
      b.error.value.message
    else None
  }

  /** What a non-OK response's message ends with: `: ` and the detail, when there is one. */
  function DetailSuffix(b: Body): string {
    if ErrorDetail(b).Some? then ": " + ErrorDetail(b).value else ""
  }

  /** The body of a non-OK response: the decoded JSON, or `{}` when it is not JSON. */
  function ErrorData(json: Parsed<Body>): Body {
    if json.Valid? then json.body else EmptyBody
  }

  /** The body has a first choice with a message. */
  predicate HasMessage(b: Body) {
    b.Object? && b.choices.Some? && |b.choices.value| > 0 && b.choices.value[0].message.Some?
  }

  /** The first choice's content field; only meaningful when the body has a message. */
  function FirstContent(b: Body): Field<string>
    requires HasMessage(b)
  {
    b.choices.value[0].message.value.content
  }

  /** `generateReply`. It never throws: every path ends in a response. */
  function GenerateReply(ex: Exchange): (r: ReplyResponse)
    ensures r.Replied? <==>
              ex.Responded? && IsOk(ex.status) && ex.json.Valid? && HasMessage(ex.json.body)
              && FirstContent(ex.json.body).Set?
    ensures r.Replied? ==>
              r.reply == CleanupReply(FirstContent(ex.json.body).value) && Trimmed(r.reply) && Normalized(r.reply)
    ensures r.Failed? ==> r.debugInfo.Some?
    ensures ex.Unreached? ==> r == CatchAll(ex.thrown)
    ensures ex.Responded? && !IsOk(ex.status) && ErrorData(ex.json).Object? ==>
              r == Failed(StatusMessage(ex.status) + DetailSuffix(ErrorData(ex.json)),
                          Some(ErrorData(ex.json).serialized))
    ensures ex.Responded? && !IsOk(ex.status) && ErrorData(ex.json).JsonNull? ==>
              r == CatchAll(NullErrorDataError)
    ensures ex.Responded? && IsOk(ex.status) && ex.json.Invalid? ==>
              r == CatchAll(ErrorValue("SyntaxError", ex.json.syntaxError))
    ensures ex.Responded? && IsOk(ex.status) && ex.json == Valid(JsonNull) ==>
              r == CatchAll(NullChoicesError)
    ensures ex.Responded? && IsOk(ex.status) && ex.json.Valid? && ex.json.body.Object? && !HasMessage(ex.json.body) ==>
              r == Failed(FormatError, Some(ex.json.body.serialized))
    ensures ex.Responded? && IsOk(ex.status) && ex.json.Valid? && HasMessage(ex.json.body) ==>
              (FirstContent(ex.json.body).Missing? ==> r == CatchAll(MissingContentError))
              && (FirstContent(ex.json.body).Null? ==> r == CatchAll(NullContentError))
  {
    match ex
    case Unreached(thrown) => CatchAll(thrown)
    case Responded(status, json) =>
      if !IsOk(status) then
        var data := ErrorData(json);
        if data.JsonNull? then CatchAll(NullErrorDataError)
        else
          var message := StatusMessage(status) + DetailSuffix(data);
          Failed(message, Some(data.serialized))
      else match json
        case Invalid(syntaxError) => CatchAll(ErrorValue("SyntaxError", syntaxError))
        case Valid(body) =>
          if body.JsonNull? then CatchAll(NullChoicesError)
          else if HasMessage(body) then
            match FirstContent(body)
            case Set(content) => Replied(CleanupReply(content))
            case Null => CatchAll(NullContentError)
            case Missing => CatchAll(MissingContentError)
          else Failed(FormatError, Some(body.serialized))
  }

  /** A non-OK answer whose body carries an error message appends it after the status text. */
  lemma ErrorDetailAppended(status: int, body: Body, detail: string)
    requires !IsOk(status) && detail != ""
    requires body.Object? && body.error == Some(ApiError(Some(detail)))
    ensures GenerateReply(Responded(status, Valid(body)))
            == Failed(StatusMessage(status) + ": " + detail, Some(body.serialized))
  {
  }

  /** A non-OK answer whose body is not JSON reports the bare status text and `{}`. */
  lemma UnreadableErrorBody(status: int, syntaxError: string)
    requires !IsOk(status)
    ensures GenerateReply(Responded(status, Invalid(syntaxError))) == Failed(StatusMessage(status), Some("{}"))
  {
    assert StatusMessage(status) + "" == StatusMessage(status);
  }

  /**
    A 402 is reported as an exhausted balance, unless its body is the JSON
    value `null`, which makes reading `error` throw first.
   */
  lemma PaymentRequired(json: Parsed<Body>)
    requires json != Valid(JsonNull)
    ensures StartsWith(GenerateReply(Responded(402, json)).error, "餘額不足")
  {
  }

  /** A non-OK `null` body hides the status: the answer is the engine's `TypeError`. */
  lemma NullErrorBodyHidesStatus(status: int)
    requires !IsOk(status)
    ensures var r := GenerateReply(Responded(status, Valid(JsonNull)));
            r.Failed? && r.error == "Cannot read properties of null (reading 'error')"
            && r.debugInfo == Some("TypeError: " + r.error)
  {
    ReadErrorText("null", "error");
    NullErrorDataWording();
  }

  /** A first choice whose `content` is `null` fails with the `null` wording of the `trim` error. */
  lemma NullContentReported(status: int, serialized: string)
    requires IsOk(status)
    ensures var r := GenerateReply(Responded(status, Valid(Object(Some([Choice(Some(ChatMessage(Null)))]), None, serialized))));
            r.Failed? && r.error == "Cannot read properties of null (reading 'trim')"
            && r.debugInfo == Some("TypeError: " + r.error)
  {
    var body := Object(Some([Choice(Some(ChatMessage(Null)))]), None, serialized);
    assert HasMessage(body) && FirstContent(body) == Null;
    assert GenerateReply(Responded(status, Valid(body))) == CatchAll(NullContentError);
    ReadErrorText("null", "trim");
    NullContentWording();
  }

  /** A first choice without `content` fails with the `undefined` wording instead. */
  lemma MissingContentReported(status: int, serialized: string)
    requires IsOk(status)
    ensures var r := GenerateReply(Responded(status, Valid(Object(Some([Choice(Some(ChatMessage(Missing)))]), None, serialized))));
            r.Failed? && r.error == "Cannot read properties of undefined (reading 'trim')"
            && r.debugInfo == Some("TypeError: " + r.error)
  {
    var body := Object(Some([Choice(Some(ChatMessage(Missing)))]), None, serialized);
    assert HasMessage(body) && FirstContent(body) == Missing;
    assert GenerateReply(Responded(status, Valid(body))) == CatchAll(MissingContentError);
    ReadErrorText("undefined", "trim");
    MissingContentWording();
  }

  /** The message of reading `error` of a `null` body. */
  lemma NullErrorDataWording()
    ensures NullErrorDataError.message == "Cannot read properties of null (reading 'error')"
  {
    assert "Cannot read properties of " + "null" + " (reading '" + "error" + "')"
        == "Cannot read properties of null (reading 'error')";
  }

  /** The message of trimming a `null` content. */
  lemma NullContentWording()
    ensures NullContentError.message == "Cannot read properties of null (reading 'trim')"
  {
    assert "Cannot read properties of " + "null" + " (reading '" + "trim" + "')"
        == "Cannot read properties of null (reading 'trim')";
  }

  /** The message of trimming a missing content. */
  lemma MissingContentWording()
    ensures MissingContentError.message == "Cannot read properties of undefined (reading 'trim')"
  {
    assert "Cannot read properties of " + "undefined" + " (reading '" + "trim" + "')"
        == "Cannot read properties of undefined (reading 'trim')";
  }

  /** The message and `String(error)` of a property-read `TypeError`. */
  lemma ReadErrorText(holder: string, name: string)
    ensures ReadError(holder, name).message
            == "Cannot read properties of " + holder + " (reading '" + name + "')"
    ensures Describe(ReadError(holder, name)) == "TypeError: " + ReadError(holder, name).message
  {
    var m := ReadError(holder, name).message;
    assert m[0] == 'C';
  }
}
