/**
  The background service: the registry of models (all served through
  OpenRouter), the key lookup, the GENERATE_REPLY handler that combines
  tone and style prompts and passes the provider's answer through, the
  API_KEY_STATUS handler, and the message dispatcher.

  Storage reads are inputs: the stored model choice and the stored keys.
  The provider is a parameter so that the handler's `catch` clause is
  modelled for any provider; `HandleWithOpenRouter` plugs in the real one.
 */
module Background {
  import opened Results
  import opened Strings
  import opened Base
  import opened Adapter
  import OpenRouter

  // ------------------------------------------------------- registry

  const GrokId := "x-ai/grok-code-fast-1"
  const GeminiId := "google/gemini-3-flash"
  const OpenAIId := "openai/gpt-5.2"
  const ClaudeId := "anthropic/claude-sonnet-4.5"

  /** `initializeProviders`: the ids and display names, in registration order. */
  const Registrations: seq<(string, string)> := [
    (GrokId, "Grok Code Fast 1"),
    (GeminiId, "Google Gemini 3 Flash"),
    (OpenAIId, "OpenAI GPT-5.2"),
    (ClaudeId, "Claude Sonnet 4.5")
  ]

  /** The ids in registration order (`Array.from(providers.keys())`). */
  function RegisteredIds(): (ids: seq<string>)
    ensures ids == [GrokId, GeminiId, OpenAIId, ClaudeId]
  {
    seq(|Registrations|, i requires 0 <= i < |Registrations| => Registrations[i].0)
  }

  /** The provider map: each id bound to the OpenRouter configuration built for it. */
  function Providers(): (m: map<string, ModelConfig>)
    ensures m.Keys == {GrokId, GeminiId, OpenAIId, ClaudeId}
    ensures forall id :: id in m ==> m[id].id == id && m[id].provider == "openrouter" && m[id].requiresApiKey
  {
    map[GrokId := OpenRouter.MakeConfig(GrokId, "Grok Code Fast 1"),
        GeminiId := OpenRouter.MakeConfig(GeminiId, "Google Gemini 3 Flash"),
        OpenAIId := OpenRouter.MakeConfig(OpenAIId, "OpenAI GPT-5.2"),
        ClaudeId := OpenRouter.MakeConfig(ClaudeId, "Claude Sonnet 4.5")]
  }

  /** The stored model choice when none is saved. */
  const DefaultModel := "x-ai/grok-code-fast-1"

  /** The default model is one the registry serves, and none of the registered models is a free one. */
  lemma RegistryServesDefault()
    ensures DefaultModel in Providers()
    ensures forall id :: id in Providers() ==> !Providers()[id].isFree
  {
    NoFreeMarker(GrokId);
    NoFreeMarker(GeminiId);
    NoFreeMarker(OpenAIId);
    NoFreeMarker(ClaudeId);
  }

  lemma NoFreeMarker(id: string)
    requires id in {GrokId, GeminiId, OpenAIId, ClaudeId}
    ensures !Contains(id, ":free")
  {
    assert Avoids(id, {':'});
    AvoidsExcludes(id, ":free", {':'}, 0);
  }

  /** `getSelectedModel`: the stored choice, or the default when it is missing or empty. */
  function SelectedModel(stored: Option<string>): (id: string)
    ensures stored.Some? && stored.value != "" ==> id == stored.value
    ensures stored.None? || stored.value == "" ==> id == DefaultModel
  {
    if stored.Some? && stored.value != "" then stored.value else DefaultModel
  }

  // ------------------------------------------------------- keys

  /** The stored keys (`getApiKeys`; a failed read yields no keys at all). */
  datatype ApiKeys = ApiKeys(gemini: Option<string>, openai: Option<string>, claude: Option<string>,
                             openrouter: Option<string>)

  /** A stored key that is present and non-empty. */
  predicate IsSet(key: Option<string>) {
    key.Some? && key.value != ""
  }

  /**
    `getApiKeyForModel`: the three legacy ids use their vendor's key, every
    other id the OpenRouter key; a missing or empty key gives nothing.
   */
  function KeyForModel(keys: ApiKeys, modelId: string): (r: Option<string>)
    ensures r.Some? ==> r.value != ""
    ensures modelId == "gemini-1.5-flash" ==> (r.Some? <==> IsSet(keys.gemini))
    ensures modelId == "gemini-1.5-flash" ==> r == (if IsSet(keys.gemini) then keys.gemini else None)
    ensures modelId == "gpt-4o" ==> r == (if IsSet(keys.openai) then keys.openai else None)
    ensures modelId == "claude-3-haiku" ==> r == (if IsSet(keys.claude) then keys.claude else None)
    ensures modelId !in {"gemini-1.5-flash", "gpt-4o", "claude-3-haiku"} ==>
              (r.Some? <==> IsSet(keys.openrouter)) && (r.Some? ==> r == keys.openrouter)
  {
    var key :=
      if modelId == "gemini-1.5-flash" then keys.gemini
      else if modelId == "gpt-4o" then keys.openai
      else if modelId == "claude-3-haiku" then keys.claude
      else keys.openrouter;
    if IsSet(key) then key else None
  }

  /** Every registered model is served with the OpenRouter key. */
  lemma RegisteredModelsUseOpenRouterKey(keys: ApiKeys, id: string)
    requires id in Providers()
    ensures KeyForModel(keys, id) == (if IsSet(keys.openrouter) then keys.openrouter else None)
  {
  }

  /** The API_KEY_STATUS answer: which keys are set; `hasApiKey` mirrors the Gemini key. */
  datatype KeyStatus = KeyStatus(hasApiKey: bool, gemini: bool, openai: bool, claude: bool, openrouter: bool)

  function ApiKeyStatus(keys: ApiKeys): (s: KeyStatus)
    ensures s.hasApiKey == s.gemini
    ensures s.gemini <==> IsSet(keys.gemini)
    ensures s.openrouter <==> IsSet(keys.openrouter)
    ensures s.openai <==> IsSet(keys.openai)
    ensures s.claude <==> IsSet(keys.claude)
  {
    KeyStatus(IsSet(keys.gemini), IsSet(keys.gemini), IsSet(keys.openai), IsSet(keys.claude), IsSet(keys.openrouter))
  }

  // ------------------------------------------------------- GENERATE_REPLY

  /** The `data` of a GENERATE_REPLY message; optional fields may be missing. */
  datatype GenerateData = GenerateData(postText: string, style: string, prompt: Option<string>,
                                       model: Option<string>, tonePrompt: Option<string>)

  /** The model to use: the message's non-empty `model`, else the stored choice. */
  function ResolveModel(data: GenerateData, stored: Option<string>): (id: string)
    ensures data.model.Some? && data.model.value != "" ==> id == data.model.value
    ensures data.model.None? || data.model.value == "" ==> id == SelectedModel(stored)
  {
    if data.model.Some? && data.model.value != "" then data.model.value else SelectedModel(stored)
  }

  /**
    The combined style prompt: the tone prompt, a blank line, then the
    style prompt, which reads `undefined` when the message has none.
   */
  function StylePrompt(data: GenerateData): (s: string)
    ensures IsSet(data.tonePrompt) ==> StartsWith(s, data.tonePrompt.value + "\n\n")
    ensures EndsWith(s, Rendered(data.prompt))
    ensures !IsSet(data.tonePrompt) ==> s == Rendered(data.prompt)
  {
    if IsSet(data.tonePrompt) then
      var s := data.tonePrompt.value + "\n\n" + Rendered(data.prompt);
      assert s[..|data.tonePrompt.value + "\n\n"|] == data.tonePrompt.value + "\n\n";
      s
    else Rendered(data.prompt)
  }

  /** What a provider's `generateReply` did: resolved with a response, or threw. */
  datatype ProviderOutcome = Returned(response: ReplyResponse) | Threw(thrown: Thrown)

  /** A provider call the handler made. */
  datatype Invocation = Invocation(config: ModelConfig, request: ReplyRequest)

  /** The handler's answer and the provider call it made, if any. */
  datatype GenerateRun = GenerateRun(response: ReplyResponse, invoked: Option<Invocation>)

  /** The `catch` clause of the handler: a first-marker table with paired markers. */
  function CatchTable(): (table: seq<Marker>)
    ensures |table| == 6
    ensures table[0].needle == "API_KEY_INVALID" && table[1].needle == InvalidKeyMarker
    ensures table[2].needle == "QUOTA_EXCEEDED" && table[3].needle == QuotaMarker
    ensures table[0].userMessage == table[1].userMessage && table[2].userMessage == table[3].userMessage
    ensures table[4].needle == NetworkMarker && table[5].needle == RateLimitMarker
  {
    [ Marker("API_KEY_INVALID", "API Key 無效，請檢查設定"),
      Marker(InvalidKeyMarker, "API Key 無效，請檢查設定"),
      Marker("QUOTA_EXCEEDED", "API 使用額度已超限"),
      Marker(QuotaMarker, "API 使用額度已超限"),
      Marker(NetworkMarker, "網路連接錯誤，請稍後再試"),
      Marker(RateLimitMarker, "API 請求頻率超限，請稍後再試") ]
  }

  /** The refusal of an id outside the registry: it names the id, and lists the registered ones as debug info. */
  function UnsupportedModel(modelId: string): (r: ReplyResponse)
    ensures r.Failed? && EndsWith(r.error, modelId)
    ensures r.debugInfo.Some? && Contains(r.debugInfo.value, Join(RegisteredIds(), ", "))
  {
    var list := Join(RegisteredIds(), ", ");
    ContainsMiddle("可用模型: ", list, "");
    assert "可用模型: " + list + "" == "可用模型: " + list;
    Failed("不支持的 AI 模型: " + modelId, Some("可用模型: " + list))
  }

  /** The refusal of a registered model without its key: both texts name the model. */
  function MissingKey(name: string): (r: ReplyResponse)
    ensures r.Failed? && Contains(r.error, name)
    ensures r.debugInfo.Some? && Contains(r.debugInfo.value, name)
  {
    ContainsMiddle("請先設定 ", name, " 的 API Key");
    ContainsMiddle("模型 ", name, " 需要 API Key，請前往設定頁面配置");
    Failed("請先設定 " + name + " 的 API Key", Some("模型 " + name + " 需要 API Key，請前往設定頁面配置"))
  }

  /** What reading `data.model` throws when the message carries no data. */
  const NoDataError := ReadError("undefined", "model")

  /**
    `handleGenerateReply`. `data` is `None` when the message carries no
    data, in which case reading `data.model` throws and the `catch` clause
    answers.
   */
  function HandleGenerateReply(data: Option<GenerateData>, stored: Option<string>, keys: ApiKeys,
                               provider: (ModelConfig, ReplyRequest) -> ProviderOutcome): (run: GenerateRun)
    ensures run.invoked.Some? <==>
              data.Some? && ResolveModel(data.value, stored) in Providers()
              && KeyForModel(keys, ResolveModel(data.value, stored)).Some?
    ensures run.invoked.Some? ==>
              var id := ResolveModel(data.value, stored);
              run.invoked.value == Invocation(Providers()[id],
                ReplyRequest(data.value.postText, StylePrompt(data.value), KeyForModel(keys, id).value))
    ensures run.invoked.Some? && provider(run.invoked.value.config, run.invoked.value.request).Returned? ==>
              run.response == provider(run.invoked.value.config, run.invoked.value.request).response
    ensures run.invoked.Some? && provider(run.invoked.value.config, run.invoked.value.request).Threw? ==>
              run.response == HandleError(provider(run.invoked.value.config, run.invoked.value.request).thrown, CatchTable())
    ensures run.response.Replied? ==> run.invoked.Some?
    ensures data.None? ==> run.response == HandleError(NoDataError, CatchTable())
    ensures data.Some? && ResolveModel(data.value, stored) !in Providers() ==>
              run.response == UnsupportedModel(ResolveModel(data.value, stored))
    ensures data.Some? && ResolveModel(data.value, stored) in Providers()
            && KeyForModel(keys, ResolveModel(data.value, stored)).None? ==>
              run.response == MissingKey(Providers()[ResolveModel(data.value, stored)].name)
  {
    if data.None? then
      GenerateRun(HandleError(NoDataError, CatchTable()), None)
    else
      var d := data.value;
      var id := ResolveModel(d, stored);
      if id !in Providers() then GenerateRun(UnsupportedModel(id), None)
      else
        var config := Providers()[id];
        match KeyForModel(keys, id)
        case None => GenerateRun(MissingKey(config.name), None)
        case Some(key) =>
          var request := ReplyRequest(d.postText, StylePrompt(d), key);
          var response := match provider(config, request)
            case Returned(r) => r
            case Threw(t) => HandleError(t, CatchTable());
          GenerateRun(response, Some(Invocation(config, request)))
  }

  /**
    A message without data gets the generic text: the `TypeError` from
    reading `model` holds no `_`, which every needle of the table has.
   */
  lemma NoDataAnswer(stored: Option<string>, keys: ApiKeys, provider: (ModelConfig, ReplyRequest) -> ProviderOutcome)
    ensures HandleGenerateReply(None, stored, keys, provider)
            == GenerateRun(Failed(DefaultErrorMessage, Some(NoDataError.message)), None)
  {
    var m, table := NoDataError.message, CatchTable();
    NoDataMessageLacksUnderscore();
    assert table[0].needle[3] == '_' && table[1].needle[7] == '_' && table[2].needle[5] == '_';
    assert table[3].needle[12] == '_' && table[4].needle[7] == '_' && table[5].needle[4] == '_';
    LacksExcludes(m, table[0].needle, 3);
    LacksExcludes(m, table[1].needle, 7);
    LacksExcludes(m, table[2].needle, 5);
    LacksExcludes(m, table[3].needle, 12);
    LacksExcludes(m, table[4].needle, 7);
    LacksExcludes(m, table[5].needle, 4);
  }

  lemma NoDataMessageLacksUnderscore()
    ensures '_' !in NoDataError.message
  {
    var a, b := "Cannot read properties of ", " (reading '";
    assert Avoids(a, {'_'}) && Avoids(b, {'_'});
    assert Avoids("undefined", {'_'}) && Avoids("model", {'_'}) && Avoids("')", {'_'});
    AvoidsAppend(a, "undefined", {'_'});
    AvoidsAppend(a + "undefined", b, {'_'});
    AvoidsAppend(a + "undefined" + b, "model", {'_'});
    AvoidsAppend(a + "undefined" + b + "model", "')", {'_'});
  }

  /** An id outside the registry is refused before any key lookup or provider call. */
  lemma UnknownModelRefused(data: GenerateData, stored: Option<string>, keys: ApiKeys,
                            provider: (ModelConfig, ReplyRequest) -> ProviderOutcome)
    requires data.model == Some("gpt-4o")
    ensures HandleGenerateReply(Some(data), stored, keys, provider)
            == GenerateRun(Failed("不支持的 AI 模型: gpt-4o",
                                  Some("可用模型: " + GrokId + ", " + GeminiId + ", " + OpenAIId + ", " + ClaudeId)),
                           None)
  {
    AvailableList();
    assert ResolveModel(data, stored) == "gpt-4o";
    assert "gpt-4o" !in Providers();
  }

  /** The list of available models in the refusal, in registration order. */
  lemma AvailableList()
    ensures Join(RegisteredIds(), ", ") == GrokId + ", " + GeminiId + ", " + OpenAIId + ", " + ClaudeId
    ensures "可用模型: " + Join(RegisteredIds(), ", ")
            == "可用模型: " + GrokId + ", " + GeminiId + ", " + OpenAIId + ", " + ClaudeId
  {
    var all := Join(RegisteredIds(), ", ");
    JoinedIds();
    assert "可用模型: " + all == "可用模型: " + (GrokId + ", " + (GeminiId + ", " + (OpenAIId + ", " + ClaudeId)));
  }

  /** The joined identifiers, unfolded one separator at a time. */
  lemma JoinedIds()
    ensures Join(RegisteredIds(), ", ") == GrokId + ", " + (GeminiId + ", " + (OpenAIId + ", " + ClaudeId))
  {
    var ids := RegisteredIds();
    assert Join(ids, ", ") == GrokId + ", " + Join(ids[1..], ", ");
    assert ids[1..] == [GeminiId, OpenAIId, ClaudeId];
    assert Join(ids[1..], ", ") == GeminiId + ", " + Join(ids[2..], ", ");
    assert ids[2..] == [OpenAIId, ClaudeId];
    assert Join(ids[2..], ", ") == OpenAIId + ", " + Join(ids[3..], ", ");
    assert ids[3..] == [ClaudeId];
    assert Join(ids[3..], ", ") == ClaudeId;
  }

  /**
    With the OpenRouter adapter as provider the `catch` clause is never
    used: whatever the exchange, the answer is either a pre-check failure
    or exactly the adapter's response.
   */
  function HandleWithOpenRouter(data: GenerateData, stored: Option<string>, keys: ApiKeys,
                                exchange: OpenRouter.Exchange): (run: GenerateRun)
    ensures run.invoked.Some? ==> run.response == OpenRouter.GenerateReply(exchange)
    ensures run.invoked.None? ==> run.response.Failed?
  {
    HandleGenerateReply(Some(data), stored, keys, (c, rq) => Returned(OpenRouter.GenerateReply(exchange)))
  }

  /**
    What the OpenRouter adapter sends for a message: the resolved model id,
    and a user message that opens with the tone prompt (when set), carries
    the style prompt and quotes the post.
   */
  lemma SentPromptCarriesPrompts(data: GenerateData, stored: Option<string>, keys: ApiKeys,
                                 provider: (ModelConfig, ReplyRequest) -> ProviderOutcome)
    requires HandleGenerateReply(Some(data), stored, keys, provider).invoked.Some?
    ensures var inv := HandleGenerateReply(Some(data), stored, keys, provider).invoked.value;
            var out := OpenRouter.MakeOutgoing(inv.config, inv.request);
            out.model == ResolveModel(data, stored)
            && (IsSet(data.tonePrompt) ==> StartsWith(out.content, data.tonePrompt.value + "\n\n"))
            && Contains(out.content, Rendered(data.prompt))
            && Contains(out.content, "「" + data.postText + "」")
  {
    var inv := HandleGenerateReply(Some(data), stored, keys, provider).invoked.value;
    var out := OpenRouter.MakeOutgoing(inv.config, inv.request);
    var sp := StylePrompt(data);
    assert inv.request.stylePrompt == sp;
    StartsWithContains(out.content, sp);
    EndsWithContains(sp, Rendered(data.prompt));
    ContainsTrans(out.content, sp, Rendered(data.prompt));
    if IsSet(data.tonePrompt) {
      StartsWithTrans(out.content, sp, data.tonePrompt.value + "\n\n");
    }
  }

  // ------------------------------------------------------- dispatcher

  /** A runtime message: its `action`, its `type` and its `data`. */
  datatype Message = Message(action: Option<string>, kind: Option<string>, data: Option<GenerateData>)

  /** What the listener answers. */
  datatype Answer =
    | VerifyRefused
    | Generated(run: GenerateRun)
    | Status(status: KeyStatus)
    | OptionsOpened
    | NoAnswer

  /**
    The `onMessage` listener: the deprecated verification action is
    refused first, then the three message types; anything else gets no
    answer.
   */
  function Dispatch(m: Message, stored: Option<string>, keys: ApiKeys,
                    provider: (ModelConfig, ReplyRequest) -> ProviderOutcome): (a: Answer)
    ensures m.action == Some("verifyCode") ==> a == VerifyRefused
    ensures a.Generated? <==> m.action != Some("verifyCode") && m.kind == Some("GENERATE_REPLY")
    ensures a.Generated? ==> a.run == HandleGenerateReply(m.data, stored, keys, provider)
    ensures a.Status? <==> m.action != Some("verifyCode") && m.kind == Some("API_KEY_STATUS")
    ensures a.Status? ==> a.status == ApiKeyStatus(keys)
    ensures a == OptionsOpened <==> m.action != Some("verifyCode") && m.kind == Some("OPEN_OPTIONS")
    ensures a == NoAnswer <==>
              m.action != Some("verifyCode")
              && m.kind !in {Some("GENERATE_REPLY"), Some("API_KEY_STATUS"), Some("OPEN_OPTIONS")}
  {
    if m.action == Some("verifyCode") then VerifyRefused
    else if m.kind == Some("GENERATE_REPLY") then Generated(HandleGenerateReply(m.data, stored, keys, provider))
    else if m.kind == Some("API_KEY_STATUS") then Status(ApiKeyStatus(keys))
    else if m.kind == Some("OPEN_OPTIONS") then OptionsOpened
    else NoAnswer
  }

  /** The content script's analysis request has no handler. */
  lemma AnalyzePostUnanswered(data: Option<GenerateData>, stored: Option<string>, keys: ApiKeys,
                              provider: (ModelConfig, ReplyRequest) -> ProviderOutcome)
    ensures Dispatch(Message(None, Some("ANALYZE_POST"), data), stored, keys, provider) == NoAnswer
  {
  }
}
