/**
  The smart-auto flow of the content script: the analysis request it sends
  (the post text and the list of style labels), how it turns the answer
  into a plan (the chosen style, the strategy and the cleaned reason), and
  the error messages it shows instead. Showing toasts and generating the
  reply are outside the model; the plan is what they are given.
 */
module SmartAuto {
  import opened Results
  import opened Strings
  import opened Constants
  import opened AnalysisParse

  // ------------------------------------------------------- the request

  /** The labels offered to the analysis: the label of every style whose id is not `auto`, in table order. */
  function OfferedNames(styles: seq<ReplyStyle>): (names: seq<string>)
    ensures |names| <= |styles|
  {
    if |styles| == 0 then []
    else (if styles[0].id != "auto" then [styles[0].name] else []) + OfferedNames(styles[1..])
  }

  /** Without an `auto` entry every label is offered. */
  lemma {:induction false} OfferedNamesAll(styles: seq<ReplyStyle>)
    requires forall i :: 0 <= i < |styles| ==> styles[i].id != "auto"
    ensures OfferedNames(styles) == seq(|styles|, i requires 0 <= i < |styles| => styles[i].name)
    decreases |styles|
  {
    if |styles| > 0 {
      OfferedNamesAll(styles[1..]);
    }
  }

  /** The `stylesList` of the request: the offered labels joined by a comma and a space. */
  function StylesList(styles: seq<ReplyStyle>): string {
    Join(OfferedNames(styles), ", ")
  }

  /** The `ANALYZE_POST` request's data. */
  datatype AnalyzeRequest = AnalyzeRequest(postText: string, stylesList: string)

  const NoPostTextMessage := "無法讀取貼文內容"

  /** The request for a post's text; an empty text is an error before anything is sent. */
  function RequestFor(styles: seq<ReplyStyle>, postText: string): (r: Result<AnalyzeRequest, string>)
    ensures r.Failure? <==> postText == ""
    ensures r.Failure? ==> r.error == NoPostTextMessage
    ensures r.Success? ==> r.value.postText == postText
  {
    if postText == "" then Failure(NoPostTextMessage)
    else Success(AnalyzeRequest(postText, StylesList(styles)))
  }

  /** Every style of a table without `auto` is offered to the analysis under its label. */
  lemma EveryStyleOffered(styles: seq<ReplyStyle>, postText: string, i: nat)
    requires StyleTable(styles) && postText != "" && i < |styles|
    ensures Contains(RequestFor(styles, postText).value.stylesList, styles[i].name)
  {
    OfferedNamesAll(styles);
    JoinContainsLine(OfferedNames(styles), ", ", i);
  }

  // ------------------------------------------------------- the style table

  /**
    What the choice relies on in the style table: it is not empty and has
    no `auto` entry, and its labels are distinct, non-empty, shorter than
    the custom marker and written in CJK ideographs.
   */
  predicate StyleTable(styles: seq<ReplyStyle>) {
    && |styles| > 0
    && (forall j :: 0 <= j < |styles| ==> styles[j].id != "auto")
    && (forall j :: 0 <= j < |styles| ==> 0 < |styles[j].name| < |CustomPrefix|)
    && (forall j, k :: 0 <= j < |styles| && 0 <= k < |styles[j].name| ==> IsIdeograph(styles[j].name[k]))
    && (forall i, j :: 0 <= i < j < |styles| ==> styles[i].name != styles[j].name)
  }

  // ------------------------------------------------------- choosing the style

  /** The index of the first style satisfying `p`: what `Array.prototype.find` returns, by position. */
  function FirstWhere(styles: seq<ReplyStyle>, p: ReplyStyle -> bool): (r: Option<nat>)
    ensures r.Some? ==> r.value < |styles| && p(styles[r.value])
    ensures r.Some? ==> forall j :: 0 <= j < r.value ==> !p(styles[j])
    ensures r.None? <==> forall j :: 0 <= j < |styles| ==> !p(styles[j])
  {
    if |styles| == 0 then None
    else if p(styles[0]) then Some(0)
    else match FirstWhere(styles[1..], p)
      case None => None
      case Some(k) => Some(k + 1)
  }

  /** `styles.find(p)`. */
  function FindIn(styles: seq<ReplyStyle>, p: ReplyStyle -> bool): (r: Option<ReplyStyle>)
    ensures r.Some? ==> r.value in styles && p(r.value)
    ensures r.None? <==> forall j :: 0 <= j < |styles| ==> !p(styles[j])
  {
    match FirstWhere(styles, p)
    case None => None
    case Some(k) => Some(styles[k])
  }

  /** The marker of a style the analysis made up. */
  const CustomPrefix := "Custom:"

  /** A style made up by the analysis, carrying only its label. */
  function DynamicStyle(name: string): ReplyStyle {
    ReplyStyle("dynamic", name, "AI 自動生成的客製化風格", "Dynamic Style")
  }

  /**
    The style for the analysis' choice among `styles`: a made-up style for
    `Custom: <label>`; otherwise the style with exactly that label, else the
    first style whose label the choice contains, else the first style that
    is not `auto`.
   */
  function ChooseFrom(styles: seq<ReplyStyle>, chosen: string): (r: Option<ReplyStyle>)
    ensures StartsWith(chosen, CustomPrefix) ==> r.Some? && r.value.id == "dynamic" && Trimmed(r.value.name)
    ensures !StartsWith(chosen, CustomPrefix) ==> r.None? || r.value in styles
    ensures !StartsWith(chosen, CustomPrefix) && (exists j :: 0 <= j < |styles| && styles[j].id != "auto") ==> r.Some?
    ensures !StartsWith(chosen, CustomPrefix) && (exists j :: 0 <= j < |styles| && styles[j].name == chosen) ==>
              r.Some? && r.value.name == chosen
  {
    if StartsWith(chosen, CustomPrefix) then
      Some(DynamicStyle(Trim(ReplaceFirst(chosen, CustomPrefix, ""))))
    else if FindIn(styles, (s: ReplyStyle) => s.name == chosen).Some? then
      FindIn(styles, (s: ReplyStyle) => s.name == chosen)
    else if FindIn(styles, (s: ReplyStyle) => Contains(chosen, s.name)).Some? then
      FindIn(styles, (s: ReplyStyle) => Contains(chosen, s.name))
    else
      FindIn(styles, (s: ReplyStyle) => s.id != "auto")
  }

  /** A choice that neither names nor contains a label falls back to the first style when it is not `auto`. */
  lemma ChooseFallsBack(styles: seq<ReplyStyle>, chosen: string)
    requires !StartsWith(chosen, CustomPrefix) && |styles| > 0 && styles[0].id != "auto"
    requires forall j :: 0 <= j < |styles| ==> styles[j].name != chosen && !Contains(chosen, styles[j].name)
    ensures ChooseFrom(styles, chosen) == Some(styles[0])
  {
  }

  /** A label of the table selects its own style. */
  lemma ChooseBuiltIn(styles: seq<ReplyStyle>, i: nat)
    requires StyleTable(styles) && i < |styles|
    ensures ChooseFrom(styles, styles[i].name) == Some(styles[i])
  {
    var name := styles[i].name;
    assert !StartsWith(name, CustomPrefix);
    var r := ChooseFrom(styles, name).value;
    var j :| 0 <= j < |styles| && styles[j] == r;
    assert styles[j].name == styles[i].name;
  }

  /** `Custom: <label>` makes up a style with that label, whatever spaces follow the colon. */
  lemma ChooseCustom(styles: seq<ReplyStyle>, spaces: string, custom: string)
    requires forall i :: 0 <= i < |spaces| ==> IsSpace(spaces[i])
    requires Trimmed(custom)
    ensures ChooseFrom(styles, CustomPrefix + spaces + custom) == Some(DynamicStyle(custom))
  {
    var chosen := CustomPrefix + spaces + custom;
    assert chosen[..|CustomPrefix|] == CustomPrefix;
    ReplacePrefix(chosen, CustomPrefix);
    assert chosen[|CustomPrefix|..] == spaces + custom;
    TrimAfterSpaces(spaces, custom);
  }

  /** ASCII text contains no text that starts with an ideograph. */
  lemma AsciiLacksWide(s: string, w: string)
    requires forall k :: 0 <= k < |s| ==> s[k] <= '~'
    requires w != [] && IsIdeograph(w[0])
    ensures !Contains(s, w)
  {
    forall k | 0 <= k <= |s| - |w|
      ensures !OccursAt(s, w, k)
    {
      assert s[k..k + |w|][0] == s[k];
    }
  }

  /** A choice in ASCII, such as an English style name, is no label and contains none: the first style is used. */
  lemma AsciiChoiceFallsBack(styles: seq<ReplyStyle>, chosen: string)
    requires StyleTable(styles)
    requires !StartsWith(chosen, CustomPrefix) && forall k :: 0 <= k < |chosen| ==> chosen[k] <= '~'
    ensures ChooseFrom(styles, chosen) == Some(styles[0])
  {
    forall j | 0 <= j < |styles|
      ensures styles[j].name != chosen && !Contains(chosen, styles[j].name)
    {
      AsciiLacksWide(chosen, styles[j].name);
    }
    ChooseFallsBack(styles, chosen);
  }

  /** The default choice `Casual Insight` is one of those. */
  lemma DefaultChoiceFallsBack(styles: seq<ReplyStyle>)
    requires StyleTable(styles)
    ensures ChooseFrom(styles, DefaultStyleName) == Some(styles[0])
  {
    assert DefaultStyleName[1] != CustomPrefix[1];
    AsciiChoiceFallsBack(styles, DefaultStyleName);
  }

  /** The label shown for the choice: `targetStyle?.name || chosenStyleName`. */
  function ShownStyle(target: Option<ReplyStyle>, chosen: string): (shown: string)
    ensures target.Some? && target.value.name != "" ==> shown == target.value.name
    ensures target.None? || target.value.name == "" ==> shown == chosen
  {
    if target.Some? && target.value.name != "" then target.value.name else chosen
  }

  /** A custom choice without a label shows the bare marker. */
  lemma EmptyCustomShowsMarker(styles: seq<ReplyStyle>)
    ensures ChooseFrom(styles, CustomPrefix) == Some(DynamicStyle(""))
    ensures ShownStyle(ChooseFrom(styles, CustomPrefix), CustomPrefix) == CustomPrefix
  {
    ChooseCustom(styles, "", "");
    assert CustomPrefix + "" + "" == CustomPrefix;
  }

  // ------------------------------------------------------- cleaning the reason

  /** The label `REASON` in any case, followed by an ASCII or a full-width colon, at the start. */
  predicate ReasonLabelled(reason: string) {
    |reason| >= 7 && CiOccursAt(reason, "REASON", 0) && (reason[6] == ':' || reason[6] == '：')
  }

  /** `reason.replace(/^REASON[:：]\s*\/i, '').trim()`. */
  function CleanReason(reason: string): (c: string)
    ensures Trimmed(c) && |c| <= |reason|
    ensures !ReasonLabelled(reason) ==> c == Trim(reason)
  {
    if ReasonLabelled(reason) then
      var rest := reason[7..];
      Trim(rest[LeadingSpaces(rest)..])
    else Trim(reason)
  }

  /** A label at the start is removed with the spaces after it. */
  lemma CleanReasonDropsLabel(word: string, colon: char, spaces: string, v: string)
    requires |word| == 6 && CiOccursAt(word, "REASON", 0)
    requires colon == ':' || colon == '：'
    requires forall i :: 0 <= i < |spaces| ==> IsSpace(spaces[i])
    requires Trimmed(v)
    ensures CleanReason(word + [colon] + spaces + v) == v
  {
    var r := word + [colon] + spaces + v;
    assert CiOccursAt(r, "REASON", 0) by {
      forall k | 0 <= k < 6
        ensures AsciiUpper(r[k]) == AsciiUpper("REASON"[k])
      {
        assert r[k] == word[k];
      }
    }
    assert r[7..] == spaces + v;
    if v != [] {
      LeadingSpacesOf(spaces, v);
      assert r[7..][|spaces|..] == v;
      TrimTrimmed(v);
    } else {
      TrimAllSpaces(spaces);
      assert spaces + v == spaces;
      LeadingSpacesOf(spaces, v);
    }
  }

  /** A trimmed reason without the label is kept as it is. */
  lemma CleanReasonKeepsPlain(reason: string)
    requires Trimmed(reason) && !ReasonLabelled(reason)
    ensures CleanReason(reason) == reason
  {
    TrimTrimmed(reason);
  }

  // ------------------------------------------------------- the plan

  /** The answer to `ANALYZE_POST`; a missing field is `None`, a missing or false `success` is `false`. */
  datatype AnalyzeResponse = AnalyzeResponse(success: bool, error: Option<string>, analysis: Option<string>)

  /** What the content script goes on with: the style (if any), the label it shows, the strategy and the reason. */
  datatype SmartPlan = SmartPlan(style: Option<ReplyStyle>, shownStyle: string, strategy: string, reason: string)

  const AnalysisFailedMessage := "分析失敗"

  /** `response?.error || '分析失敗'`. */
  function FailureMessage(response: Option<AnalyzeResponse>): (m: string)
    ensures m != ""
    ensures response.Some? && response.value.error.Some? && response.value.error.value != "" ==>
              m == response.value.error.value
  {
    if response.Some? && response.value.error.Some? && response.value.error.value != "" then
      response.value.error.value
    else AnalysisFailedMessage
  }

  /**
    `handleSmartAuto` from the style table, the post's text and the answer
    (`None` when there is none): the error it shows, or the plan it carries
    out.
   */
  function SmartAutoPlan(styles: seq<ReplyStyle>, postText: string, response: Option<AnalyzeResponse>)
    : (r: Result<SmartPlan, string>)
    ensures r.Failure? <==> postText == "" || response.None? || !response.value.success
    ensures postText == "" ==> r == Failure(NoPostTextMessage)
    ensures postText != "" && r.Failure? ==> r.error == FailureMessage(response)
    ensures r.Success? ==> Trimmed(r.value.reason)
    ensures r.Success? && StyleTable(styles) ==>
              r.value.style.Some? && (r.value.style.value in styles || r.value.style.value.id == "dynamic")
  {
    if postText == "" then Failure(NoPostTextMessage)
    else if response.None? || !response.value.success then Failure(FailureMessage(response))
    else
      var analysis := response.value.analysis.GetOr("");
      var chosen := StyleField(analysis);
      var target := ChooseFrom(styles, chosen);
      assert StyleTable(styles) ==> styles[0].id != "auto";
      Success(SmartPlan(target, ShownStyle(target, chosen), StrategyField(analysis), CleanReason(ReasonField(analysis))))
  }

  /**
    An analysis in the requested format naming a style of the table is
    carried out with that style, the strategy as written and the reason as
    written.
   */
  lemma PlanFollowsAnalysis(styles: seq<ReplyStyle>, postText: string, error: Option<string>, i: nat,
                            strategy: string, reason: string)
    requires StyleTable(styles) && postText != "" && i < |styles|
    requires PlainValue(strategy) && PlainValue(reason) && CiFree(strategy, ReasonKey)
    requires Trimmed(reason) && !ReasonLabelled(reason)
    ensures var name := styles[i].name;
            SmartAutoPlan(styles, postText, Some(AnalyzeResponse(true, error, Some(Analysis(name, strategy, reason)))))
            == Success(SmartPlan(Some(styles[i]), name, Trim(strategy), reason))
  {
    var name := styles[i].name;
    var analysis := Analysis(name, strategy, reason);
    LabelAnalysisRead(styles, i, strategy, reason);
    ChooseBuiltIn(styles, i);
    CleanReasonKeepsPlain(reason);
    PlanFromFields(styles, postText, error, Some(analysis));
  }

  /** An analysis naming a table label reads back the label, the trimmed strategy and the reason. */
  lemma LabelAnalysisRead(styles: seq<ReplyStyle>, i: nat, strategy: string, reason: string)
    requires StyleTable(styles) && i < |styles|
    requires PlainValue(strategy) && PlainValue(reason) && CiFree(strategy, ReasonKey) && Trimmed(reason)
    ensures var analysis := Analysis(styles[i].name, strategy, reason);
            StyleField(analysis) == styles[i].name && StrategyField(analysis) == Trim(strategy)
            && ReasonField(analysis) == reason
  {
    var name := styles[i].name;
    WideLabelFree(name, StrategyKey);
    WideLabelFree(name, ReasonKey);
    assert PlainValue(name);
    TrimTrimmed(name);
    AnalysisRoundTrip(name, strategy, reason);
    TrimTrimmed(reason);
  }

  /** A successful answer's plan is made of the three fields its analysis reads as. */
  lemma PlanFromFields(styles: seq<ReplyStyle>, postText: string, error: Option<string>, given: Option<string>)
    requires postText != ""
    ensures var analysis := given.GetOr("");
            var chosen := StyleField(analysis);
            var target := ChooseFrom(styles, chosen);
            SmartAutoPlan(styles, postText, Some(AnalyzeResponse(true, error, given)))
            == Success(SmartPlan(target, ShownStyle(target, chosen), StrategyField(analysis),
                                 CleanReason(ReasonField(analysis))))
  {
  }

  /** A value made only of ideographs contains no label. */
  lemma WideLabelFree(v: string, key: string)
    requires forall k :: 0 <= k < |v| ==> IsIdeograph(v[k])
    requires KeyChars(key) && |key| > 0
    ensures CiFree(v, key)
  {
    forall q | 0 <= q < |v|
      ensures !CiOccursAt(v, key, q)
    {
      if q + |key| <= |v| {
        assert AsciiUpper(v[q + 0]) != AsciiUpper(key[0]);
      }
    }
  }

  /** A successful answer without an analysis falls back to the defaults and the first style. */
  lemma EmptyAnalysisDefaults(styles: seq<ReplyStyle>, postText: string, error: Option<string>)
    requires StyleTable(styles) && postText != ""
    ensures SmartAutoPlan(styles, postText, Some(AnalyzeResponse(true, error, None)))
            == Success(SmartPlan(Some(styles[0]), styles[0].name, DefaultStrategy, DefaultReason))
  {
    MissingFieldDefaults("", StyleKey, StyleStops, DefaultStyleName);
    MissingFieldDefaults("", StrategyKey, StrategyStops, DefaultStrategy);
    MissingFieldDefaults("", ReasonKey, ReasonStops, DefaultReason);
    DefaultChoiceFallsBack(styles);
    assert DefaultReason[0] != 'R';
    CleanReasonKeepsPlain(DefaultReason);
    PlanFromFields(styles, postText, error, None);
  }
}
