/**
  The fixed tables of the extension: the eleven reply styles the user
  picks from, the six built-in brand tones, and the storage keys.
 */
module Constants {
  import opened Results
  import opened Strings

  /** A reply style: id, Chinese label, short description, English prompt name. */
  datatype ReplyStyle = ReplyStyle(id: string, name: string, description: string, prompt: string)

  /** A brand tone; `isCustom` is optional and the built-in ones set it to `false`. */
  datatype BrandTone = BrandTone(id: string, name: string, description: string, prompt: string, isCustom: Option<bool>)

  const ReplyStyles: seq<ReplyStyle> := [
    ReplyStyle("relatable", "共鳴", "我也這樣覺得！(Relatable)", "Genuinely Relatable"),
    ReplyStyle("witty", "接梗", "笑死 + 吐槽 (Witty)", "Witty Banter"),
    ReplyStyle("insight", "見解", "其實還可以這樣... (Insight)", "Thoughtful Insight"),
    ReplyStyle("question", "提問", "那如果是...？ (Curious)", "Curious Spark"),
    ReplyStyle("support", "應援", "加油！辛苦了 (Support)", "Warm Support"),
    ReplyStyle("direct", "直球", "選A比較好 (Direct)", "Direct Answer"),
    ReplyStyle("story", "微故事", "這讓我想起... (Story)", "Mini Story"),
    ReplyStyle("spicy", "逆風局", "雖然大家都不愛聽... (Spicy)", "Spicy Take"),
    ReplyStyle("analogy", "神比喻", "這就像是... (Analogy)", "Creative Analogy"),
    ReplyStyle("philosophical", "深度文", "其實這反映了... (Deep)", "Deep Thought"),
    ReplyStyle("logic", "邏輯控", "分成三點來看... (Logic)", "Logic Analysis")
  ]

  const BrandTones: seq<BrandTone> := [
    BrandTone("friendly", "友好親近", "溫暖友善，拉近距離",
              "請使用友好親近的語調，就像和朋友對話一樣自然溫暖，讓對方感受到真誠的關懷。", Some(false)),
    BrandTone("formal", "正式專業", "商務場合，正式語氣",
              "請使用正式專業的語調，保持禮貌得體，適合商務或正式場合的溝通風格。", Some(false)),
    BrandTone("concise", "簡潔直接", "言簡意賅，直擊重點",
              "請使用簡潔直接的語調，言簡意賅地表達重點，避免冗長的修飾詞。", Some(false)),
    BrandTone("enthusiastic", "熱情活潑", "充滿活力，感染力強",
              "請使用熱情活潑的語調，展現積極正面的能量，讓回覆充滿活力和感染力。", Some(false)),
    BrandTone("humble", "謙虛內斂", "低調謙遜，不張揚",
              "請使用謙虛內斂的語調，保持低調謙遜的態度，避免過於張揚或自信的表達。", Some(false)),
    BrandTone("innovative", "創新前衛", "思維新穎，具前瞻性",
              "請使用創新前衛的語調，展現新穎的思維和前瞻性觀點，勇於提出不同的見解。", Some(false))
  ]

  /** The storage keys, in declaration order. */
  const StorageKeys: seq<string> := [
    "geminiApiKey", "openaiApiKey", "claudeApiKey", "openrouterApiKey", "customBrandTones",
    "modifiedDefaultBrandTones", "hiddenBrandTones", "selectedModel", "showViralUI", "customStyleExamples"
  ]

  /** No two entries of `s` are equal. */
  predicate Distinct(s: seq<string>) {
    forall i, j :: 0 <= i < j < |s| ==> s[i] != s[j]
  }

  function StyleIds(): (ids: seq<string>)
    ensures |ids| == |ReplyStyles| && forall i :: 0 <= i < |ids| ==> ids[i] == ReplyStyles[i].id
  {
    seq(|ReplyStyles|, i requires 0 <= i < |ReplyStyles| => ReplyStyles[i].id)
  }

  function StyleNames(): (names: seq<string>)
    ensures |names| == |ReplyStyles| && forall i :: 0 <= i < |names| ==> names[i] == ReplyStyles[i].name
  {
    seq(|ReplyStyles|, i requires 0 <= i < |ReplyStyles| => ReplyStyles[i].name)
  }

  function ToneIds(): (ids: seq<string>)
    ensures |ids| == |BrandTones| && forall i :: 0 <= i < |ids| ==> ids[i] == BrandTones[i].id
  {
    seq(|BrandTones|, i requires 0 <= i < |BrandTones| => BrandTones[i].id)
  }

  /** The style with id `id`, if the table has one. */
  function FindStyle(id: string): (r: Option<ReplyStyle>)
    ensures r.Some? ==> r.value in ReplyStyles && r.value.id == id
    ensures r.None? <==> id !in StyleIds()
  {
    FindStyleFrom(id, 0)
  }

  function FindStyleFrom(id: string, from: nat): (r: Option<ReplyStyle>)
    requires from <= |ReplyStyles|
    ensures r.Some? ==> r.value in ReplyStyles[from..] && r.value.id == id
    ensures r.None? <==> forall i :: from <= i < |ReplyStyles| ==> ReplyStyles[i].id != id
    decreases |ReplyStyles| - from
  {
    if from == |ReplyStyles| then None
    else if ReplyStyles[from].id == id then Some(ReplyStyles[from])
    else FindStyleFrom(id, from + 1)
  }

  /** Eleven styles with distinct ids and distinct labels. */
  lemma StylesWellFormed()
    ensures |ReplyStyles| == 11
    ensures Distinct(StyleIds()) && Distinct(StyleNames())
  {
    StyleIdsDistinct();
    StyleNamesDistinct();
  }

  lemma StyleIdsDistinct()
    ensures Distinct(StyleIds())
  {
    StyleIdsListed();
  }

  lemma StyleIdsListed()
    ensures StyleIds() == ["relatable", "witty", "insight", "question", "support", "direct",
                           "story", "spicy", "analogy", "philosophical", "logic"]
  {
  }

  lemma StyleNamesDistinct()
    ensures Distinct(StyleNames())
  {
    var names := StyleNames();
    assert names == ["共鳴", "接梗", "見解", "提問", "應援", "直球", "微故事", "逆風局", "神比喻", "深度文", "邏輯控"];
  }

  /** Every label is one to three CJK ideographs. */
  lemma StyleLabelsIdeographic()
    ensures forall j :: 0 <= j < |ReplyStyles| ==> 0 < |ReplyStyles[j].name| <= 3
    ensures forall j, k :: 0 <= j < |ReplyStyles| && 0 <= k < |ReplyStyles[j].name| ==> IsIdeograph(ReplyStyles[j].name[k])
  {
  }

  /** Six built-in tones with distinct ids, none of them custom. */
  lemma TonesWellFormed()
    ensures |BrandTones| == 6 && Distinct(ToneIds())
    ensures forall i :: 0 <= i < |BrandTones| ==> BrandTones[i].isCustom == Some(false)
  {
    assert ToneIds() == ["friendly", "formal", "concise", "enthusiastic", "humble", "innovative"];
  }

  /** Ten storage keys, all different. */
  lemma StorageKeysDistinct()
    ensures |StorageKeys| == 10 && Distinct(StorageKeys)
  {
  }

  /** The selector offers no `auto` entry and none of the strategy-only keys. */
  lemma NoAutoStyle()
    ensures FindStyle("auto").None? && FindStyle("connection").None? && FindStyle("lust").None?
  {
    UnlistedIds();
  }

  lemma UnlistedIds()
    ensures "auto" !in StyleIds() && "connection" !in StyleIds() && "lust" !in StyleIds()
  {
    StyleIdsListed();
  }

  /** `question` is offered, as the curious style. */
  lemma QuestionStyle()
    ensures FindStyle("question").Some? && FindStyle("question").value.prompt == "Curious Spark"
  {
    StyleIdsListed();
    var ids := StyleIds();
    assert ids[3] == "question";
    var r := FindStyle("question");
    var j :| 0 <= j < |ReplyStyles| && ReplyStyles[j] == r.value;
    StyleIdsDistinct();
    assert ids[j] == ids[3];
  }
}
