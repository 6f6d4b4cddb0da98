/**
  `PromptBuilder`: the pure string assembler behind reply generation. It
  holds the style-strategy table with its fallback, the per-reply prompt
  (persona, emoji and kaomoji rules, optional style examples, output
  contract) and the merged analyse-and-reply prompt with its length tiers.
 */
module PromptBuilder {
  import opened Results
  import opened Strings
  import opened Constants
  import opened PromptText

  // ------------------------------------------------------- style strategies

  /** A strategy: the name the prompt shows and its one-line definition. */
  datatype Strategy = Strategy(name: string, definition: string)

  /** The ids the strategy table has an entry for. */
  const StrategyIds: set<string> :=
    {"connection", "value", "chill", "hype", "spicy", "story", "question", "flex", "hook", "collab", "lust", "dynamic"}

  /** The table key an id names, if any. */
  function KeyOf(styleId: string): (k: Option<StrategyKey>)
    ensures k.None? <==> styleId !in StrategyIds
  {
    match styleId
    case "connection" => Some(Connection)
    case "value" => Some(Value)
    case "chill" => Some(Chill)
    case "hype" => Some(Hype)
    case "spicy" => Some(Spicy)
    case "story" => Some(Story)
    case "question" => Some(Question)
    case "flex" => Some(Flex)
    case "hook" => Some(Hook)
    case "collab" => Some(Collab)
    case "lust" => Some(Lust)
    case "dynamic" => Some(Dynamic)
    case _ => None
  }

  /** The name the prompt shows for a strategy; never the fallback's. */
  function StrategyName(k: StrategyKey): (name: string)
    ensures name != FallbackStrategy.name
  {
    match k
    case Connection => "High Resonance"
    case Value => "Casual Insight"
    case Chill => "Chill / Circle Talk"
    case Hype => "Pure Hype"
    case Spicy => "Spicy Take"
    case Story => "Mini Story"
    case Question => "Curious Question"
    case Flex => "Subtle Flex"
    case Hook => "Cliffhanger Hook"
    case Collab => "Collab Hint"
    case Lust => "Profile Lure (Curiosity Gap)"
    case Dynamic => "Dynamic Analysis"
  }

  /** What an id outside the table gets. */
  const FallbackStrategy := Strategy("Friendly Echo", "A friendly, relevant reply.")

  /**
    `getStyleStrategy`: the table entry for a known id, the fallback for
    any other; the fallback's name is never an entry's, so the name tells
    which of the two happened.
   */
  function GetStyleStrategy(styleId: string): (s: Strategy)
    ensures s.name == FallbackStrategy.name <==> styleId !in StrategyIds
    ensures styleId !in StrategyIds ==> s == FallbackStrategy
    ensures styleId in StrategyIds ==> s.name == StrategyName(KeyOf(styleId).value)
    ensures styleId in StrategyIds ==> s.definition == StrategyDefinition(KeyOf(styleId).value)
  {
    match KeyOf(styleId)
    case None => FallbackStrategy
    case Some(k) => Strategy(StrategyName(k), StrategyDefinition(k))
  }

  /**
    Of the eleven selectable reply styles only `question`, `story` and
    `spicy` have a strategy of their own; every other one gets the fallback.
   */
  lemma SelectableStylesStrategies()
    ensures forall i :: 0 <= i < |ReplyStyles| ==>
              (ReplyStyles[i].id in StrategyIds <==> ReplyStyles[i].id in {"question", "story", "spicy"})
    ensures forall i :: 0 <= i < |ReplyStyles| && ReplyStyles[i].id !in {"question", "story", "spicy"} ==>
              GetStyleStrategy(ReplyStyles[i].id) == FallbackStrategy
  {
    var ids := StyleIds();
    assert ids == ["relatable", "witty", "insight", "question", "support", "direct",
                   "story", "spicy", "analogy", "philosophical", "logic"];
  }

  // ------------------------------------------------------- the reply prompt

  /** The `options` argument; a missing string is `None`. */
  datatype ReplyOptions = ReplyOptions(
    useKaomoji: bool,
    isSelfPost: bool,
    strategy: Option<string>,
    customExamples: Option<string>,
    dynamicStyleName: Option<string>)

  /** The default when no options are passed. */
  const DefaultReplyOptions := ReplyOptions(false, false, None, None, None)

  /** A string option that is present and non-empty, which is what a template's truth test sees. */
  predicate Truthy(o: Option<string>) {
    o.Some? && o.value != ""
  }

  /**
    The strategy after the dynamic override: a non-empty dynamic style name
    renames the `dynamic` entry; the definition always comes from the table.
   */
  function ResolveStrategy(styleId: string, dynamicStyleName: Option<string>): (s: Strategy)
    ensures s.definition == GetStyleStrategy(styleId).definition
    ensures styleId != "dynamic" ==> s == GetStyleStrategy(styleId)
    ensures styleId == "dynamic" && Truthy(dynamicStyleName) ==> s.name == dynamicStyleName.value
    ensures styleId == "dynamic" ==> s.definition == StrategyDefinition(Dynamic)
    ensures styleId == "dynamic" && !Truthy(dynamicStyleName) ==> s.name == "Dynamic Analysis"
  {
    var base := GetStyleStrategy(styleId);
    if styleId == "dynamic" && Truthy(dynamicStyleName) then base.(name := dynamicStyleName.value) else base
  }

  const DefaultPersona := "一位隨性、真誠的脆友 (Threads User)"
  const SelfPostSentence := " You are the ORIGINAL AUTHOR of this post replying to a comment."

  /** The persona: the tone's name and description, or the default; a self post adds the author sentence. */
  function Persona(tone: Option<BrandTone>, isSelfPost: bool): (p: string)
    ensures tone.Some? ==> StartsWith(p, tone.value.name + " (" + tone.value.description + ")")
    ensures tone.None? ==> StartsWith(p, DefaultPersona)
    ensures EndsWith(p, SelfPostSentence) <==> isSelfPost
  {
    var base := if tone.Some? then tone.value.name + " (" + tone.value.description + ")" else DefaultPersona;
    assert base[|base| - 1] == ')';
    if isSelfPost then
      assert (base + SelfPostSentence)[..|base|] == base;
      base + SelfPostSentence
    else
      ClosedPersonaNotSelf(base);
      base
  }

  lemma ClosedPersonaNotSelf(base: string)
    requires |base| > 0 && base[|base| - 1] == ')'
    ensures !EndsWith(base, SelfPostSentence)
  {
    if EndsWith(base, SelfPostSentence) {
      EndsWithLast(base, SelfPostSentence);
      assert false;
    }
  }

  const NoEmojiRule := "STRICTLY NO EMOJIS"
  const MustKaomojiRule := "MUST use Japanese kaomoji"
  const NoKaomojiRule := "NO Japanese kaomoji"
  const NoEmojiTask := "Do NOT use emojis."
  const KaomojiTask := "Include at least 1 kaomoji."

  /** The sample faces the kaomoji rule lists. */
  const KaomojiFaces := "(´・ω・`), (≧∇≦)/, (._.), (qm0), (OAO)"

  const StrictLine := "- " + NoEmojiRule + " (🚫). Use text only.\n"
  const KaomojiLine := "- **" + MustKaomojiRule + "** (like " + KaomojiFaces + ") naturally at the end or pause.\n"
  const NoKaomojiLine := "- " + NoKaomojiRule + ".\n"

  /**
    The visual rules: always the no-emoji line, then exactly one of the two
    kaomoji lines, chosen by `useKaomoji`.
   */
  function VisualRules(useKaomoji: bool): (v: string)
    ensures StartsWith(v, StrictLine) && Contains(v, NoEmojiRule)
    ensures Contains(v, MustKaomojiRule) <==> useKaomoji
    ensures Contains(v, NoKaomojiRule) <==> !useKaomoji
  {
    var line := if useKaomoji then KaomojiLine else NoKaomojiLine;
    VisualRulesKaomoji(useKaomoji);
    StrictLineHasRule();
    ContainsInPrefix(StrictLine, line, NoEmojiRule);
    assert (StrictLine + line)[..|StrictLine|] == StrictLine;
    StrictLine + line
  }

  lemma StrictLineHasRule()
    ensures Contains(StrictLine, NoEmojiRule)
  {
    ContainsMiddle("- ", NoEmojiRule, " (🚫). Use text only.\n");
  }

  lemma VisualRulesKaomoji(useKaomoji: bool)
    ensures var v := StrictLine + (if useKaomoji then KaomojiLine else NoKaomojiLine);
            (Contains(v, MustKaomojiRule) <==> useKaomoji) && (Contains(v, NoKaomojiRule) <==> !useKaomoji)
  {
    StrictLineLacksKaomoji();
    PrefixedContains(StrictLine, KaomojiLine, MustKaomojiRule);
    PrefixedContains(StrictLine, KaomojiLine, NoKaomojiRule);
    PrefixedContains(StrictLine, NoKaomojiLine, MustKaomojiRule);
    PrefixedContains(StrictLine, NoKaomojiLine, NoKaomojiRule);
    KaomojiLineRules();
    NoKaomojiLineRules();
  }

  /** The letters that tell the three rules apart. */
  lemma RuleLetters()
    ensures NoEmojiRule[2] == 'R' && MustKaomojiRule[0] == 'M' && NoKaomojiRule[0] == 'N'
    ensures MustKaomojiRule[18] == 'k' && NoKaomojiRule[12] == 'k'
  {
  }

  /** The no-emoji line mentions kaomoji in neither form: it has no `k`. */
  lemma StrictLineLacksKaomoji()
    ensures !Contains(StrictLine, MustKaomojiRule) && !Contains(StrictLine, NoKaomojiRule)
    ensures StrictLine[|StrictLine| - 1] !in MustKaomojiRule && StrictLine[|StrictLine| - 1] !in NoKaomojiRule
  {
    StrictLineLacksK();
    RuleLetters();
    LacksExcludes(StrictLine, MustKaomojiRule, 18);
    LacksExcludes(StrictLine, NoKaomojiRule, 12);
    assert StrictLine[|StrictLine| - 1] == '\n';
  }

  lemma StrictLineLacksK()
    ensures 'k' !in StrictLine
  {
    assert 'k' !in NoEmojiRule;
    assert 'k' !in " (🚫). Use text only.\n";
  }

  /** The kaomoji line carries its rule, and no `N`, so not the other one. */
  lemma KaomojiLineRules()
    ensures Contains(KaomojiLine, MustKaomojiRule) && !Contains(KaomojiLine, NoKaomojiRule)
  {
    KaomojiLineHasRule();
    KaomojiLineLacksN();
    LacksExcludes(KaomojiLine, NoKaomojiRule, 0);
  }

  lemma KaomojiLineHasRule()
    ensures Contains(KaomojiLine, MustKaomojiRule)
  {
    var tail := "** (like " + KaomojiFaces + ") naturally at the end or pause.\n";
    ContainsMiddle("- **", MustKaomojiRule, tail);
    assert KaomojiLine == "- **" + MustKaomojiRule + tail;
  }

  lemma KaomojiLineLacksN()
    ensures 'N' !in KaomojiLine
  {
    MustRuleLacks();
    FacesLack();
    assert 'N' !in ") naturally at the end or pause.\n";
  }

  /** The kaomoji rule has neither `N` nor `R`. */
  lemma MustRuleLacks()
    ensures 'N' !in MustKaomojiRule && 'R' !in MustKaomojiRule
  {
  }

  /** The sample faces have neither `N` nor `R`. */
  lemma FacesLack()
    ensures 'N' !in KaomojiFaces && 'R' !in KaomojiFaces
    ensures 'N' !in MergedKaomojiFaces && 'R' !in MergedKaomojiFaces
  {
  }

  /** The no-kaomoji line carries its rule, and no `M`, so not the other one. */
  lemma NoKaomojiLineRules()
    ensures Contains(NoKaomojiLine, NoKaomojiRule) && !Contains(NoKaomojiLine, MustKaomojiRule)
  {
    ContainsMiddle("- ", NoKaomojiRule, ".\n");
    NoKaomojiLineLacksM();
    LacksExcludes(NoKaomojiLine, MustKaomojiRule, 0);
  }

  lemma NoKaomojiLineLacksM()
    ensures 'M' !in NoKaomojiLine
  {
    assert 'M' !in NoKaomojiRule;
  }

  /** The task constraint: always no emojis, and the kaomoji request exactly when asked for. */
  function TaskConstraint(useKaomoji: bool): (t: string)
    ensures StartsWith(t, NoEmojiTask)
    ensures Contains(t, KaomojiTask) <==> useKaomoji
  {
    assert 'I' !in NoEmojiTask + " ";
    LacksExcludes(NoEmojiTask + " ", KaomojiTask, 0);
    if useKaomoji then
      ContainsMiddle(NoEmojiTask + " ", KaomojiTask, " ");
      assert (NoEmojiTask + " " + KaomojiTask + " ")[..|NoEmojiTask|] == NoEmojiTask;
      NoEmojiTask + " " + KaomojiTask + " "
    else
      assert (NoEmojiTask + " ")[..|NoEmojiTask|] == NoEmojiTask;
      NoEmojiTask + " "
  }

  const StyleDnaMarker := "PERSONAL STYLE DNA"
  const StyleDnaIntro := "\n5. **" + StyleDnaMarker + " (MIMIC THIS EXACTLY)**:\n   You MUST copy the sentence structure, length, punctuation, and \"vibe\" of these examples:\n"
  const StyleDnaOutro := "   (Ignore the content of examples, just copy the STYLE)\n"
  const StyleDnaHead := StyleDnaIntro + "   "
  const StyleDnaTail := "\n" + StyleDnaOutro

  /** Whether the examples would switch on style cloning: present and not blank. */
  predicate HasExamples(customExamples: Option<string>) {
    customExamples.Some? && Trim(customExamples.value) != ""
  }

  /** The style-cloning block: empty unless examples are given, which are then inserted trimmed. */
  function PersonalStyleRule(customExamples: Option<string>): (r: string)
    ensures r == "" <==> !HasExamples(customExamples)
    ensures HasExamples(customExamples) ==>
              Contains(r, StyleDnaMarker) && Contains(r, "   " + Trim(customExamples.value) + "\n")
  {
    if customExamples.Some? && customExamples.value != "" && Trim(customExamples.value) != "" then
      var ex := Trim(customExamples.value);
      ContainsMiddle("\n5. **", StyleDnaMarker, " (MIMIC THIS EXACTLY)**:\n   You MUST copy the sentence structure, length, punctuation, and \"vibe\" of these examples:\n");
      ContainsInPrefix(StyleDnaIntro, "   ", StyleDnaMarker);
      ContainsInPrefix(StyleDnaHead, ex + StyleDnaTail, StyleDnaMarker);
      assert StyleDnaHead + ex + StyleDnaTail == StyleDnaHead + (ex + StyleDnaTail);
      ContainsRunInRule(ex);
      StyleDnaHead + ex + StyleDnaTail
    else
      assert customExamples.Some? && customExamples.value == "" ==> Trim(customExamples.value) == "";
      ""
  }

  lemma ContainsRunInRule(ex: string)
    ensures Contains(StyleDnaHead + ex + StyleDnaTail, "   " + ex + "\n")
  {
    RunBetween(StyleDnaIntro, ex, StyleDnaOutro);
  }

  lemma RunBetween(intro: string, ex: string, outro: string)
    ensures Contains(intro + "   " + ex + ("\n" + outro), "   " + ex + "\n")
  {
    assert intro + "   " + ex + ("\n" + outro) == intro + ("   " + ex + "\n") + outro;
    ContainsMiddle(intro, "   " + ex + "\n", outro);
  }

  /** ` Strategy: X.` when a non-empty strategy is given, else nothing. */
  function StrategyClause(strategy: Option<string>): (r: string)
    ensures r != "" <==> Truthy(strategy)
    ensures Truthy(strategy) ==> StartsWith(r, " Strategy: ") && Contains(r, strategy.value) && EndsWith(r, ".")
  {
    if Truthy(strategy) then
      ContainsMiddle(" Strategy: ", strategy.value, ".");
      " Strategy: " + strategy.value + "."
    else ""
  }

  const PostLabel := "- Original Post: \""
  const ReplyEnd := "REPLY:"


  /** The fixed paragraphs of the reply template, between which the computed pieces go. */
  datatype ReplyTemplate = ReplyTemplate(
    head: string, contentStrategy: string, rulesHead: string,
    styleContract: string, reasonContract: string, rulesTail: string)

  const ReplyTexts := ReplyTemplate(ReplyHead, ContentStrategyText, OutputRulesHead,
                                    StyleContractLine, ReasonContractLine, OutputRulesTail)

  /** The role, the visual rules, the content strategy and the style-cloning block. */
  function ReplyIntro(t: ReplyTemplate, options: ReplyOptions): (r: string)
    ensures StartsWith(r, t.head) && Contains(r, NoEmojiRule)
    ensures options.useKaomoji ==> Contains(r, MustKaomojiRule)
    ensures !options.useKaomoji ==> Contains(r, NoKaomojiRule)
    ensures HasExamples(options.customExamples) ==>
              Contains(r, StyleDnaMarker) && Contains(r, "   " + Trim(options.customExamples.value) + "\n")
  {
    var parts := [t.head, VisualRules(options.useKaomoji), t.contentStrategy, PersonalStyleRule(options.customExamples)];
    ReplyIntroContents(parts, t, options);
    Concat(parts)
  }

  lemma ReplyIntroContents(parts: seq<string>, t: ReplyTemplate, options: ReplyOptions)
    requires parts == [t.head, VisualRules(options.useKaomoji), t.contentStrategy, PersonalStyleRule(options.customExamples)]
    ensures var r := Concat(parts);
            && StartsWith(r, t.head) && Contains(r, NoEmojiRule)
            && (options.useKaomoji ==> Contains(r, MustKaomojiRule))
            && (!options.useKaomoji ==> Contains(r, NoKaomojiRule))
            && (HasExamples(options.customExamples) ==>
                  Contains(r, StyleDnaMarker) && Contains(r, "   " + Trim(options.customExamples.value) + "\n"))
  {
    ConcatStartsWithFirst(parts);
    PartsContain(parts, 1, NoEmojiRule);
    if options.useKaomoji {
      PartsContain(parts, 1, MustKaomojiRule);
    } else {
      PartsContain(parts, 1, NoKaomojiRule);
    }
    if HasExamples(options.customExamples) {
      PartsContain(parts, 3, StyleDnaMarker);
      PartsContain(parts, 3, "   " + Trim(options.customExamples.value) + "\n");
    }
  }

  /** The context block: the post in quotes, the persona and the target style. */
  function ReplyContext(postContent: string, persona: string, strategy: Strategy): (r: string)
    ensures StartsWith(r, "\n\nCONTEXT:\n")
    ensures Contains(r, PostLabel + postContent + "\"")
    ensures Contains(r, "- Your Persona: " + persona)
    ensures Contains(r, "- Target Style: " + strategy.name + " - " + strategy.definition)
  {
    var parts := ["\n\nCONTEXT:\n", PostLabel + postContent + "\"", "\n", "- Your Persona: " + persona, "\n",
                  "- Target Style: " + strategy.name + " - " + strategy.definition];
    ConcatStartsWithFirst(parts);
    ConcatContainsPart(parts, 1);
    ConcatContainsPart(parts, 3);
    ConcatContainsPart(parts, 5);
    Concat(parts)
  }

  /** The output rules, with the STYLE and REASON lines the reply must end with. */
  function ReplyContract(t: ReplyTemplate): (r: string)
    ensures StartsWith(r, t.rulesHead) && EndsWith(r, t.rulesTail)
    ensures Contains(r, t.styleContract + "\n  " + t.reasonContract)
  {
    ContainsMiddle(t.rulesHead, t.styleContract + "\n  " + t.reasonContract, t.rulesTail);
    assert (t.rulesHead + (t.styleContract + "\n  " + t.reasonContract) + t.rulesTail)[..|t.rulesHead|] == t.rulesHead;
    t.rulesHead + (t.styleContract + "\n  " + t.reasonContract) + t.rulesTail
  }

  /** The task line: the style to use, the optional strategy clause, the emoji constraint, the cue. */
  function ReplyTask(strategy: Strategy, options: ReplyOptions): (r: string)
    ensures StartsWith(r, strategy.name + "\" style.") && EndsWith(r, ReplyEnd)
    ensures Contains(r, NoEmojiTask)
    ensures options.useKaomoji ==> Contains(r, KaomojiTask)
    ensures Truthy(options.strategy) ==> Contains(r, " Strategy: " + options.strategy.value + ".")
  {
    var parts := [strategy.name + "\" style.", StrategyClause(options.strategy), "\n",
                  TaskConstraint(options.useKaomoji), "\n\n---\n", ReplyEnd];
    ReplyTaskContents(parts, strategy, options);
    Concat(parts)
  }

  lemma ReplyTaskContents(parts: seq<string>, strategy: Strategy, options: ReplyOptions)
    requires parts == [strategy.name + "\" style.", StrategyClause(options.strategy), "\n",
                       TaskConstraint(options.useKaomoji), "\n\n---\n", ReplyEnd]
    ensures var r := Concat(parts);
            && StartsWith(r, strategy.name + "\" style.") && EndsWith(r, ReplyEnd)
            && Contains(r, NoEmojiTask)
            && (options.useKaomoji ==> Contains(r, KaomojiTask))
            && (Truthy(options.strategy) ==> Contains(r, " Strategy: " + options.strategy.value + "."))
  {
    ConcatStartsWithFirst(parts);
    ConcatEndsWithLast(parts);
    StartsWithContains(parts[3], NoEmojiTask);
    PartsContain(parts, 3, NoEmojiTask);
    if options.useKaomoji {
      PartsContain(parts, 3, KaomojiTask);
    }
    if Truthy(options.strategy) {
      ConcatContainsPart(parts, 1);
    }
  }

  /**
    The reply template filled in with a persona and a resolved strategy: the
    post verbatim in quotes, the persona, the strategy, the STYLE and REASON
    output contract, no emojis in the rules and in the task, the kaomoji rule
    and request when asked for, the strategy clause when given and the
    trimmed examples when present.
   */
  function FormatReplyPrompt(t: ReplyTemplate, postContent: string, persona: string, strategy: Strategy, options: ReplyOptions): (p: string)
    ensures StartsWith(p, t.head) && EndsWith(p, ReplyEnd)
    ensures Contains(p, NoEmojiRule) && Contains(p, NoEmojiTask)
    ensures Contains(p, PostLabel + postContent + "\"")
    ensures Contains(p, "- Your Persona: " + persona)
    ensures Contains(p, "- Target Style: " + strategy.name + " - " + strategy.definition)
    ensures Contains(p, strategy.name + "\" style.")
    ensures Contains(p, t.styleContract + "\n  " + t.reasonContract)
    ensures options.useKaomoji ==> Contains(p, MustKaomojiRule) && Contains(p, KaomojiTask)
    ensures !options.useKaomoji ==> Contains(p, NoKaomojiRule)
    ensures Truthy(options.strategy) ==> Contains(p, " Strategy: " + options.strategy.value + ".")
    ensures HasExamples(options.customExamples) ==> Contains(p, "   " + Trim(options.customExamples.value) + "\n")
  {
    var parts := [ReplyIntro(t, options), ReplyContext(postContent, persona, strategy),
                  ReplyContract(t), ReplyTask(strategy, options)];
    FormatReplyContents(parts, t, postContent, persona, strategy, options);
    Concat(parts)
  }

  lemma FormatReplyContents(parts: seq<string>, t: ReplyTemplate, postContent: string, persona: string, strategy: Strategy, options: ReplyOptions)
    requires parts == [ReplyIntro(t, options), ReplyContext(postContent, persona, strategy),
                       ReplyContract(t), ReplyTask(strategy, options)]
    ensures var p := Concat(parts);
            && StartsWith(p, t.head) && EndsWith(p, ReplyEnd)
            && Contains(p, NoEmojiRule) && Contains(p, NoEmojiTask)
            && Contains(p, PostLabel + postContent + "\"")
            && Contains(p, "- Your Persona: " + persona)
            && Contains(p, "- Target Style: " + strategy.name + " - " + strategy.definition)
            && Contains(p, strategy.name + "\" style.")
            && Contains(p, t.styleContract + "\n  " + t.reasonContract)
            && (options.useKaomoji ==> Contains(p, MustKaomojiRule) && Contains(p, KaomojiTask))
            && (!options.useKaomoji ==> Contains(p, NoKaomojiRule))
            && (Truthy(options.strategy) ==> Contains(p, " Strategy: " + options.strategy.value + "."))
            && (HasExamples(options.customExamples) ==> Contains(p, "   " + Trim(options.customExamples.value) + "\n"))
  {
    ConcatStartsWithFirst(parts);
    StartsWithTrans(Concat(parts), parts[0], t.head);
    ConcatEndsWithLast(parts);
    EndsWithTrans(Concat(parts), parts[3], ReplyEnd);
    PartsContain(parts, 0, NoEmojiRule);
    PartsContain(parts, 3, NoEmojiTask);
    PartsContain(parts, 1, PostLabel + postContent + "\"");
    PartsContain(parts, 1, "- Your Persona: " + persona);
    PartsContain(parts, 1, "- Target Style: " + strategy.name + " - " + strategy.definition);
    StartsWithContains(parts[3], strategy.name + "\" style.");
    PartsContain(parts, 3, strategy.name + "\" style.");
    PartsContain(parts, 2, t.styleContract + "\n  " + t.reasonContract);
    if options.useKaomoji {
      PartsContain(parts, 0, MustKaomojiRule);
      PartsContain(parts, 3, KaomojiTask);
    } else {
      PartsContain(parts, 0, NoKaomojiRule);
    }
    if Truthy(options.strategy) {
      PartsContain(parts, 3, " Strategy: " + options.strategy.value + ".");
    }
    if HasExamples(options.customExamples) {
      PartsContain(parts, 0, "   " + Trim(options.customExamples.value) + "\n");
    }
  }

  /**
    `buildReplyPrompt` over a template: the tone's persona and the resolved
    strategy filled into `t`. The contract holds for every template, so it
    holds for the extension's own, `ReplyTexts`, which `ReplyPrompt` passes.
   */
  function BuildReplyPrompt(t: ReplyTemplate, postContent: string, tone: Option<BrandTone>, styleId: string,
                            options: ReplyOptions): (p: string)
    ensures EndsWith(p, ReplyEnd) && Contains(p, PostLabel + postContent + "\"")
    ensures Contains(p, t.styleContract + "\n  " + t.reasonContract)
    ensures Contains(p, NoEmojiRule) && Contains(p, NoEmojiTask)
    ensures options.useKaomoji ==> Contains(p, MustKaomojiRule) && Contains(p, KaomojiTask)
    ensures !options.useKaomoji ==> Contains(p, NoKaomojiRule)
    ensures Truthy(options.strategy) ==> Contains(p, " Strategy: " + options.strategy.value + ".")
    ensures styleId !in StrategyIds ==>
              Contains(p, "- Target Style: " + FallbackStrategy.name + " - " + FallbackStrategy.definition)
    ensures styleId == "dynamic" && Truthy(options.dynamicStyleName) ==>
              Contains(p, options.dynamicStyleName.value + "\" style.")
  {
    FormatReplyPrompt(t, postContent, Persona(tone, options.isSelfPost),
                      ResolveStrategy(styleId, options.dynamicStyleName), options)
  }

  /** `buildReplyPrompt` as the extension calls it, with its own template text. */
  function ReplyPrompt(postContent: string, tone: Option<BrandTone>, styleId: string, options: ReplyOptions): string {
    BuildReplyPrompt(ReplyTexts, postContent, tone, styleId, options)
  }

  // ------------------------------------------------------- the merged prompt

  datatype LengthTier = Short | Medium | Long

  /** The merged prompt's options; a missing length is `None`. */
  datatype MergedOptions = MergedOptions(useKaomoji: bool, length: Option<LengthTier>)

  const DefaultMergedOptions := MergedOptions(false, Some(Short))

  const ShortLength := "1-2 sentences"
  const MediumLength := "2-4 sentences"
  const LongLength := "4-8 sentences"
  const LengthLabel := "5. **Length**: "

  const ShortRule := LengthLabel + ShortLength + " max."
  const MediumRule := LengthLabel + MediumLength + ". Moderate detail."
  const LongRule := LengthLabel + LongLength + ". Detailed and descriptive."

  /** The length rule: medium and long have their own tiers, anything else is one or two sentences. */
  function LengthRule(length: Option<LengthTier>): (r: string)
    ensures Contains(r, ShortLength) <==> length !in {Some(Medium), Some(Long)}
    ensures Contains(r, MediumLength) <==> length == Some(Medium)
    ensures Contains(r, LongLength) <==> length == Some(Long)
  {
    ShortRuleTier();
    MediumRuleTier();
    LongRuleTier();
    if length == Some(Medium) then MediumRule
    else if length == Some(Long) then LongRule
    else ShortRule
  }

  /** The label holds no digit but `5`. */
  lemma LabelDigits()
    ensures '1' !in LengthLabel && '2' !in LengthLabel && '4' !in LengthLabel && '8' !in LengthLabel
  {
  }

  /** Each rule names its own tier and lacks a digit each other tier needs. */
  lemma ShortRuleTier()
    ensures Contains(ShortRule, ShortLength) && !Contains(ShortRule, MediumLength) && !Contains(ShortRule, LongLength)
  {
    ContainsMiddle(LengthLabel, ShortLength, " max.");
    LabelDigits();
    assert '4' !in ShortLength + " max.";
    LacksExcludes(ShortRule, MediumLength, 2);
    LacksExcludes(ShortRule, LongLength, 0);
  }

  lemma MediumRuleTier()
    ensures Contains(MediumRule, MediumLength) && !Contains(MediumRule, ShortLength) && !Contains(MediumRule, LongLength)
  {
    ContainsMiddle(LengthLabel, MediumLength, ". Moderate detail.");
    LabelDigits();
    assert '1' !in MediumLength && '8' !in MediumLength;
    assert '1' !in ". Moderate detail." && '8' !in ". Moderate detail.";
    LacksExcludes(MediumRule, ShortLength, 0);
    LacksExcludes(MediumRule, LongLength, 2);
  }

  lemma LongRuleTier()
    ensures Contains(LongRule, LongLength) && !Contains(LongRule, ShortLength) && !Contains(LongRule, MediumLength)
  {
    ContainsMiddle(LengthLabel, LongLength, ". Detailed and descriptive.");
    LabelDigits();
    assert '1' !in LongLength && '2' !in LongLength;
    assert '1' !in ". Detailed and descriptive." && '2' !in ". Detailed and descriptive.";
    LacksExcludes(LongRule, ShortLength, 0);
    LacksExcludes(LongRule, MediumLength, 0);
  }

  /** The two faces the merged prompt's kaomoji rule lists. */
  const MergedKaomojiFaces := "(´・ω・`), (≧∇≦)/"
  const MergedKaomojiLine := "- **" + MustKaomojiRule + "** (like " + MergedKaomojiFaces + ") naturally."
  const MergedNoKaomojiLine := "- " + NoKaomojiRule + "."

  /**
    The merged prompt's visual rule. Both branches overwrite the initial
    no-emoji line, so it never carries that rule.
   */
  function MergedVisualRule(useKaomoji: bool): (v: string)
    ensures !Contains(v, NoEmojiRule)
    ensures Contains(v, MustKaomojiRule) <==> useKaomoji
    ensures Contains(v, NoKaomojiRule) <==> !useKaomoji
  {
    MergedKaomojiLineRules();
    MergedNoKaomojiLineRules();
    if useKaomoji then MergedKaomojiLine else MergedNoKaomojiLine
  }

  /** The merged kaomoji line has its rule and neither `R` nor `N`. */
  lemma MergedKaomojiLineRules()
    ensures Contains(MergedKaomojiLine, MustKaomojiRule)
    ensures !Contains(MergedKaomojiLine, NoEmojiRule) && !Contains(MergedKaomojiLine, NoKaomojiRule)
  {
    MergedKaomojiLineHasRule();
    MergedKaomojiLineLacks();
    RuleLetters();
    LacksExcludes(MergedKaomojiLine, NoEmojiRule, 2);
    LacksExcludes(MergedKaomojiLine, NoKaomojiRule, 0);
  }

  lemma MergedKaomojiLineHasRule()
    ensures Contains(MergedKaomojiLine, MustKaomojiRule)
  {
    var tail := "** (like " + MergedKaomojiFaces + ") naturally.";
    ContainsMiddle("- **", MustKaomojiRule, tail);
    assert MergedKaomojiLine == "- **" + MustKaomojiRule + tail;
  }

  lemma MergedKaomojiLineLacks()
    ensures 'R' !in MergedKaomojiLine && 'N' !in MergedKaomojiLine
  {
    MustRuleLacks();
    FacesLack();
  }

  /** The merged no-kaomoji line has its rule and neither `R` nor `M`. */
  lemma MergedNoKaomojiLineRules()
    ensures Contains(MergedNoKaomojiLine, NoKaomojiRule)
    ensures !Contains(MergedNoKaomojiLine, NoEmojiRule) && !Contains(MergedNoKaomojiLine, MustKaomojiRule)
  {
    ContainsMiddle("- ", NoKaomojiRule, ".");
    MergedNoKaomojiLineLacks();
    RuleLetters();
    LacksExcludes(MergedNoKaomojiLine, NoEmojiRule, 2);
    LacksExcludes(MergedNoKaomojiLine, MustKaomojiRule, 0);
  }

  lemma MergedNoKaomojiLineLacks()
    ensures 'R' !in MergedNoKaomojiLine && 'M' !in MergedNoKaomojiLine
  {
    assert 'R' !in NoKaomojiRule && 'M' !in NoKaomojiRule;
  }

  const DefaultToneDescription := "Casual, genuine Threads user (脆友)"

  function ToneDescription(tone: Option<BrandTone>): string {
    if tone.Some? then tone.value.name + ": " + tone.value.description else DefaultToneDescription
  }

  const MergedPostLabel := "Post: \""
  const MergedEnd := "\n\nResponse:\n"

  /** The fixed paragraphs of the merged template. */
  datatype MergedTemplate = MergedTemplate(head: string, rules: string, formatDemo: string)

  const MergedTexts := MergedTemplate(MergedHead, MergedRules, FormatDemo)

  /** The mission, the styles list and the persona rule. */
  function MergedIntro(t: MergedTemplate, stylesList: string, tone: Option<BrandTone>): (r: string)
    ensures StartsWith(r, t.head) && Contains(r, stylesList)
    ensures Contains(r, "1. **Persona**: " + ToneDescription(tone))
  {
    var parts := [t.head, stylesList, "\n\n### RULES\n", "1. **Persona**: " + ToneDescription(tone)];
    ConcatStartsWithFirst(parts);
    ConcatContainsPart(parts, 1);
    ConcatContainsPart(parts, 3);
    Concat(parts)
  }

  /** The remaining rules, the visual and length rules, and the format demonstration. */
  function MergedRuleBlock(t: MergedTemplate, options: MergedOptions): (r: string)
    ensures options.useKaomoji ==> Contains(r, MustKaomojiRule)
    ensures !options.useKaomoji ==> Contains(r, NoKaomojiRule)
    ensures options.length == Some(Medium) ==> Contains(r, MediumLength)
    ensures options.length == Some(Long) ==> Contains(r, LongLength)
    ensures options.length !in {Some(Medium), Some(Long)} ==> Contains(r, ShortLength)
  {
    var parts := [t.rules, MergedVisualRule(options.useKaomoji), "\n", LengthRule(options.length), t.formatDemo];
    MergedRuleBlockContents(parts, t, options);
    Concat(parts)
  }

  lemma MergedRuleBlockContents(parts: seq<string>, t: MergedTemplate, options: MergedOptions)
    requires parts == [t.rules, MergedVisualRule(options.useKaomoji), "\n", LengthRule(options.length), t.formatDemo]
    ensures var r := Concat(parts);
            && (options.useKaomoji ==> Contains(r, MustKaomojiRule))
            && (!options.useKaomoji ==> Contains(r, NoKaomojiRule))
            && (options.length == Some(Medium) ==> Contains(r, MediumLength))
            && (options.length == Some(Long) ==> Contains(r, LongLength))
            && (options.length !in {Some(Medium), Some(Long)} ==> Contains(r, ShortLength))
  {
    if options.useKaomoji {
      PartsContain(parts, 1, MustKaomojiRule);
    } else {
      PartsContain(parts, 1, NoKaomojiRule);
    }
    if options.length == Some(Medium) {
      PartsContain(parts, 3, MediumLength);
    } else if options.length == Some(Long) {
      PartsContain(parts, 3, LongLength);
    } else {
      PartsContain(parts, 3, ShortLength);
    }
  }

  /**
    The merged template filled in: it embeds the styles list and the post
    verbatim, the persona line, the length tier chosen and the kaomoji rule
    chosen, and ends with the response cue.
   */
  function FormatMergedPrompt(t: MergedTemplate, postContent: string, stylesList: string, tone: Option<BrandTone>, options: MergedOptions): (p: string)
    ensures StartsWith(p, t.head) && EndsWith(p, MergedEnd)
    ensures Contains(p, stylesList) && Contains(p, MergedPostLabel + postContent + "\"")
    ensures Contains(p, "1. **Persona**: " + ToneDescription(tone))
    ensures options.useKaomoji ==> Contains(p, MustKaomojiRule)
    ensures !options.useKaomoji ==> Contains(p, NoKaomojiRule)
    ensures options.length == Some(Medium) ==> Contains(p, MediumLength)
    ensures options.length == Some(Long) ==> Contains(p, LongLength)
    ensures options.length !in {Some(Medium), Some(Long)} ==> Contains(p, ShortLength)
  {
    var parts := [MergedIntro(t, stylesList, tone), MergedRuleBlock(t, options),
                  MergedPostLabel + postContent + "\"", MergedEnd];
    FormatMergedContents(parts, t, postContent, stylesList, tone, options);
    Concat(parts)
  }

  lemma FormatMergedContents(parts: seq<string>, t: MergedTemplate, postContent: string, stylesList: string,
                             tone: Option<BrandTone>, options: MergedOptions)
    requires parts == [MergedIntro(t, stylesList, tone), MergedRuleBlock(t, options),
                       MergedPostLabel + postContent + "\"", MergedEnd]
    ensures var p := Concat(parts);
            && StartsWith(p, t.head) && EndsWith(p, MergedEnd)
            && Contains(p, stylesList) && Contains(p, MergedPostLabel + postContent + "\"")
            && Contains(p, "1. **Persona**: " + ToneDescription(tone))
            && (options.useKaomoji ==> Contains(p, MustKaomojiRule))
            && (!options.useKaomoji ==> Contains(p, NoKaomojiRule))
            && (options.length == Some(Medium) ==> Contains(p, MediumLength))
            && (options.length == Some(Long) ==> Contains(p, LongLength))
            && (options.length !in {Some(Medium), Some(Long)} ==> Contains(p, ShortLength))
  {
    ConcatStartsWithFirst(parts);
    StartsWithTrans(Concat(parts), parts[0], t.head);
    ConcatEndsWithLast(parts);
    PartsContain(parts, 0, stylesList);
    PartsContain(parts, 0, "1. **Persona**: " + ToneDescription(tone));
    ConcatContainsPart(parts, 2);
    if options.useKaomoji {
      PartsContain(parts, 1, MustKaomojiRule);
    } else {
      PartsContain(parts, 1, NoKaomojiRule);
    }
    if options.length == Some(Medium) {
      PartsContain(parts, 1, MediumLength);
    } else if options.length == Some(Long) {
      PartsContain(parts, 1, LongLength);
    } else {
      PartsContain(parts, 1, ShortLength);
    }
  }

  /** `buildMergedPrompt`: the merged template with the tone's description. */
  function BuildMergedPrompt(postContent: string, stylesList: string, tone: Option<BrandTone>, options: MergedOptions): (p: string)
    ensures EndsWith(p, MergedEnd)
    ensures Contains(p, stylesList) && Contains(p, MergedPostLabel + postContent + "\"")
    ensures tone.None? ==> Contains(p, "1. **Persona**: " + DefaultToneDescription)
    ensures tone.Some? ==> Contains(p, "1. **Persona**: " + tone.value.name + ": " + tone.value.description)
    ensures options.useKaomoji ==> Contains(p, MustKaomojiRule)
    ensures !options.useKaomoji ==> Contains(p, NoKaomojiRule)
    ensures options.length == Some(Medium) ==> Contains(p, MediumLength)
    ensures options.length == Some(Long) ==> Contains(p, LongLength)
    ensures options.length !in {Some(Medium), Some(Long)} ==> Contains(p, ShortLength)
  {
    PersonaLine(tone);
    FormatMergedPrompt(MergedTexts, postContent, stylesList, tone, options)
  }

  /** The persona line names the tone and its description, or the default description. */
  lemma PersonaLine(tone: Option<BrandTone>)
    ensures tone.None? ==> "1. **Persona**: " + ToneDescription(tone) == "1. **Persona**: " + DefaultToneDescription
    ensures tone.Some? ==> "1. **Persona**: " + ToneDescription(tone)
                           == "1. **Persona**: " + tone.value.name + ": " + tone.value.description
  {
  }
}
