/**
 * The rule-based response composer of the backend
 * (backend/src/services/aiService.ts): keyword analysis of the message
 * (intent, emotion, constraints), the three knowledge steps with the
 * optional search correction, the quick-reply actions and the feedback
 * question per mode, and the fallback response used when composing fails.
 * The response id and the clock are parameters, and so is whether the search
 * or the composition throws.
 */
module AiService {
  import opened Wrappers
  import opened Text
  import opened Conversation
  import WebSearch

  /** A group of keywords and the label reported when one of them occurs. */
  datatype KeywordGroup = KeywordGroup(keywords: seq<string>, labelText: string)

  /** Some keyword of `g` occurs in the (already lowered) message `s`. */
  predicate GroupMatches(g: KeywordGroup, s: string) {
    MentionsAny(s, g.keywords)
  }

  /** The label of the first group that matches `s`, else `fallback`: an `if … else if … else` chain. */
  function FirstMatch(groups: seq<KeywordGroup>, fallback: string, s: string): string
    decreases |groups|
  {
    if groups == [] then fallback
    else if GroupMatches(groups[0], s) then groups[0].labelText
    else FirstMatch(groups[1..], fallback, s)
  }

  /** The chain answers with the first matching group, whatever the later groups say. */
  lemma {:induction false} FirstMatchIsFirst(groups: seq<KeywordGroup>, fallback: string, s: string, k: nat)
    requires k < |groups| && GroupMatches(groups[k], s)
    requires forall j :: 0 <= j < k ==> !GroupMatches(groups[j], s)
    ensures FirstMatch(groups, fallback, s) == groups[k].labelText
    decreases k
  {
    if k > 0 {
      assert !GroupMatches(groups[0], s);
      FirstMatchIsFirst(groups[1..], fallback, s, k - 1);
    }
  }

  /** When no group matches, the chain gives the default. */
  lemma {:induction false} FirstMatchNone(groups: seq<KeywordGroup>, fallback: string, s: string)
    requires forall j :: 0 <= j < |groups| ==> !GroupMatches(groups[j], s)
    ensures FirstMatch(groups, fallback, s) == fallback
    decreases |groups|
  {
    if groups != [] {
      FirstMatchNone(groups[1..], fallback, s);
    }
  }

  /** The positions, in increasing order, of the groups that match `s`. */
  function MatchingIndices(groups: seq<KeywordGroup>, s: string): (idx: seq<nat>)
    ensures |idx| <= |groups|
    ensures forall i :: 0 <= i < |idx| ==> idx[i] < |groups|
    ensures forall i, j :: 0 <= i < j < |idx| ==> idx[i] < idx[j]
    ensures forall k :: 0 <= k < |groups| ==> (k in idx <==> GroupMatches(groups[k], s))
    decreases |groups|
  {
    if groups == [] then []
    else
      var init := MatchingIndices(groups[..|groups| - 1], s);
      assert forall k :: 0 <= k < |groups| - 1 ==> groups[..|groups| - 1][k] == groups[k];
      init + (if GroupMatches(groups[|groups| - 1], s) then [|groups| - 1] else [])
  }

  /** The labels of the matching groups, in group order: one `if (…) push(label)` per group. */
  function MatchingLabels(groups: seq<KeywordGroup>, s: string): seq<string>
    decreases |groups|
  {
    if groups == [] then []
    else
      MatchingLabels(groups[..|groups| - 1], s)
        + (if GroupMatches(groups[|groups| - 1], s) then [groups[|groups| - 1].labelText] else [])
  }

  /** One more group adds its label exactly when it matches. */
  lemma MatchingLabelsSnoc(groups: seq<KeywordGroup>, s: string, k: int)
    requires 0 <= k < |groups|
    ensures MatchingLabels(groups[..k + 1], s)
         == MatchingLabels(groups[..k], s) + (if GroupMatches(groups[k], s) then [groups[k].labelText] else [])
  {
    assert groups[..k + 1][..k] == groups[..k];
  }

  /** The labels are those of the matching groups, one per matching position, in order. */
  lemma {:induction false} MatchingLabelsIndices(groups: seq<KeywordGroup>, s: string)
    ensures |MatchingLabels(groups, s)| == |MatchingIndices(groups, s)|
    ensures forall i :: 0 <= i < |MatchingLabels(groups, s)| ==>
              MatchingLabels(groups, s)[i] == groups[MatchingIndices(groups, s)[i]].labelText
    decreases |groups|
  {
    if groups != [] {
      var init := groups[..|groups| - 1];
      MatchingLabelsIndices(init, s);
      var idx, r := MatchingIndices(groups, s), MatchingLabels(groups, s);
      var idx0, r0 := MatchingIndices(init, s), MatchingLabels(init, s);
      assert r == r0 + (if GroupMatches(groups[|groups| - 1], s) then [groups[|groups| - 1].labelText] else []);
      assert idx == idx0 + (if GroupMatches(groups[|groups| - 1], s) then [|groups| - 1] else []);
      forall i | 0 <= i < |r| ensures r[i] == groups[idx[i]].labelText {
        if i < |r0| {
          assert r[i] == r0[i] && idx[i] == idx0[i];
          assert init[idx0[i]] == groups[idx0[i]];
        }
      }
    }
  }

  /** No two groups share a label. */
  predicate DistinctLabels(groups: seq<KeywordGroup>) {
    forall i, j :: 0 <= i < j < |groups| ==> groups[i].labelText != groups[j].labelText
  }

  /**
   * With distinct labels, a label is reported iff its group matches, and no
   * label is reported twice.
   */
  lemma MatchingLabelsMembers(groups: seq<KeywordGroup>, s: string)
    requires DistinctLabels(groups)
    ensures forall k :: 0 <= k < |groups| ==> (groups[k].labelText in MatchingLabels(groups, s) <==> GroupMatches(groups[k], s))
    ensures forall i, j :: 0 <= i < j < |MatchingLabels(groups, s)| ==> MatchingLabels(groups, s)[i] != MatchingLabels(groups, s)[j]
  {
    var idx, r := MatchingIndices(groups, s), MatchingLabels(groups, s);
    MatchingLabelsIndices(groups, s);
    forall k | 0 <= k < |groups|
      ensures groups[k].labelText in r <==> GroupMatches(groups[k], s)
    {
      if GroupMatches(groups[k], s) {
        var i :| 0 <= i < |idx| && idx[i] == k;
        assert r[i] == groups[k].labelText;
      }
      if groups[k].labelText in r {
        var i :| 0 <= i < |r| && r[i] == groups[k].labelText;
        assert groups[idx[i]].labelText == groups[k].labelText;
        assert idx[i] == k;
      }
    }
  }

  // ---- intent, emotion, constraints --------------------------------------

  /** What `extractIntent` answers when no group matches. */
  const DefaultIntent: string := "情報提供・サポートを求めている"

  /** The intent groups of `extractIntent`, in priority order. */
  function IntentGroups(): seq<KeywordGroup> {
    [ KeywordGroup(["相談", "アドバイス"], "アドバイス・相談を求めている"),
      KeywordGroup(["アイデア", "企画"], "アイデア創出・企画立案を希望している"),
      KeywordGroup(["問題", "課題"], "問題解決・課題解決を求めている"),
      KeywordGroup(["学習", "勉強"], "学習・知識獲得を目的としている") ]
  }

  /** `extractIntent(message)`. */
  function ExtractIntent(message: string): string {
    FirstMatch(IntentGroups(), DefaultIntent, Lower(message))
  }

  /** What `detectEmotion` answers when no group matches. */
  const DefaultEmotion: string := "冷静・客観的な姿勢を保っている"

  /** The emotion groups of `detectEmotion`, in priority order. */
  function EmotionGroups(): seq<KeywordGroup> {
    [ KeywordGroup(["困", "悩", "わからない"], "困惑・不安を感じている"),
      KeywordGroup(["楽しい", "わくわく", "期待"], "前向き・期待感を持っている"),
      KeywordGroup(["急", "早く", "すぐ"], "焦り・緊急性を感じている") ]
  }

  /** `detectEmotion(message)`. */
  function DetectEmotion(message: string): string {
    FirstMatch(EmotionGroups(), DefaultEmotion, Lower(message))
  }

  /** 'アイデアの相談' asks for advice: the advice group comes first. */
  lemma IntentPriorityExample()
    ensures ExtractIntent("アイデアの相談") == IntentGroups()[0].labelText
  {
    assert Lower("アイデアの相談") == "アイデアの相談";
    assert Contains("アイデアの相談", IntentGroups()[0].keywords[0]);
    FirstMatchIsFirst(IntentGroups(), DefaultIntent, "アイデアの相談", 0);
  }

  /** A message with no keyword of any group has the default intent and emotion. */
  lemma NoKeywordDefaults(message: string)
    requires forall j :: 0 <= j < |IntentGroups()| ==> !GroupMatches(IntentGroups()[j], Lower(message))
    requires forall j :: 0 <= j < |EmotionGroups()| ==> !GroupMatches(EmotionGroups()[j], Lower(message))
    ensures ExtractIntent(message) == DefaultIntent
    ensures DetectEmotion(message) == DefaultEmotion
  {
    FirstMatchNone(IntentGroups(), DefaultIntent, Lower(message));
    FirstMatchNone(EmotionGroups(), DefaultEmotion, Lower(message));
  }

  /** The constraint groups of `identifyConstraints`, in push order. */
  function ConstraintGroups(): seq<KeywordGroup> {
    [ KeywordGroup(["時間", "期限"], "時間的制約がある"),
      KeywordGroup(["予算", "コスト", "お金"], "予算的制約がある"),
      KeywordGroup(["経験", "初心者"], "経験・スキル面での制約がある"),
      KeywordGroup(["リソース", "人手"], "リソース面での制約がある") ]
  }

  /** `identifyConstraints(message)`: one conditional push per constraint group. */
  method IdentifyConstraints(message: string) returns (constraints: seq<string>)
    ensures constraints == MatchingLabels(ConstraintGroups(), Lower(message))
  {
    var groups := ConstraintGroups();
    var lowerMessage := Lower(message);
    constraints := [];
    assert groups[..0] == [];
    MatchingLabelsSnoc(groups, lowerMessage, 0);
    if MentionsAny(lowerMessage, groups[0].keywords) {
      constraints := constraints + [groups[0].labelText];
    }
    assert constraints == MatchingLabels(groups[..1], lowerMessage);
    MatchingLabelsSnoc(groups, lowerMessage, 1);
    if MentionsAny(lowerMessage, groups[1].keywords) {
      constraints := constraints + [groups[1].labelText];
    }
    assert constraints == MatchingLabels(groups[..2], lowerMessage);
    MatchingLabelsSnoc(groups, lowerMessage, 2);
    if MentionsAny(lowerMessage, groups[2].keywords) {
      constraints := constraints + [groups[2].labelText];
    }
    assert constraints == MatchingLabels(groups[..3], lowerMessage);
    MatchingLabelsSnoc(groups, lowerMessage, 3);
    if MentionsAny(lowerMessage, groups[3].keywords) {
      constraints := constraints + [groups[3].labelText];
    }
    assert constraints == MatchingLabels(groups[..4], lowerMessage);
    assert groups[..4] == groups;
  }

  /**
   * The constraints are at most four, in the fixed group order, each at most
   * once, and a constraint is listed iff one of its keywords occurs.
   */
  lemma ConstraintsSpec(message: string)
    ensures |MatchingLabels(ConstraintGroups(), Lower(message))| <= 4
    ensures forall k :: 0 <= k < 4 ==>
              (ConstraintGroups()[k].labelText in MatchingLabels(ConstraintGroups(), Lower(message))
               <==> MentionsAny(Lower(message), ConstraintGroups()[k].keywords))
    ensures forall i, j :: 0 <= i < j < |MatchingIndices(ConstraintGroups(), Lower(message))| ==>
              MatchingIndices(ConstraintGroups(), Lower(message))[i] < MatchingIndices(ConstraintGroups(), Lower(message))[j]
    ensures var labels, idx := MatchingLabels(ConstraintGroups(), Lower(message)), MatchingIndices(ConstraintGroups(), Lower(message));
            |labels| == |idx| && forall i :: 0 <= i < |labels| ==> labels[i] == ConstraintGroups()[idx[i]].labelText
    ensures forall i, j :: 0 <= i < j < |MatchingLabels(ConstraintGroups(), Lower(message))| ==>
              MatchingLabels(ConstraintGroups(), Lower(message))[i] != MatchingLabels(ConstraintGroups(), Lower(message))[j]
  {
    MatchingLabelsIndices(ConstraintGroups(), Lower(message));
    MatchingLabelsMembers(ConstraintGroups(), Lower(message));
  }

  /** `analyzeUserInput(message)`. */
  method AnalyzeUserInput(message: string) returns (r: ActiveListening)
    ensures r == ActiveListening(ExtractIntent(message), DetectEmotion(message),
                                 MatchingLabels(ConstraintGroups(), Lower(message)))
  {
    var constraints := IdentifyConstraints(message);
    r := ActiveListening(ExtractIntent(message), DetectEmotion(message), constraints);
  }

  // ---- knowledge steps ----------------------------------------------------

  // The template texts of the three modes, split around the message.
  const GuideStepAHead: string := "ご相談の件について、まず基本的な考え方をお伝えします。\n        \n"
  const GuideStepATail: string := "に関しては、一般的に以下の要素を考慮することが重要です：\n1. 目標の明確化（何を達成したいか）\n2. 現状分析（現在の状況や課題）\n3. リソース確認（利用可能な時間・予算・人材）\n4. 実行計画（具体的なステップと期限）\n\nこれらの要素を整理することで、より効果的なアプローチが見えてくると考えられます。"
  const SocratesStepAHead: string := "ご質問をいただいた件について、まず一緒に考えてみましょう。\n\n"
  const SocratesStepATail: string := "について、以下の点を考えてみていただけますか？\n\n1. この課題に取り組む真の目的は何でしょうか？\n2. これまでにどのような取り組みをされてきましたか？\n3. 理想的な結果が得られたとして、それはどのような状態でしょうか？\n\nこれらの質問への答えを整理することで、より深い洞察が得られるはずです。"
  const HardStepAHead: string := ""
  const HardStepATail: string := "について、厳しい質問をさせていただきます。\n\n・これは本当に解決すべき課題ですか？優先順位は正しいですか？\n・お客様は本当にお金を払ってでもこの解決を求めているでしょうか？\n・競合他社ではなく、あなたが取り組む必然性は何ですか？\n・リソースを投入するだけの明確なROIは見込めますか？\n\n厳しい質問ですが、これらに明確に答えられなければ、成功は困難かもしれません。"
  /** How every closing starts. */
  const ClosingOpen: string := "\n\n【"
  const GuideClosing: string := ClosingOpen + "最終提案】\n次のステップとして以下をお勧めします：\n1. 目標と現状の明確化\n2. 具体的な行動計画の策定\n3. 小さな実験から始める\n4. 定期的な振り返りと改善\n\n安心してください。一歩ずつ確実に進めていけば、必ず良い結果が得られます。"
  const SocratesClosing: string := ClosingOpen + "導き】\nこれらの要素を踏まえて、次に考えるべき重要な質問は：\n「この課題解決によって、最も恩恵を受けるのは誰で、その人にとってどのような価値を生み出すのか？」\n\nこの質問への答えが明確になれば、進むべき方向性が見えてくるはずです。"
  const HardClosing: string := ClosingOpen + "現実直視】\n甘い考えは捨てて、現実を見つめましょう：\n・市場は本当にこれを求めているのか？\n・あなたに実行力はあるのか？\n・失敗したときのリスクは許容できるのか？\n\nこれらに「Yes」と断言できないなら、計画を見直すべきです。成功は甘いものではありません。"

  /** `generateStepAResponse(message, mode)`: the mode's template around the message. */
  function StepA(message: string, mode: Mode): string {
    match mode
    case Guide => GuideStepAHead + message + GuideStepATail
    case Socrates => SocratesStepAHead + message + SocratesStepATail
    case Hard => HardStepAHead + message + HardStepATail
  }

  /** The mode's closing advice appended by `generateStepCResponse`. */
  function Closing(mode: Mode): string {
    match mode
    case Guide => GuideClosing
    case Socrates => SocratesClosing
    case Hard => HardClosing
  }

  /** The heading of the search-correction block. */
  const CorrectionHeading: string := "\n\n最新情報を踏まえた補正：\n"

  /** Step A, followed by the correction block when step B is non-empty. */
  function Corrected(stepA: string, stepB: Option<string>): string {
    if Truthy(stepB) then stepA + (CorrectionHeading + stepB.value) else stepA
  }

  /** What `generateStepCResponse` returns. */
  function StepCText(mode: Mode, stepA: string, stepB: Option<string>): string {
    Corrected(stepA, stepB) + Closing(mode)
  }

  /** `generateStepCResponse(message, mode, stepA, stepB)`: built with `+=`. */
  method GenerateStepCResponse(mode: Mode, stepA: string, stepB: Option<string>) returns (finalResponse: string)
    ensures finalResponse == StepCText(mode, stepA, stepB)
  {
    finalResponse := stepA;
    if stepB.Some? && stepB.value != "" {
      finalResponse := finalResponse + (CorrectionHeading + stepB.value);
    }
    match mode {
      case Guide => finalResponse := finalResponse + GuideClosing;
      case Socrates => finalResponse := finalResponse + SocratesClosing;
      case Hard => finalResponse := finalResponse + HardClosing;
    }
  }

  /** Every closing starts differently from the correction heading. */
  lemma ClosingIsNotCorrection(mode: Mode)
    ensures |Closing(mode)| >= |CorrectionHeading|
    ensures Closing(mode)[..|CorrectionHeading|] != CorrectionHeading
  {
    var rest := match mode
      case Guide => GuideClosing[|ClosingOpen|..]
      case Socrates => SocratesClosing[|ClosingOpen|..]
      case Hard => HardClosing[|ClosingOpen|..];
    assert Closing(mode) == ClosingOpen + rest;
    assert |rest| >= |CorrectionHeading|;
    assert Closing(mode)[2] == ClosingOpen[2];
    assert Closing(mode)[..|CorrectionHeading|][2] != CorrectionHeading[2];
  }

  /** The parts of `a + (h + b) + z` sit where they were put. */
  lemma ThreeParts(a: string, h: string, b: string, z: string)
    ensures var c := a + (h + b) + z;
            && c[..|a|] == a && c[|a|..|a| + |h|] == h
            && c[|a| + |h|..|a| + |h| + |b|] == b && c[|c| - |z|..] == z
  {
    var c := a + (h + b) + z;
    assert c == a + (h + (b + z));
    assert c[|a|..] == h + (b + z);
    assert c[|a| + |h|..] == b + z;
  }

  /** The parts of `a + z` sit where they were put. */
  lemma TwoParts(a: string, z: string, n: nat)
    requires n <= |z|
    ensures var c := a + z;
            c[..|a|] == a && c[|a|..|a| + n] == z[..n] && c[|c| - |z|..] == z
  {
    assert (a + z)[|a|..] == z;
  }

  /** The shape of step C for any closing that does not start like the correction heading. */
  lemma StepCShapeFor(stepA: string, stepB: Option<string>, closing: string)
    requires |closing| >= |CorrectionHeading| && closing[..|CorrectionHeading|] != CorrectionHeading
    ensures var c := Corrected(stepA, stepB) + closing;
            |stepA| <= |c| && c[..|stepA|] == stepA
    ensures var c := Corrected(stepA, stepB) + closing;
            Truthy(stepB) <==> c[|stepA|..|stepA| + |CorrectionHeading|] == CorrectionHeading
    ensures Truthy(stepB) ==>
              var c := Corrected(stepA, stepB) + closing;
              c[|stepA| + |CorrectionHeading|..|stepA| + |CorrectionHeading| + |stepB.value|] == stepB.value
    ensures var c := Corrected(stepA, stepB) + closing;
            c[|c| - |closing|..] == closing
  {
    if Truthy(stepB) {
      ThreeParts(stepA, CorrectionHeading, stepB.value, closing);
    } else {
      TwoParts(stepA, closing, |CorrectionHeading|);
    }
  }

  /**
   * Step C begins with step A; right after step A comes the correction
   * heading, followed by step B, iff step B is non-empty; the mode's closing
   * ends the text.
   */
  lemma StepCShape(mode: Mode, stepA: string, stepB: Option<string>)
    ensures var c := StepCText(mode, stepA, stepB);
            |stepA| <= |c| && c[..|stepA|] == stepA
    ensures var c := StepCText(mode, stepA, stepB);
            Truthy(stepB) <==> c[|stepA|..|stepA| + |CorrectionHeading|] == CorrectionHeading
    ensures Truthy(stepB) ==>
              var c := StepCText(mode, stepA, stepB);
              c[|stepA| + |CorrectionHeading|..|stepA| + |CorrectionHeading| + |stepB.value|] == stepB.value
    ensures var c := StepCText(mode, stepA, stepB);
            c[|c| - |Closing(mode)|..] == Closing(mode)
  {
    ClosingIsNotCorrection(mode);
    StepCShapeFor(stepA, stepB, Closing(mode));
  }

  /**
   * `processKnowledgeSteps(message, mode)` with the search at clock `now`
   * (which throws when `searchFailed`) and the locale date rendering.
   */
  method ProcessKnowledgeSteps(message: string, mode: Mode, now: int, searchFailed: bool, localeDate: int -> string)
    returns (steps: KnowledgeSteps)
    ensures steps == KnowledgeStepsFor(message, mode, now, searchFailed, localeDate)
  {
    var stepA := StepA(message, mode);
    var stepB: Option<string> := None;
    if WebSearch.ShouldPerformSearch(message) {
      var searchResponse := WebSearch.Search(message, now, searchFailed);
      stepB := Some(WebSearch.SummarizeResults(searchResponse, localeDate));
    }
    var stepC := GenerateStepCResponse(mode, stepA, stepB);
    steps := KnowledgeSteps(stepA, stepB, stepC);
  }

  /** The three knowledge steps for `message` in `mode`. */
  function KnowledgeStepsFor(message: string, mode: Mode, now: int, searchFailed: bool, localeDate: int -> string): KnowledgeSteps {
    var stepA := StepA(message, mode);
    var stepB := if WebSearch.ShouldPerformSearch(message)
                 then Some(WebSearch.SummarizeResults(WebSearch.Search(message, now, searchFailed), localeDate))
                 else None;
    KnowledgeSteps(stepA, stepB, StepCText(mode, stepA, stepB))
  }

  /** A summary is never empty, so the search correction shows exactly when a search was made. */
  lemma SummaryIsNonEmpty(response: WebSearch.WebSearchResponse, localeDate: int -> string)
    ensures WebSearch.SummarizeResults(response, localeDate) != ""
  {
    if response.results != [] {
      WebSearch.SummaryStartsWithHeader(response, localeDate);
    }
  }

  /**
   * Step B is present iff the message asks for fresh information, and then
   * step C carries the correction block right after step A.
   */
  lemma StepBIffSearch(message: string, mode: Mode, now: int, searchFailed: bool, localeDate: int -> string)
    ensures KnowledgeStepsFor(message, mode, now, searchFailed, localeDate).stepB.Some? <==> WebSearch.ShouldPerformSearch(message)
    ensures var steps := KnowledgeStepsFor(message, mode, now, searchFailed, localeDate);
            Truthy(steps.stepB) <==> WebSearch.ShouldPerformSearch(message)
  {
    if WebSearch.ShouldPerformSearch(message) {
      SummaryIsNonEmpty(WebSearch.Search(message, now, searchFailed), localeDate);
    }
  }

  // ---- actions and feedback ----------------------------------------------

  /** The three actions every response offers after the mode-specific one. */
  function BaseActions(): seq<NextAction> {
    [ NextAction("deep_dive", "深掘り", "この方向性をさらに詳しく探る"),
      NextAction("mode_change", "モード変更", "他のモードで再検討する"),
      NextAction("new_topic", "新しいトピック", "別の話題について相談する") ]
  }

  /** The mode-specific first action. */
  function ModeAction(mode: Mode): NextAction {
    match mode
    case Guide => NextAction("practical_steps", "具体的ステップ", "より具体的な実行計画を作成する")
    case Socrates => NextAction("more_questions", "さらに質問", "より深い質問で思考を促進する")
    case Hard => NextAction("reality_check", "現実チェック", "さらに厳しい現実分析を行う")
  }

  /** What `generateNextActions(mode)` returns. */
  function NextActionsFor(mode: Mode): seq<NextAction> {
    [ModeAction(mode)] + BaseActions()
  }

  /** `generateNextActions(mode)`: the base list with the mode's action put in front (`unshift`). */
  method GenerateNextActions(mode: Mode) returns (actions: seq<NextAction>)
    ensures actions == NextActionsFor(mode)
  {
    actions := BaseActions();
    match mode {
      case Guide => actions := [NextAction("practical_steps", "具体的ステップ", "より具体的な実行計画を作成する")] + actions;
      case Socrates => actions := [NextAction("more_questions", "さらに質問", "より深い質問で思考を促進する")] + actions;
      case Hard => actions := [NextAction("reality_check", "現実チェック", "さらに厳しい現実分析を行う")] + actions;
    }
  }

  /**
   * Exactly four actions: the mode's own first, then deep_dive, mode_change
   * and new_topic; the ids are distinct and the first one tells the mode.
   */
  lemma NextActionsShape(mode: Mode, other: Mode)
    ensures |NextActionsFor(mode)| == 4
    ensures NextActionsFor(mode)[0].id == (match mode case Guide => "practical_steps" case Socrates => "more_questions" case Hard => "reality_check")
    ensures NextActionsFor(mode)[1].id == "deep_dive"
    ensures NextActionsFor(mode)[2].id == "mode_change"
    ensures NextActionsFor(mode)[3].id == "new_topic"
    ensures forall i, j :: 0 <= i < j < 4 ==> NextActionsFor(mode)[i].id != NextActionsFor(mode)[j].id
    ensures NextActionsFor(mode)[0].id == NextActionsFor(other)[0].id ==> mode == other
  {
  }

  /** `generateFeedbackRequest(mode)`. */
  function FeedbackRequest(mode: Mode): string {
    match mode
    case Guide => "この方向で深掘りしますか？それとも別のアプローチをお考えでしょうか？"
    case Socrates => "これらの質問について考えていただけましたか？さらに深く探求しますか？"
    case Hard => "厳しい指摘ですが、どう受け止められますか？現実的な対策を考えますか？"
  }

  /** Each mode has its own feedback question. */
  lemma FeedbackRequestPerMode(a: Mode, b: Mode)
    ensures FeedbackRequest(a) == FeedbackRequest(b) <==> a == b
  {
    assert FeedbackRequest(Guide)[1] == 'の';
    assert FeedbackRequest(Socrates)[1] == 'れ';
    assert FeedbackRequest(Hard)[1] == 'し';
  }

  // ---- whole responses ----------------------------------------------------

  /** `generateErrorResponse(mode)` with response id `id` at clock `now`. */
  function ErrorResponse(mode: Mode, id: string, now: int): (r: AIResponse)
    ensures r.mode == mode && r.id == id && r.timestamp == now
    ensures r.knowledgeSteps.stepB.None?
    ensures |r.nextActions| == 2 && r.nextActions[0].id == "retry" && r.nextActions[1].id == "new_question"
  {
    AIResponse(
      id,
      ActiveListening("技術的な問題が発生しました", "システムエラー", ["一時的なサービス障害"]),
      KnowledgeSteps("申し訳ありません。一時的な技術的問題が発生しました。", None,
                     "しばらく時間をおいて再度お試しいただくか、別の表現で質問し直してください。"),
      "再度お試しいただけますでしょうか？",
      [ NextAction("retry", "再試行", "同じ質問を再度送信する"),
        NextAction("new_question", "別の質問", "異なる表現で質問し直す") ],
      mode,
      now)
  }

  /** The response `generateResponse` composes when nothing throws. */
  function ComposedResponse(message: string, mode: Mode, id: string, now: int, searchFailed: bool, localeDate: int -> string): AIResponse {
    AIResponse(
      id,
      ActiveListening(ExtractIntent(message), DetectEmotion(message), MatchingLabels(ConstraintGroups(), Lower(message))),
      KnowledgeStepsFor(message, mode, now, searchFailed, localeDate),
      FeedbackRequest(mode),
      NextActionsFor(mode),
      mode,
      now)
  }

  /** What `generateResponse` returns: the composed response, or the fallback when composing throws. */
  function ResponseFor(message: string, mode: Mode, id: string, now: int, searchFailed: bool, thrown: bool,
                       localeDate: int -> string): AIResponse {
    if thrown then ErrorResponse(mode, id, now)
    else ComposedResponse(message, mode, id, now, searchFailed, localeDate)
  }

  /**
   * `generateResponse(message, mode, sessionId, messageHistory)` with response
   * id `id` at clock `now`; the session id and the history are not used by the
   * composition.
   */
  method GenerateResponse(message: string, mode: Mode, sessionId: string, messageHistory: seq<string>,
                          id: string, now: int, searchFailed: bool, thrown: bool, localeDate: int -> string)
    returns (response: AIResponse)
    ensures response == ResponseFor(message, mode, id, now, searchFailed, thrown, localeDate)
  {
    if thrown {
      return ErrorResponse(mode, id, now);
    }
    var activeListening := AnalyzeUserInput(message);
    var knowledgeSteps := ProcessKnowledgeSteps(message, mode, now, searchFailed, localeDate);
    var nextActions := GenerateNextActions(mode);
    var feedbackRequest := FeedbackRequest(mode);
    response := AIResponse(id, activeListening, knowledgeSteps, feedbackRequest, nextActions, mode, now);
  }

  /**
   * Every response keeps the requested mode; a composed one offers four
   * actions and asks the mode's feedback question, the fallback offers retry
   * and new_question and has no search step.
   */
  lemma ResponseKeepsMode(message: string, mode: Mode, id: string, now: int, searchFailed: bool, thrown: bool,
                          localeDate: int -> string)
    ensures ResponseFor(message, mode, id, now, searchFailed, thrown, localeDate).mode == mode
    ensures !thrown ==> |ResponseFor(message, mode, id, now, searchFailed, thrown, localeDate).nextActions| == 4
    ensures !thrown ==> ResponseFor(message, mode, id, now, searchFailed, thrown, localeDate).feedbackRequest == FeedbackRequest(mode)
    ensures thrown ==> ResponseFor(message, mode, id, now, searchFailed, thrown, localeDate).knowledgeSteps.stepB.None?
  {
  }
}
