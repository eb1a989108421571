/**
 * The keyword-based mode detector of the Express backend
 * (backend/src/utils/modeDetector.ts). Confidence is counted in tenths:
 * 8 stands for 0.8 and 10 for 1.0. The phrase table lives in a constants
 * module of the source that is not part of this model, so it is a parameter;
 * its order is the order in which the nested loops visit the phrases.
 */
module ModeDetector {
  import opened Wrappers
  import opened Text
  import opened Conversation

  /** Entries `(mode, phrases)` in the iteration order of `Object.entries`. */
  type PhraseTable = seq<(Mode, seq<string>)>

  /** `ModeDetectionResult`, with `confidence` in tenths. */
  datatype ModeDetectionResult = ModeDetectionResult(detectedMode: Mode, confidence: nat, triggerPhrase: Option<string>)

  /**
   * `calculateConfidence(phrase, message)` on an already lower-cased message:
   * base 0.8; +0.2 when the first occurrence is at index 0, otherwise +0.1
   * when it is at an index of at most 10; +0.1 for a phrase longer than five;
   * capped at 1.0. The index and the length count UTF-16 code units, as
   * JavaScript strings do.
   */
  function CalculateConfidence(phrase: string, message: string): (c: nat)
    ensures 8 <= c <= 10
    ensures IndexOf(message, Lower(phrase)) == 0 ==> c == 10
  {
    var phraseIndex := Utf16IndexOf(message, Lower(phrase));
    var confidence := 8
      + (if phraseIndex == 0 then 2 else if phraseIndex <= 10 then 1 else 0)
      + (if Utf16Length(phrase) > 5 then 1 else 0);
    if confidence < 10 then confidence else 10
  }

  /**
   * Past index 0 the score depends on the code-unit index of the occurrence
   * (up to 10 or beyond) and on whether the phrase is longer than five code
   * units.
   */
  lemma ConfidenceByPosition(phrase: string, message: string)
    ensures 0 < Utf16IndexOf(message, Lower(phrase)) <= 10 ==>
              CalculateConfidence(phrase, message) == if Utf16Length(phrase) > 5 then 10 else 9
    ensures Utf16IndexOf(message, Lower(phrase)) > 10 ==>
              CalculateConfidence(phrase, message) == if Utf16Length(phrase) > 5 then 9 else 8
  {
  }

  /**
   * Characters above U+FFFF before the phrase count twice: six emoji push a
   * two-letter phrase to code unit 12, past the +0.1 window, although it is
   * the seventh character.
   */
  lemma AstralCharactersCountTwice()
    ensures IndexOf("😀😀😀😀😀😀ab", "ab") == 6
    ensures CalculateConfidence("ab", "😀😀😀😀😀😀ab") == 8
  {
    var s := "😀😀😀😀😀😀ab";
    assert OccursAt(s, "ab", 6) by { assert s[6..8] == "ab"; }
    forall j | 0 <= j < 6 ensures !OccursAt(s, "ab", j) {
      assert s[j] == '😀';
    }
    assert Lower("ab") == "ab";
    assert forall k :: 0 <= k < 6 ==> s[..6][k] as int > 0xFFFF;
    Utf16LengthAstral(s[..6]);
  }

  /** Without characters above U+FFFF the UTF-16 count is the character count. */
  lemma BmpConfidence(phrase: string, message: string)
    requires forall i :: 0 <= i < |message| ==> message[i] as int <= 0xFFFF
    requires forall i :: 0 <= i < |phrase| ==> phrase[i] as int <= 0xFFFF
    ensures var i := IndexOf(message, Lower(phrase));
            CalculateConfidence(phrase, message)
            == var bonus := (if i == 0 then 2 else if i <= 10 then 1 else 0) + (if |phrase| > 5 then 1 else 0);
               if 8 + bonus < 10 then 8 + bonus else 10
  {
    var i := IndexOf(message, Lower(phrase));
    if i >= 0 {
      assert forall k :: 0 <= k < i ==> message[..i][k] == message[k];
      Utf16LengthBmp(message[..i]);
    }
    Utf16LengthBmp(phrase);
  }

  /** The `(mode, phrase)` pairs of one table entry. */
  function PairsOf(mode: Mode, phrases: seq<string>): seq<(Mode, string)> {
    seq(|phrases|, k requires 0 <= k < |phrases| => (mode, phrases[k]))
  }

  /** Every `(mode, phrase)` pair of the table, in the order the nested loops visit them. */
  function Candidates(table: PhraseTable): seq<(Mode, string)>
    decreases |table|
  {
    if table == [] then []
    else Candidates(table[..|table| - 1]) + PairsOf(table[|table| - 1].0, table[|table| - 1].1)
  }

  /** Every candidate comes from some entry of the table, with that entry's mode. */
  lemma {:induction false} CandidateOrigin(table: PhraseTable, k: int)
    requires 0 <= k < |Candidates(table)|
    ensures exists i :: 0 <= i < |table| && Candidates(table)[k].0 == table[i].0 && Candidates(table)[k].1 in table[i].1
    decreases |table|
  {
    var init := table[..|table| - 1];
    var last := table[|table| - 1];
    if k < |Candidates(init)| {
      CandidateOrigin(init, k);
      var i :| 0 <= i < |init| && Candidates(init)[k].0 == init[i].0 && Candidates(init)[k].1 in init[i].1;
      assert table[i] == init[i];
    } else {
      var j := k - |Candidates(init)|;
      assert Candidates(table)[k] == (last.0, last.1[j]);
    }
  }

  /** Every phrase of every entry is a candidate. */
  lemma {:induction false} EntryIsCandidate(table: PhraseTable, i: int, j: int)
    requires 0 <= i < |table| && 0 <= j < |table[i].1|
    ensures exists k :: 0 <= k < |Candidates(table)| && Candidates(table)[k] == (table[i].0, table[i].1[j])
    decreases |table|
  {
    var init := table[..|table| - 1];
    if i < |table| - 1 {
      assert table[i] == init[i];
      EntryIsCandidate(init, i, j);
      var k :| 0 <= k < |Candidates(init)| && Candidates(init)[k] == (init[i].0, init[i].1[j]);
      assert Candidates(table)[k] == Candidates(init)[k];
    } else {
      var k := |Candidates(init)| + j;
      assert Candidates(table)[k] == (table[i].0, table[i].1[j]);
    }
  }

  /** The loop state: `maxConfidence`, `detectedMode`, `triggerPhrase`. */
  datatype Best = Best(confidence: nat, mode: Mode, trigger: Option<string>)

  /** The loop state before any phrase has been looked at. */
  function Initial(): Best {
    Best(0, Guide, None)
  }

  /** The candidate occurs in the (lower-cased) message. */
  predicate Hit(message: string, c: (Mode, string)) {
    Contains(message, Lower(c.1))
  }

  function Score(message: string, c: (Mode, string)): nat {
    CalculateConfidence(c.1, message)
  }

  /** One inner-loop step: a matching phrase replaces the best only with strictly greater confidence. */
  function Consider(b: Best, c: (Mode, string), message: string): Best {
    if Hit(message, c) && Score(message, c) > b.confidence
    then Best(Score(message, c), c.0, Some(c.1))
    else b
  }

  /** The loop state after visiting the candidates `cs` in order. */
  function Scan(cs: seq<(Mode, string)>, message: string): Best
    decreases |cs|
  {
    if cs == [] then Initial()
    else Consider(Scan(cs[..|cs| - 1], message), cs[|cs| - 1], message)
  }

  /** `detectMode` on a lower-cased message: no match is reported as `guide` with confidence 1.0. */
  function Detect(table: PhraseTable, message: string): ModeDetectionResult {
    var b := Scan(Candidates(table), message);
    ModeDetectionResult(b.mode, if b.confidence == 0 then 10 else b.confidence, b.trigger)
  }

  /**
   * Candidate `k` is the winner: it matches, no matching candidate scores
   * higher, and every matching candidate before it scores strictly lower.
   */
  predicate IsFirstBest(cs: seq<(Mode, string)>, message: string, k: int) {
    && 0 <= k < |cs|
    && Hit(message, cs[k])
    && (forall j :: 0 <= j < |cs| && Hit(message, cs[j]) ==> Score(message, cs[j]) <= Score(message, cs[k]))
    && (forall j :: 0 <= j < k && Hit(message, cs[j]) ==> Score(message, cs[j]) < Score(message, cs[k]))
  }

  /** A first best candidate stays first best, or is displaced by a strictly better last candidate. */
  lemma FirstBestExtend(cs: seq<(Mode, string)>, message: string, k: int)
    requires cs != [] && IsFirstBest(cs[..|cs| - 1], message, k)
    ensures var last := cs[|cs| - 1];
            if Hit(message, last) && Score(message, last) > Score(message, cs[k])
            then IsFirstBest(cs, message, |cs| - 1)
            else IsFirstBest(cs, message, k)
  {
    var n := |cs| - 1;
    var init := cs[..n];
    var last := cs[n];
    assert forall j :: 0 <= j < n ==> cs[j] == init[j];
    var best := Score(message, cs[k]);
    if Hit(message, last) && Score(message, last) > best {
      forall j | 0 <= j < |cs| && Hit(message, cs[j]) ensures Score(message, cs[j]) <= Score(message, last) {
        if j < n {
          assert Hit(message, init[j]);
        }
      }
      forall j | 0 <= j < n && Hit(message, cs[j]) ensures Score(message, cs[j]) < Score(message, last) {
        assert Hit(message, init[j]);
      }
    } else {
      forall j | 0 <= j < |cs| && Hit(message, cs[j]) ensures Score(message, cs[j]) <= best {
        if j < n {
          assert Hit(message, init[j]);
        }
      }
      forall j | 0 <= j < k && Hit(message, cs[j]) ensures Score(message, cs[j]) < best {
        assert Hit(message, init[j]);
      }
    }
  }

  /** When only the last candidate matches, it is the first best. */
  lemma FirstBestOnlyLast(cs: seq<(Mode, string)>, message: string)
    requires cs != [] && Hit(message, cs[|cs| - 1])
    requires forall j :: 0 <= j < |cs| - 1 ==> !Hit(message, cs[j])
    ensures IsFirstBest(cs, message, |cs| - 1)
  {
  }

  /** Visiting one more candidate is one more `Consider` step. */
  lemma ScanSnoc(cs: seq<(Mode, string)>, c: (Mode, string), message: string)
    ensures Scan(cs + [c], message) == Consider(Scan(cs, message), c, message)
  {
    assert (cs + [c])[..|cs|] == cs;
  }

  /** The pairs of one more phrase end with that phrase. */
  lemma PairsOfSnoc(mode: Mode, phrases: seq<string>, j: int)
    requires 0 <= j < |phrases|
    ensures PairsOf(mode, phrases[..j + 1]) == PairsOf(mode, phrases[..j]) + [(mode, phrases[j])]
  {
  }

  /** One more table entry adds its pairs after the earlier candidates. */
  lemma CandidatesStep(table: PhraseTable, i: int)
    requires 0 <= i < |table|
    ensures Candidates(table[..i + 1]) == Candidates(table[..i]) + PairsOf(table[i].0, table[i].1)
  {
    assert table[..i + 1][..i] == table[..i];
  }

  /** What the loops compute: nothing when nothing matches, otherwise the first best candidate. */
  lemma {:induction false} ScanFindsFirstBest(cs: seq<(Mode, string)>, message: string)
    ensures (forall j :: 0 <= j < |cs| ==> !Hit(message, cs[j])) ==> Scan(cs, message) == Initial()
    ensures (exists j :: 0 <= j < |cs| && Hit(message, cs[j])) ==>
              exists k :: IsFirstBest(cs, message, k) && Scan(cs, message) == Best(Score(message, cs[k]), cs[k].0, Some(cs[k].1))
    decreases |cs|
  {
    if cs != [] {
      var init := cs[..|cs| - 1];
      var last := cs[|cs| - 1];
      var n := |cs| - 1;
      ScanFindsFirstBest(init, message);
      assert forall j :: 0 <= j < n ==> cs[j] == init[j];
      if exists j :: 0 <= j < n && Hit(message, init[j]) {
        var k :| IsFirstBest(init, message, k) && Scan(init, message) == Best(Score(message, init[k]), init[k].0, Some(init[k].1));
        FirstBestExtend(cs, message, k);
      } else if Hit(message, last) {
        FirstBestOnlyLast(cs, message);
      }
    }
  }

  /**
   * `detectMode(message)`: the nested loops over the table, keeping the
   * strictly greatest confidence, then the 1.0 default when nothing matched.
   */
  method DetectMode(table: PhraseTable, message: string) returns (r: ModeDetectionResult)
    ensures r == Detect(table, Lower(message))
  {
    var lowerMessage := Lower(message);
    var maxConfidence: nat := 0;
    var detectedMode := Guide;
    var triggerPhrase: Option<string> := None;
    var i := 0;
    while i < |table|
      invariant 0 <= i <= |table|
      invariant Best(maxConfidence, detectedMode, triggerPhrase) == Scan(Candidates(table[..i]), lowerMessage)
    {
      var mode := table[i].0;
      var phrases := table[i].1;
      ghost var done := Candidates(table[..i]);
      assert PairsOf(mode, phrases[..0]) == [];
      assert done + PairsOf(mode, phrases[..0]) == done;
      var j := 0;
      while j < |phrases|
        invariant 0 <= j <= |phrases|
        invariant Best(maxConfidence, detectedMode, triggerPhrase) == Scan(done + PairsOf(mode, phrases[..j]), lowerMessage)
      {
        var phrase := phrases[j];
        PairsOfSnoc(mode, phrases, j);
        ScanSnoc(done + PairsOf(mode, phrases[..j]), (mode, phrase), lowerMessage);
        assert done + PairsOf(mode, phrases[..j + 1]) == (done + PairsOf(mode, phrases[..j])) + [(mode, phrase)];
        if Contains(lowerMessage, Lower(phrase)) {
          var confidence := CalculateConfidence(phrase, lowerMessage);
          if confidence > maxConfidence {
            maxConfidence := confidence;
            detectedMode := mode;
            triggerPhrase := Some(phrase);
          }
        }
        j := j + 1;
      }
      CandidatesStep(table, i);
      assert phrases[..|phrases|] == phrases;
      i := i + 1;
    }
    assert table[..|table|] == table;
    if maxConfidence == 0 {
      maxConfidence := 10;
    }
    r := ModeDetectionResult(detectedMode, maxConfidence, triggerPhrase);
  }

  /** No phrase of the table occurs in the message: `guide`, confidence 1.0, no trigger. */
  lemma DetectWithoutMatch(table: PhraseTable, message: string)
    requires forall i, j :: 0 <= i < |table| && 0 <= j < |table[i].1| ==> !Contains(message, Lower(table[i].1[j]))
    ensures Detect(table, message) == ModeDetectionResult(Guide, 10, None)
  {
    var cs := Candidates(table);
    forall k | 0 <= k < |cs| ensures !Hit(message, cs[k]) {
      CandidateOrigin(table, k);
    }
    ScanFindsFirstBest(cs, message);
  }

  /** Whatever the message, the confidence is 0.8, 0.9 or 1.0. */
  lemma DetectConfidenceRange(table: PhraseTable, message: string)
    ensures 8 <= Detect(table, message).confidence <= 10
  {
    ScanFindsFirstBest(Candidates(table), message);
  }

  /**
   * A reported trigger phrase belongs to the reported mode's phrase list,
   * occurs in the message, and its score is the reported confidence.
   */
  lemma DetectTriggerIsSound(table: PhraseTable, message: string)
    ensures var r := Detect(table, message);
      r.triggerPhrase.Some? ==>
        && Contains(message, Lower(r.triggerPhrase.value))
        && r.confidence == CalculateConfidence(r.triggerPhrase.value, message)
        && exists i :: 0 <= i < |table| && table[i].0 == r.detectedMode && r.triggerPhrase.value in table[i].1
  {
    var cs := Candidates(table);
    ScanFindsFirstBest(cs, message);
    if exists j :: 0 <= j < |cs| && Hit(message, cs[j]) {
      var k :| IsFirstBest(cs, message, k) && Scan(cs, message) == Best(Score(message, cs[k]), cs[k].0, Some(cs[k].1));
      CandidateOrigin(table, k);
    }
  }

  /** A trigger is reported exactly when some phrase of the table occurs in the message. */
  lemma DetectTriggerIffMatch(table: PhraseTable, message: string)
    ensures Detect(table, message).triggerPhrase.Some? <==>
              exists i, j :: 0 <= i < |table| && 0 <= j < |table[i].1| && Contains(message, Lower(table[i].1[j]))
  {
    var cs := Candidates(table);
    ScanFindsFirstBest(cs, message);
    if exists i, j :: 0 <= i < |table| && 0 <= j < |table[i].1| && Contains(message, Lower(table[i].1[j])) {
      var i, j :| 0 <= i < |table| && 0 <= j < |table[i].1| && Contains(message, Lower(table[i].1[j]));
      EntryIsCandidate(table, i, j);
    } else {
      forall k | 0 <= k < |cs| ensures !Hit(message, cs[k]) {
        CandidateOrigin(table, k);
      }
    }
  }

  /** No phrase of the table that occurs in the message scores above the reported confidence. */
  lemma DetectIsMaximal(table: PhraseTable, message: string, i: int, j: int)
    requires 0 <= i < |table| && 0 <= j < |table[i].1|
    requires Contains(message, Lower(table[i].1[j]))
    ensures CalculateConfidence(table[i].1[j], message) <= Detect(table, message).confidence
  {
    var cs := Candidates(table);
    EntryIsCandidate(table, i, j);
    ScanFindsFirstBest(cs, message);
  }

  /**
   * Ties go to the first phrase in table order: the reported trigger is the
   * earliest candidate that reaches the reported confidence.
   */
  lemma DetectTieGoesToFirst(table: PhraseTable, message: string)
    ensures Detect(table, message).triggerPhrase.Some? ==>
              exists k :: && IsFirstBest(Candidates(table), message, k)
                          && Candidates(table)[k].0 == Detect(table, message).detectedMode
                          && Candidates(table)[k].1 == Detect(table, message).triggerPhrase.value
                          && Score(message, Candidates(table)[k]) == Detect(table, message).confidence
  {
    var cs := Candidates(table);
    var b := Scan(cs, message);
    ScanFindsFirstBest(cs, message);
    if exists j :: 0 <= j < |cs| && Hit(message, cs[j]) {
      var k :| IsFirstBest(cs, message, k) && b == Best(Score(message, cs[k]), cs[k].0, Some(cs[k].1));
      assert Detect(table, message) == ModeDetectionResult(cs[k].0, Score(message, cs[k]), Some(cs[k].1));
    }
  }

  /** A phrase at the very start of the message gives confidence 1.0. */
  lemma PhraseAtStartGivesFullConfidence(table: PhraseTable, message: string, i: int, j: int)
    requires 0 <= i < |table| && 0 <= j < |table[i].1|
    requires IndexOf(message, Lower(table[i].1[j])) == 0
    ensures Detect(table, message).confidence == 10
  {
    DetectIsMaximal(table, message, i, j);
    DetectConfidenceRange(table, message);
  }

  /** The six phrases of `isModeSwitchRequest`. */
  function SwitchPhrases(): seq<string> {
    ["モード変更", "モードを変更", "モードを切り替え", "モード切替", "切り替えて", "変更して"]
  }

  /** The six phrases of `isHelpRequest`. */
  function HelpPhrases(): seq<string> {
    ["助けて", "help", "ヘルプ", "サポート", "困っている", "わからない"]
  }

  /** `isModeSwitchRequest(message)`. */
  predicate IsModeSwitchRequest(message: string) {
    ContainsSome(Lower(message), SwitchPhrases())
  }

  /** `isHelpRequest(message)`. */
  predicate IsHelpRequest(message: string) {
    ContainsSome(Lower(message), HelpPhrases())
  }

  /** The phrase lists are already lower case, so the test is a plain substring test on the lowered message. */
  lemma HelpRequestIff(message: string)
    ensures IsHelpRequest(message) <==> exists k :: 0 <= k < |HelpPhrases()| && Contains(Lower(message), HelpPhrases()[k])
  {
    forall k | 0 <= k < |HelpPhrases()| ensures Lower(HelpPhrases()[k]) == HelpPhrases()[k] {
      LowerWithoutCapitals(HelpPhrases()[k]);
    }
  }

  lemma ModeSwitchRequestIff(message: string)
    ensures IsModeSwitchRequest(message) <==> exists k :: 0 <= k < |SwitchPhrases()| && Contains(Lower(message), SwitchPhrases()[k])
  {
    forall k | 0 <= k < |SwitchPhrases()| ensures Lower(SwitchPhrases()[k]) == SwitchPhrases()[k] {
      LowerWithoutCapitals(SwitchPhrases()[k]);
    }
  }

  /** '助けて' is a help request. */
  lemma HelpRequestExample()
    ensures IsHelpRequest("助けて")
  {
    assert Contains(Lower("助けて"), Lower(HelpPhrases()[0]));
  }

  /** The test ignores case: 'HELP' is a help request. */
  lemma HelpRequestIgnoresCase()
    ensures IsHelpRequest("HELP")
  {
    assert Lower("HELP") == "help" by {
      forall i | 0 <= i < 4 ensures Lower("HELP")[i] == "help"[i] {
      }
    }
    assert Lower(HelpPhrases()[1]) == "help" by {
      LowerWithoutCapitals(HelpPhrases()[1]);
    }
    assert Contains("help", "help");
  }

  /** '今日の天気' is not a help request. */
  lemma NotHelpRequestExample()
    ensures !IsHelpRequest("今日の天気")
  {
    HelpRequestIff("今日の天気");
    LowerWithoutCapitals("今日の天気");
    forall k | 0 <= k < |HelpPhrases()| ensures !Contains("今日の天気", HelpPhrases()[k]) {
      AbsentCharNotContained("今日の天気", HelpPhrases()[k], 0);
    }
  }

  /** 'モードを変更して' is a switch request. */
  lemma ModeSwitchExample()
    ensures IsModeSwitchRequest("モードを変更して")
  {
    ModeSwitchRequestIff("モードを変更して");
    LowerWithoutCapitals("モードを変更して");
    assert "モードを変更して"[0..|SwitchPhrases()[1]|] == SwitchPhrases()[1];
    OccurrenceContained("モードを変更して", SwitchPhrases()[1], 0);
  }

  /** '今日の天気' is not a switch request. */
  lemma NotModeSwitchExample()
    ensures !IsModeSwitchRequest("今日の天気")
  {
    ModeSwitchRequestIff("今日の天気");
    LowerWithoutCapitals("今日の天気");
    forall k | 0 <= k < |SwitchPhrases()| ensures !Contains("今日の天気", SwitchPhrases()[k]) {
      AbsentCharNotContained("今日の天気", SwitchPhrases()[k], 0);
    }
  }
}
