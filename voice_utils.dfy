/**
 * The pure helpers of the client's voice utilities
 * (client/src/lib/voice-utils.ts): the recording timer's text, the
 * Japanese-or-English guess for a text, and the speech settings per
 * language.
 */
module VoiceUtils {
  import opened Decimal

  /** `n.toString().padStart(2, '0')`. */
  function TwoDigits(n: nat): string {
    PadStart(NatToString(n), 2, '0')
  }

  /** `formatRecordingTime(seconds)`: whole minutes and the remaining seconds, each at least two digits, joined by ':'. */
  function FormatRecordingTime(seconds: nat): string {
    TwoDigits(seconds / 60) + ":" + TwoDigits(seconds % 60)
  }

  /** Below one hundred, a padded number has exactly two digits. */
  lemma TwoDigitsLength(n: nat)
    requires n < 100
    ensures |TwoDigits(n)| == 2
  {
    NatToStringLength(n);
  }

  /**
   * For recordings shorter than 100 minutes the timer reads "MM:SS": five
   * characters, and reading the two numbers back gives MM * 60 + SS, the
   * seconds, with SS below 60.
   */
  lemma FormatRecordingTimeRoundTrip(seconds: nat)
    requires seconds < 6000
    ensures var t := FormatRecordingTime(seconds);
            && |t| == 5 && t[2] == ':'
            && AllDigits(t[..2]) && AllDigits(t[3..])
            && ParseDigits(t[..2]) * 60 + ParseDigits(t[3..]) == seconds
            && ParseDigits(t[3..]) < 60
  {
    var minutes, rest := seconds / 60, seconds % 60;
    assert minutes * 60 + rest == seconds && rest < 60 && minutes < 100;
    TwoDigitsLength(minutes);
    TwoDigitsLength(rest);
    PaddedNumberParses(minutes, 2);
    PaddedNumberParses(rest, 2);
    ClockParts(TwoDigits(minutes), TwoDigits(rest));
  }

  /** The parts of a "MM:SS" text are where they were put. */
  lemma ClockParts(mm: string, ss: string)
    requires |mm| == 2 && |ss| == 2
    ensures var t := mm + ":" + ss; |t| == 5 && t[2] == ':' && t[..2] == mm && t[3..] == ss
  {
  }

  /** From 100 minutes on, the minutes take three digits or more; the seconds always take two. */
  lemma FormatRecordingTimeWidth(seconds: nat)
    ensures |FormatRecordingTime(seconds)| >= 5
    ensures seconds >= 6000 ==> |FormatRecordingTime(seconds)| >= 6
  {
    TwoDigitsLength(seconds % 60);
    NatToStringLength(seconds / 60);
    if seconds >= 6000 {
      NatToStringLength(seconds / 60);
      HundredHasThreeDigits(seconds / 60);
    }
  }

  /** Numbers from one hundred on print with at least three digits. */
  lemma HundredHasThreeDigits(n: nat)
    requires n >= 100
    ensures |NatToString(n)| >= 3
  {
    NatToStringLength(n / 10);
  }

  /** The character classes of the Japanese test: hiragana, katakana and the common CJK ideographs. */
  predicate IsJapaneseChar(c: char) {
    || ('぀' <= c <= 'ゟ')
    || ('゠' <= c <= 'ヿ')
    || ('一' <= c <= '龯')
  }

  /** `detectLanguage(text)`: 'ja' as soon as one character is Japanese, else 'en'. */
  function DetectLanguage(text: string): (lang: string)
    ensures lang == "ja" || lang == "en"
    decreases |text|
  {
    if text == [] then "en"
    else if IsJapaneseChar(text[0]) then "ja"
    else DetectLanguage(text[1..])
  }

  /** The guess is 'ja' exactly when some character lies in one of the three ranges. */
  lemma {:induction false} DetectLanguageIff(text: string)
    ensures DetectLanguage(text) == "ja" <==> exists i :: 0 <= i < |text| && IsJapaneseChar(text[i])
    decreases |text|
  {
    if text != [] && !IsJapaneseChar(text[0]) {
      DetectLanguageIff(text[1..]);
      assert forall i :: 1 <= i < |text| ==> text[1..][i - 1] == text[i];
      if exists i :: 0 <= i < |text| && IsJapaneseChar(text[i]) {
        var i :| 0 <= i < |text| && IsJapaneseChar(text[i]);
        assert IsJapaneseChar(text[1..][i - 1]);
      }
    }
  }

  /** 'こんにちは' is Japanese; 'hello' is not. */
  lemma DetectLanguageExamples()
    ensures DetectLanguage("こんにちは") == "ja"
    ensures DetectLanguage("hello") == "en"
  {
  }

  /** The speaking speed, 1.0, in tenths. */
  const NormalSpeed: nat := 10

  datatype VoiceSettings = VoiceSettings(voice: string, speed: nat, model: string)

  const JapaneseSettings: VoiceSettings := VoiceSettings("alloy", NormalSpeed, "tts-1")
  const EnglishSettings: VoiceSettings := VoiceSettings("nova", NormalSpeed, "tts-1")

  /** `getOptimalVoiceSettings(language)`: the English settings for 'en', the Japanese ones for anything else. */
  function GetOptimalVoiceSettings(language: string): (s: VoiceSettings)
    ensures s.speed == NormalSpeed && s.model == "tts-1"
    ensures s.voice == "nova" <==> language == "en"
    ensures language != "en" ==> s == JapaneseSettings
  {
    if language == "en" then EnglishSettings else JapaneseSettings
  }

  /** Speech for a text guessed as Japanese uses 'alloy', for one guessed as English 'nova'. */
  lemma VoiceForDetectedLanguage(text: string)
    ensures GetOptimalVoiceSettings(DetectLanguage(text)).voice ==
            if exists i :: 0 <= i < |text| && IsJapaneseChar(text[i]) then "alloy" else "nova"
  {
    DetectLanguageIff(text);
  }
}
