/** The translator page: a simulated phrase table looked up by the trimmed,
    lower-cased input, with a formatted fallback; the guards of the translate
    and save actions; and the speech language chosen from the direction. */
module Translate {
  import opened Text

  datatype Direction = IslToEnglish | EnglishToIsl | IslToHindi | HindiToIsl

  /** The direction's string value, `TranslationDirection`. */
  function DirectionName(d: Direction): string {
    match d
    case IslToEnglish => "isl_to_english"
    case EnglishToIsl => "english_to_isl"
    case IslToHindi => "isl_to_hindi"
    case HindiToIsl => "hindi_to_isl"
  }

  lemma DirectionNameInjective(d: Direction, e: Direction)
    ensures DirectionName(d) == DirectionName(e) ==> d == e
  {
  }

  /** The phrases the table knows. */
  datatype Phrase = HelloPhrase | ThankYouPhrase | HowAreYouPhrase

  /** The phrase table of `simulateTranslation`: key to phrase ... */
  const Translations: map<string, Phrase> :=
    map["hello" := HelloPhrase, "thank you" := ThankYouPhrase, "how are you" := HowAreYouPhrase]

  /** An ISL output: a bracketed description of the gesture. */
  function GestureText(description: string): string {
    "[Gesture: " + description + "]"
  }

  /** ... and phrase to its output in each direction. */
  function Output(p: Phrase, d: Direction): string {
    match p
    case HelloPhrase => (
      match d
      case IslToEnglish => "Hello"
      case EnglishToIsl => GestureText("Wave hand with open palm")
      case IslToHindi => "नमस्ते"
      case HindiToIsl => GestureText("Join palms together and bow slightly"))
    case ThankYouPhrase => (
      match d
      case IslToEnglish => "Thank you"
      case EnglishToIsl => GestureText("Touch chin with fingertips, then move hand forward")
      case IslToHindi => "धन्यवाद"
      case HindiToIsl => GestureText("Touch heart, then extend hands forward"))
    case HowAreYouPhrase => (
      match d
      case IslToEnglish => "How are you?"
      case EnglishToIsl => GestureText("Point to person, then tap chest, then questioning expression")
      case IslToHindi => "आप कैसे हैं?"
      case HindiToIsl => GestureText("Point to person, show questioning face, then thumbs up/down"))
  }

  /** An output that is non-empty and does not start with whitespace. */
  predicate Visible(s: string) {
    s != "" && !IsJsWhitespace(s[0])
  }

  /** The table holds exactly three phrases, each lower-case with no outer whitespace. */
  lemma TableKeys()
    ensures Translations.Keys == {"hello", "thank you", "how are you"}
    ensures forall k :: k in Translations ==> NoOuterWhitespace(k) && ToLower(k) == k
  {
    assert ToLower("hello") == "hello";
    assert ToLower("thank you") == "thank you";
    assert ToLower("how are you") == "how are you";
  }

  lemma GestureTextVisible(description: string)
    ensures Visible(GestureText(description))
  {
    assert GestureText(description)[0] == '[';
  }

  /** Every phrase has an output in every direction, and no output starts with whitespace. */
  lemma TableEntries()
    ensures forall p, d :: Visible(Output(p, d))
  {
    forall p, d ensures Visible(Output(p, d)) {
      match d
      case EnglishToIsl => PhraseGestures(p);
      case HindiToIsl => PhraseGestures(p);
      case IslToEnglish => PhraseWords(p);
      case IslToHindi => PhraseWords(p);
    }
  }

  lemma PhraseGestures(p: Phrase)
    ensures Visible(Output(p, EnglishToIsl)) && Visible(Output(p, HindiToIsl))
  {
    match p
    case HelloPhrase =>
      GestureTextVisible("Wave hand with open palm");
      GestureTextVisible("Join palms together and bow slightly");
    case ThankYouPhrase =>
      GestureTextVisible("Touch chin with fingertips, then move hand forward");
      GestureTextVisible("Touch heart, then extend hands forward");
    case HowAreYouPhrase =>
      GestureTextVisible("Point to person, then tap chest, then questioning expression");
      GestureTextVisible("Point to person, show questioning face, then thumbs up/down");
  }

  lemma PhraseWords(p: Phrase)
    ensures Visible(Output(p, IslToEnglish)) && Visible(Output(p, IslToHindi))
  {
  }

  /** The key looked up: `text.toLowerCase().trim()`. */
  function LookupKey(text: string): (k: string)
    ensures NoOuterWhitespace(k)
    ensures |k| <= |text|
  {
    Trim(ToLower(text))
  }

  /** The text returned when the table has no output for the input. */
  function Fallback(text: string): string {
    "[Translated: " + text + "]"
  }

  /** `simulateTranslation`: the table's entry for the key if it is non-empty, the fallback otherwise. */
  function SimulateTranslation(text: string, dir: Direction): string {
    var key := LookupKey(text);
    if key in Translations && Output(Translations[key], dir) != "" then Output(Translations[key], dir)
    else Fallback(text)
  }

  /** Every table entry is non-empty, so a known key always yields its entry for the
      direction and only an unknown key falls back; the result is never empty. */
  lemma SimulateTranslationCases(text: string, dir: Direction)
    ensures LookupKey(text) in Translations ==> SimulateTranslation(text, dir) == Output(Translations[LookupKey(text)], dir)
    ensures LookupKey(text) !in Translations ==> SimulateTranslation(text, dir) == Fallback(text)
    ensures SimulateTranslation(text, dir) != ""
  {
    var key := LookupKey(text);
    if key in Translations {
      TableEntries();
      assert Visible(Output(Translations[key], dir));
    }
  }

  /** Every translation is visible: known entries by the table, the fallback by its bracket. */
  lemma SimulateTranslationVisible(text: string, dir: Direction)
    ensures Visible(SimulateTranslation(text, dir))
  {
    SimulateTranslationCases(text, dir);
    if LookupKey(text) in Translations {
      TableEntries();
    } else {
      FallbackShape(text);
    }
  }

  /** A known phrase is found whatever its letter case and surrounding whitespace. */
  lemma KnownPhraseAnyCase(before: string, phrase: string, after: string, dir: Direction)
    requires AllWhitespace(before) && AllWhitespace(after)
    requires ToLower(phrase) in Translations
    ensures SimulateTranslation(before + phrase + after, dir) == Output(Translations[ToLower(phrase)], dir)
  {
    TableKeys();
    PaddedKey(before, phrase, after);
    SimulateTranslationCases(before + phrase + after, dir);
  }

  /** The trimmed, lower-cased key of a padded phrase is the phrase's own lower-cased form. */
  lemma {:induction false} PaddedKey(before: string, phrase: string, after: string)
    requires AllWhitespace(before) && AllWhitespace(after) && NoOuterWhitespace(ToLower(phrase))
    ensures LookupKey(before + phrase + after) == ToLower(phrase)
  {
    ToLowerAppend(before + phrase, after);
    ToLowerAppend(before, phrase);
    ToLowerKeepsWhitespace(before);
    ToLowerKeepsWhitespace(after);
    assert ToLower(before + phrase + after) == before + ToLower(phrase) + after;
    TrimPadded(before, ToLower(phrase), after);
  }

  /** An unknown phrase comes back inside the fallback with its padding and case intact. */
  lemma UnknownPaddedPhrase(before: string, phrase: string, after: string, dir: Direction)
    requires AllWhitespace(before) && AllWhitespace(after) && NoOuterWhitespace(ToLower(phrase))
    requires ToLower(phrase) !in Translations
    ensures SimulateTranslation(before + phrase + after, dir) == Fallback(before + phrase + after)
  {
    PaddedKey(before, phrase, after);
    SimulateTranslationCases(before + phrase + after, dir);
  }

  /** The fallback wraps the original, untrimmed and un-lowered, input. */
  lemma FallbackKeepsInput(text: string, dir: Direction)
    requires LookupKey(text) !in Translations
    ensures var r := SimulateTranslation(text, dir);
            |r| == |text| + 14 && r[..13] == "[Translated: " && r[13..|r| - 1] == text && r[|r| - 1] == ']'
  {
    SimulateTranslationCases(text, dir);
    FallbackShape(text);
  }

  lemma FallbackShape(text: string)
    ensures var r := Fallback(text);
            |r| == |text| + 14 && r[..13] == "[Translated: " && r[13..|r| - 1] == text && r[|r| - 1] == ']'
    ensures Visible(Fallback(text))
  {
    var pre := "[Translated: ";
    assert |pre| == 13;
    var r := Fallback(text);
    assert r == pre + (text + "]");
    assert r[..13] == pre;
    assert r[13..] == text + "]";
    assert r[13..|r| - 1] == (text + "]")[..|text|];
  }

  /** The speech language of `speakText` and `startVoiceRecognition`. */
  function SpeechLang(d: Direction): string {
    if Includes(DirectionName(d), "hindi") then "hi-IN" else "en-US"
  }

  /** Speech is Hindi exactly for the two Hindi directions, English otherwise. */
  lemma SpeechLangHindi(d: Direction)
    ensures SpeechLang(d) == "hi-IN" <==> d == IslToHindi || d == HindiToIsl
    ensures SpeechLang(d) == "en-US" <==> d == IslToEnglish || d == EnglishToIsl
  {
    match d
    case IslToHindi =>
      var name := "isl_to_hindi";
      assert name == "isl_to_" + "hindi";
      IncludesSuffix("isl_to_", "hindi");
    case HindiToIsl =>
      var name := "hindi_to_isl";
      assert name == "hindi" + "_to_isl";
      IncludesPrefix("hindi", "_to_isl");
    case IslToEnglish =>
      MissingChar("isl_to_english", "hindi", 'd');
    case EnglishToIsl =>
      MissingChar("english_to_isl", "hindi", 'd');
  }

  /** The result of `saveTranslation`, whose only effect is the remote insert. */
  datatype SaveOutcome = NothingToSave | Saved | SaveFailed

  /** The state of the translator page. */
  class TranslatePage {
    var inputText: string
    var outputText: string
    var direction: Direction
    var isLoading: bool

    constructor ()
      ensures inputText == "" && outputText == "" && direction == IslToEnglish && !isLoading
    {
      inputText := "";
      outputText := "";
      direction := IslToEnglish;
      isLoading := false;
    }

    /** Typing in the input box, or a voice transcript arriving. */
    method SetInput(text: string)
      modifies this`inputText
      ensures inputText == text
    {
      inputText := text;
    }

    method SetDirection(d: Direction)
      modifies this`direction
      ensures direction == d
    {
      direction := d;
    }

    /** `handleTranslate`, with the delay taken as elapsed: blank input changes nothing;
        otherwise the output is the translation and loading ends false. */
    method HandleTranslate()
      modifies this`outputText, this`isLoading
      ensures Trim(old(inputText)) == "" ==> outputText == old(outputText) && isLoading == old(isLoading)
      ensures Trim(old(inputText)) != "" ==> outputText == SimulateTranslation(old(inputText), old(direction)) && !isLoading
    {
      if Trim(inputText) != "" {
        var translated := SimulateTranslation(inputText, direction);
        isLoading := true;
        outputText := translated;
        isLoading := false;
      }
    }

    /** Whether `saveTranslation` passes its guard. */
    predicate CanSave(hasUser: bool)
      reads this
    {
      Trim(inputText) != "" && Trim(outputText) != "" && hasUser
    }

    /** `saveTranslation`: the guard, then the insert's outcome; no page state changes. */
    method SaveTranslation(hasUser: bool, insertOk: bool) returns (outcome: SaveOutcome)
      ensures outcome == NothingToSave <==> Trim(inputText) == "" || Trim(outputText) == "" || !hasUser
      ensures outcome == Saved <==> CanSave(hasUser) && insertOk
      ensures outcome == SaveFailed <==> CanSave(hasUser) && !insertOk
    {
      if Trim(inputText) == "" || Trim(outputText) == "" || !hasUser {
        return NothingToSave;
      }
      if insertOk {
        outcome := Saved;
      } else {
        outcome := SaveFailed;
      }
    }
  }

  /** After a translation with non-blank input there is always something to save
      for a signed-in user. */
  lemma TranslatedOutputSavable(input: string, dir: Direction)
    requires Trim(input) != ""
    ensures Trim(SimulateTranslation(input, dir)) != ""
  {
    SimulateTranslationVisible(input, dir);
    VisibleTrim(SimulateTranslation(input, dir));
  }

  lemma VisibleTrim(s: string)
    requires Visible(s)
    ensures Trim(s) != ""
  {
    assert !AllWhitespace(s) by {
      assert !IsJsWhitespace(s[0]);
    }
    TrimEmptyIffAllWhitespace(s);
  }
}
