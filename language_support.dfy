/**
 * Script-based language detection and the English pass-through around the
 * translator. The translation service is a parameter returning `None` where
 * the service raises.
 */
module LanguageSupport {
  import opened Optional

  const SupportedLangs: seq<string> := ["en", "hi", "mr", "ta", "te", "bn"]

  /** The language a single character's Unicode block points to, if any. */
  function ScriptLanguage(c: char): Option<string>
  {
    if '\U{0900}' <= c <= '\U{097F}' then Some("hi")        // Devanagari
    else if '\U{0A80}' <= c <= '\U{0AFF}' then Some("gu")   // Gujarati
    else if '\U{0B80}' <= c <= '\U{0BFF}' then Some("ta")   // Tamil
    else if '\U{0C00}' <= c <= '\U{0C7F}' then Some("te")   // Telugu
    else None
  }

  /** The language of the first character that belongs to a known script, else English. */
  function DetectedLanguage(text: string): (code: string)
    ensures code in {"hi", "gu", "ta", "te", "en"}
    ensures code == "en" <==> forall i :: 0 <= i < |text| ==> ScriptLanguage(text[i]).None?
    ensures code != "en" ==>
              exists k :: 0 <= k < |text| && ScriptLanguage(text[k]) == Some(code)
                && forall j :: 0 <= j < k ==> ScriptLanguage(text[j]).None?
  {
    if text == [] then "en"
    else match ScriptLanguage(text[0])
      case Some(code) => code
      case None =>
        var rest := DetectedLanguage(text[1..]);
        assert forall i :: 1 <= i < |text| ==> text[i] == text[1..][i - 1];
        rest
  }

  /** `detect_language(text)`: scan the characters, stopping at the first scripted one. */
  method DetectLanguage(text: string) returns (code: string)
    ensures code == DetectedLanguage(text)
  {
    var i := 0;
    while i < |text|
      invariant 0 <= i <= |text|
      invariant DetectedLanguage(text[i..]) == DetectedLanguage(text)
    {
      var script := ScriptLanguage(text[i]);
      if script.Some? {
        return script.value;
      }
      assert text[i..][1..] == text[i + 1..];
      i := i + 1;
    }
    return "en";
  }

  /** Gujarati is detected, but it is not one of the supported languages. */
  lemma GujaratiDetectedButUnsupported()
    ensures DetectedLanguage("\U{0A97}") == "gu"
    ensures "gu" !in SupportedLangs
  {
  }

  /** Marathi and Bengali are supported, yet detection never reports them. */
  lemma NeverDetectsMarathiOrBengali(text: string)
    ensures DetectedLanguage(text) != "mr" && DetectedLanguage(text) != "bn"
  {
  }

  /** A translation service: source language, target language, text; `None` where it fails. */
  type Translator = (string, string, string) -> Option<string>

  /** `to_english(text, source_lang)` */
  function ToEnglish(text: string, sourceLang: string, translate: Translator): (r: string)
    ensures sourceLang == "en" ==> r == text
    ensures translate(sourceLang, "en", text).None? ==> r == text
    ensures sourceLang != "en" && translate(sourceLang, "en", text).Some? ==> r == translate(sourceLang, "en", text).value
  {
    if sourceLang == "en" then text
    else match translate(sourceLang, "en", text)
      case Some(translated) => translated
      case None => text
  }

  /** `from_english(text, target_lang)` */
  function FromEnglish(text: string, targetLang: string, translate: Translator): (r: string)
    ensures targetLang == "en" ==> r == text
    ensures translate("en", targetLang, text).None? ==> r == text
    ensures targetLang != "en" && translate("en", targetLang, text).Some? ==> r == translate("en", targetLang, text).value
  {
    if targetLang == "en" then text
    else match translate("en", targetLang, text)
      case Some(translated) => translated
      case None => text
  }
}
