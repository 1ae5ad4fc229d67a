/** Language detection and translation (`services/translation.py`): an
    OpenAI tier that falls back to a script heuristic, and the rules that
    decide the source and target language and whether anything changed. */
module Translation {
  import opened Wrappers
  import opened Text
  import opened Configuration
  import opened Completions

  datatype Detection = Detection(language: string, confidence: real)

  datatype TranslationResult = TranslationResult(
    translatedText: string,
    sourceLanguage: string,
    targetLanguage: string,
    confidence: real,
    needsTranslation: bool)

  /** A character of the Unicode Arabic block, U+0600 to U+06FF. */
  predicate IsArabic(c: char) {
    '\U{0600}' <= c <= '\U{06FF}'
  }

  predicate HasArabic(s: string) {
    exists i | 0 <= i < |s| :: IsArabic(s[i])
  }

  /** The script heuristic: Arabic as soon as one Arabic character occurs. */
  function HeuristicDetect(text: string): (d: Detection)
    ensures text == [] ==> d == Detection("en", 0.0)
    ensures text != [] ==> (d.language == "ar" <==> HasArabic(text))
    ensures text != [] ==> d.language in {"ar", "en"}
    ensures d.confidence == (if text == [] then 0.0 else if HasArabic(text) then 0.9 else 0.6)
  {
    if text == [] then Detection("en", 0.0)
    else if HasArabic(text) then Detection("ar", 0.9)
    else Detection("en", 0.6)
  }

  /** One Arabic character anywhere decides the heuristic, so it survives
      any text added on either side. */
  lemma ArabicSticks(a: string, b: string)
    requires HasArabic(a)
    ensures HeuristicDetect(a + b).language == "ar" && HeuristicDetect(b + a).language == "ar"
  {
    var i :| 0 <= i < |a| && IsArabic(a[i]);
    assert (a + b)[i] == a[i];
    assert (b + a)[|b| + i] == a[i];
  }

  /** The detection model's JSON reply once read: the `language` and
      `confidence` fields, each absent or present. A reply that is not JSON,
      not an object, or whose confidence is a value `float()` rejects reads
      as `None`. */
  datatype DetectPayload = DetectPayload(language: Option<string>, confidence: Option<real>)

  /** The translation call: it raised, returned no choice, or returned a
      choice with or without content. */
  datatype TranslateReply = TranslateFailed | NoChoices | Choice(content: Option<string>)

  /** The OpenAI client as the service uses it. */
  datatype OpenAi = OpenAi(
    detect: seq<ChatMessage> -> Completion,
    readPayload: string -> Option<DetectPayload>,
    translate: seq<ChatMessage> -> TranslateReply)

  const DetectPrompt: string :=
    "You are a language detection expert. Reply with a JSON object\n"
    + "containing `language` (ISO code) and `confidence` (0-1)."

  const TranslatePrompt: string :=
    "You are a professional translator. Preserve meaning and tone."
    + " Respond with the translated text only."

  function DetectMessages(text: string): seq<ChatMessage> {
    [ChatMessage("system", DetectPrompt), ChatMessage("user", text)]
  }

  /** `detect_language(text)`: the model's answer when it gives a readable
      one, the heuristic otherwise; fields the model leaves out default to
      English and 0.5. */
  function DetectLanguage(text: Option<string>, settings: Settings, ai: OpenAi): (d: Detection)
    ensures !Truthy(text) ==> d == Detection("en", 0.0)
    ensures Truthy(text) && settings.openAiKey == "" ==> d == HeuristicDetect(text.value)
    ensures Truthy(text) && settings.openAiKey != "" ==>
              match ai.detect(DetectMessages(text.value))
              case CallFailed => d == HeuristicDetect(text.value)
              case Completed(content) =>
                if !Truthy(content) || ai.readPayload(content.value).None? then d == HeuristicDetect(text.value)
                else
                  var payload := ai.readPayload(content.value).value;
                  d == Detection(payload.language.GetOr("en"), payload.confidence.GetOr(0.5))
  {
    if !Truthy(text) then Detection("en", 0.0)
    else if settings.openAiKey == "" then HeuristicDetect(text.value)
    else
      match ai.detect(DetectMessages(text.value))
      case CallFailed => HeuristicDetect(text.value)
      case Completed(content) =>
        if !Truthy(content) then HeuristicDetect(text.value)
        else
          match ai.readPayload(content.value)
          case None => HeuristicDetect(text.value)
          case Some(payload) => Detection(payload.language.GetOr("en"), payload.confidence.GetOr(0.5))
  }

  /** The model only ever overrides the heuristic: when it does not answer
      usably the detection is exactly the heuristic's. */
  lemma DetectFallsBack(text: string, settings: Settings, ai: OpenAi)
    requires text != []
    requires settings.openAiKey == "" || ai.detect(DetectMessages(text)) == CallFailed
             || ai.detect(DetectMessages(text)) == Completed(None)
    ensures DetectLanguage(Some(text), settings, ai) == HeuristicDetect(text)
  {
  }

  function TranslateMessages(text: string, target: string, source: string): seq<ChatMessage> {
    [ ChatMessage("system", TranslatePrompt),
      ChatMessage("user", "Source language: " + source + "\nTarget language: " + target + "\nText: " + text)]
  }

  /** `_translate_via_openai` with its caller's fallback: a failed call or an
      empty answer leaves the text as it was; an answer is stripped. Without
      any choice the text itself is stripped. */
  function TranslateVia(text: string, target: string, source: string, ai: OpenAi): (r: string)
    ensures r != text ==>
              match ai.translate(TranslateMessages(text, target, source))
              case TranslateFailed => false
              case NoChoices => r == Strip(text)
              case Choice(content) => Truthy(content) && r == Strip(content.value)
    ensures ai.translate(TranslateMessages(text, target, source)) == TranslateFailed ==> r == text
    ensures ai.translate(TranslateMessages(text, target, source)) == NoChoices ==> r == Strip(text)
    ensures ai.translate(TranslateMessages(text, target, source)).Choice? ==>
              var content := ai.translate(TranslateMessages(text, target, source)).content;
              && (Truthy(content) ==> r == Strip(content.value))
              && (!Truthy(content) ==> r == text)
  {
    match ai.translate(TranslateMessages(text, target, source))
    case TranslateFailed => text
    case NoChoices => if text != [] then Strip(text) else text
    case Choice(content) => if Truthy(content) then Strip(content.value) else text
  }

  /** The source language: the caller's, else the detected one, else English. */
  function ResolveSource(source: Option<string>, detection: Detection): (r: string)
    ensures r != []
    ensures Truthy(source) ==> r == source.value
    ensures !Truthy(source) && detection.language != [] ==> r == detection.language
    ensures !Truthy(source) && detection.language == [] ==> r == "en"
  {
    if Truthy(source) then source.value
    else if detection.language != [] then detection.language
    else "en"
  }

  /** The target language: the caller's, unless it is empty or "auto". */
  function ResolveTarget(target: string, detection: Detection): (r: string)
    ensures target !in {"", "auto"} ==> r == target
    ensures target in {"", "auto"} ==> r == detection.language
  {
    if target in {"", "auto"} then detection.language else target
  }

  /** `translate_text(text, target, source)`. */
  function TranslateText(text: string, target: string, source: Option<string>, settings: Settings, ai: OpenAi)
    : (r: TranslationResult)
    ensures var detection := DetectLanguage(Some(text), settings, ai);
            && r.confidence == detection.confidence
            && r.sourceLanguage == ResolveSource(source, detection)
            && r.targetLanguage == ResolveTarget(target, detection)
    ensures r.sourceLanguage != []
    ensures r.needsTranslation <==> Strip(r.translatedText) != Strip(text)
    ensures r.sourceLanguage == r.targetLanguage || settings.openAiKey == "" ==>
              r.translatedText == text && !r.needsTranslation
    ensures r.translatedText != text ==>
              && r.sourceLanguage != r.targetLanguage && settings.openAiKey != ""
              && r.translatedText == TranslateVia(text, r.targetLanguage, r.sourceLanguage, ai)
    ensures settings.openAiKey != "" && r.sourceLanguage != r.targetLanguage ==>
              r.translatedText == TranslateVia(text, r.targetLanguage, r.sourceLanguage, ai)
  {
    var detection := DetectLanguage(Some(text), settings, ai);
    var src := ResolveSource(source, detection);
    var tgt := ResolveTarget(target, detection);
    if src == tgt || settings.openAiKey == "" then
      TranslationResult(text, src, tgt, detection.confidence, false)
    else
      var translated := TranslateVia(text, tgt, src, ai);
      TranslationResult(translated, src, tgt, detection.confidence, Strip(translated) != Strip(text))
  }

  /** Without an OpenAI key nothing is sent anywhere: detection is the
      heuristic and the text comes back as it was. */
  lemma NoKeyIgnoresModel(text: string, target: string, source: Option<string>, settings: Settings, a: OpenAi, b: OpenAi)
    requires settings.openAiKey == ""
    ensures TranslateText(text, target, source, settings, a) == TranslateText(text, target, source, settings, b)
    ensures TranslateText(text, target, source, settings, a).translatedText == text
  {
  }

  /** With a key, a given source and a real target that differs from it, the
      model's non-empty answer becomes the translation, stripped, and it is
      flagged exactly when it differs from the text beyond surrounding
      whitespace. */
  lemma TranslationUsesAnswer(text: string, target: string, source: string, settings: Settings, ai: OpenAi, answer: string)
    requires settings.openAiKey != "" && source != [] && target !in {"", "auto"} && source != target
    requires ai.translate(TranslateMessages(text, target, source)) == Choice(Some(answer)) && answer != []
    ensures var r := TranslateText(text, target, Some(source), settings, ai);
            && r.translatedText == Strip(answer)
            && r.sourceLanguage == source && r.targetLanguage == target
            && (r.needsTranslation <==> Strip(answer) != Strip(text))
  {
    var r := TranslateText(text, target, Some(source), settings, ai);
    assert Truthy(Some(source));
    assert r.sourceLanguage == source && r.targetLanguage == target;
    var t := TranslateVia(text, target, source, ai);
    assert t == Strip(answer);
    assert r.translatedText == t;
    StripIdempotent(answer);
  }

  function DebugSuffix(userLanguage: string, target: string, needsTranslation: bool): string {
    "\n\n[debug] user_language=" + userLanguage + " target=" + target
    + " needs_translation=" + PyBool(needsTranslation)
  }

  /** The language of the user's side: the preferred one when given (with
      full confidence), otherwise detected from the query. */
  function UserDetection(userQuery: string, preferred: Option<string>, settings: Settings, ai: OpenAi): (d: Detection)
    ensures Truthy(preferred) ==> d == Detection(preferred.value, 1.0)
    ensures !Truthy(preferred) ==> d == DetectLanguage(Some(userQuery), settings, ai)
  {
    if Truthy(preferred) then Detection(preferred.value, 1.0)
    else DetectLanguage(Some(userQuery), settings, ai)
  }

  /** `ensure_language_consistency(user_query, ai_response, preferred)`: the
      response translated into the user's language, with a debug line
      appended when the setting asks for it. */
  function EnsureLanguageConsistency(
    userQuery: string, aiResponse: string, preferred: Option<string>, settings: Settings, ai: OpenAi)
    : (r: TranslationResult)
    ensures var user := UserDetection(userQuery, preferred, settings, ai);
            var t := TranslateText(aiResponse, user.language, None, settings, ai);
            && r.(translatedText := t.translatedText) == t
            && (settings.debugLanguage ==>
                  r.translatedText == t.translatedText + DebugSuffix(user.language, r.targetLanguage, r.needsTranslation))
            && (!settings.debugLanguage ==> r == t)
  {
    var user := UserDetection(userQuery, preferred, settings, ai);
    var t := TranslateText(aiResponse, user.language, None, settings, ai);
    if settings.debugLanguage then
      t.(translatedText := t.translatedText + DebugSuffix(user.language, t.targetLanguage, t.needsTranslation))
    else t
  }

  /** A preferred language replaces detection of the query: the query's
      text then has no influence on the outcome. */
  lemma PreferredIgnoresQuery(q1: string, q2: string, aiResponse: string, preferred: Option<string>, settings: Settings, ai: OpenAi)
    requires Truthy(preferred)
    ensures EnsureLanguageConsistency(q1, aiResponse, preferred, settings, ai)
         == EnsureLanguageConsistency(q2, aiResponse, preferred, settings, ai)
  {
  }

  /** The response is aimed at the user's language whenever that language is
      a real code (not empty, not "auto"). */
  lemma ConsistencyTargetsUser(userQuery: string, aiResponse: string, preferred: Option<string>, settings: Settings, ai: OpenAi)
    requires UserDetection(userQuery, preferred, settings, ai).language !in {"", "auto"}
    ensures EnsureLanguageConsistency(userQuery, aiResponse, preferred, settings, ai).targetLanguage
         == UserDetection(userQuery, preferred, settings, ai).language
  {
  }

  /** Without the debug setting the response changes only through
      translation: untranslated, it is returned word for word. */
  lemma ConsistencyKeepsUntranslated(userQuery: string, aiResponse: string, preferred: Option<string>, settings: Settings, ai: OpenAi)
    requires !settings.debugLanguage
    ensures var r := EnsureLanguageConsistency(userQuery, aiResponse, preferred, settings, ai);
            !r.needsTranslation ==> Strip(r.translatedText) == Strip(aiResponse)
  {
  }
}
