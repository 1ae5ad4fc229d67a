/** The travel agent's orchestrator (`agents/langchain_agent.py`): it picks
    the working text, answers small talk directly, classifies the query with
    the previous user turn as context, runs either the place search or the
    web search, and translates the reply into the user's language. */
module Agent {
  import opened Wrappers
  import opened Text
  import opened Seqs
  import opened Configuration
  import opened PlaceModels
  import opened DistanceMatrix
  import IntentExtractor
  import GooglePlaces
  import Tavily
  import Translation

  datatype HistoryMessage = HistoryMessage(role: string, content: string)

  datatype Usage = Usage(promptTokens: nat, completionTokens: nat, totalTokens: nat)

  const ZeroUsage: Usage := Usage(0, 0, 0)

  /** The translation facts reported in the debug payload. */
  datatype TranslationNote = TranslationNote(source: string, target: string, needsTranslation: bool, confidence: real)

  datatype DebugPayload =
    | GreetingDebug
    | PlacesDebug(intent: IntentExtractor.Intent, location: LatLng, resultCount: nat, results: seq<Place>,
                  translation: TranslationNote)
    | SearchDebug(intent: IntentExtractor.Intent, location: LatLng, resultCount: nat, answer: Option<string>,
                  translation: TranslationNote)

  datatype AgentReply = AgentReply(content: string, debug: Option<DebugPayload>, usage: Usage)

  /** Everything outside the orchestrator: configuration, the remote models
      and services, and the float formatters. */
  datatype Backends = Backends(
    settings: Settings,
    groq: IntentExtractor.IntentLlm,
    openAi: Translation.OpenAi,
    fixed: FixedPoint,
    show: FloatText,
    text: GooglePlaces.TextRequest -> GooglePlaces.PlacesReply,
    nearby: GooglePlaces.NearbyRequest -> GooglePlaces.PlacesReply,
    matrix: DistanceRequest -> HttpReply<MatrixPayload>,
    tavily: Tavily.SearchRequest -> Tavily.SearchReply)

  /** Kuwait City, used when the caller gives no location. */
  const DefaultLocation: LatLng := Coord(29.3759, 47.9774)

  const GreetingReply: string :=
    "Hi there! I can recommend places, events, or general travel tips. What are you in the mood for?"

  const NoPlacesMessage: string := "I couldn't find matching places right now."

  const NoInfoMessage: string := "I couldn't find any helpful information yet."

  const PlacesHeader: string := "Here are some places you might like:\n"

  const SearchHeader: string := "Here is what I found:\n"

  // ---------------------------------------------------------------------
  // Working text

  /** The stripped input; when that is empty, the stripped content of the
      last history message (whatever its role); when still empty, "hello". */
  function WorkingText(userInput: string, messages: seq<HistoryMessage>): (t: string)
    ensures t != [] && !IsSpace(t[0]) && !IsSpace(t[|t| - 1])
    ensures !AllSpace(userInput) ==> t == Strip(userInput)
    ensures AllSpace(userInput) && messages != [] && !AllSpace(messages[|messages| - 1].content) ==>
              t == Strip(messages[|messages| - 1].content)
    ensures AllSpace(userInput) && (messages == [] || AllSpace(messages[|messages| - 1].content)) ==> t == "hello"
  {
    var own := Strip(userInput);
    if own != [] then own
    else if messages != [] && Strip(messages[|messages| - 1].content) != [] then Strip(messages[|messages| - 1].content)
    else assert "hello"[0] == 'h' && "hello"[4] == 'o'; "hello"
  }

  // ---------------------------------------------------------------------
  // Small talk: `re.match(r"^(w1|w2|...)\b", text, re.IGNORECASE)`

  const GreetingWords: seq<string> := [
    "hi", "hello", "hey", "yo", "salam", "salaam",
    "\U{0645}\U{0631}\U{062D}\U{0628}\U{0627}", "\U{0647}\U{0644}\U{0627}",
    "\U{0623}\U{0647}\U{0644}\U{064A}\U{0646}",
    "good morning", "good afternoon", "good evening"
  ]

  const ChitChatWords: seq<string> := [
    "how are you", "thanks", "thank you", "ok", "okay", "got it",
    "\U{0634}\U{0643}\U{0631}\U{0627}", "\U{062A}\U{0633}\U{0644}\U{0645}"
  ]

  /** A character `\w` matches: ASCII letters, digits and underscore, and
      every character outside ASCII. */
  predicate IsWordChar(c: char) {
    IsLetter(c) || IsDigit(c) || c == '_' || c > '\U{007F}'
  }

  /** `text` starts with `w`, ignoring case, and the word ends there. */
  predicate StartsWithWord(text: string, w: string) {
    |w| <= |text| && Lower(text[..|w|]) == w && (|w| == |text| || !IsWordChar(text[|w|]))
  }

  predicate OpensWith(text: string, words: seq<string>) {
    exists k | 0 <= k < |words| :: StartsWithWord(text, words[k])
  }

  /** Either pattern matches at the start: the text opens, ignoring case,
      with one of the words of the two lists, and the word ends there. Every
      word has at least two characters, so a shorter text never matches. */
  predicate IsSmallTalk(text: string): (r: bool)
    ensures r <==> exists k :: 0 <= k < |GreetingWords + ChitChatWords|
                     && StartsWithWord(text, (GreetingWords + ChitChatWords)[k])
    ensures r ==> |text| >= 2
  {
    var words := GreetingWords + ChitChatWords;
    assert forall k :: 0 <= k < |GreetingWords| ==> words[k] == GreetingWords[k];
    assert forall k :: 0 <= k < |ChitChatWords| ==> words[|GreetingWords| + k] == ChitChatWords[k];
    assert forall k :: 0 <= k < |words| ==> |words[k]| >= 2;
    OpensWith(text, GreetingWords) || OpensWith(text, ChitChatWords)
  }

  predicate NoUpper(w: string) {
    forall i :: 0 <= i < |w| ==> !IsUpper(w[i])
  }

  lemma SmallTalkWordsLowerCase()
    ensures forall k :: 0 <= k < |GreetingWords| ==> NoUpper(GreetingWords[k])
    ensures forall k :: 0 <= k < |ChitChatWords| ==> NoUpper(ChitChatWords[k])
  {
  }

  /** Any small-talk word followed by a non-word character (or nothing) is
      small talk, whatever comes after it. */
  lemma SmallTalkByPrefix(w: string, rest: string)
    requires w in GreetingWords || w in ChitChatWords
    requires rest == [] || !IsWordChar(rest[0])
    ensures IsSmallTalk(w + rest)
  {
    SmallTalkWordsLowerCase();
    var text := w + rest;
    assert text[..|w|] == w;
    assert NoUpper(w);
    assert Lower(w) == w;
    assert StartsWithWord(text, w);
    if w in GreetingWords {
      var k :| 0 <= k < |GreetingWords| && GreetingWords[k] == w;
    } else {
      var k :| 0 <= k < |ChitChatWords| && ChitChatWords[k] == w;
    }
  }

  /** A word only counts when it is whole: "hiking" does not greet. */
  lemma HikingIsNotSmallTalk()
    ensures !StartsWithWord("hiking", "hi")
  {
    assert "hiking"[2] == 'k';
  }

  // ---------------------------------------------------------------------
  // Intent with the previous user turn as context

  predicate IsUser(m: HistoryMessage) {
    m.role == "user"
  }

  /** The classification (with no context of its own) of the most recent
      user message, if any. */
  function PreviousIntent(messages: seq<HistoryMessage>, b: Backends): (r: Option<IntentExtractor.Intent>)
    ensures r.None? <==> forall i :: 0 <= i < |messages| ==> !IsUser(messages[i])
    ensures r.Some? ==>
              exists i :: 0 <= i < |messages| && IsUser(messages[i])
                          && (forall j :: i < j < |messages| ==> !IsUser(messages[j]))
                          && r.value == IntentExtractor.ExtractIntent(messages[i].content, None, b.settings, b.groq)
  {
    match LastWhere(messages, IsUser)
    case None => None
    case Some(i) => Some(IntentExtractor.ExtractIntent(messages[i].content, None, b.settings, b.groq))
  }

  /** Only user messages matter for the context: assistant turns appended
      after the last user turn change nothing. */
  lemma PreviousIntentSkipsAssistant(messages: seq<HistoryMessage>, later: seq<HistoryMessage>, b: Backends)
    requires forall j :: 0 <= j < |later| ==> !IsUser(later[j])
    ensures PreviousIntent(messages + later, b) == PreviousIntent(messages, b)
  {
    LastWhereAppendSkipped(messages, later, IsUser);
  }

  function ResolveIntent(text: string, messages: seq<HistoryMessage>, b: Backends): IntentExtractor.Intent {
    IntentExtractor.ExtractIntent(text, PreviousIntent(messages, b), b.settings, b.groq)
  }

  // ---------------------------------------------------------------------
  // Branch replies

  /** `_format_places_response`, or the apology when there is nothing: a
      non-empty reply opens with the header and the first place as entry 1. */
  function PlacesContent(results: seq<Place>, fixed: FixedPoint): (r: string)
    ensures results == [] ==> r == NoPlacesMessage
    ensures results != [] ==> StartsWith(r, PlacesHeader + "1. " + results[0].name)
  {
    if results == [] then NoPlacesMessage
    else
      var entries := NumberedPlaces(results, fixed);
      JoinHead(entries, "\n\n");
      assert StartsWith(Join(entries, "\n\n"), entries[0]);
      assert NatToString(1) == "1";
      assert StartsWith(entries[0], "1. " + results[0].name);
      StartsWithTrans(Join(entries, "\n\n"), entries[0], "1. " + results[0].name);
      StartsWithPrepend(PlacesHeader, Join(entries, "\n\n"), "1. " + results[0].name);
      assert PlacesHeader + ("1. " + results[0].name) == PlacesHeader + "1. " + results[0].name;
      PlacesHeader + Join(entries, "\n\n")
  }

  /** The web-search reply: the documents under a header, led by the answer
      when there is one; the apology when there are no documents, whatever
      the answer. */
  function SearchContent(response: TavilyResponse): (r: string)
    ensures response.results == [] ==> r == NoInfoMessage
  {
    if response.results == [] then NoInfoMessage
    else
      var listing := SearchHeader + Join(NumberedDocuments(response.results), "\n\n");
      if Truthy(response.answer) then response.answer.value + "\n\n" + listing else listing
  }

  /** The answer leads the reply exactly when it is shown at all. */
  lemma SearchAnswerLeads(response: TavilyResponse)
    requires response.results != [] && Truthy(response.answer)
    ensures StartsWith(SearchContent(response), response.answer.value + "\n\n")
  {
    var listing := SearchHeader + Join(NumberedDocuments(response.results), "\n\n");
    var lead := response.answer.value + "\n\n";
    assert SearchContent(response) == lead + listing;
    assert (lead + listing)[..|lead|] == lead;
  }

  /** The web search with every failure turned into an empty response. */
  function SearchOrEmpty(text: string, b: Backends): (r: TavilyResponse)
    ensures r.query == text
    ensures Tavily.DefaultSearch(text, b.settings, b.tavily).Err? ==> r == TavilyResponse(text, [], None)
    ensures Tavily.DefaultSearch(text, b.settings, b.tavily).Ok? ==> r == Tavily.DefaultSearch(text, b.settings, b.tavily).value
  {
    match Tavily.DefaultSearch(text, b.settings, b.tavily)
    case Ok(response) => response
    case Err(_) => TavilyResponse(text, [], None)
  }

  function Note(t: Translation.TranslationResult): TranslationNote {
    TranslationNote(t.sourceLanguage, t.targetLanguage, t.needsTranslation, t.confidence)
  }

  function FinalTranslation(text: string, content: string, b: Backends): Translation.TranslationResult {
    Translation.EnsureLanguageConsistency(text, content, None, b.settings, b.openAi)
  }

  function Searched(b: Backends, intent: IntentExtractor.Intent, at: LatLng): Result<seq<Place>, ServiceError> {
    GooglePlaces.SearchPlaces(b.settings, intent, Some(at), b.show, b.text, b.nearby, b.matrix)
  }

  /** `process_with_agent(user_input, messages, location, debug)`. A failing
      place search propagates its error to the caller. */
  function ProcessWithAgent(
    userInput: string, messages: seq<HistoryMessage>, location: Option<LatLng>, debug: bool, b: Backends)
    : (r: Result<AgentReply, ServiceError>)
    ensures r.Ok? ==> r.value.usage == ZeroUsage && (r.value.debug.Some? <==> debug)
    ensures var text := WorkingText(userInput, messages);
            && (IsSmallTalk(text) ==> r == Ok(AgentReply(GreetingReply, if debug then Some(GreetingDebug) else None, ZeroUsage)))
            && (r.Err? <==>
                  && !IsSmallTalk(text)
                  && var intent := ResolveIntent(text, messages, b);
                     intent.kind == "places" && Searched(b, intent, location.GetOr(DefaultLocation)).Err?)
    ensures var text := WorkingText(userInput, messages);
            r.Ok? && !IsSmallTalk(text) ==>
              var intent := ResolveIntent(text, messages, b);
              var at := location.GetOr(DefaultLocation);
              var content := if intent.kind == "places" then PlacesContent(Searched(b, intent, at).value, b.fixed)
                             else SearchContent(SearchOrEmpty(text, b));
              r.value.content == FinalTranslation(text, content, b).translatedText
  {
    var text := WorkingText(userInput, messages);
    if IsSmallTalk(text) then
      Ok(AgentReply(GreetingReply, if debug then Some(GreetingDebug) else None, ZeroUsage))
    else
      var intent := ResolveIntent(text, messages, b);
      var at := location.GetOr(DefaultLocation);
      if intent.kind == "places" then
        var results :- Searched(b, intent, at);
        var t := FinalTranslation(text, PlacesContent(results, b.fixed), b);
        var info := PlacesDebug(intent, at, |results|, results, Note(t));
        Ok(AgentReply(t.translatedText, if debug then Some(info) else None, ZeroUsage))
      else
        var response := SearchOrEmpty(text, b);
        var t := FinalTranslation(text, SearchContent(response), b);
        var info := SearchDebug(intent, at, |response.results|, response.answer, Note(t));
        Ok(AgentReply(t.translatedText, if debug then Some(info) else None, ZeroUsage))
  }

  /** Small talk is answered without consulting any service: the classifier,
      both searches and the translator may be anything. */
  lemma SmallTalkSkipsServices(
    userInput: string, messages: seq<HistoryMessage>, location: Option<LatLng>, debug: bool, b: Backends, c: Backends)
    requires IsSmallTalk(WorkingText(userInput, messages))
    ensures ProcessWithAgent(userInput, messages, location, debug, b) == ProcessWithAgent(userInput, messages, location, debug, c)
  {
  }

  /** Without a location the search runs around the default one, and the
      debug payload reports it together with the intent. */
  lemma DefaultLocationReported(userInput: string, messages: seq<HistoryMessage>, b: Backends)
    requires !IsSmallTalk(WorkingText(userInput, messages))
    requires ProcessWithAgent(userInput, messages, None, true, b).Ok?
    ensures var info := ProcessWithAgent(userInput, messages, None, true, b).value.debug.value;
            && (info.PlacesDebug? || info.SearchDebug?)
            && info.location == DefaultLocation
            && info.intent == ResolveIntent(WorkingText(userInput, messages), messages, b)
  {
  }

  /** A query outside the places branch always gets an answer. */
  lemma WebBranchNeverFails(userInput: string, messages: seq<HistoryMessage>, location: Option<LatLng>, debug: bool, b: Backends)
    requires ResolveIntent(WorkingText(userInput, messages), messages, b).kind != "places"
    ensures ProcessWithAgent(userInput, messages, location, debug, b).Ok?
  {
  }

  /** With no keys configured at all, a general question is answered with
      the apology, untranslated: the search raises for the missing key and
      translation leaves the text alone. */
  lemma OfflineGeneralQuestion(userInput: string, messages: seq<HistoryMessage>, location: Option<LatLng>, b: Backends)
    requires b.settings == Settings("", "", "", "", false)
    requires !IsSmallTalk(WorkingText(userInput, messages))
    requires ResolveIntent(WorkingText(userInput, messages), messages, b).kind != "places"
    ensures ProcessWithAgent(userInput, messages, location, false, b) == Ok(AgentReply(NoInfoMessage, None, ZeroUsage))
  {
    var text := WorkingText(userInput, messages);
    assert SearchOrEmpty(text, b).results == [];
  }
}
