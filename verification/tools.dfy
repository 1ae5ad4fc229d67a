/** The three tool wrappers the agent exposes (`agents/tools/`): each maps
    its arguments onto a service call and renders the outcome as text. The
    synchronous and asynchronous entry points of the place tool build the
    same intent and render the same way, so one function models both. The
    intent and translation tools run their service through `_sync`, whose
    outcome depends on whether an event loop is already running; that is a
    parameter. */
module Tools {
  import opened Wrappers
  import opened Text
  import opened Configuration
  import opened PlaceModels
  import IntentExtractor
  import GooglePlaces
  import Translation
  import Agent

  // ---------------------------------------------------------------------
  // google_places_search

  /** A location exists when both coordinates are given; building it fails
      validation outside the bounds. */
  function ToolLocation(lat: Option<real>, lng: Option<real>): (r: Result<Option<LatLng>, ServiceError>)
    ensures r == Ok(None) <==> lat.None? || lng.None?
    ensures lat.Some? && lng.Some? ==>
              match MakeLatLng(lat.value, lng.value)
              case Some(at) => r == Ok(Some(at))
              case None => r == Err(Invalid("LatLng"))
  {
    if lat.None? || lng.None? then Ok(None)
    else
      match MakeLatLng(lat.value, lng.value)
      case Some(at) => Ok(Some(at))
      case None => Err(Invalid("LatLng"))
  }

  predicate IsTrue(flag: Option<bool>) {
    flag == Some(true)
  }

  /** The intent the tool searches with: a places intent whose descriptor is
      the query, with no brand and the flags mapped one to one. */
  function ToolIntent(query: string, wantsNear: Option<bool>, wantsBest: Option<bool>, openNow: Option<bool>)
    : (i: IntentExtractor.Intent)
    ensures i.kind == "places" && i.descriptor == Some(query) && i.brand.None? && i.openNow == openNow
    ensures i.proximity == Some("near_me") <==> IsTrue(wantsNear)
    ensures i.proximity.None? <==> !IsTrue(wantsNear)
    ensures i.ranking == Some("prominence") <==> IsTrue(wantsBest)
    ensures i.ranking.None? <==> !IsTrue(wantsBest)
    ensures i.confidence == 0.0 && i.price.None? && i.language.None?
  {
    IntentExtractor.Bare("places").(
      descriptor := Some(query),
      proximity := if IsTrue(wantsNear) then Some("near_me") else None,
      ranking := if IsTrue(wantsBest) then Some("prominence") else None,
      openNow := openNow)
  }

  /** The tool searches for its query as given, falling back to
      "restaurant" only for an empty query, and searches nearby exactly when
      asked to and given a location; "best" results come sorted by rating. */
  lemma ToolIntentSearch(query: string, wantsNear: Option<bool>, wantsBest: Option<bool>, openNow: Option<bool>,
                         location: Option<LatLng>)
    ensures var i := ToolIntent(query, wantsNear, wantsBest, openNow);
            && GooglePlaces.SearchTerm(i) == (if query == [] then "restaurant" else query)
            && (GooglePlaces.UsesNearby(i, location) <==> IsTrue(wantsNear) && location.Some?)
            && (GooglePlaces.RanksByRating(i.ranking) <==> IsTrue(wantsBest))
  {
    var i := ToolIntent(query, wantsNear, wantsBest, openNow);
    if IsTrue(wantsBest) {
      assert Lower("prominence") == "prominence";
    }
  }

  const NoPlacesFound: string := "No matching places were found."

  /** The rendering of the tool's results: the numbered entries separated by
      blank lines, or a fixed sentence when there are none. */
  function PlacesToolText(results: seq<Place>, fixed: FixedPoint): string {
    if results == [] then NoPlacesFound else Join(NumberedPlaces(results, fixed), "\n\n")
  }

  /** The tool renders results as the agent's places reply does, without the
      header. */
  lemma ToolMatchesAgentListing(results: seq<Place>, fixed: FixedPoint)
    requires results != []
    ensures Agent.PlacesContent(results, fixed) == Agent.PlacesHeader + PlacesToolText(results, fixed)
  {
  }

  /** `GooglePlacesTool._run` and `_arun`. A search error and an invalid
      location are raised to the caller. */
  function GooglePlacesTool(
    query: string, lat: Option<real>, lng: Option<real>, wantsNear: Option<bool>, wantsBest: Option<bool>,
    openNow: Option<bool>, b: Agent.Backends): (r: Result<string, ServiceError>)
    ensures ToolLocation(lat, lng).Err? ==> r == Err(ToolLocation(lat, lng).error)
    ensures ToolLocation(lat, lng).Ok? ==>
              var found := GooglePlaces.SearchPlaces(b.settings, ToolIntent(query, wantsNear, wantsBest, openNow),
                                                     ToolLocation(lat, lng).value, b.show, b.text, b.nearby, b.matrix);
              && (r.Err? <==> found.Err?)
              && (found.Ok? ==> r == Ok(PlacesToolText(found.value, b.fixed)))
  {
    var location :- ToolLocation(lat, lng);
    var intent := ToolIntent(query, wantsNear, wantsBest, openNow);
    var results :- GooglePlaces.SearchPlaces(b.settings, intent, location, b.show, b.text, b.nearby, b.matrix);
    Ok(PlacesToolText(results, b.fixed))
  }

  // ---------------------------------------------------------------------
  // intent_extractor_tool

  /** The previous turn the tool hands to the classifier: a places intent
      carrying the given descriptor and brand, when either is non-empty. */
  function ToolPrevious(descriptor: Option<string>, brand: Option<string>): (r: Option<IntentExtractor.Intent>)
    ensures r.Some? <==> Truthy(descriptor) || Truthy(brand)
    ensures r.Some? ==> r.value == IntentExtractor.Bare("places").(descriptor := descriptor, brand := brand)
  {
    if Truthy(descriptor) || Truthy(brand) then
      Some(IntentExtractor.Bare("places").(descriptor := descriptor, brand := brand))
    else None
  }

  /** Python's `str` of an optional boolean, with "unknown" for none. */
  function OpenNowText(openNow: Option<bool>): string {
    if openNow.Some? then PyBool(openNow.value) else "unknown"
  }

  /** The eight lines of `_format`: a title, then one line per field with
      "none", "relevance" or "unknown" standing in for a missing value. */
  function IntentLines(i: IntentExtractor.Intent, fixed: FixedPoint): (lines: seq<string>)
    ensures |lines| == 8 && lines[0] == "Intent analysis:"
    ensures lines[1] == "- intent: " + i.kind
    ensures lines[2] == "- descriptor: " + (if Truthy(i.descriptor) then i.descriptor.value else "none")
    ensures lines[3] == "- brand: " + (if Truthy(i.brand) then i.brand.value else "none")
    ensures lines[4] == "- proximity: " + (if Truthy(i.proximity) then i.proximity.value else "none")
    ensures lines[5] == "- ranking: " + (if Truthy(i.ranking) then i.ranking.value else "relevance")
    ensures lines[6] == "- open_now: " + (if i.openNow == Some(true) then "True"
                                          else if i.openNow == Some(false) then "False" else "unknown")
    ensures lines[7] == "- confidence: " + fixed(i.confidence, 2)
  {
    [ "Intent analysis:",
      "- intent: " + i.kind,
      "- descriptor: " + OrElse(i.descriptor, "none"),
      "- brand: " + OrElse(i.brand, "none"),
      "- proximity: " + OrElse(i.proximity, "none"),
      "- ranking: " + OrElse(i.ranking, "relevance"),
      "- open_now: " + OpenNowText(i.openNow),
      "- confidence: " + fixed(i.confidence, 2)]
  }

  /** `_format(intent)`: the lines joined by line breaks, so the text opens
      with the title and, on the next line, the intent kind. */
  function FormatIntent(i: IntentExtractor.Intent, fixed: FixedPoint): (r: string)
    ensures StartsWith(r, "Intent analysis:\n- intent: " + i.kind)
  {
    var lines := IntentLines(i, fixed);
    assert Join(lines, "\n") == lines[0] + "\n" + Join(lines[1..], "\n");
    JoinHead(lines[1..], "\n");
    StartsWithPrepend(lines[0] + "\n", Join(lines[1..], "\n"), lines[1]);
    assert lines[0] + "\n" + lines[1] == "Intent analysis:\n- intent: " + i.kind;
    Join(lines, "\n")
  }

  /** When no field holds a line break the rendering has exactly eight
      lines: seven line breaks. */
  lemma FormatIntentEightLines(i: IntentExtractor.Intent, fixed: FixedPoint)
    requires '\n' !in i.kind && '\n' !in OrElse(i.descriptor, "none") && '\n' !in OrElse(i.brand, "none")
    requires '\n' !in OrElse(i.proximity, "none") && '\n' !in OrElse(i.ranking, "relevance")
    requires '\n' !in fixed(i.confidence, 2)
    ensures CountChar(FormatIntent(i, fixed), '\n') == 7
  {
    var lines := IntentLines(i, fixed);
    assert '\n' !in OpenNowText(i.openNow);
    forall k | 0 <= k < |lines| ensures CountChar(lines[k], '\n') == 0 {
      CountCharAbsent(lines[k], '\n');
    }
    JoinCount(lines, '\n');
  }

  /** What `run_until_complete` raises when `_sync` finds an event loop
      already running, as the asynchronous entry points do. */
  const LoopRunningMessage: string := "This event loop is already running"

  /** `IntentExtractorTool._run(query, previous_descriptor, previous_brand)`
      and `_arun`, which delegates to it: inside a running event loop the
      error reaches the caller; otherwise the classification with the given
      context, one line per field. */
  function IntentTool(query: string, previousDescriptor: Option<string>, previousBrand: Option<string>,
                      loopRunning: bool, b: Agent.Backends): (r: Result<string, ServiceError>)
    ensures loopRunning ==> r == Err(Unhandled(LoopRunningMessage))
    ensures !loopRunning ==>
              var intent := IntentExtractor.ExtractIntent(query, ToolPrevious(previousDescriptor, previousBrand),
                                                          b.settings, b.groq);
              r == Ok(Join(IntentLines(intent, b.fixed), "\n"))
  {
    if loopRunning then Err(Unhandled(LoopRunningMessage))
    else
      var intent := IntentExtractor.ExtractIntent(query, ToolPrevious(previousDescriptor, previousBrand), b.settings, b.groq);
      Ok(FormatIntent(intent, b.fixed))
  }

  /** The tool's previous descriptor reaches the classifier: without a Groq
      key and outside a running loop, "cheaper" after "sushi" is still
      reported as a sushi search. */
  lemma IntentToolKeepsContext(b: Agent.Backends)
    requires b.settings.groqKey == ""
    ensures var r := IntentTool("cheaper", Some("sushi"), None, false, b);
            r.Ok? && r.value == Join(IntentLines(IntentExtractor.ExtractIntent("cheaper", ToolPrevious(Some("sushi"), None),
                                                                                b.settings, b.groq), b.fixed), "\n")
    ensures IntentLines(IntentExtractor.ExtractIntent("cheaper", ToolPrevious(Some("sushi"), None), b.settings, b.groq),
                        b.fixed)[2] == "- descriptor: sushi"
  {
    var previous := ToolPrevious(Some("sushi"), None);
    assert previous == Some(IntentExtractor.Bare("places").(descriptor := Some("sushi")));
    IntentExtractor.StickySushi(b.settings, b.groq);
    SushiLine(IntentExtractor.ExtractIntent("cheaper", previous, b.settings, b.groq), b.fixed);
  }

  lemma SushiLine(i: IntentExtractor.Intent, fixed: FixedPoint)
    requires i.descriptor == Some("sushi")
    ensures IntentLines(i, fixed)[2] == "- descriptor: sushi"
  {
    assert Truthy(i.descriptor) && i.descriptor.value == "sushi";
  }

  // ---------------------------------------------------------------------
  // translate_text

  function FlagText(needsTranslation: bool): string {
    if needsTranslation then "TRANSLATED" else "UNCHANGED"
  }

  /** `_format_result`: a header line naming both languages, then the flag,
      then the text, which ends the rendering. */
  function FormatResult(t: Translation.TranslationResult, fixed: FixedPoint): (s: string)
    ensures StartsWith(s, "source=" + t.sourceLanguage + " target=" + t.targetLanguage + " ")
    ensures EndsWith(s, t.translatedText)
  {
    var head := "source=" + t.sourceLanguage + " target=" + t.targetLanguage + " ";
    var s := head
      + "needs_translation=" + PyBool(t.needsTranslation) + " confidence=" + fixed(t.confidence, 2) + "\n"
      + FlagText(t.needsTranslation) + " TEXT:\n" + t.translatedText;
    assert s[..|head|] == head;
    assert s[|s| - |t.translatedText|..] == t.translatedText;
    s
  }

  lemma FormatResultOpens(t: Translation.TranslationResult, fixed: FixedPoint)
    ensures StartsWith(FormatResult(t, fixed), "source=")
  {
    var head := "source=" + t.sourceLanguage + " target=" + t.targetLanguage + " ";
    assert head[..7] == "source=";
    StartsWithTrans(FormatResult(t, fixed), head, "source=");
  }

  /** The rendered result ends with the translated text, after the flag that
      says whether it differs from the input. */
  lemma FormatResultEndsWithText(r: Translation.TranslationResult, fixed: FixedPoint)
    ensures var s := FormatResult(r, fixed);
            var tail := FlagText(r.needsTranslation) + " TEXT:\n" + r.translatedText;
            |tail| <= |s| && s[|s| - |tail|..] == tail
    ensures FlagText(r.needsTranslation) == "TRANSLATED" <==> r.needsTranslation
  {
    var head := "source=" + r.sourceLanguage + " target=" + r.targetLanguage + " "
      + "needs_translation=" + PyBool(r.needsTranslation) + " confidence=" + fixed(r.confidence, 2) + "\n";
    var tail := FlagText(r.needsTranslation) + " TEXT:\n" + r.translatedText;
    assert FormatResult(r, fixed) == head + tail;
    assert (head + tail)[|head|..] == tail;
  }

  datatype ToolCall =
    | Consistency(userQuery: string, aiResponse: string, preferred: Option<string>)
    | Translate(text: string, target: string, source: Option<string>)
    | NoText

  /** The dispatch of `TranslationTool._run`: a query and a response ask for
      consistency (the target doubling as the preferred language); otherwise
      a text is translated into the target, or into "auto" when none. */
  function Dispatch(text: Option<string>, target: Option<string>, source: Option<string>,
                    userQuery: Option<string>, aiResponse: Option<string>): (c: ToolCall)
    ensures Truthy(userQuery) && Truthy(aiResponse) ==> c == Consistency(userQuery.value, aiResponse.value, target)
    ensures !(Truthy(userQuery) && Truthy(aiResponse)) ==>
              && (Truthy(text) && Truthy(target) ==> c == Translate(text.value, target.value, source))
              && (Truthy(text) && !Truthy(target) ==> c == Translate(text.value, "auto", source))
              && (!Truthy(text) ==> c == NoText)
  {
    if Truthy(userQuery) && Truthy(aiResponse) then Consistency(userQuery.value, aiResponse.value, target)
    else if Truthy(text) && Truthy(target) then Translate(text.value, target.value, source)
    else if Truthy(text) then Translate(text.value, "auto", source)
    else NoText
  }

  const NoTextMessage: string := "No text provided for translation."

  /** The service call a dispatched request makes. */
  function Dispatched(c: ToolCall, b: Agent.Backends): Translation.TranslationResult
    requires !c.NoText?
  {
    match c
    case Consistency(q, a, p) => Translation.EnsureLanguageConsistency(q, a, p, b.settings, b.openAi)
    case Translate(t, tgt, src) => Translation.TranslateText(t, tgt, src, b.settings, b.openAi)
  }

  /** `TranslationTool._run` and `_arun`, which delegates to it. Without a
      text nothing is run; inside a running event loop the error is caught
      and reported; otherwise the rendering ends with the dispatched call's
      text. */
  function TranslationTool(text: Option<string>, target: Option<string>, source: Option<string>,
                           userQuery: Option<string>, aiResponse: Option<string>, loopRunning: bool,
                           b: Agent.Backends): (r: string)
    ensures var c := Dispatch(text, target, source, userQuery, aiResponse);
            && (c.NoText? ==> r == NoTextMessage)
            && (!c.NoText? && loopRunning ==> r == "Translation failed: " + LoopRunningMessage)
            && (!c.NoText? && !loopRunning ==>
                  StartsWith(r, "source=") && EndsWith(r, Dispatched(c, b).translatedText))
  {
    var c := Dispatch(text, target, source, userQuery, aiResponse);
    if c.NoText? then NoTextMessage
    else if loopRunning then "Translation failed: " + LoopRunningMessage
    else
      FormatResultOpens(Dispatched(c, b), b.fixed);
      FormatResult(Dispatched(c, b), b.fixed)
  }

  /** Without a text (and without a query-response pair) no service is
      consulted, whether or not a loop is running. */
  lemma NoTextNoService(target: Option<string>, source: Option<string>, userQuery: Option<string>,
                        aiResponse: Option<string>, loopRunning: bool, b: Agent.Backends)
    requires !(Truthy(userQuery) && Truthy(aiResponse))
    ensures TranslationTool(None, target, source, userQuery, aiResponse, loopRunning, b) == NoTextMessage
  {
  }

  /** Outside a running loop, a text with a target and no query-response
      pair comes back as `translate_text` translates it. */
  lemma ToolTranslatesText(text: string, target: string, source: Option<string>, userQuery: Option<string>,
                           aiResponse: Option<string>, b: Agent.Backends)
    requires text != [] && target != [] && !(Truthy(userQuery) && Truthy(aiResponse))
    ensures EndsWith(TranslationTool(Some(text), Some(target), source, userQuery, aiResponse, false, b),
                     Translation.TranslateText(text, target, source, b.settings, b.openAi).translatedText)
  {
    assert Dispatch(Some(text), Some(target), source, userQuery, aiResponse) == Translate(text, target, source);
  }

  /** Translating into "auto" without a source hint never translates: both
      languages resolve to the detected one, unless detection named none. */
  lemma AutoTargetNeverTranslates(text: string, settings: Settings, ai: Translation.OpenAi)
    requires Translation.DetectLanguage(Some(text), settings, ai).language != []
    ensures var r := Translation.TranslateText(text, "auto", None, settings, ai);
            r.translatedText == text && !r.needsTranslation
  {
  }
}
