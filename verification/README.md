# buildables core, modelled in Dafny

This project models the pure logic of the `buildables` repository:

- **The travel agent** (`src/travel_agent/`):
  - the intent classifier, with its heuristic and LLM tiers;
  - the Google Places text and nearby searches, with the radius ladder, open-now filtering, rating sort and Distance Matrix enrichment;
  - the Distance Matrix adapter;
  - the place and document renderings;
  - language detection and translation;
  - the Tavily adapter;
  - the orchestrator `process_with_agent`;
  - the three tool wrappers (places, intent, translation).
- **The article workflow manager** (`week5_project/project/workflow_backend.py`).
- **The text-analysis bookkeeping** (`week1_project/text_analysis_tool/utils/analysis_feature.py`): cost estimate, tokenisation result, benchmark metrics and the comparison report.
- **The multi-role chatbot core** (`week2_project/multirole_chatbot/chat_core.py`).

Every remote party is a function parameter that returns a datatype of the outcomes the code distinguishes. These are the LLMs (Groq, OpenAI), the Google and Tavily HTTP services, the tokenizers, the workflow nodes and the file read. An exception the code lets escape is an `Err` of `Configuration.ServiceError`. An exception the code catches is a case of the reply datatype.

Python floats are `real`. Float formatting (`:.1f`, `:.2f`, `:.4f`, `str(float)`) is an opaque parameter (`PlaceModels.FixedPoint`, `DistanceMatrix.FloatText`). The model therefore fixes where each number goes but not its digits.

Modules, one per source file:

| module | file |
|---|---|
| `Wrappers`, `Text`, `Seqs` | shared helpers |
| `Configuration` | the settings the services read |
| `Completions` | the chat-completion message shape |
| `PlaceModels` | places.py |
| `IntentExtractor` | intent_extractor.py |
| `DistanceMatrix` | distance_matrix.py |
| `GooglePlaces` | google_places.py |
| `Translation` | translation.py |
| `Tavily` | tavily.py |
| `Agent` | langchain_agent.py |
| `Tools` | the three tool files |
| `Workflow` | workflow_backend.py |
| `Analysis` | analysis_feature.py |
| `ChatCore` | chat_core.py |

Where the code and its descriptions disagree, the model follows the code:

- The heuristic confidence for a follow-up is raised to 90% of the previous confidence, a floor rather than a cap.
- A failing text search in the places branch propagates out of `process_with_agent`; it is not turned into an apology.
- Enrichment sends the user's location as a `models.chat.LatLng`, which the matrix adapter skips. `GooglePlaces.SearchPlaces`, and with it the orchestrator and the places tool, runs this enrichment as written. The corrected enrichment is `GooglePlaces.EnrichPlaces`, used by `GooglePlaces.SearchPlacesCorrected`. See Findings.

## Model

| member | source | states |
|---|---|---|
| IntentExtractor.KeywordFrom | src/travel_agent/services/intent_extractor.py:95-98 | the span found is a whole `[a-z0-9]` token that is a places keyword, and no keyword token starts earlier; none found means no keyword token at all |
| IntentExtractor.FirstKeywordSpec | src/travel_agent/services/intent_extractor.py:38-55 | the descriptor scan returns a member of the keyword list that is the earliest keyword token, and returns nothing exactly when no token is a keyword |
| IntentExtractor.SingleTokenKeyword | src/travel_agent/services/intent_extractor.py:95-98 | a query that is one token has a descriptor exactly when the whole token is a keyword |
| IntentExtractor.CoffeeshopHasNoKeyword | src/travel_agent/services/intent_extractor.py:95-98 | tokens are matched whole: "coffeeshop" yields no descriptor although it contains "coffee" |
| IntentExtractor.BrandFrom | src/travel_agent/services/intent_extractor.py:103-107 | the match returned is a `findall` match that is not a question word, and every earlier match is a question word |
| IntentExtractor.FirstBrandSpec | src/travel_agent/services/intent_extractor.py:103-107 | a brand occurs in the query, starts upper-case, has at least two letters and is no question word; no brand means every match is a question word |
| IntentExtractor.FindallMatchAt | src/travel_agent/services/intent_extractor.py:104 | an upper-case letter followed by letters is a match running to the end of the letters, and no other match starts inside it |
| IntentExtractor.FollowerAfterSpacesIff | src/travel_agent/services/intent_extractor.py:58 | the scan for `\s+` followed by `[a-zA-Z ]` agrees with the pattern's own reading |
| IntentExtractor.NearAtIff | src/travel_agent/services/intent_extractor.py:58 | `near\s+(...)` matches at a position exactly when "near", whitespace and a follower occur there |
| IntentExtractor.HeuristicIntent | src/travel_agent/services/intent_extractor.py:89-128 | a blank query is a bare "other"; the kind is "places" exactly when a descriptor or a brand was found; open-now is never false; price and language are unset |
| IntentExtractor.HeuristicBlank | src/travel_agent/services/intent_extractor.py:90-92 | a query of whitespace gives "other" with confidence 0 |
| IntentExtractor.HeuristicDescriptor | src/travel_agent/services/intent_extractor.py:94-101 | the descriptor is the earliest keyword token, else the previous turn's non-empty descriptor, else none |
| IntentExtractor.HeuristicBrand | src/travel_agent/services/intent_extractor.py:103-107 | the brand is the first capitalised match that is not a question word; without one, every match is a question word |
| IntentExtractor.HeuristicProximity | src/travel_agent/services/intent_extractor.py:109 | proximity is "near_me" exactly when the near pattern matches the normalised query, and absent otherwise |
| IntentExtractor.HasNearIff | src/travel_agent/services/intent_extractor.py:58 | searching the near pattern anywhere agrees with some match position existing |
| IntentExtractor.HeuristicRanking | src/travel_agent/services/intent_extractor.py:110 | ranking is "prominence" exactly when best, top, popular or famous occurs anywhere, even inside a word |
| IntentExtractor.WantsProminenceIff | src/travel_agent/services/intent_extractor.py:59 | the prominence test agrees with an occurrence of one of the four words |
| IntentExtractor.HeuristicOpenNow | src/travel_agent/services/intent_extractor.py:109-124 | open-now is true exactly when "open now" or "open late" occurs, and is never false |
| IntentExtractor.NormalizeIdentity | src/travel_agent/services/intent_extractor.py:90 | an already lower-case, trimmed query is its own normal form |
| IntentExtractor.LaptopTriggersRanking | src/travel_agent/services/intent_extractor.py:59-110 | "laptop" asks for prominence, because "top" is matched inside the word |
| IntentExtractor.HeuristicConfidenceSpec | src/travel_agent/services/intent_extractor.py:113-116 | confidence is 0.4 for "other" and 0.7 for places, raised to 90% of a previous places confidence when that is higher |
| IntentExtractor.PromptMessages | src/travel_agent/services/intent_extractor.py:140-153 | the system prompt comes first and the user query last; the context note is present exactly when the previous intent has a descriptor or a brand |
| IntentExtractor.CarryOver | src/travel_agent/services/intent_extractor.py:181-183 | a parsed intent with neither descriptor nor brand takes both from the previous intent, and any other is kept |
| IntentExtractor.ExtractIntent | src/travel_agent/services/intent_extractor.py:131-185 | a blank query is "other"; without a key, or when the call fails, the content is empty or the parse fails, the heuristic decides; otherwise the parsed intent with the carry-over |
| IntentExtractor.NoKeyIgnoresModel | src/travel_agent/services/intent_extractor.py:135-136 | without a Groq key any two models give the same intent |
| IntentExtractor.CheaperHasNoKeyword | src/travel_agent/services/intent_extractor.py:95-98 | "cheaper" is non-blank, normalised, and holds no keyword |
| IntentExtractor.StickySushi | src/travel_agent/services/intent_extractor.py:100-101 | "cheaper" after a sushi turn is a places query for sushi |
| PlaceModels.MakeLatLng | src/travel_agent/models/places.py:10-14 | a coordinate pair is accepted exactly when latitude is within ±90 and longitude within ±180, and is kept unchanged |
| PlaceModels.PriceLabelKnownExactly | src/travel_agent/models/places.py:36-37 | the budget label is "unknown" exactly when the level is missing or outside 0..4, and distinct levels get distinct labels |
| PlaceModels.DistanceLine | src/travel_agent/models/places.py:41-43 | the travel line is shown exactly when both the duration and the distance texts are non-empty |
| PlaceModels.PlaceLines | src/travel_agent/models/places.py:32-52 | a place renders as six lines, seven with travel times: the number and name first, the address or its placeholder next, and the map link or "N/A" last |
| PlaceModels.FormatPlace | src/travel_agent/models/places.py:32-52 | a rendered place opens with its number, ". " and its name, and its last line is the map link or "N/A" |
| PlaceModels.FormatDocument | src/travel_agent/models/places.py:73-74 | a rendered document opens with its number and title on their own line and ends with the URL on the last line |
| PlaceModels.NumberedPlaces | src/travel_agent/agents/langchain_agent.py:69 | place `i` of the list is rendered with number `i + 1` |
| PlaceModels.NumberedDocuments | src/travel_agent/agents/langchain_agent.py:75 | document `i` of the list is rendered with number `i + 1` |
| DistanceMatrix.DestinationParts | src/travel_agent/services/distance_matrix.py:33-40 | there are never more destination strings than destinations |
| DistanceMatrix.DestinationPartsAppend | src/travel_agent/services/distance_matrix.py:34-40 | the destination strings of a concatenation are the concatenation of the strings |
| DistanceMatrix.DestinationPartsAligned | src/travel_agent/services/distance_matrix.py:34-40 | one string per destination exactly when every destination is supported, and then string `i` belongs to destination `i` |
| DistanceMatrix.NoPartsForUnsupported | src/travel_agent/services/distance_matrix.py:39-40 | unsupported destinations produce no strings |
| DistanceMatrix.ParseElement | src/travel_agent/services/distance_matrix.py:81-92 | the result keeps its index; the status defaults to UNKNOWN_ERROR; distance and duration fields come from their objects or are absent |
| DistanceMatrix.ParseRows | src/travel_agent/services/distance_matrix.py:74-95 | no rows give no results; otherwise one result per element of the first row, numbered from 0 |
| DistanceMatrix.CalculateDistanceMatrix | src/travel_agent/services/distance_matrix.py:19-95 | a missing key is an error; no supported destination gives an empty list without a call; the HTTP and status errors occur exactly on a non-200 code or a non-OK status; a raising client and unreadable JSON are unhandled errors; a 200 reply with status OK gives the parsed first row |
| DistanceMatrix.NoDestinationsNoRequest | src/travel_agent/services/distance_matrix.py:41-42 | when every destination is skipped, any two services give the same result |
| GooglePlaces.PriceTableInverse | src/travel_agent/services/google_places.py:34-41 | the price table maps exactly the five codes, each to its own level 0 to 4 |
| GooglePlaces.PriceTableLabels | src/travel_agent/services/google_places.py:34-41 | the five codes read as free, low, mid, high and premium, and any other code as unknown |
| GooglePlaces.MapResult | src/travel_agent/services/google_places.py:27-53 | the name defaults to "Unknown" and the address to ""; the URL exists exactly for a non-empty id; the price level exists exactly for a known code; open-now comes from the opening hours |
| GooglePlaces.MapResults | src/travel_agent/services/google_places.py:136 | raw result `i` becomes place `i` |
| GooglePlaces.TextRequestFor | src/travel_agent/services/google_places.py:75-87 | the body asks in English for at most five results and is biased to a circle exactly when a location is given |
| GooglePlaces.SearchText | src/travel_agent/services/google_places.py:56-160 | a missing key raises; a success with readable JSON gives the mapped places; timeout, network, HTTP and unexpected failures give their own error codes, and each only for its own cause |
| GooglePlaces.SearchNearby | src/travel_agent/services/google_places.py:163-222 | a missing key or any failure gives an empty list; a successful reply with readable JSON gives its mapped places |
| GooglePlaces.NearbyIgnoresDescriptor | src/travel_agent/services/google_places.py:173-181 | the nearby request does not depend on the descriptor |
| GooglePlaces.Ladder | src/travel_agent/services/google_places.py:242-255 | radii are tried in order until one gives results or raises; the outcome is empty exactly when every radius gave nothing |
| GooglePlaces.LadderTriesOnlyPrefix | src/travel_agent/services/google_places.py:243-246 | no radius after the deciding one is searched |
| GooglePlaces.SearchTerm | src/travel_agent/services/google_places.py:226-232 | the brand if non-empty, else the descriptor if non-empty, else "restaurant" |
| GooglePlaces.UniversalSearch | src/travel_agent/services/google_places.py:225-255 | the result is empty exactly when the search at every radius came back empty; otherwise it is the search at the first radius that did not; the nearby ladder, used for "near_me" with a location, never fails, and a text search without a key raises |
| GooglePlaces.ApplyRows | src/travel_agent/services/google_places.py:303-309 | place `i` takes row `i`'s texts when that row exists with status OK, and is unchanged otherwise |
| GooglePlaces.TravelDestinations | src/travel_agent/services/google_places.py:287-292 | one destination per place: its id when it has one, else the user location |
| GooglePlaces.EnrichWith | src/travel_agent/services/google_places.py:282-313 | enrichment keeps the number of places and changes only travel texts; without a key or when the matrix call fails nothing changes; otherwise the matrix rows are applied place by place |
| GooglePlaces.EnrichPlacesAsWritten | src/travel_agent/services/google_places.py:282-313 | as the code runs it, enrichment keeps the places apart from travel texts |
| GooglePlaces.EnrichPlaces | src/travel_agent/services/google_places.py:282-313 | corrected enrichment keeps the places apart from travel texts |
| GooglePlaces.AsWrittenDropsPlacesWithoutId | src/travel_agent/services/distance_matrix.py:34-40 | as written, the request has fewer destinations than places exactly when some place lacks an id |
| GooglePlaces.EnrichPlacesAligned | src/travel_agent/services/google_places.py:287-292 | corrected, destination `i` is place `i`'s id or the user's coordinates |
| GooglePlaces.EnrichmentMisaligned | src/travel_agent/services/google_places.py:303-308 | for three places with the middle one lacking an id, as written the middle place shows the third's distance and the third none; corrected each shows its own |
| GooglePlaces.MisalignedRequest | src/travel_agent/services/distance_matrix.py:34-46 | as written, the example request lists only the two ids |
| GooglePlaces.AlignedRequest | src/travel_agent/services/distance_matrix.py:34-46 | corrected, the example request lists the id, the user's coordinates and the id |
| GooglePlaces.EnrichPlacesOwnTexts | src/travel_agent/services/google_places.py:286-308 | corrected, when the matrix answers each destination with an OK element, every place is shown the distance and duration to its own id or, without one, to the user |
| GooglePlaces.FilterOpen | src/travel_agent/services/google_places.py:270-273 | with an open-now wish the result is a subsequence of the places holding every copy of each place whose open-now equals it and no other; without one the list is unchanged |
| GooglePlaces.RankStage | src/travel_agent/services/google_places.py:275-277 | for "best" or "prominence" (any case) the places are permuted into descending rating, missing as 0, ties in input order; otherwise unchanged |
| GooglePlaces.RefineIdempotent | src/travel_agent/services/google_places.py:270-277 | filtering and ranking a second time changes nothing |
| GooglePlaces.EnrichStep | src/travel_agent/services/google_places.py:264-268 | enrichment keeps every found place apart from its travel texts, and without a location changes nothing |
| GooglePlaces.SearchPlaces | src/travel_agent/services/google_places.py:258-279 | it fails exactly when the search fails, with that error; otherwise the result is a permutation of the open-now filtered, enriched places found (in their order unless ranked by rating, then in descending rating, ties in order) |
| GooglePlaces.SearchPlacesCorrected | src/travel_agent/services/google_places.py:258-279 | the same search, filter and ranking over the corrected enrichment; without a location it agrees with the code as written |
| GooglePlaces.OpenNowScenario | src/travel_agent/services/google_places.py:243-273 | nothing within 2500 m and three places within 5000 m: the ladder stops at the second radius, and open-now keeps the first and third |
| GooglePlaces.ScenarioLadder | src/travel_agent/services/google_places.py:243-246 | an empty first radius and a non-empty second end the ladder after two tries |
| GooglePlaces.ScenarioFilter | src/travel_agent/services/google_places.py:270-271 | the open-now filter keeps the open places in order |
| Translation.HeuristicDetect | src/travel_agent/services/translation.py:49-56 | empty text is English with confidence 0; otherwise Arabic with 0.9 exactly when an Arabic-block character occurs, else English with 0.6 |
| Translation.ArabicSticks | src/travel_agent/services/translation.py:53-55 | one Arabic character anywhere makes the heuristic answer Arabic, whatever is put before or after it |
| Translation.DetectLanguage | src/travel_agent/services/translation.py:59-100 | empty text is English with 0; without a key the heuristic decides; a failed call or empty content falls back to the heuristic; a readable payload gives its language and confidence, defaulting to "en" and 0.5 |
| Translation.DetectFallsBack | src/travel_agent/services/translation.py:59-100 | when the model is not reached or fails, detection is the heuristic |
| Translation.TranslateVia | src/travel_agent/services/translation.py:103-132 | a failed call leaves the text; no choice strips the text; a choice with content gives the stripped content and one without leaves the text |
| Translation.ResolveSource | src/travel_agent/services/translation.py:141 | the caller's source if non-empty, else the detected language if non-empty, else "en"; never empty |
| Translation.ResolveTarget | src/travel_agent/services/translation.py:143-145 | the caller's target unless it is "" or "auto", which mean the detected language |
| Translation.TranslateText | src/travel_agent/services/translation.py:135-181 | same languages or no key leave the text unchanged and flag no translation; with a key and different languages the text is the model's translation; the flag says whether the stripped texts differ |
| Translation.NoKeyIgnoresModel | src/travel_agent/services/translation.py:59-164 | without an OpenAI key any two clients give the same result, with the text unchanged |
| Translation.TranslationUsesAnswer | src/travel_agent/services/translation.py:135-181 | with a key, a given source and a different real target, a non-empty model answer becomes the translation stripped, flagged exactly when it differs from the text beyond surrounding whitespace |
| Translation.UserDetection | src/travel_agent/services/translation.py:189-194 | a preferred language is taken with confidence 1.0; otherwise the query is detected |
| Translation.EnsureLanguageConsistency | src/travel_agent/services/translation.py:184-205 | the response is translated into the user's language; with the debug setting the debug line is appended, otherwise the translation is returned as is |
| Translation.PreferredIgnoresQuery | src/travel_agent/services/translation.py:189-194 | with a preferred language the query does not matter |
| Translation.ConsistencyTargetsUser | src/travel_agent/services/translation.py:196 | the target is the user's language whenever that is neither empty nor "auto" |
| Translation.ConsistencyKeepsUntranslated | src/travel_agent/services/translation.py:198-205 | without the debug setting, a response that needs no translation comes back unchanged |
| Tavily.NormalizeResult | src/travel_agent/services/tavily.py:46-53 | a missing title reads "Untitled", a missing url or content reads "" |
| Tavily.NormalizeComplete | src/travel_agent/services/tavily.py:46-53 | a complete raw result survives normalisation unchanged |
| Tavily.NormalizeResults | src/travel_agent/services/tavily.py:46-53 | raw result `i` becomes document `i` |
| Tavily.TavilySearch | src/travel_agent/services/tavily.py:14-55 | the missing-key error occurs exactly without a key, and the API error exactly when the client raises; otherwise the query is echoed, the answer passed on and every result normalised |
| Tavily.NoKeyNoCall | src/travel_agent/services/tavily.py:14-17 | without a key any two clients give the same result |
| Agent.WorkingText | src/travel_agent/agents/langchain_agent.py:87-93 | the stripped input, else the stripped last message, else "hello"; never empty and never padded |
| Agent.SmallTalkWordsLowerCase | src/travel_agent/agents/langchain_agent.py:26-33 | the small-talk words are lower case, so the case-insensitive match lowers only the text |
| Agent.IsSmallTalk | src/travel_agent/agents/langchain_agent.py:26-33 | small talk opens, ignoring case, with a greeting or chit-chat word that ends there; it needs at least two characters |
| Agent.SmallTalkByPrefix | src/travel_agent/agents/langchain_agent.py:26-95 | a small-talk word followed by a non-word character or nothing is small talk |
| Agent.HikingIsNotSmallTalk | src/travel_agent/agents/langchain_agent.py:27 | the word boundary is honoured: "hiking" does not start with the greeting "hi" |
| Agent.PreviousIntent | src/travel_agent/agents/langchain_agent.py:56-60 | none exactly when no message is from the user; otherwise the context-free classification of the latest user message |
| Agent.PreviousIntentSkipsAssistant | src/travel_agent/agents/langchain_agent.py:57-58 | appending non-user messages does not change the context |
| Agent.PlacesContent | src/travel_agent/agents/langchain_agent.py:67-70 | no places give the apology; otherwise the reply opens with the header and the first place as entry 1 |
| Agent.SearchContent | src/travel_agent/agents/langchain_agent.py:130-136 | no results give the apology |
| Agent.SearchAnswerLeads | src/travel_agent/agents/langchain_agent.py:131-134 | with results and a non-empty answer, the reply opens with the answer and a blank line |
| Agent.SearchOrEmpty | src/travel_agent/agents/langchain_agent.py:123-128 | a successful search is passed on as it is; any failure becomes an empty response for the same query |
| Agent.ProcessWithAgent | src/travel_agent/agents/langchain_agent.py:79-155 | usage is zero and debug is present exactly when asked; small talk gets the greeting; it fails exactly when a places search fails; otherwise the content is the translated branch reply |
| Agent.SmallTalkSkipsServices | src/travel_agent/agents/langchain_agent.py:95-101 | small talk gives the same reply whatever the services do |
| Agent.DefaultLocationReported | src/travel_agent/agents/langchain_agent.py:105-109 | without a location the default one is used and reported in the debug payload with the intent |
| Agent.WebBranchNeverFails | src/travel_agent/agents/langchain_agent.py:122-140 | a non-places query always gets a reply |
| Agent.OfflineGeneralQuestion | src/travel_agent/agents/langchain_agent.py:122-155 | with no keys configured, a general question gets the apology, untranslated |
| Tools.ToolLocation | src/travel_agent/agents/tools/google_places_tool.py:57-59 | a location exists exactly when both coordinates are given, and building it fails when they are out of range |
| Tools.ToolIntent | src/travel_agent/agents/tools/google_places_tool.py:61-68 | a places intent with the query as descriptor; proximity and ranking are set exactly when their flags are true; open-now is passed through |
| Tools.ToolIntentSearch | src/travel_agent/agents/tools/google_places_tool.py:61-70 | the tool searches for its query, nearby exactly when asked with a location, sorted by rating exactly when asked for the best |
| Tools.ToolMatchesAgentListing | src/travel_agent/agents/tools/google_places_tool.py:72-76 | the tool's listing is the agent's places reply without the header |
| Tools.GooglePlacesTool | src/travel_agent/agents/tools/google_places_tool.py:47-76 | a bad location or a failing search is raised; otherwise the listing of the search results |
| Tools.ToolPrevious | src/travel_agent/agents/tools/intent_extractor_tool.py:55-61 | a previous intent exists exactly when a descriptor or a brand is given, and is a places intent carrying them |
| Tools.IntentLines | src/travel_agent/agents/tools/intent_extractor_tool.py:25-36 | eight lines under "Intent analysis:", one per field in order; an empty or missing descriptor, brand or proximity reads "none", a missing ranking "relevance", a missing open-now "unknown" |
| Tools.FormatIntent | src/travel_agent/agents/tools/intent_extractor_tool.py:25-36 | the text opens with the title and, on the next line, the intent kind |
| Tools.FormatIntentEightLines | src/travel_agent/agents/tools/intent_extractor_tool.py:25-36 | with no line break in the fields, the rendering has exactly seven line breaks |
| Tools.IntentTool | src/travel_agent/agents/tools/intent_extractor_tool.py:48-84 | inside a running event loop the tool raises; otherwise it reports the lines of the classification made with the given previous descriptor and brand |
| Tools.IntentToolKeepsContext | src/travel_agent/agents/tools/intent_extractor_tool.py:48-63 | outside a running loop, "cheaper" with the previous descriptor sushi reports the descriptor sushi |
| Tools.SushiLine | src/travel_agent/agents/tools/intent_extractor_tool.py:29 | the descriptor line of a sushi intent reads "- descriptor: sushi" |
| Tools.FormatResult | src/travel_agent/agents/tools/translation_tool.py:39-45 | the rendering opens with both languages and ends with the translated text |
| Tools.FormatResultOpens | src/travel_agent/agents/tools/translation_tool.py:42 | the rendering opens with "source=" |
| Tools.FormatResultEndsWithText | src/travel_agent/agents/tools/translation_tool.py:39-45 | the rendered result ends with the flag and the translated text; the flag says TRANSLATED exactly when a translation was needed |
| Tools.Dispatch | src/travel_agent/agents/tools/translation_tool.py:66-74 | a query and a response ask for consistency; otherwise a text is translated into the target or "auto"; without text there is nothing to do |
| Tools.TranslationTool | src/travel_agent/agents/tools/translation_tool.py:57-98 | without a text the fixed sentence; inside a running event loop the caught error "Translation failed: This event loop is already running"; otherwise a rendering ending with the dispatched call's text |
| Tools.NoTextNoService | src/travel_agent/agents/tools/translation_tool.py:73-74 | without a text the tool answers with the fixed sentence, loop or no loop |
| Tools.ToolTranslatesText | src/travel_agent/agents/tools/translation_tool.py:69-70 | outside a running loop, a text with a target ends up as `translate_text` translates it |
| Tools.AutoTargetNeverTranslates | src/travel_agent/agents/tools/translation_tool.py:71-72 | translating into "auto" without a source hint leaves the text unchanged |
| Workflow.StepNameInjective | week5_project/project/workflow_backend.py:28-62 | distinct steps have distinct names |
| Workflow.Fresh | week5_project/project/workflow_backend.py:16-18 | a new manager has no step and an empty state |
| Workflow.Reset | week5_project/project/workflow_backend.py:20-23 | a reset manager equals a new one |
| Workflow.Initialize | week5_project/project/workflow_backend.py:25-28 | initialising starts research on the topic alone |
| Workflow.RunSingleStep | week5_project/project/workflow_backend.py:30-66 | a step that does not run returns "END" and keeps the manager; a failing node returns "ERROR: " and the message and keeps the manager; success stores the new state and moves to the successor |
| Workflow.Transitions | week5_project/project/workflow_backend.py:36-56 | research leads to generation, generation adds one message and leads to fact-checking, fact-checking leads to human review; reflection ends once there are more than twelve messages and otherwise returns to generation |
| Workflow.ErrorKeepsManager | week5_project/project/workflow_backend.py:65-66 | a failing node leaves the manager unchanged and returns a step starting "ERROR: " |
| Workflow.ReachesReview | week5_project/project/workflow_backend.py:25-47 | without failures, three steps from a new topic reach human review |
| Workflow.ProcessHumanFeedback | week5_project/project/workflow_backend.py:68-81 | the feedback is appended; the step is END exactly when it contains "approve" in any case, otherwise reflect; the returned name is the new step's |
| Workflow.ApprovalAnywhere | week5_project/project/workflow_backend.py:76 | "APPROVE" anywhere in the feedback approves |
| Workflow.IsFactCheckContent | week5_project/project/workflow_backend.py:117-124 | one of the fact-check words occurs in the lower-cased content, possibly inside a longer word |
| Workflow.IsReflectionContent | week5_project/project/workflow_backend.py:126-133 | one of the reflection words occurs in the lower-cased content, possibly inside a longer word |
| Workflow.MentionsAnyIff | week5_project/project/workflow_backend.py:123-124 | `any(w in content.lower() ...)` holds exactly when some word occurs at some position |
| Workflow.GetWorkflowStatus | week5_project/project/workflow_backend.py:135-142 | the message count is the state length; complete exactly at END and needing review exactly at human review, never both |
| Workflow.ExtractContent | week5_project/project/workflow_backend.py:83-86 | an empty state gives "No content available" |
| Workflow.ArticleIsLatest | week5_project/project/workflow_backend.py:93-115 | the article is the content of the latest qualifying AI message; none qualifying gives "Content not available yet" |
| Workflow.FeedbackKeepsExtraction | week5_project/project/workflow_backend.py:74-103 | after feedback the research note and the article extracted are the same as before |
| Analysis.NewCostAnalyzer | week1_project/text_analysis_tool/utils/analysis_feature.py:13-21 | a name mentioning "gemini" in any case gets Gemini rates, else one mentioning "gpt" gets GPT rates, and any other is rejected |
| Analysis.TokenCount | week1_project/text_analysis_tool/utils/analysis_feature.py:27-28 | empty text has no tokens; other text has as many as the tokenizer returns |
| Analysis.AnalyzeTextAndCost | week1_project/text_analysis_tool/utils/analysis_feature.py:23-41 | the counts are the tokens of each text, and a million times the cost is the counts weighted by the per-million rates |
| Analysis.CostIndependentOfFamily | week1_project/text_analysis_tool/config.py:22-25 | with both families priced alike, any two supported names give the same cost; the cost is never negative and is zero for two empty texts |
| Analysis.CostSplitsBySide | week1_project/text_analysis_tool/utils/analysis_feature.py:30-41 | the cost of a pair is the input's cost plus the output's, and more input tokens never cost less |
| Analysis.Analyze | week1_project/text_analysis_tool/utils/analysis_feature.py:57-83 | empty text gives count 0, no tokens and the empty-input error; no error exactly when the tokenizer succeeds, and then the count is the number of tokens; a failure gives the tokenization error |
| Analysis.AnalyzeAgreesWithTokenCount | week1_project/text_analysis_tool/utils/analysis_feature.py:27-83 | with a tokenizer that does not fail and splits as the estimate's does, the analysis reports the estimate's count, the empty text included |
| Analysis.NewBenchmark | week1_project/text_analysis_tool/utils/analysis_feature.py:110-121 | a new benchmark keeps the model name and has zero times and zero counts |
| Analysis.StartTimer | week1_project/text_analysis_tool/utils/analysis_feature.py:123-125 | the start time is the clock reading and nothing else changes |
| Analysis.StopTimer | week1_project/text_analysis_tool/utils/analysis_feature.py:127-129 | the end time is the clock reading and nothing else changes |
| Analysis.RecordTokenCounts | week1_project/text_analysis_tool/utils/analysis_feature.py:131-140 | the counts are those of the two texts and the times are kept |
| Analysis.GetMetrics | week1_project/text_analysis_tool/utils/analysis_feature.py:142-164 | it fails exactly when a time is 0; latency equals total time; with positive time each rate times the time is its token count; otherwise the rates are 0 |
| Analysis.RatesAdd | week1_project/text_analysis_tool/utils/analysis_feature.py:152-162 | the overall rate is the input rate plus the output rate |
| Analysis.TimedRunCompletes | week1_project/text_analysis_tool/utils/analysis_feature.py:123-150 | metrics exist exactly when both clock readings are nonzero; stopping without starting fails |
| Analysis.EntryLines | week1_project/text_analysis_tool/utils/analysis_feature.py:192-204 | six lines per entry: number and model, total time with the slowdown, input and output tokens, tokens per second, latency |
| Analysis.EntryLinesReadBack | week1_project/text_analysis_tool/utils/analysis_feature.py:193-201 | the entry number and both token counts read back from their lines as decimal numbers |
| Analysis.EntryBlock | week1_project/text_analysis_tool/utils/analysis_feature.py:192-204 | entry `k` occupies lines `6k` to `6k+5` of the block, numbered `k + 1` |
| Analysis.CompareBenchmarks | week1_project/text_analysis_tool/utils/analysis_feature.py:166-207 | no results give the fixed sentence; it raises exactly when there are two or more entries and the fastest time is 0 |
| Analysis.ReportLinesLayout | week1_project/text_analysis_tool/utils/analysis_feature.py:177-207 | the report has three heading lines, six per entry and a closing rule; entry `k`'s number and time sit at lines `3 + 6k` and `4 + 6k` |
| Analysis.ReportLayout | week1_project/text_analysis_tool/utils/analysis_feature.py:177-207 | the entries are a permutation of the input in ascending total time, ties in input order, numbered from 1; only entries after the first carry a slowdown |
| Analysis.ZeroTimeRaises | week1_project/text_analysis_tool/utils/analysis_feature.py:181-195 | two entries where the faster took no time make the report raise |
| ChatCore.LoadSystemPrompt | week2_project/multirole_chatbot/chat_core.py:8-16 | a readable file gives its stripped contents, and a failed read the default persona |
| ChatCore.WorkingHistory | week2_project/multirole_chatbot/chat_core.py:29-30 | the working copy is the caller's history unchanged, followed by the query as a human turn |
| ChatCore.Contents | week2_project/multirole_chatbot/chat_core.py:33-35 | entry `i` is the content of turn `i` |
| ChatCore.PromptEndsWithQuery | week2_project/multirole_chatbot/chat_core.py:33-35 | the prompt is the history's contents joined by single spaces, then a space and the query, or the query alone |
| ChatCore.GetAiResponse | week2_project/multirole_chatbot/chat_core.py:18-42 | the model's reply to the prompt is returned verbatim; a failure gives the error behind the fixed prefix |
| ChatCore.ResponseSeesHistory | week2_project/multirole_chatbot/chat_core.py:29-39 | after one turn the model is asked that turn's content, a space and the query |

## Left out

- Logging and the event-loop bookkeeping of `_sync`: whether a loop is already running is a parameter of `Tools.IntentTool` and `Tools.TranslationTool`, and the rest does not affect any returned value.
- The places tool's `_run` inside a running event loop, which raises: `Tools.GooglePlacesTool` models `_arun`, which awaits the search, and `_run` outside a loop.
- The MCP adapters: they only delegate to the local tools.
- The HTTP clients, SDK clients and their caching (`_get_groq_client`, `_get_openai_client`, `_get_client`): these are replaced by the service parameters. A key is checked before any call, so the re-raised `MissingAPIKeyError` paths cannot be reached and are not modelled.
- `create_travel_agent`: it only reports metadata (the location, the tool names and a version string).
- The Tavily tool: it is outside the three tools modelled. The orchestrator calls the Tavily service directly.
- Tools.TranslationTool: of the errors the tool catches, only the running event loop is modelled. Every modelled service call is total, so no other exception reaches the handler.
- Tokenizer loading and the `ValueError` when a tokenizer cannot be loaded: this is I/O.
- The clocks of `start_timer` and `stop_timer`: readings are parameters.
- Float digits and rounding: `:.Nf` and `str(float)` are opaque formatting parameters, and arithmetic is over exact reals.
- JSON decoding of model replies: it is a parsing parameter that yields an intent or payload, or nothing. JSON `null` and non-string fields are not distinguished from missing ones.
- Python `str.lower()`, `str.strip()` and regex `IGNORECASE`: these are modelled on ASCII. Whitespace is the six ASCII whitespace characters. `\w` counts every non-ASCII character as a word character.
- Translation.TranslateText: a `None` target is not modelled, because every caller passes a string.
- Workflow.ExtractContent: only states the empty-state case itself. The article search is stated by `Workflow.ArticleIsLatest`, and the research search by `Workflow.FeedbackKeepsExtraction`. The fact-check and reflection searches follow the same pattern and have no lemma of their own.
- Agent.SearchContent: states only the empty case. The answer-first layout is in `Agent.SearchAnswerLeads`.
- DistanceMatrix.DestinationParts: states only a bound. Alignment is in `DistanceMatrix.DestinationPartsAligned`.
- The LangGraph nodes of the workflow (research, generate, fact-check, reflect) are parameters that return a new state or an error message.

## Findings

| source | as written | input that shows it | evidently intended | confidence | as-written member | corrected member |
|---|---|---|---|---|---|---|
| src/travel_agent/services/google_places.py:286-308 | a place without an id gets the caller's `models.chat.LatLng` as destination, which `calculate_distance_matrix` (src/travel_agent/services/distance_matrix.py:34-40) skips, so reply row `i` is no longer place `i` | three places with ids a, none, c: the request lists only a and c, so the second place is shown c's distance and the third none | the user's location is sent as a `models.places.LatLng`, so there is one destination per place | not executed | GooglePlaces.EnrichPlacesAsWritten, GooglePlaces.EnrichmentMisaligned | GooglePlaces.EnrichPlaces, GooglePlaces.EnrichPlacesAligned, GooglePlaces.EnrichPlacesOwnTexts, GooglePlaces.SearchPlacesCorrected |
