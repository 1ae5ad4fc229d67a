/** The travel agent's intent classifier (`services/intent_extractor.py`): a
    deterministic heuristic over the query text, and an LLM tier (Groq) that
    falls back to it and carries the previous turn's descriptor and brand. */
module IntentExtractor {
  import opened Wrappers
  import opened Text
  import opened Configuration
  import opened Completions

  /** `ExtractedIntent`. The LLM tier may fill the string fields with anything. */
  datatype Intent = Intent(
    kind: string,
    descriptor: Option<string>,
    brand: Option<string>,
    proximity: Option<string>,
    ranking: Option<string>,
    openNow: Option<bool>,
    price: Option<string>,
    language: Option<string>,
    confidence: real)

  /** `ExtractedIntent(intent=kind)`: every other field at its default. */
  function Bare(kind: string): Intent {
    Intent(kind, None, None, None, None, None, None, None, 0.0)
  }

  const PlacesKeywords: seq<string> := [
    "restaurant", "coffee", "cafe", "hotel", "shop", "store", "mall", "park",
    "museum", "food", "dinner", "lunch", "breakfast", "bar", "club", "gym"
  ]

  const QuestionWords: set<string> := {
    "what", "where", "when", "who", "why", "how", "which", "find", "show", "list"
  }

  // ---------------------------------------------------------------------
  // Descriptor: the first token of `re.split(r"[^a-z0-9]+", normalized)`
  // that is a keyword.

  function AlnumRunEnd(s: string, i: nat): (e: nat)
    requires i <= |s|
    ensures i <= e <= |s|
    ensures forall k :: i <= k < e ==> IsLowerAlnum(s[k])
    ensures e == |s| || !IsLowerAlnum(s[e])
    decreases |s| - i
  {
    if i == |s| || !IsLowerAlnum(s[i]) then i else AlnumRunEnd(s, i + 1)
  }

  /** `s[a..b]` is one whole token: a maximal run of `[a-z0-9]`. */
  ghost predicate TokenAt(s: string, a: int, b: int) {
    && 0 <= a < b <= |s|
    && (forall k :: a <= k < b ==> IsLowerAlnum(s[k]))
    && (a == 0 || !IsLowerAlnum(s[a - 1]))
    && (b == |s| || !IsLowerAlnum(s[b]))
  }

  ghost predicate KeywordAt(s: string, a: int, b: int) {
    TokenAt(s, a, b) && s[a..b] in PlacesKeywords
  }

  /** Position `i` does not split a token. */
  predicate TokenBoundary(s: string, i: nat)
    requires i <= |s|
  {
    i == 0 || i == |s| || !IsLowerAlnum(s[i - 1]) || !IsLowerAlnum(s[i])
  }

  /** The span of the first keyword token starting at or after `i`. */
  function KeywordFrom(s: string, i: nat): (r: Option<(nat, nat)>)
    requires i <= |s| && TokenBoundary(s, i)
    ensures r.Some? ==> i <= r.value.0 && KeywordAt(s, r.value.0, r.value.1)
    ensures r.Some? ==> forall a, b :: i <= a < r.value.0 ==> !KeywordAt(s, a, b)
    ensures r.None? ==> forall a, b :: i <= a ==> !KeywordAt(s, a, b)
    decreases |s| - i
  {
    if i == |s| then None
    else if !IsLowerAlnum(s[i]) then KeywordFrom(s, i + 1)
    else
      var e := AlnumRunEnd(s, i);
      TokenStartingAt(s, i, e);
      if s[i..e] in PlacesKeywords then Some((i, e)) else KeywordFrom(s, e)
  }

  /** The only token starting in `[i, e)` is `s[i..e]` itself. */
  lemma TokenStartingAt(s: string, i: nat, e: nat)
    requires i < e <= |s| && TokenBoundary(s, i) && IsLowerAlnum(s[i])
    requires forall k :: i <= k < e ==> IsLowerAlnum(s[k])
    requires e == |s| || !IsLowerAlnum(s[e])
    ensures TokenAt(s, i, e)
    ensures forall a, b :: i <= a < e && TokenAt(s, a, b) ==> a == i && b == e
  {
  }

  function FirstKeyword(s: string): Option<string> {
    match KeywordFrom(s, 0)
    case Some((a, b)) => Some(s[a..b])
    case None => None
  }

  /** `w` is the earliest keyword token of `s`. */
  ghost predicate EarliestKeyword(s: string, w: string) {
    exists a, b :: KeywordAt(s, a, b) && s[a..b] == w && forall a2, b2 :: a2 < a ==> !KeywordAt(s, a2, b2)
  }

  ghost predicate NoKeyword(s: string) {
    forall a, b :: !KeywordAt(s, a, b)
  }

  /** The descriptor scan finds exactly the earliest whole-token keyword: a
      keyword inside a longer token ("coffeeshop") never matches. */
  lemma FirstKeywordSpec(s: string)
    ensures FirstKeyword(s).Some? ==> FirstKeyword(s).value in PlacesKeywords
    ensures FirstKeyword(s).Some? ==> EarliestKeyword(s, FirstKeyword(s).value)
    ensures FirstKeyword(s).None? <==> NoKeyword(s)
  {
    var r := KeywordFrom(s, 0);
    if r.Some? {
      var a, b := r.value.0, r.value.1;
      assert KeywordAt(s, a, b) && s[a..b] == FirstKeyword(s).value;
      assert !NoKeyword(s);
    }
  }

  /** A query that is one single token has a keyword exactly when the whole
      query is one: a keyword glued to other letters ("coffeeshop") is no
      token of its own. */
  lemma SingleTokenKeyword(s: string)
    requires s != [] && forall k :: 0 <= k < |s| ==> IsLowerAlnum(s[k])
    ensures FirstKeyword(s) == if s in PlacesKeywords then Some(s) else None
  {
    assert TokenAt(s, 0, |s|);
    assert s[0..|s|] == s;
    FirstKeywordSpec(s);
  }

  lemma CoffeeshopHasNoKeyword()
    ensures FirstKeyword("coffeeshop") == None
  {
    SingleTokenKeyword("coffeeshop");
  }

  // ---------------------------------------------------------------------
  // Brand: the first match of `re.findall(r"([A-Z][a-zA-Z]+)", query)`
  // whose lower-case form is not a question word.

  function LetterRunEnd(s: string, i: nat): (e: nat)
    requires i <= |s|
    ensures i <= e <= |s|
    ensures forall k :: i <= k < e ==> IsLetter(s[k])
    ensures e == |s| || !IsLetter(s[e])
    decreases |s| - i
  {
    if i == |s| || !IsLetter(s[i]) then i else LetterRunEnd(s, i + 1)
  }

  /** Start of the run of letters that ends just before `a`. */
  function LetterRunStart(s: string, a: nat): (p: nat)
    requires a <= |s|
    ensures p <= a
    ensures forall k :: p <= k < a ==> IsLetter(s[k])
    ensures p == 0 || !IsLetter(s[p - 1])
  {
    if a == 0 || !IsLetter(s[a - 1]) then a else LetterRunStart(s, a - 1)
  }

  lemma {:induction false} LetterRunStartBelow(s: string, i: nat, a: nat)
    requires i <= a <= |s|
    requires forall k :: i <= k < a ==> IsLetter(s[k])
    ensures LetterRunStart(s, a) <= i
    decreases a
  {
    if a > i {
      LetterRunStartBelow(s, i, a - 1);
    }
  }

  /** `s[a..b]` is a match of `findall`: the leftmost upper-case letter of a
      run of letters, followed by at least one letter, up to the run's end. */
  ghost predicate FindallMatch(s: string, a: int, b: int) {
    && 0 <= a && a + 2 <= b <= |s|
    && IsUpper(s[a])
    && (forall k :: a < k < b ==> IsLetter(s[k]))
    && (b == |s| || !IsLetter(s[b]))
    && (forall k :: LetterRunStart(s, a) <= k < a ==> !IsUpper(s[k]))
  }

  predicate IsQuestionWord(w: string) {
    Lower(w) in QuestionWords
  }

  /** `findall` is ready to scan at `i`: no match is in progress there. */
  predicate ScanReady(s: string, i: nat)
    requires i <= |s|
  {
    i == |s| || !IsLetter(s[i]) || forall k :: LetterRunStart(s, i) <= k < i ==> !IsUpper(s[k])
  }

  function BrandFrom(s: string, i: nat): (r: Option<(nat, nat)>)
    requires i <= |s| && ScanReady(s, i)
    ensures r.Some? ==> i <= r.value.0 && FindallMatch(s, r.value.0, r.value.1)
    ensures r.Some? ==> !IsQuestionWord(s[r.value.0..r.value.1])
    ensures r.Some? ==> forall a, b :: i <= a < r.value.0 && FindallMatch(s, a, b) ==> IsQuestionWord(s[a..b])
    ensures r.None? ==> forall a, b :: i <= a && FindallMatch(s, a, b) ==> IsQuestionWord(s[a..b])
    decreases |s| - i
  {
    if i == |s| then None
    else if IsUpper(s[i]) && i + 1 < |s| && IsLetter(s[i + 1]) then
      var e := LetterRunEnd(s, i + 1);
      FindallMatchAt(s, i, e);
      if !IsQuestionWord(s[i..e]) then Some((i, e)) else BrandFrom(s, e)
    else
      BrandFrom(s, i + 1)
  }

  /** A match starting at `i` runs to the end of its letters, and no other
      match starts inside it. */
  lemma FindallMatchAt(s: string, i: nat, e: nat)
    requires i + 1 < e <= |s| && IsUpper(s[i]) && ScanReady(s, i)
    requires forall k :: i + 1 <= k < e ==> IsLetter(s[k])
    requires e == |s| || !IsLetter(s[e])
    ensures FindallMatch(s, i, e)
    ensures forall a, b :: i <= a < e && FindallMatch(s, a, b) ==> a == i && b == e
  {
    forall a, b | i <= a < e && FindallMatch(s, a, b) ensures a == i && b == e {
      LetterRunStartBelow(s, i, a);
    }
  }

  function FirstBrand(query: string): Option<string> {
    match BrandFrom(query, 0)
    case Some((a, b)) => Some(query[a..b])
    case None => None
  }

  /** A brand is a findall match of the query that is not a question word, so
      it occurs in the query, starts with an upper-case letter and has at least
      two letters; no brand means every match is a question word. */
  lemma FirstBrandSpec(query: string)
    ensures FirstBrand(query).Some? ==>
              var w := FirstBrand(query).value;
              && |w| >= 2 && IsUpper(w[0]) && (forall k :: 0 <= k < |w| ==> IsLetter(w[k]))
              && !IsQuestionWord(w) && (exists a :: OccursAt(query, w, a))
              && exists a, b :: FindallMatch(query, a, b) && query[a..b] == w
    ensures FirstBrand(query).None? ==>
              forall a, b :: FindallMatch(query, a, b) ==> IsQuestionWord(query[a..b])
  {
    var r := BrandFrom(query, 0);
    if r.Some? {
      var a, b := r.value.0, r.value.1;
      var w := query[a..b];
      assert OccursAt(query, w, a);
      assert forall k :: 0 <= k < |w| ==> IsLetter(w[k]) by {
        forall k | 0 <= k < |w| ensures IsLetter(w[k]) {
          assert w[k] == query[a + k];
        }
      }
    }
  }

  // ---------------------------------------------------------------------
  // Flags

  /** `[a-zA-Z ]`, what may follow `near\s+` (every alternative of the group
      starts with such a character). */
  predicate NearFollower(c: char) {
    IsLetter(c) || c == ' '
  }

  /** Starting at `k`, some whitespace then a follower. */
  function FollowerAfterSpaces(s: string, k: nat): bool
    requires k <= |s|
    decreases |s| - k
  {
    if k == |s| then false
    else if NearFollower(s[k]) then true
    else if IsSpace(s[k]) then FollowerAfterSpaces(s, k + 1)
    else false
  }

  /** `near\s+(me|by|here|[a-zA-Z ]+)` matches at `i`. */
  predicate NearAt(s: string, i: nat) {
    i + 5 <= |s| && s[i..i + 4] == "near" && IsSpace(s[i + 4]) && FollowerAfterSpaces(s, i + 5)
  }

  predicate HasNear(s: string) {
    exists i | 0 <= i < |s| :: NearAt(s, i)
  }

  /** The regular expression's own reading: "near", one or more whitespace
      characters up to `k`, then a letter or a space at `k`. */
  ghost predicate NearMatchWith(s: string, i: int, k: int) {
    && 0 <= i && i + 4 < k < |s| && s[i..i + 4] == "near"
    && (forall m :: i + 4 <= m < k ==> IsSpace(s[m]))
    && NearFollower(s[k])
  }

  ghost predicate SpacesThenFollower(s: string, j: int, k: int) {
    0 <= j <= k < |s| && (forall m :: j <= m < k ==> IsSpace(s[m])) && NearFollower(s[k])
  }

  lemma {:induction false} FollowerAfterSpacesIff(s: string, j: nat)
    requires j <= |s|
    ensures FollowerAfterSpaces(s, j) <==> exists k :: SpacesThenFollower(s, j, k)
    decreases |s| - j
  {
    if j < |s| {
      if NearFollower(s[j]) {
        assert SpacesThenFollower(s, j, j);
      } else {
        FollowerAfterSpacesIff(s, j + 1);
        forall k | SpacesThenFollower(s, j, k) ensures IsSpace(s[j]) && SpacesThenFollower(s, j + 1, k) {
        }
        if IsSpace(s[j]) && FollowerAfterSpaces(s, j + 1) {
          var k :| SpacesThenFollower(s, j + 1, k);
          assert SpacesThenFollower(s, j, k);
        }
      }
    }
  }

  lemma NearAtIff(s: string, i: nat)
    ensures NearAt(s, i) <==> exists k :: NearMatchWith(s, i, k)
  {
    if i + 5 <= |s| {
      FollowerAfterSpacesIff(s, i + 5);
      forall k | NearMatchWith(s, i, k) ensures IsSpace(s[i + 4]) && SpacesThenFollower(s, i + 5, k) {
      }
      if NearAt(s, i) {
        var k :| SpacesThenFollower(s, i + 5, k);
        assert NearMatchWith(s, i, k);
      }
    }
  }

  const BestWords: seq<string> := ["best", "top", "popular", "famous"]

  predicate WantsProminence(s: string) {
    exists w | w in BestWords :: Contains(s, w)
  }

  predicate WantsOpen(s: string) {
    Contains(s, "open now") || Contains(s, "open late")
  }

  // ---------------------------------------------------------------------
  // The heuristic tier

  function Normalize(query: string): string {
    Strip(Lower(query))
  }

  function StickyDescriptor(found: Option<string>, previous: Option<Intent>): Option<string> {
    if found.None? && previous.Some? && Truthy(previous.value.descriptor) then previous.value.descriptor
    else found
  }

  function HeuristicConfidence(isPlaces: bool, previous: Option<Intent>): real {
    var base := if isPlaces then 0.7 else 0.4;
    if previous.Some? && previous.value.kind == "places" && isPlaces then
      (if previous.value.confidence * 0.9 > base then previous.value.confidence * 0.9 else base)
    else base
  }

  /** `_heuristic_intent(query, previous)`. */
  function HeuristicIntent(query: string, previous: Option<Intent>): (r: Intent)
    ensures AllSpace(Lower(query)) ==> r == Bare("other")
    ensures r.kind == "places" || r.kind == "other"
    ensures r.kind == "places" <==> r.descriptor.Some? || r.brand.Some?
    ensures r.openNow != Some(false)
    ensures r.price.None? && r.language.None?
  {
    var normalized := Normalize(query);
    if normalized == "" then Bare("other")
    else
      var descriptor := StickyDescriptor(FirstKeyword(normalized), previous);
      var brand := FirstBrand(query);
      var isPlaces := descriptor.Some? || brand.Some?;
      Intent(
        kind := if isPlaces then "places" else "other",
        descriptor := descriptor,
        brand := brand,
        proximity := if HasNear(normalized) then Some("near_me") else None,
        ranking := if WantsProminence(normalized) then Some("prominence") else None,
        openNow := if WantsOpen(normalized) then Some(true) else None,
        price := None,
        language := None,
        confidence := HeuristicConfidence(isPlaces, previous))
  }

  /** A blank query is "other" with confidence 0 and nothing else set. */
  lemma HeuristicBlank(query: string, previous: Option<Intent>)
    requires AllSpace(query)
    ensures HeuristicIntent(query, previous) == Bare("other")
    ensures HeuristicIntent(query, previous).confidence == 0.0
  {
    assert AllSpace(Lower(query));
  }

  /** The descriptor is the earliest whole-token keyword of the normalised
      query, else the previous turn's non-empty descriptor, else none. */
  lemma HeuristicDescriptor(query: string, previous: Option<Intent>)
    requires !AllSpace(Lower(query))
    ensures var r := HeuristicIntent(query, previous);
            var s := Normalize(query);
            && (!NoKeyword(s) ==> r.descriptor.Some? && r.descriptor.value in PlacesKeywords
                                  && EarliestKeyword(s, r.descriptor.value))
            && (NoKeyword(s) && previous.Some? && Truthy(previous.value.descriptor) ==>
                  r.descriptor == previous.value.descriptor)
            && (NoKeyword(s) && !(previous.Some? && Truthy(previous.value.descriptor)) ==>
                  r.descriptor.None?)
  {
    FirstKeywordSpec(Normalize(query));
  }

  /** The brand is a capitalised word of the query that is not a question
      word, and the first such findall match. */
  lemma HeuristicBrand(query: string, previous: Option<Intent>)
    requires !AllSpace(Lower(query))
    ensures var r := HeuristicIntent(query, previous);
            && (r.brand.Some? ==>
                 && |r.brand.value| >= 2 && IsUpper(r.brand.value[0]) && !IsQuestionWord(r.brand.value)
                 && (exists a :: OccursAt(query, r.brand.value, a))
                 && exists a, b :: FindallMatch(query, a, b) && query[a..b] == r.brand.value
                      && forall a2, b2 :: a2 < a && FindallMatch(query, a2, b2) ==> IsQuestionWord(query[a2..b2]))
            && (r.brand.None? ==> forall a, b :: FindallMatch(query, a, b) ==> IsQuestionWord(query[a..b]))
  {
    FirstBrandSpec(query);
    var r := BrandFrom(query, 0);
    if r.Some? {
      var a, b := r.value.0, r.value.1;
      assert FindallMatch(query, a, b) && query[a..b] == FirstBrand(query).value;
    }
  }

  /** Proximity is "near_me" exactly when `near\s+[a-zA-Z ]` occurs in the
      normalised query, and absent otherwise. */
  lemma HeuristicProximity(query: string, previous: Option<Intent>)
    requires !AllSpace(Lower(query))
    ensures var r := HeuristicIntent(query, previous);
            && (r.proximity == Some("near_me") <==> exists i, k :: NearMatchWith(Normalize(query), i, k))
            && (r.proximity.None? || r.proximity == Some("near_me"))
  {
    HasNearIff(Normalize(query));
  }

  lemma HasNearIff(s: string)
    ensures HasNear(s) <==> exists i, k :: NearMatchWith(s, i, k)
  {
    if HasNear(s) {
      var i :| 0 <= i < |s| && NearAt(s, i);
      NearAtIff(s, i);
    }
    if exists i, k :: NearMatchWith(s, i, k) {
      var i, k :| NearMatchWith(s, i, k);
      NearAtIff(s, i);
      assert NearAt(s, i);
    }
  }

  /** Ranking is "prominence" exactly when one of the words best, top, popular
      or famous occurs anywhere in the normalised query, even inside another
      word. */
  lemma HeuristicRanking(query: string, previous: Option<Intent>)
    requires !AllSpace(Lower(query))
    ensures var r := HeuristicIntent(query, previous);
            && (r.ranking == Some("prominence") <==> exists w, i :: w in BestWords && OccursAt(Normalize(query), w, i))
            && (r.ranking.None? || r.ranking == Some("prominence"))
  {
    WantsProminenceIff(Normalize(query));
  }

  lemma WantsProminenceIff(s: string)
    ensures WantsProminence(s) <==> exists w, i :: w in BestWords && OccursAt(s, w, i)
  {
    if WantsProminence(s) {
      var w :| w in BestWords && Contains(s, w);
      ContainsIff(s, w);
    }
    if exists w, i :: w in BestWords && OccursAt(s, w, i) {
      var w, i :| w in BestWords && OccursAt(s, w, i);
      ContainsIff(s, w);
    }
  }

  /** Open-now is true exactly when "open now" or "open late" occurs in the
      normalised query, and is never set to false. */
  lemma HeuristicOpenNow(query: string, previous: Option<Intent>)
    requires !AllSpace(Lower(query))
    ensures var r := HeuristicIntent(query, previous);
            var s := Normalize(query);
            && (r.openNow == Some(true) <==> (exists i :: OccursAt(s, "open now", i)) || (exists i :: OccursAt(s, "open late", i)))
            && (r.openNow.None? || r.openNow == Some(true))
  {
    var s := Normalize(query);
    ContainsIff(s, "open now");
    ContainsIff(s, "open late");
  }

  /** A query already lower-case and trimmed is its own normal form. */
  lemma NormalizeIdentity(s: string)
    requires s != [] && !IsSpace(s[0]) && !IsSpace(s[|s| - 1])
    requires forall k :: 0 <= k < |s| ==> !IsUpper(s[k])
    ensures Normalize(s) == s
  {
    assert Lower(s) == s;
  }

  /** "laptop" asks for the most prominent places: the ranking test is a bare
      substring test. */
  lemma LaptopTriggersRanking()
    ensures HeuristicIntent("laptop", None).ranking == Some("prominence")
  {
    var s := "laptop";
    NormalizeIdentity(s);
    assert !AllSpace(Lower(s)) by {
      assert Lower(s)[0] == 'l';
    }
    HeuristicRanking(s, None);
    assert "top" in BestWords && OccursAt(s, "top", 3);
  }

  /** Confidence is 0.4 for "other" and 0.7 for places, raised to 90% of the
      previous places confidence when that is higher: a floor, not a cap. */
  lemma HeuristicConfidenceSpec(query: string, previous: Option<Intent>)
    requires !AllSpace(Lower(query))
    ensures var r := HeuristicIntent(query, previous);
            && (r.kind == "other" ==> r.confidence == 0.4)
            && (r.kind == "places" ==> r.confidence >= 0.7)
            && (r.kind == "places" && previous.Some? && previous.value.kind == "places" ==>
                  r.confidence >= 0.9 * previous.value.confidence
                  && (r.confidence == 0.7 || r.confidence == 0.9 * previous.value.confidence))
            && (r.kind == "places" && !(previous.Some? && previous.value.kind == "places") ==>
                  r.confidence == 0.7)
  {
  }

  // ---------------------------------------------------------------------
  // The LLM tier

  /** The Groq client and `ExtractedIntent(**json.loads(content))`, which
      yields nothing when the JSON or its fields are rejected. */
  datatype IntentLlm = IntentLlm(
    complete: seq<ChatMessage> -> Completion,
    parse: string -> Option<Intent>)

  const IntentPrompt: string :=
    "You are ExtractorAI. Convert the user's request into a JSON object with:\n"
    + "intent: \"places\" or \"other\"\n"
    + "descriptor: clean descriptor (e.g. \"coffee shop\") or null\n"
    + "brand: brand name or null\n"
    + "proximity: \"near_me\" or null\n"
    + "openNow: boolean\n"
    + "price: \"low\" | \"mid\" | \"high\" | null\n"
    + "ranking: \"prominence\" | null\n"
    + "language: ISO code (\"en\" or \"ar\")\n"
    + "confidence: float 0-1\n"
    + "\n"
    + "Rules:\n"
    + "- Strip filler phrases like \"what's the best\" from descriptor.\n"
    + "- If unsure, set intent=\"other\" and confidence<0.45.\n"
    + "- Keep response strictly JSON."

  predicate HasContext(previous: Option<Intent>) {
    previous.Some? && (Truthy(previous.value.descriptor) || Truthy(previous.value.brand))
  }

  function ContextNote(previous: Intent): string {
    "Previous context: descriptor=" + OrElse(previous.descriptor, "null")
    + ", brand=" + OrElse(previous.brand, "null")
    + ". Use this if the new query is ambiguous."
  }

  /** The messages sent to the model: the system prompt, the previous-context
      note exactly when the previous intent has a descriptor or a brand, and
      the user's query last. */
  function PromptMessages(query: string, previous: Option<Intent>): (r: seq<ChatMessage>)
    ensures |r| == if HasContext(previous) then 3 else 2
    ensures r[0] == ChatMessage("system", IntentPrompt)
    ensures r[|r| - 1] == ChatMessage("user", query)
    ensures HasContext(previous) ==> r[1] == ChatMessage("system", ContextNote(previous.value))
    ensures forall i :: 0 <= i < |r| - 1 ==> r[i].role == "system"
  {
    var context := if HasContext(previous) then [ChatMessage("system", ContextNote(previous.value))] else [];
    [ChatMessage("system", IntentPrompt)] + context + [ChatMessage("user", query)]
  }

  /** A parsed intent with neither descriptor nor brand takes both from the
      previous intent. */
  function CarryOver(intent: Intent, previous: Option<Intent>): (r: Intent)
    ensures previous.Some? && !Truthy(intent.descriptor) && !Truthy(intent.brand) ==>
              r == intent.(descriptor := previous.value.descriptor, brand := previous.value.brand)
    ensures !(previous.Some? && !Truthy(intent.descriptor) && !Truthy(intent.brand)) ==> r == intent
  {
    if previous.Some? && !Truthy(intent.descriptor) && !Truthy(intent.brand) then
      intent.(descriptor := previous.value.descriptor, brand := previous.value.brand)
    else intent
  }

  /** `extract_intent(query, previous)`. */
  function ExtractIntent(query: string, previous: Option<Intent>, settings: Settings, llm: IntentLlm): (r: Intent)
    ensures AllSpace(query) ==> r == Bare("other")
    ensures !AllSpace(query) && settings.groqKey == "" ==> r == HeuristicIntent(query, previous)
    ensures !AllSpace(query) && settings.groqKey != "" ==>
              match llm.complete(PromptMessages(query, previous))
              case CallFailed => r == HeuristicIntent(query, previous)
              case Completed(content) =>
                if !Truthy(content) || llm.parse(content.value).None? then r == HeuristicIntent(query, previous)
                else r == CarryOver(llm.parse(content.value).value, previous)
  {
    if Strip(query) == "" then Bare("other")
    else if settings.groqKey == "" then HeuristicIntent(query, previous)
    else
      match llm.complete(PromptMessages(query, previous))
      case CallFailed => HeuristicIntent(query, previous)
      case Completed(content) =>
        if !Truthy(content) then HeuristicIntent(query, previous)
        else
          match llm.parse(content.value)
          case None => HeuristicIntent(query, previous)
          case Some(parsed) => CarryOver(parsed, previous)
  }

  /** Without a Groq key the model is never consulted. */
  lemma NoKeyIgnoresModel(query: string, previous: Option<Intent>, settings: Settings, a: IntentLlm, b: IntentLlm)
    requires settings.groqKey == ""
    ensures ExtractIntent(query, previous, settings, a) == ExtractIntent(query, previous, settings, b)
  {
  }

  lemma CheaperHasNoKeyword()
    ensures !AllSpace("cheaper") && !AllSpace(Lower("cheaper"))
    ensures Normalize("cheaper") == "cheaper" && NoKeyword("cheaper")
  {
    var q := "cheaper";
    assert !IsSpace(q[0]) && Lower(q)[0] == 'c';
    NormalizeIdentity(q);
    assert q !in PlacesKeywords;
    SingleTokenKeyword(q);
    FirstKeywordSpec(q);
  }

  /** A follow-up without a keyword keeps the previous descriptor: "cheaper"
      after a sushi turn still asks for sushi. */
  lemma StickySushi(settings: Settings, llm: IntentLlm)
    requires settings.groqKey == ""
    ensures var previous := Some(Bare("places").(descriptor := Some("sushi")));
            var r := ExtractIntent("cheaper", previous, settings, llm);
            r.kind == "places" && r.descriptor == Some("sushi")
  {
    var previous := Some(Bare("places").(descriptor := Some("sushi")));
    CheaperHasNoKeyword();
    HeuristicDescriptor("cheaper", previous);
  }
}
