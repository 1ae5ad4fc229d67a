/** The place search pipeline (`services/google_places.py`): mapping raw
    Places API records, the text and nearby searches, the radius ladder,
    distance enrichment, and the open-now filter and rating sort applied to
    the results. */
module GooglePlaces {
  import opened Wrappers
  import opened Text
  import opened Seqs
  import opened Configuration
  import opened PlaceModels
  import opened DistanceMatrix
  import IntentExtractor

  // ---------------------------------------------------------------------
  // Raw records

  datatype OpeningHours = OpeningHours(openNow: Option<bool>)

  /** One entry of the reply's `places` list; `None` is a missing key. An
      empty `currentOpeningHours` object is `None` too, since it is falsy. */
  datatype RawPlace = RawPlace(
    id: Option<string>,
    displayName: Option<string>,
    formattedAddress: Option<string>,
    rating: Option<real>,
    priceLevel: Option<string>,
    openingHours: Option<OpeningHours>)

  function PriceCode(level: int): string
    requires 0 <= level <= 4
  {
    ["PRICE_LEVEL_FREE", "PRICE_LEVEL_INEXPENSIVE", "PRICE_LEVEL_MODERATE",
     "PRICE_LEVEL_EXPENSIVE", "PRICE_LEVEL_VERY_EXPENSIVE"][level]
  }

  /** The `price_map` of the record mapping. */
  function PriceTable(code: string): Option<int> {
    if code == "PRICE_LEVEL_FREE" then Some(0)
    else if code == "PRICE_LEVEL_INEXPENSIVE" then Some(1)
    else if code == "PRICE_LEVEL_MODERATE" then Some(2)
    else if code == "PRICE_LEVEL_EXPENSIVE" then Some(3)
    else if code == "PRICE_LEVEL_VERY_EXPENSIVE" then Some(4)
    else None
  }

  /** The table maps exactly the five codes, each to its own level 0 to 4. */
  lemma PriceTableInverse(code: string, level: int)
    ensures PriceTable(code) == Some(level) <==> 0 <= level <= 4 && code == PriceCode(level)
  {
  }

  /** A mapped level always has its own budget label. */
  lemma PriceTableLabels()
    ensures PriceLabel(PriceTable("PRICE_LEVEL_FREE")) == "free"
    ensures PriceLabel(PriceTable("PRICE_LEVEL_INEXPENSIVE")) == "low"
    ensures PriceLabel(PriceTable("PRICE_LEVEL_MODERATE")) == "mid"
    ensures PriceLabel(PriceTable("PRICE_LEVEL_EXPENSIVE")) == "high"
    ensures PriceLabel(PriceTable("PRICE_LEVEL_VERY_EXPENSIVE")) == "premium"
    ensures PriceLabel(PriceTable("PRICE_LEVEL_UNSPECIFIED")) == "unknown"
  {
  }

  const MapsUrlPrefix: string := "https://www.google.com/maps/place/?q=place_id:"

  /** `_map_result_to_place(result)`. */
  function MapResult(raw: RawPlace): (p: Place)
    ensures raw.displayName.None? ==> p.name == "Unknown"
    ensures raw.displayName.Some? ==> p.name == raw.displayName.value
    ensures p.address == Some(raw.formattedAddress.GetOr(""))
    ensures p.placeId == raw.id && p.rating == raw.rating
    ensures p.url.Some? <==> Truthy(raw.id)
    ensures p.url.Some? ==> p.url.value == MapsUrlPrefix + raw.id.value
    ensures p.priceLevel.Some? <==> Truthy(raw.priceLevel) && PriceTable(raw.priceLevel.value).Some?
    ensures p.priceLevel.Some? ==> 0 <= p.priceLevel.value <= 4 && raw.priceLevel == Some(PriceCode(p.priceLevel.value))
    ensures raw.openingHours.None? ==> p.openNow.None?
    ensures raw.openingHours.Some? ==> p.openNow == raw.openingHours.value.openNow
    ensures p.distanceText.None? && p.durationText.None? && p.distanceValue.None? && p.durationValue.None?
  {
    var level := if Truthy(raw.priceLevel) then PriceTable(raw.priceLevel.value) else None;
    Place(
      name := raw.displayName.GetOr("Unknown"),
      address := Some(raw.formattedAddress.GetOr("")),
      placeId := raw.id,
      rating := raw.rating,
      priceLevel := level,
      openNow := if raw.openingHours.Some? then raw.openingHours.value.openNow else None,
      url := if Truthy(raw.id) then Some(MapsUrlPrefix + raw.id.value) else None,
      distanceText := None,
      durationText := None,
      distanceValue := None,
      durationValue := None)
  }

  function MapResults(raws: seq<RawPlace>): (r: seq<Place>)
    ensures |r| == |raws|
    ensures forall i :: 0 <= i < |raws| ==> r[i] == MapResult(raws[i])
  {
    seq(|raws|, i requires 0 <= i < |raws| => MapResult(raws[i]))
  }

  // ---------------------------------------------------------------------
  // The two searches

  const FieldMask: string := Join([
    "places.id", "places.displayName", "places.formattedAddress", "places.location",
    "places.rating", "places.userRatingCount", "places.priceLevel",
    "places.currentOpeningHours", "places.primaryTypeDisplayName", "places.types"], ",")

  datatype Circle = Circle(center: LatLng, radius: int)

  datatype TextRequest = TextRequest(
    textQuery: string,
    languageCode: string,
    maxResultCount: nat,
    locationBias: Option<Circle>,
    apiKey: string,
    fieldMask: string)

  datatype NearbyRequest = NearbyRequest(
    languageCode: string,
    locationRestriction: Circle,
    apiKey: string,
    fieldMask: string)

  /** The outcome of one POST: an httpx timeout, another httpx request
      error, any other exception, or a status code with a body that is valid
      JSON listing the places (`Some`) or not (`None`). A missing `places` key
      is the empty list. */
  datatype PlacesReply =
    | TimedOut
    | RequestFailed(what: string)
    | Crashed(what: string)
    | Response(code: int, body: Option<seq<RawPlace>>)

  predicate IsSuccess(code: int) {
    200 <= code < 300
  }

  /** The body of a text search: English, at most five results, and a
      location bias of the given radius exactly when a location is given. */
  function TextRequestFor(query: string, location: Option<LatLng>, radius: int, key: string): (q: TextRequest)
    ensures q.textQuery == query && q.languageCode == "en" && q.maxResultCount == 5
    ensures q.locationBias.Some? <==> location.Some?
    ensures location.Some? ==> q.locationBias == Some(Circle(location.value, radius))
  {
    TextRequest(query, "en", 5, if location.Some? then Some(Circle(location.value, radius)) else None, key, FieldMask)
  }

  /** `search_places_text(query, location, radius_m)`. */
  function SearchText(
    settings: Settings, query: string, location: Option<LatLng>, radius: int,
    service: TextRequest -> PlacesReply): (r: Result<seq<Place>, ServiceError>)
    ensures settings.googleMapsKey == "" ==> r == Err(MissingApiKey("GOOGLE_MAPS_API_KEY"))
    ensures settings.googleMapsKey != "" ==>
              var reply := service(TextRequestFor(query, location, radius, settings.googleMapsKey));
              && (r.Ok? <==> reply.Response? && IsSuccess(reply.code) && reply.body.Some?)
              && (r.Ok? ==> r.value == MapResults(reply.body.value))
              && (r == Err(Timeout("GOOGLE_PLACES_TIMEOUT")) <==> reply.TimedOut?)
              && (r == Err(Network("GOOGLE_PLACES_NETWORK_ERROR")) <==> reply.RequestFailed?)
              && (r == Err(Upstream("GOOGLE_PLACES_ERROR")) <==> reply.Response? && !IsSuccess(reply.code))
              && (r == Err(Upstream("GOOGLE_PLACES_UNEXPECTED_ERROR")) <==>
                    reply.Crashed? || (reply.Response? && IsSuccess(reply.code) && reply.body.None?))
  {
    if settings.googleMapsKey == "" then Err(MissingApiKey("GOOGLE_MAPS_API_KEY"))
    else
      match service(TextRequestFor(query, location, radius, settings.googleMapsKey))
      case TimedOut => Err(Timeout("GOOGLE_PLACES_TIMEOUT"))
      case RequestFailed(_) => Err(Network("GOOGLE_PLACES_NETWORK_ERROR"))
      case Crashed(_) => Err(Upstream("GOOGLE_PLACES_UNEXPECTED_ERROR"))
      case Response(code, body) =>
        if !IsSuccess(code) then Err(Upstream("GOOGLE_PLACES_ERROR"))
        else if body.None? then Err(Upstream("GOOGLE_PLACES_UNEXPECTED_ERROR"))
        else Ok(MapResults(body.value))
  }

  function NearbyRequestFor(location: LatLng, radius: int, key: string): NearbyRequest {
    NearbyRequest("en", Circle(location, radius), key, FieldMask)
  }

  /** `search_places_nearby(descriptor, location, radius_m)`: best effort,
      every failure is an empty list. */
  function SearchNearby(
    settings: Settings, descriptor: string, location: LatLng, radius: int,
    service: NearbyRequest -> PlacesReply): (r: seq<Place>)
    ensures settings.googleMapsKey == "" ==> r == []
    ensures settings.googleMapsKey != "" ==>
              var reply := service(NearbyRequestFor(location, radius, settings.googleMapsKey));
              && (reply.Response? && IsSuccess(reply.code) && reply.body.Some? ==> r == MapResults(reply.body.value))
              && (!(reply.Response? && IsSuccess(reply.code) && reply.body.Some?) ==> r == [])
  {
    if settings.googleMapsKey == "" then []
    else
      match service(NearbyRequestFor(location, radius, settings.googleMapsKey))
      case Response(code, body) =>
        if IsSuccess(code) && body.Some? then MapResults(body.value) else []
      case _ => []
  }

  /** The descriptor never reaches the nearby request. */
  lemma NearbyIgnoresDescriptor(
    settings: Settings, d1: string, d2: string, location: LatLng, radius: int,
    service: NearbyRequest -> PlacesReply)
    ensures SearchNearby(settings, d1, location, radius, service) == SearchNearby(settings, d2, location, radius, service)
  {
  }

  // ---------------------------------------------------------------------
  // The radius ladder

  const RadiusSteps: seq<int> := [2500, 5000, 10000, 15000]

  /** One search at a given radius. */
  type Probe = int -> Result<seq<Place>, ServiceError>

  /** The outcome of a ladder and the number of radii it tried. */
  datatype LadderRun = LadderRun(outcome: Result<seq<Place>, ServiceError>, tried: nat)

  /** `_expand_radius_text` / `_expand_radius_nearby` from step `k` on: stops
      at the first radius whose search does not come back empty, and an error
      ends the ladder. */
  function Ladder(probe: Probe, k: nat): (run: LadderRun)
    requires k <= |RadiusSteps|
    ensures k <= run.tried <= |RadiusSteps|
    ensures forall j :: k <= j < run.tried - 1 ==> probe(RadiusSteps[j]) == Ok([])
    ensures run.tried > k ==> run.outcome == probe(RadiusSteps[run.tried - 1])
    ensures run.tried == k ==> k == |RadiusSteps| && run.outcome == Ok([])
    ensures run.outcome == Ok([]) <==> forall j :: k <= j < |RadiusSteps| ==> probe(RadiusSteps[j]) == Ok([])
    ensures run.outcome != Ok([]) ==> run.tried < |RadiusSteps| || probe(RadiusSteps[|RadiusSteps| - 1]) != Ok([])
    decreases |RadiusSteps| - k
  {
    if k == |RadiusSteps| then LadderRun(Ok([]), k)
    else
      var r := probe(RadiusSteps[k]);
      if r == Ok([]) then Ladder(probe, k + 1) else LadderRun(r, k + 1)
  }

  /** No radius beyond the one that answered is searched: probes that agree
      on the radii tried give the same run. */
  lemma {:induction false} LadderTriesOnlyPrefix(p: Probe, q: Probe, k: nat)
    requires k <= |RadiusSteps|
    requires forall j :: k <= j < Ladder(p, k).tried ==> p(RadiusSteps[j]) == q(RadiusSteps[j])
    ensures Ladder(q, k) == Ladder(p, k)
    decreases |RadiusSteps| - k
  {
    if k < |RadiusSteps| && p(RadiusSteps[k]) == Ok([]) {
      LadderTriesOnlyPrefix(p, q, k + 1);
    }
  }

  // ---------------------------------------------------------------------
  // universal_search

  /** The brand if non-empty, else the descriptor if non-empty, else
      "restaurant": never empty. */
  function SearchTerm(intent: IntentExtractor.Intent): (term: string)
    ensures term != ""
    ensures Truthy(intent.brand) ==> term == intent.brand.value
    ensures !Truthy(intent.brand) && Truthy(intent.descriptor) ==> term == intent.descriptor.value
    ensures !Truthy(intent.brand) && !Truthy(intent.descriptor) ==> term == "restaurant"
  {
    if Truthy(intent.brand) then intent.brand.value
    else if Truthy(intent.descriptor) then intent.descriptor.value
    else "restaurant"
  }

  predicate UsesNearby(intent: IntentExtractor.Intent, location: Option<LatLng>) {
    intent.proximity == Some("near_me") && location.Some?
  }

  /** The one search `universal_search` runs at a given radius: nearby when
      asked for and a location is known, by text otherwise. */
  function SearchAt(
    settings: Settings, intent: IntentExtractor.Intent, location: Option<LatLng>,
    text: TextRequest -> PlacesReply, nearby: NearbyRequest -> PlacesReply, radius: int): Result<seq<Place>, ServiceError>
  {
    if UsesNearby(intent, location) then Ok(SearchNearby(settings, SearchTerm(intent), location.value, radius, nearby))
    else SearchText(settings, SearchTerm(intent), location, radius, text)
  }

  /** `universal_search(intent, location)`: the search at the first radius
      that does not come back empty, or the empty list when every radius
      does. */
  function UniversalSearch(
    settings: Settings, intent: IntentExtractor.Intent, location: Option<LatLng>,
    text: TextRequest -> PlacesReply, nearby: NearbyRequest -> PlacesReply): (r: Result<seq<Place>, ServiceError>)
    ensures UsesNearby(intent, location) ==> r.Ok?
    ensures UsesNearby(intent, location) && settings.googleMapsKey == "" ==> r == Ok([])
    ensures !UsesNearby(intent, location) && settings.googleMapsKey == "" ==> r == Err(MissingApiKey("GOOGLE_MAPS_API_KEY"))
    ensures r == Ok([]) <==>
              forall j :: 0 <= j < |RadiusSteps| ==> SearchAt(settings, intent, location, text, nearby, RadiusSteps[j]) == Ok([])
    ensures r != Ok([]) ==>
              exists j :: 0 <= j < |RadiusSteps|
                && r == SearchAt(settings, intent, location, text, nearby, RadiusSteps[j])
                && forall k :: 0 <= k < j ==> SearchAt(settings, intent, location, text, nearby, RadiusSteps[k]) == Ok([])
  {
    var probe: Probe := radius => SearchAt(settings, intent, location, text, nearby, radius);
    var run := Ladder(probe, 0);
    assert UsesNearby(intent, location) ==> forall j :: 0 <= j < |RadiusSteps| ==> probe(RadiusSteps[j]).Ok?;
    assert !UsesNearby(intent, location) && settings.googleMapsKey == "" ==>
             probe(RadiusSteps[0]) == Err(MissingApiKey("GOOGLE_MAPS_API_KEY"));
    assert forall j :: 0 <= j < |RadiusSteps| ==> probe(RadiusSteps[j]) == SearchAt(settings, intent, location, text, nearby, RadiusSteps[j]);
    assert run.outcome != Ok([]) ==>
             && 0 <= run.tried - 1 < |RadiusSteps|
             && run.outcome == SearchAt(settings, intent, location, text, nearby, RadiusSteps[run.tried - 1])
             && forall k :: 0 <= k < run.tried - 1 ==> SearchAt(settings, intent, location, text, nearby, RadiusSteps[k]) == Ok([]);
    run.outcome
  }

  // ---------------------------------------------------------------------
  // Distance enrichment

  /** The two places differ at most in their travel texts. */
  predicate SameExceptTravelTexts(p: Place, q: Place) {
    p.(distanceText := None, durationText := None) == q.(distanceText := None, durationText := None)
  }

  /** Copies row `i`'s texts onto place `i` where that row exists with status
      "OK". */
  function ApplyRows(places: seq<Place>, rows: seq<DistanceResult>): (r: seq<Place>)
    ensures |r| == |places|
    ensures forall i :: 0 <= i < |places| ==> SameExceptTravelTexts(r[i], places[i])
    ensures forall i :: 0 <= i < |places| && !(i < |rows| && rows[i].status == "OK") ==> r[i] == places[i]
    ensures forall i :: 0 <= i < |places| && i < |rows| && rows[i].status == "OK" ==>
              r[i].distanceText == rows[i].distanceText && r[i].durationText == rows[i].durationText
  {
    seq(|places|, i requires 0 <= i < |places| =>
      if i < |rows| && rows[i].status == "OK" then
        places[i].(distanceText := rows[i].distanceText, durationText := rows[i].durationText)
      else places[i])
  }

  /** The destination for place `i`: its id when it has one, else `user`. */
  function TravelDestinations(places: seq<Place>, user: Destination): (d: seq<Destination>)
    ensures |d| == |places|
    ensures forall i :: 0 <= i < |places| && Truthy(places[i].placeId) ==>
              d[i] == Mapping(map["place_id" := places[i].placeId.value])
    ensures forall i :: 0 <= i < |places| && !Truthy(places[i].placeId) ==> d[i] == user
  {
    seq(|places|, i requires 0 <= i < |places| =>
      if Truthy(places[i].placeId) then Mapping(map["place_id" := places[i].placeId.value]) else user)
  }

  /** `enrich_places_with_distances` with `user` as the destination of
      places without an id and `origin` as the only origin. */
  function EnrichWith(
    places: seq<Place>, user: Destination, origin: LatLng, settings: Settings, show: FloatText,
    service: DistanceRequest -> HttpReply<MatrixPayload>): (r: seq<Place>)
    ensures |r| == |places|
    ensures forall i :: 0 <= i < |places| ==> SameExceptTravelTexts(r[i], places[i])
    ensures settings.googleMapsKey == "" ==> r == places
    ensures places != [] && settings.googleMapsKey != "" ==>
              match CalculateDistanceMatrix(settings, [origin], TravelDestinations(places, user), show, service)
              case Err(_) => r == places
              case Ok(rows) => r == ApplyRows(places, rows)
  {
    if places == [] then places
    else
      match CalculateDistanceMatrix(settings, [origin], TravelDestinations(places, user), show, service)
      case Err(_) => places
      case Ok(rows) => ApplyRows(places, rows)
  }

  /** Enrichment as the repository runs it: every caller passes a
      `models.chat.LatLng`, which the matrix adapter skips. */
  function EnrichPlacesAsWritten(
    places: seq<Place>, at: LatLng, settings: Settings, show: FloatText,
    service: DistanceRequest -> HttpReply<MatrixPayload>): (r: seq<Place>)
    ensures |r| == |places|
    ensures forall i :: 0 <= i < |places| ==> SameExceptTravelTexts(r[i], places[i])
  {
    EnrichWith(places, ChatLatLng(at), at, settings, show, service)
  }

  /** Enrichment with the user location passed as a `models.places.LatLng`,
      so that row `i` of the reply belongs to place `i`. */
  function EnrichPlaces(
    places: seq<Place>, at: LatLng, settings: Settings, show: FloatText,
    service: DistanceRequest -> HttpReply<MatrixPayload>): (r: seq<Place>)
    ensures |r| == |places|
    ensures forall i :: 0 <= i < |places| ==> SameExceptTravelTexts(r[i], places[i])
  {
    EnrichWith(places, PlacesLatLng(at), at, settings, show, service)
  }

  /** As written, a place without an id sends no destination at all, so the
      request has fewer destinations than there are places and the rows no
      longer line up with the places. */
  lemma AsWrittenDropsPlacesWithoutId(places: seq<Place>, at: LatLng, show: FloatText)
    ensures var parts := DestinationParts(TravelDestinations(places, ChatLatLng(at)), show);
            (exists i :: 0 <= i < |places| && !Truthy(places[i].placeId)) <==> |parts| < |places|
  {
    var dests := TravelDestinations(places, ChatLatLng(at));
    DestinationPartsAligned(dests, show);
    if exists i :: 0 <= i < |places| && !Truthy(places[i].placeId) {
      var i :| 0 <= i < |places| && !Truthy(places[i].placeId);
      assert !Supported(dests[i]);
    }
  }

  /** Corrected, the request carries one destination per place, in order:
      the place's id or the user's coordinates. */
  lemma EnrichPlacesAligned(places: seq<Place>, at: LatLng, show: FloatText)
    ensures var parts := DestinationParts(TravelDestinations(places, PlacesLatLng(at)), show);
            && |parts| == |places|
            && forall i :: 0 <= i < |places| ==>
                 parts[i] == if Truthy(places[i].placeId) then "place_id:" + places[i].placeId.value
                             else CoordText(at, show)
  {
    DestinationPartsAligned(TravelDestinations(places, PlacesLatLng(at)), show);
  }

  /** The destination a place should be measured to: its own id, or the
      user's coordinates when it has none. */
  function OwnDestination(p: Place, at: LatLng, show: FloatText): string {
    if Truthy(p.placeId) then "place_id:" + p.placeId.value else CoordText(at, show)
  }

  /** The text of a distance or duration, if the element carries one. */
  function MeasureText(m: Option<Measure>): Option<string> {
    if m.Some? then m.value.text else None
  }

  /** Corrected, when the matrix answers every destination it is sent with
      an "OK" element, each place is shown the distance and duration to its
      own destination. */
  lemma EnrichPlacesOwnTexts(
    places: seq<Place>, at: LatLng, settings: Settings, show: FloatText,
    service: DistanceRequest -> HttpReply<MatrixPayload>, answer: string -> Element)
    requires places != [] && settings.googleMapsKey != ""
    requires forall part :: answer(part).status == Some("OK")
    requires var parts := DestinationParts(TravelDestinations(places, PlacesLatLng(at)), show);
             service(Request([at], parts, settings.googleMapsKey, show))
               == Reply(200, Some(MatrixPayload(Some("OK"), [Row(seq(|parts|, i requires 0 <= i < |parts| => answer(parts[i])))])))
    ensures var r := EnrichPlaces(places, at, settings, show, service);
            forall i :: 0 <= i < |places| ==>
              && r[i].distanceText == MeasureText(answer(OwnDestination(places[i], at, show)).distance)
              && r[i].durationText == MeasureText(answer(OwnDestination(places[i], at, show)).duration)
  {
    var dests := TravelDestinations(places, PlacesLatLng(at));
    var parts := DestinationParts(dests, show);
    EnrichPlacesAligned(places, at, show);
    var elements := seq(|parts|, i requires 0 <= i < |parts| => answer(parts[i]));
    var rows := ParseRows([Row(elements)]);
    assert CalculateDistanceMatrix(settings, [at], dests, show, service) == Ok(rows);
    forall i | 0 <= i < |places|
      ensures rows[i].status == "OK"
      ensures rows[i].distanceText == MeasureText(answer(OwnDestination(places[i], at, show)).distance)
      ensures rows[i].durationText == MeasureText(answer(OwnDestination(places[i], at, show)).duration)
    {
      assert parts[i] == OwnDestination(places[i], at, show);
      assert rows[i] == ParseElement(i, answer(parts[i]));
    }
  }

  /** A place with a name and maybe an id, nothing else known. */
  function Listed(name: string, id: Option<string>): Place {
    Place(name, None, id, None, None, None, None, None, None, None, None)
  }

  /** A matrix element with status "OK" and the given distance text. */
  function Reached(distance: string): Element {
    Element(Some("OK"), Some(Measure(Some(distance), None)), Some(Measure(Some("5 mins"), None)))
  }

  /** A matrix service that answers each destination it is sent: place "a"
      is 1 km away, the user's own coordinates 2 km, place "c" 3 km. */
  function HonestMatrix(request: DistanceRequest): HttpReply<MatrixPayload> {
    if request.destinations == "place_id:a|place_id:c" then
      Reply(200, Some(MatrixPayload(Some("OK"), [Row([Reached("1 km"), Reached("3 km")])])))
    else if request.destinations == "place_id:a|0,0|place_id:c" then
      Reply(200, Some(MatrixPayload(Some("OK"), [Row([Reached("1 km"), Reached("2 km"), Reached("3 km")])])))
    else Raised("unexpected request")
  }

  /** Three results, the middle one without an id: as written, the middle
      place is shown the third place's distance and the third is shown none;
      corrected, each place gets its own. */
  lemma EnrichmentMisaligned()
    ensures var places := [Listed("A", Some("a")), Listed("B", None), Listed("C", Some("c"))];
            var settings := Settings("", "", "key", "", false);
            var at: LatLng := Coord(0.0, 0.0);
            var show: FloatText := (x: real) => "0";
            var written := EnrichPlacesAsWritten(places, at, settings, show, HonestMatrix);
            var fixed := EnrichPlaces(places, at, settings, show, HonestMatrix);
            && written[1].distanceText == Some("3 km") && written[2].distanceText == None
            && fixed[1].distanceText == Some("2 km") && fixed[2].distanceText == Some("3 km")
  {
    var places := [Listed("A", Some("a")), Listed("B", None), Listed("C", Some("c"))];
    var settings := Settings("", "", "key", "", false);
    var at: LatLng := Coord(0.0, 0.0);
    var show: FloatText := (x: real) => "0";
    assert CoordText(at, show) == "0,0";
    MisalignedRequest(places, at, show);
    AlignedRequest(places, at, show);
  }

  lemma ExampleDestinations(places: seq<Place>, user: Destination)
    requires places == [Listed("A", Some("a")), Listed("B", None), Listed("C", Some("c"))]
    ensures TravelDestinations(places, user) == [Mapping(map["place_id" := "a"]), user, Mapping(map["place_id" := "c"])]
  {
  }

  lemma SingleDestination(id: string, show: FloatText)
    ensures DestinationParts([Mapping(map["place_id" := id])], show) == ["place_id:" + id]
  {
    var d := Mapping(map["place_id" := id]);
    assert d.entries["place_id"] == id;
    assert [d][1..] == [];
  }

  /** The parts for the example's destinations: place "a", the user, place "c". */
  lemma ExampleParts(user: Destination, show: FloatText)
    ensures var a, c := Mapping(map["place_id" := "a"]), Mapping(map["place_id" := "c"]);
            DestinationParts([a, user, c], show) == ["place_id:a"] + DestinationParts([user], show) + ["place_id:c"]
  {
    var a, c := Mapping(map["place_id" := "a"]), Mapping(map["place_id" := "c"]);
    DestinationPartsAppend([a], [user, c], show);
    DestinationPartsAppend([user], [c], show);
    SingleDestination("a", show);
    SingleDestination("c", show);
    assert "place_id:" + "a" == "place_id:a" && "place_id:" + "c" == "place_id:c";
    assert [a] + [user, c] == [a, user, c];
    assert [user] + [c] == [user, c];
  }

  lemma MisalignedRequest(places: seq<Place>, at: LatLng, show: FloatText)
    requires places == [Listed("A", Some("a")), Listed("B", None), Listed("C", Some("c"))]
    ensures Join(DestinationParts(TravelDestinations(places, ChatLatLng(at)), show), "|") == "place_id:a|place_id:c"
  {
    ExampleDestinations(places, ChatLatLng(at));
    ExampleParts(ChatLatLng(at), show);
    assert [ChatLatLng(at)][1..] == [];
    assert DestinationParts([ChatLatLng(at)], show) == [];
    var parts := ["place_id:a", "place_id:c"];
    assert ["place_id:a"] + [] + ["place_id:c"] == parts;
    assert parts[1..] == ["place_id:c"];
    assert Join(parts, "|") == "place_id:a" + "|" + "place_id:c";
  }

  lemma AlignedRequest(places: seq<Place>, at: LatLng, show: FloatText)
    requires places == [Listed("A", Some("a")), Listed("B", None), Listed("C", Some("c"))]
    requires CoordText(at, show) == "0,0"
    ensures Join(DestinationParts(TravelDestinations(places, PlacesLatLng(at)), show), "|") == "place_id:a|0,0|place_id:c"
  {
    ExampleDestinations(places, PlacesLatLng(at));
    ExampleParts(PlacesLatLng(at), show);
    assert [PlacesLatLng(at)][1..] == [];
    assert DestinationParts([PlacesLatLng(at)], show) == ["0,0"];
    assert ["place_id:a"] + ["0,0"] + ["place_id:c"] == ["place_id:a", "0,0", "place_id:c"];
    JoinThree("place_id:a", "0,0", "place_id:c", "|");
    assert "place_id:a" + "|" + "0,0" + "|" + "place_id:c" == "place_id:a|0,0|place_id:c";
  }

  // ---------------------------------------------------------------------
  // Filtering and ranking

  function HasOpenNow(openNow: Option<bool>): Place -> bool {
    (p: Place) => p.openNow == openNow
  }

  /** `[p for p in results if p.open_now is b]` when the intent asks for
      open (or closed) places; nothing is filtered otherwise. */
  function FilterOpen(places: seq<Place>, openNow: Option<bool>): (r: seq<Place>)
    ensures IsSubsequence(r, places) && |r| <= |places|
    ensures openNow.None? ==> r == places
    ensures openNow.Some? ==> forall i :: 0 <= i < |r| ==> r[i].openNow == openNow
    ensures openNow.Some? ==> forall i :: 0 <= i < |places| && places[i].openNow == openNow ==> places[i] in r
    ensures openNow.Some? ==>
              forall p :: multiset(r)[p] == if p.openNow == openNow then multiset(places)[p] else 0
  {
    if openNow.None? then
      SubsequenceRefl(places);
      places
    else
      FilterIsSubsequence(places, HasOpenNow(openNow));
      FilterCount(places, HasOpenNow(openNow));
      Filter(places, HasOpenNow(openNow))
  }

  lemma {:induction false} SubsequenceRefl<T>(s: seq<T>)
    ensures IsSubsequence(s, s)
  {
    if s != [] {
      SubsequenceRefl(s[1..]);
    }
  }

  /** `place.rating or 0.0` */
  function RatingKey(p: Place): real {
    if p.rating.Some? then p.rating.value else 0.0
  }

  /** Sorting ascending by the negated rating is `reverse=True` on the rating:
      Python keeps equal keys in input order either way. */
  function NegRating(p: Place): real {
    -RatingKey(p)
  }

  predicate RanksByRating(ranking: Option<string>) {
    Lower(OrElse(ranking, "")) in {"best", "prominence"}
  }

  /** The rating sort: a stable sort by descending rating, applied only for
      the "best" and "prominence" rankings. */
  function RankStage(places: seq<Place>, ranking: Option<string>): (r: seq<Place>)
    ensures !RanksByRating(ranking) ==> r == places
    ensures multiset(r) == multiset(places) && |r| == |places|
    ensures forall i :: 0 <= i < |r| ==> r[i] in places
    ensures RanksByRating(ranking) ==> forall i, j :: 0 <= i < j < |r| ==> RatingKey(r[i]) >= RatingKey(r[j])
    ensures RanksByRating(ranking) ==> SameOrderPerKey(r, places, NegRating)
  {
    if RanksByRating(ranking) then
      SortBySorted(places, NegRating);
      SortByStable(places, NegRating);
      var r := SortBy(places, NegRating);
      assert forall i :: 0 <= i < |r| ==> r[i] in multiset(places);
      r
    else places
  }

  /** The post-processing of `search_places`: filter, then sort. */
  function Refine(places: seq<Place>, intent: IntentExtractor.Intent): seq<Place> {
    RankStage(FilterOpen(places, intent.openNow), intent.ranking)
  }

  /** Refining refined results changes nothing. */
  lemma RefineIdempotent(places: seq<Place>, intent: IntentExtractor.Intent)
    ensures Refine(Refine(places, intent), intent) == Refine(places, intent)
  {
    var f := FilterOpen(places, intent.openNow);
    var r := RankStage(f, intent.ranking);
    if intent.openNow.Some? {
      forall i | 0 <= i < |r| ensures r[i].openNow == intent.openNow {
        assert r[i] in multiset(f);
      }
      FilterAllPass(r, HasOpenNow(intent.openNow));
    }
    if RanksByRating(intent.ranking) {
      SortByIdempotent(f, NegRating);
    }
  }

  // ---------------------------------------------------------------------
  // search_places

  /** The enrichment step of `search_places`, run only with a location and
      some results; `corrected` picks the corrected enrichment over the one
      the repository runs. */
  function EnrichStep(
    found: seq<Place>, location: Option<LatLng>, settings: Settings, show: FloatText,
    matrix: DistanceRequest -> HttpReply<MatrixPayload>, corrected: bool): (r: seq<Place>)
    ensures |r| == |found|
    ensures forall i :: 0 <= i < |found| ==> SameExceptTravelTexts(r[i], found[i])
    ensures location.None? ==> r == found
  {
    if location.Some? && found != [] then
      if corrected then EnrichPlaces(found, location.value, settings, show, matrix)
      else EnrichPlacesAsWritten(found, location.value, settings, show, matrix)
    else found
  }

  /** `search_places(intent, location)` as the repository runs it: the
      search's places, enriched, filtered on `open_now` and ranked; the
      result holds the same places as the filtered list, in the same order
      unless the ranking sorts by rating. */
  function SearchPlaces(
    settings: Settings, intent: IntentExtractor.Intent, location: Option<LatLng>, show: FloatText,
    text: TextRequest -> PlacesReply, nearby: NearbyRequest -> PlacesReply,
    matrix: DistanceRequest -> HttpReply<MatrixPayload>): (r: Result<seq<Place>, ServiceError>)
    ensures var found := UniversalSearch(settings, intent, location, text, nearby);
            && (r.Err? <==> found.Err?)
            && (r.Err? ==> r == found)
            && (r.Ok? ==> |r.value| <= |found.value|)
    ensures r.Ok? ==>
              var filtered := FilterOpen(EnrichStep(UniversalSearch(settings, intent, location, text, nearby).value,
                                                    location, settings, show, matrix, false), intent.openNow);
              && multiset(r.value) == multiset(filtered)
              && (!RanksByRating(intent.ranking) ==> r.value == filtered)
              && (RanksByRating(intent.ranking) ==> SameOrderPerKey(r.value, filtered, NegRating))
    ensures r.Ok? && intent.openNow.Some? ==> forall i :: 0 <= i < |r.value| ==> r.value[i].openNow == intent.openNow
    ensures r.Ok? && RanksByRating(intent.ranking) ==>
              forall i, j :: 0 <= i < j < |r.value| ==> RatingKey(r.value[i]) >= RatingKey(r.value[j])
  {
    var found :- UniversalSearch(settings, intent, location, text, nearby);
    Ok(Refine(EnrichStep(found, location, settings, show, matrix, false), intent))
  }

  /** `search_places` with the corrected enrichment: the same search,
      filter and ranking, and each place measured to its own destination. */
  function SearchPlacesCorrected(
    settings: Settings, intent: IntentExtractor.Intent, location: Option<LatLng>, show: FloatText,
    text: TextRequest -> PlacesReply, nearby: NearbyRequest -> PlacesReply,
    matrix: DistanceRequest -> HttpReply<MatrixPayload>): (r: Result<seq<Place>, ServiceError>)
    ensures var found := UniversalSearch(settings, intent, location, text, nearby);
            && (r.Err? <==> found.Err?)
            && (r.Err? ==> r == found)
    ensures r.Ok? ==>
              var filtered := FilterOpen(EnrichStep(UniversalSearch(settings, intent, location, text, nearby).value,
                                                    location, settings, show, matrix, true), intent.openNow);
              && multiset(r.value) == multiset(filtered)
              && (!RanksByRating(intent.ranking) ==> r.value == filtered)
              && (RanksByRating(intent.ranking) ==> SameOrderPerKey(r.value, filtered, NegRating))
    ensures location.None? ==> r == SearchPlaces(settings, intent, location, show, text, nearby, matrix)
  {
    var found :- UniversalSearch(settings, intent, location, text, nearby);
    Ok(Refine(EnrichStep(found, location, settings, show, matrix, true), intent))
  }

  /** The open-now scenario: nothing within 2500 m, three places within
      5000 m of which two are open; the ladder stops at 5000 m and the
      filter keeps the two open places in order. */
  lemma OpenNowScenario(probe: Probe, a: Place, b: Place, c: Place)
    requires probe(2500) == Ok([]) && probe(5000) == Ok([a, b, c])
    requires a.openNow == Some(true) && b.openNow == Some(false) && c.openNow == Some(true)
    ensures Ladder(probe, 0) == LadderRun(Ok([a, b, c]), 2)
    ensures FilterOpen([a, b, c], Some(true)) == [a, c]
  {
    ScenarioLadder(probe, [a, b, c]);
    ScenarioFilter(a, b, c);
  }

  lemma ScenarioLadder(probe: Probe, found: seq<Place>)
    requires probe(2500) == Ok([]) && probe(5000) == Ok(found) && found != []
    ensures Ladder(probe, 0) == LadderRun(Ok(found), 2)
  {
    assert RadiusSteps[0] == 2500 && RadiusSteps[1] == 5000;
    assert Ladder(probe, 1) == LadderRun(Ok(found), 2);
  }

  lemma ScenarioFilter(a: Place, b: Place, c: Place)
    requires a.openNow == Some(true) && b.openNow == Some(false) && c.openNow == Some(true)
    ensures FilterOpen([a, b, c], Some(true)) == [a, c]
  {
    var keep := HasOpenNow(Some(true));
    assert [a, b, c][1..] == [b, c] && [b, c][1..] == [c] && [c][1..] == [];
    assert keep(a) && !keep(b) && keep(c);
    assert Filter([c], keep) == [c] + Filter([], keep);
    assert Filter([b, c], keep) == Filter([c], keep);
    assert Filter([a, b, c], keep) == [a] + Filter([b, c], keep);
  }
}
