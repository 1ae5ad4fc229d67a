/** The records of `models/places.py`: coordinates, places, distance-matrix
    rows and Tavily documents, with the text each renders to for the agent. */
module PlaceModels {
  import opened Wrappers
  import opened Text

  /** Renders a float with the given number of digits after the decimal point
      (Python's `:.Nf`). Float formatting is outside the model. */
  type FixedPoint = (real, nat) -> string

  datatype Coord = Coord(lat: real, lng: real)

  predicate InBounds(c: Coord) {
    -90.0 <= c.lat <= 90.0 && -180.0 <= c.lng <= 180.0
  }

  /** Both `LatLng` classes of the repository validate the same bounds. */
  type LatLng = c: Coord | InBounds(c) witness Coord(0.0, 0.0)

  /** Constructing a `LatLng` fails validation outside the bounds. */
  function MakeLatLng(lat: real, lng: real): (r: Option<LatLng>)
    ensures r.Some? <==> -90.0 <= lat <= 90.0 && -180.0 <= lng <= 180.0
    ensures r.Some? ==> r.value.lat == lat && r.value.lng == lng
  {
    if InBounds(Coord(lat, lng)) then Some(Coord(lat, lng)) else None
  }

  datatype Place = Place(
    name: string,
    address: Option<string>,
    placeId: Option<string>,
    rating: Option<real>,
    priceLevel: Option<int>,
    openNow: Option<bool>,
    url: Option<string>,
    distanceText: Option<string>,
    durationText: Option<string>,
    distanceValue: Option<int>,
    durationValue: Option<int>)

  datatype DistanceResult = DistanceResult(
    index: nat,
    status: string,
    distanceText: Option<string>,
    distanceValue: Option<int>,
    durationText: Option<string>,
    durationValue: Option<int>)

  datatype TavilyDocument = TavilyDocument(title: string, url: string, content: string)

  datatype TavilyResponse = TavilyResponse(query: string, results: seq<TavilyDocument>, answer: Option<string>)

  /** Budget label of a price level. */
  function PriceLabel(level: Option<int>): string {
    if level == Some(0) then "free"
    else if level == Some(1) then "low"
    else if level == Some(2) then "mid"
    else if level == Some(3) then "high"
    else if level == Some(4) then "premium"
    else "unknown"
  }

  /** Every level from 0 to 4 has its own label and nothing else has one. */
  lemma PriceLabelKnownExactly(level: Option<int>)
    ensures PriceLabel(level) != "unknown" <==> level.Some? && 0 <= level.value <= 4
    ensures forall other: Option<int> ::
              PriceLabel(level) == PriceLabel(other) && PriceLabel(level) != "unknown" ==> level == other
  {
  }

  function StatusLabel(openNow: Option<bool>): string {
    match openNow
    case Some(true) => "Open now"
    case Some(false) => "Closed now"
    case None => "Hours unavailable"
  }

  /** The rating glyph exactly as the source file's text spells it. */
  const RatingSuffix: string := "\U{00E2}\U{02DC}\U{2026}"

  function RatingText(rating: Option<real>, fixed: FixedPoint): string {
    if rating.Some? then fixed(rating.value, 1) + RatingSuffix else "Rating unavailable"
  }

  /** The travel-time line, shown only when both texts are non-empty. */
  function DistanceLine(p: Place): (r: Option<string>)
    ensures r.Some? <==> Truthy(p.durationText) && Truthy(p.distanceText)
  {
    if Truthy(p.durationText) && Truthy(p.distanceText) then
      Some("\U{00E2}\U{00B1} " + p.durationText.value + " \U{00C2}\U{00B7} \U{00F0}\U{0178}\U{201C} "
           + p.distanceText.value)
    else None
  }

  /** The lines of `Place.format_for_agent(index)`, joined by newlines. */
  function PlaceLines(p: Place, index: nat, fixed: FixedPoint): (lines: seq<string>)
    ensures |lines| == if DistanceLine(p).Some? then 7 else 6
    ensures lines[0] == NatToString(index) + ". " + p.name
    ensures lines[1] == "  " + OrElse(p.address, "Address unavailable")
    ensures lines[|lines| - 1] == "  Map: " + OrElse(p.url, "N/A")
  {
    var head := [
      NatToString(index) + ". " + p.name,
      "  " + OrElse(p.address, "Address unavailable"),
      "  Rating: " + RatingText(p.rating, fixed),
      "  Budget: " + PriceLabel(p.priceLevel),
      "  Status: " + StatusLabel(p.openNow)
    ];
    var tail := ["  Map: " + OrElse(p.url, "N/A")];
    match DistanceLine(p)
    case Some(d) => head + [d] + tail
    case None => head + tail
  }

  /** `Place.format(index)`: the entry starts with its number, a dot and the
      place's name, and its last line is the map link. */
  function FormatPlace(p: Place, index: nat, fixed: FixedPoint): (r: string)
    ensures StartsWith(r, NatToString(index) + ". " + p.name)
    ensures EndsWith(r, "\n  Map: " + OrElse(p.url, "N/A"))
  {
    var lines := PlaceLines(p, index, fixed);
    JoinEnds(lines, "\n", NatToString(index) + ". " + p.name, "  Map: " + OrElse(p.url, "N/A"));
    Join(lines, "\n")
  }

  /** A search document's entry: the numbered title on the first line, then
      the content, then the URL on the last line. */
  function FormatDocument(d: TavilyDocument, index: nat): (r: string)
    ensures StartsWith(r, NatToString(index) + ". " + d.title + "\n")
    ensures EndsWith(r, "\n   " + d.url)
  {
    var head := NatToString(index) + ". " + d.title + "\n";
    var r := head + "   " + d.content + "\n   " + d.url;
    assert r[..|head|] == head;
    assert r[|r| - |"\n   " + d.url|..] == "\n   " + d.url;
    r
  }

  /** `[format(item, i) for i, item in enumerate(items, 1)]`. */
  function NumberedPlaces(places: seq<Place>, fixed: FixedPoint): (r: seq<string>)
    ensures |r| == |places|
    ensures forall i :: 0 <= i < |places| ==> r[i] == FormatPlace(places[i], i + 1, fixed)
  {
    seq(|places|, i requires 0 <= i < |places| => FormatPlace(places[i], i + 1, fixed))
  }

  function NumberedDocuments(docs: seq<TavilyDocument>): (r: seq<string>)
    ensures |r| == |docs|
    ensures forall i :: 0 <= i < |docs| ==> r[i] == FormatDocument(docs[i], i + 1)
  {
    seq(|docs|, i requires 0 <= i < |docs| => FormatDocument(docs[i], i + 1))
  }
}
