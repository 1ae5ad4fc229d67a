/** The Distance Matrix adapter (`services/distance_matrix.py`): it builds the
    destination list, sends one request and reads the first row of the reply
    into `DistanceResult`s numbered by position. */
module DistanceMatrix {
  import opened Wrappers
  import opened Text
  import opened Configuration
  import opened PlaceModels

  /** What a caller may hand over as a destination. `models.chat.LatLng` is a
      class of its own, not a `models.places.LatLng`, and is not recognised. */
  datatype Destination =
    | PlacesLatLng(at: LatLng)
    | ChatLatLng(at: LatLng)
    | Mapping(entries: map<string, string>)

  /** Python's `str(float)`; its digits are outside the model. */
  type FloatText = real -> string

  function CoordText(c: LatLng, show: FloatText): string {
    show(c.lat) + "," + show(c.lng)
  }

  predicate Supported(d: Destination) {
    d.PlacesLatLng? || (d.Mapping? && "place_id" in d.entries)
  }

  function DestinationPart(d: Destination, show: FloatText): string
    requires Supported(d)
  {
    if d.PlacesLatLng? then CoordText(d.at, show) else "place_id:" + d.entries["place_id"]
  }

  /** The destination strings sent, one per supported destination, in order;
      the others are skipped without a trace. */
  function DestinationParts(dests: seq<Destination>, show: FloatText): (r: seq<string>)
    ensures |r| <= |dests|
  {
    if dests == [] then []
    else
      var rest := DestinationParts(dests[1..], show);
      if Supported(dests[0]) then [DestinationPart(dests[0], show)] + rest else rest
  }

  /** The builder works destination by destination. */
  lemma {:induction false} DestinationPartsAppend(a: seq<Destination>, b: seq<Destination>, show: FloatText)
    ensures DestinationParts(a + b, show) == DestinationParts(a, show) + DestinationParts(b, show)
    decreases |a|
  {
    if a != [] {
      assert (a + b)[1..] == a[1..] + b;
      DestinationPartsAppend(a[1..], b, show);
    } else {
      assert a + b == b;
    }
  }

  /** The list keeps one string per destination, position for position,
      exactly when every destination is supported. */
  lemma {:induction false} DestinationPartsAligned(dests: seq<Destination>, show: FloatText)
    ensures |DestinationParts(dests, show)| == |dests| <==> forall i :: 0 <= i < |dests| ==> Supported(dests[i])
    ensures (forall i :: 0 <= i < |dests| ==> Supported(dests[i])) ==>
              forall i :: 0 <= i < |dests| ==> DestinationParts(dests, show)[i] == DestinationPart(dests[i], show)
  {
    if dests != [] {
      DestinationPartsAligned(dests[1..], show);
      var rest := DestinationParts(dests[1..], show);
      if Supported(dests[0]) {
        if forall i :: 0 <= i < |dests| ==> Supported(dests[i]) {
          forall i | 0 <= i < |dests| ensures DestinationParts(dests, show)[i] == DestinationPart(dests[i], show) {
            if i > 0 {
              assert dests[1..][i - 1] == dests[i];
            }
          }
        } else {
          var j :| 0 <= j < |dests| && !Supported(dests[j]);
          assert !Supported(dests[1..][j - 1]);
        }
      }
    }
  }

  datatype DistanceRequest = DistanceRequest(
    origins: string,
    destinations: string,
    mode: string,
    units: string,
    key: string)

  /** A `distance` or `duration` object of the reply. */
  datatype Measure = Measure(text: Option<string>, value: Option<int>)

  datatype Element = Element(status: Option<string>, distance: Option<Measure>, duration: Option<Measure>)

  datatype Row = Row(elements: seq<Element>)

  datatype MatrixPayload = MatrixPayload(status: Option<string>, rows: seq<Row>)

  /** The HTTP exchange: the client raised, or a status code and a body that
      is valid JSON (`Some`) or not (`None`). */
  datatype HttpReply<P> = Raised(what: string) | Reply(code: int, body: Option<P>)

  function ParseElement(index: nat, e: Element): (d: DistanceResult)
    ensures d.index == index
    ensures d.status == e.status.GetOr("UNKNOWN_ERROR")
    ensures e.distance.None? ==> d.distanceText.None? && d.distanceValue.None?
    ensures e.duration.None? ==> d.durationText.None? && d.durationValue.None?
    ensures e.distance.Some? ==> d.distanceText == e.distance.value.text && d.distanceValue == e.distance.value.value
    ensures e.duration.Some? ==> d.durationText == e.duration.value.text && d.durationValue == e.duration.value.value
  {
    var distance := e.distance.GetOr(Measure(None, None));
    var duration := e.duration.GetOr(Measure(None, None));
    DistanceResult(index, e.status.GetOr("UNKNOWN_ERROR"), distance.text, distance.value, duration.text, duration.value)
  }

  /** Only the first row is read, one result per element, numbered from 0. */
  function ParseRows(rows: seq<Row>): (r: seq<DistanceResult>)
    ensures rows == [] ==> r == []
    ensures rows != [] ==> |r| == |rows[0].elements|
    ensures forall i :: 0 <= i < |r| ==> r[i].index == i && r[i] == ParseElement(i, rows[0].elements[i])
  {
    if rows == [] then []
    else
      var elements := rows[0].elements;
      seq(|elements|, i requires 0 <= i < |elements| => ParseElement(i, elements[i]))
  }

  function OriginsText(origins: seq<LatLng>, show: FloatText): string {
    Join(seq(|origins|, i requires 0 <= i < |origins| => CoordText(origins[i], show)), "|")
  }

  function Request(origins: seq<LatLng>, parts: seq<string>, key: string, show: FloatText): DistanceRequest {
    DistanceRequest(OriginsText(origins, show), Join(parts, "|"), "driving", "metric", key)
  }

  /** `calculate_distance_matrix(origins, destinations)` with the default
      driving mode and metric units; `service` is the HTTP exchange. */
  function CalculateDistanceMatrix(
    settings: Settings, origins: seq<LatLng>, dests: seq<Destination>, show: FloatText,
    service: DistanceRequest -> HttpReply<MatrixPayload>): (r: Result<seq<DistanceResult>, ServiceError>)
    ensures settings.googleMapsKey == "" ==> r == Err(MissingApiKey("GOOGLE_MAPS_API_KEY"))
    ensures settings.googleMapsKey != "" && DestinationParts(dests, show) == [] ==> r == Ok([])
    ensures r.Ok? && r.value != [] ==>
              var reply := service(Request(origins, DestinationParts(dests, show), settings.googleMapsKey, show));
              && reply.Reply? && reply.code == 200 && reply.body.Some?
              && reply.body.value.status == Some("OK")
              && r.value == ParseRows(reply.body.value.rows)
    ensures r.Ok? ==> forall i :: 0 <= i < |r.value| ==> r.value[i].index == i
    ensures settings.googleMapsKey != "" && DestinationParts(dests, show) != [] ==>
              var reply := service(Request(origins, DestinationParts(dests, show), settings.googleMapsKey, show));
              && (reply.Raised? ==> r == Err(Unhandled(reply.what)))
              && (reply.Reply? && reply.code == 200 && reply.body.None? ==> r == Err(Unhandled("JSONDecodeError")))
              && (reply.Reply? && reply.code == 200 && reply.body.Some? && reply.body.value.status == Some("OK") ==>
                    r == Ok(ParseRows(reply.body.value.rows)))
    ensures r == Err(Upstream("DISTANCE_MATRIX_HTTP_ERROR")) <==>
              && settings.googleMapsKey != "" && DestinationParts(dests, show) != []
              && var reply := service(Request(origins, DestinationParts(dests, show), settings.googleMapsKey, show));
                 reply.Reply? && reply.code != 200
    ensures r == Err(Upstream("DISTANCE_MATRIX_STATUS_ERROR")) <==>
              && settings.googleMapsKey != "" && DestinationParts(dests, show) != []
              && var reply := service(Request(origins, DestinationParts(dests, show), settings.googleMapsKey, show));
                 reply.Reply? && reply.code == 200 && reply.body.Some? && reply.body.value.status != Some("OK")
  {
    if settings.googleMapsKey == "" then Err(MissingApiKey("GOOGLE_MAPS_API_KEY"))
    else
      var parts := DestinationParts(dests, show);
      if parts == [] then Ok([])
      else
        match service(Request(origins, parts, settings.googleMapsKey, show))
        case Raised(what) => Err(Unhandled(what))
        case Reply(code, body) =>
          if code != 200 then Err(Upstream("DISTANCE_MATRIX_HTTP_ERROR"))
          else if body.None? then Err(Unhandled("JSONDecodeError"))
          else if body.value.status != Some("OK") then Err(Upstream("DISTANCE_MATRIX_STATUS_ERROR"))
          else Ok(ParseRows(body.value.rows))
  }

  /** When every destination is skipped no request is made: the reply
      cannot influence the result. */
  lemma NoDestinationsNoRequest(
    settings: Settings, origins: seq<LatLng>, dests: seq<Destination>, show: FloatText,
    a: DistanceRequest -> HttpReply<MatrixPayload>, b: DistanceRequest -> HttpReply<MatrixPayload>)
    requires forall i :: 0 <= i < |dests| ==> !Supported(dests[i])
    ensures CalculateDistanceMatrix(settings, origins, dests, show, a) == CalculateDistanceMatrix(settings, origins, dests, show, b)
  {
    NoPartsForUnsupported(dests, show);
  }

  lemma {:induction false} NoPartsForUnsupported(dests: seq<Destination>, show: FloatText)
    requires forall i :: 0 <= i < |dests| ==> !Supported(dests[i])
    ensures DestinationParts(dests, show) == []
  {
    if dests != [] {
      NoPartsForUnsupported(dests[1..], show);
    }
  }
}
