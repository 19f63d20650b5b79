/** The TessaDEM elevation client (`TessaDEMAPI`): the checks against the provider's
    limits, the `locations` query parameter, the decoding of replies into
    `ElevationPoint`s, and the grid helper that generates, fetches and reshapes a grid. */
module TessaDem {
  import opened Common
  import opened Text
  import opened Grid

  const MinLatitude: real := -80.0
  const MaxLatitude: real := 84.0
  const MaxLocationsPerRequest: int := 512
  const MaxRequestExtentDegrees: real := 5.0
  const MaxGridSize: int := 128
  const BaseUrl: string := "https://tessadem.com/api/elevation"

  /** A caller's `(lat, lng)` tuple. */
  datatype LatLng = LatLng(lat: real, lng: real)

  datatype ElevationPoint = ElevationPoint(latitude: real, longitude: real, elevation: real)

  datatype ElevationResult = ElevationResult(results: seq<ElevationPoint>, status: string)

  datatype PathElevationResult = PathElevationResult(results: seq<ElevationPoint>, status: string)

  datatype AreaElevationResult =
    AreaElevationResult(results: seq<seq<real>>, rows: int, columns: int, resolution: real, status: string)

  /** What `get_elevation_area` returns: the raw content for geotiff, a decoded record otherwise. */
  datatype AreaOutcome = Geotiff(content: seq<bv8>) | Area(area: AreaElevationResult)

  /** The query parameters of one GET to the elevation endpoint. */
  datatype Request = Request(url: string, key: string, mode: string, locations: string, unit: string, format: string)

  /** One item of a reply's `results` list: an object whose keys `lat`, `lng` and `elevation`
      may each be missing, or a list of numbers (a row of an area reply). */
  datatype ResultItem =
    | Record(lat: Option<real>, lng: Option<real>, elevation: Option<real>)
    | Row(cells: seq<real>)

  /** The parsed JSON object of a reply; every key may be missing. */
  datatype Body = Body(
    results: Option<seq<ResultItem>>,
    rows: Option<int>,
    columns: Option<int>,
    resolution: Option<real>,
    status: Option<string>)

  /** What the transport hands back: a failure (a network error, or a non-2xx status that
      `raise_for_status` turns into an exception), or the raw content together with its
      JSON body when the content parses as JSON. */
  datatype Reply = Failed | Received(content: seq<bv8>, body: Option<Body>)

  /** The remote service, as an oracle from request to reply. */
  type Service = Request -> Reply

  datatype Error =
    | TooManyLocations
    | LatitudeOutOfRange(latitude: real)
    | NorthOutOfRange(north: real)
    | SouthOutOfRange(south: real)
    | GridSizeTooLarge(gridSize: int)
    | TooManyGridLocations(total: int)
    | LatitudeExtentTooLarge(latExtent: real)
    | LongitudeExtentTooLarge(lngExtent: real)
    | DivisionByZero
    | RemoteError
    | NotJson
    | MissingKey(key: string)
    | WrongType(field: string)
    | IndexOutOfRange(index: int)
  {
    /** The `ValueError`s, which are raised before any request is sent. */
    predicate IsValidation()
    {
      || TooManyLocations? || LatitudeOutOfRange? || NorthOutOfRange? || SouthOutOfRange?
      || GridSizeTooLarge? || TooManyGridLocations? || LatitudeExtentTooLarge? || LongitudeExtentTooLarge?
    }
  }

  /** A `TessaDEMAPI` instance: its API key, the remote service it talks to, and the
      float formatting the client applies to each coordinate of the `locations` parameter. */
  datatype TessaDEMAPI = TessaDEMAPI(apiKey: string, service: Service, formatNumber: real -> string)

  type Call<T> = Traced<T, Error, Request>

  predicate LatitudeInRange(lat: real)
  {
    MinLatitude <= lat <= MaxLatitude
  }

  function Abs(x: real): real
  {
    if x < 0.0 then -x else x
  }

  // ---------------------------------------------------------------------------
  // Validation

  /** The error the latitude loop raises: that of the first location out of range. */
  function LatitudeCheck(locations: seq<LatLng>): (r: Option<Error>)
    ensures r.None? <==> forall i :: 0 <= i < |locations| ==> LatitudeInRange(locations[i].lat)
    ensures r.Some? ==> exists k :: (
      && 0 <= k < |locations|
      && !LatitudeInRange(locations[k].lat)
      && (forall i :: 0 <= i < k ==> LatitudeInRange(locations[i].lat))
      && r.value == LatitudeOutOfRange(locations[k].lat))
  {
    if |locations| == 0 then None
    else if !LatitudeInRange(locations[0].lat) then Some(LatitudeOutOfRange(locations[0].lat))
    else
      var r := LatitudeCheck(locations[1..]);
      assert forall i :: 1 <= i < |locations| ==> locations[1..][i - 1] == locations[i];
      r
  }

  /** The `for lat, lng in locations` loop that raises on the first latitude out of range. */
  method ValidateLatitudes(locations: seq<LatLng>) returns (err: Option<Error>)
    ensures err == LatitudeCheck(locations)
  {
    var i := 0;
    while i < |locations|
      invariant 0 <= i <= |locations|
      invariant LatitudeCheck(locations) == LatitudeCheck(locations[i..])
    {
      if !LatitudeInRange(locations[i].lat) {
        return Some(LatitudeOutOfRange(locations[i].lat));
      }
      assert locations[i..][1..] == locations[i + 1..];
      i := i + 1;
    }
    assert locations[i..] == [];
    err := None;
  }

  /** The checks of `get_elevation_points`: the location count, then every latitude. */
  function PointsCheck(locations: seq<LatLng>): (r: Option<Error>)
    ensures |locations| > MaxLocationsPerRequest ==> r == Some(TooManyLocations)
    ensures r.None? <==> (
      && |locations| <= MaxLocationsPerRequest
      && forall i :: 0 <= i < |locations| ==> LatitudeInRange(locations[i].lat))
    ensures r.Some? ==> r.value.IsValidation()
  {
    if |locations| > MaxLocationsPerRequest then Some(TooManyLocations)
    else LatitudeCheck(locations)
  }

  // ---------------------------------------------------------------------------
  // The `locations` parameter

  /** One location's segment: its formatted latitude, a comma, its formatted longitude. */
  function Segment(fmt: real -> string, p: LatLng): (seg: string)
    ensures '|' !in fmt(p.lat) && '|' !in fmt(p.lng) ==> '|' !in seg
    ensures ',' !in fmt(p.lat) && ',' !in fmt(p.lng) ==> Split(seg, ',') == [fmt(p.lat), fmt(p.lng)]
  {
    var seg := fmt(p.lat) + [','] + fmt(p.lng);
    assert ',' !in fmt(p.lat) && ',' !in fmt(p.lng) ==> Split(seg, ',') == [fmt(p.lat), fmt(p.lng)] by {
      if ',' !in fmt(p.lat) && ',' !in fmt(p.lng) {
        SplitFirstPiece(fmt(p.lat), fmt(p.lng), ',');
        SplitPiece(fmt(p.lng), ',');
      }
    }
    seg
  }

  function Segments(fmt: real -> string, locations: seq<LatLng>): (segs: seq<string>)
    ensures |segs| == |locations|
    ensures forall i :: 0 <= i < |locations| ==> segs[i] == Segment(fmt, locations[i])
  {
    seq(|locations|, i requires 0 <= i < |locations| => Segment(fmt, locations[i]))
  }

  /** The `locations` query parameter: the segments of all locations, in order, with a
      `|` between neighbours. */
  function LocationsParam(fmt: real -> string, locations: seq<LatLng>): (param: string)
    ensures |locations| == 0 ==> param == ""
    ensures |locations| >= 1 && (forall i :: 0 <= i < |locations| ==> '|' !in Segment(fmt, locations[i])) ==>
      Split(param, '|') == Segments(fmt, locations)
  {
    var segs := Segments(fmt, locations);
    assert |locations| >= 1 && (forall i :: 0 <= i < |locations| ==> '|' !in Segment(fmt, locations[i])) ==>
      Split(Join(segs, '|'), '|') == segs
    by {
      if |locations| >= 1 && (forall i :: 0 <= i < |locations| ==> '|' !in Segment(fmt, locations[i])) {
        SplitJoin(segs, '|');
      }
    }
    Join(segs, '|')
  }

  /** Python's float formatting never produces a `|` or a `,`. */
  ghost predicate PlainFormatter(fmt: real -> string)
  {
    forall x :: '|' !in fmt(x) && ',' !in fmt(x)
  }

  /** Splitting the `locations` parameter on `|` gives one segment per location, in
      order; segment i splits on `,` into the formatted latitude and longitude of
      location i. */
  lemma LocationsParamSplits(fmt: real -> string, locations: seq<LatLng>)
    requires PlainFormatter(fmt)
    requires |locations| >= 1
    ensures var parts := Split(LocationsParam(fmt, locations), '|');
      && |parts| == |locations|
      && forall i :: 0 <= i < |locations| ==>
           parts[i] == Segment(fmt, locations[i])
           && Split(parts[i], ',') == [fmt(locations[i].lat), fmt(locations[i].lng)]
  {
    assert forall i :: 0 <= i < |locations| ==> '|' !in Segment(fmt, locations[i]);
  }

  /** The request that `mode` sends for `locations`. */
  function LocationsRequest(api: TessaDEMAPI, mode: string, locations: seq<LatLng>, unit: string, format: string): (r: Request)
    ensures r.url == BaseUrl && r.key == api.apiKey && r.mode == mode && r.unit == unit && r.format == format
    ensures PlainFormatter(api.formatNumber) && |locations| >= 1 ==>
      Split(r.locations, '|') == Segments(api.formatNumber, locations)
  {
    var r := Request(BaseUrl, api.apiKey, mode, LocationsParam(api.formatNumber, locations), unit, format);
    assert PlainFormatter(api.formatNumber) ==>
      forall i :: 0 <= i < |locations| ==> '|' !in Segment(api.formatNumber, locations[i]);
    r
  }

  // ---------------------------------------------------------------------------
  // Decoding

  predicate CompleteRecord(item: ResultItem)
  {
    item.Record? && item.lat.Some? && item.lng.Some? && item.elevation.Some?
  }

  /** The point a complete record describes. */
  function PointOf(item: ResultItem): ElevationPoint
    requires CompleteRecord(item)
  {
    ElevationPoint(item.lat.value, item.lng.value, item.elevation.value)
  }

  /** One result item becomes a point from its latitude, longitude and elevation keys,
      read in that order; an item that is a list, not an object, is a type error. */
  function DecodeItem(item: ResultItem): (r: Result<ElevationPoint, Error>)
    ensures r.Success? <==> CompleteRecord(item)
    ensures r.Success? ==> r.value == PointOf(item)
    ensures r.Failure? ==> r.error.MissingKey? || r.error == WrongType("results")
  {
    match item
    case Row(_) => Failure(WrongType("results"))
    case Record(lat, lng, elevation) =>
      if lat.None? then Failure(MissingKey("lat"))
      else if lng.None? then Failure(MissingKey("lng"))
      else if elevation.None? then Failure(MissingKey("elevation"))
      else Success(ElevationPoint(lat.value, lng.value, elevation.value))
  }

  /** The reply's result items, decoded one point per item, in order; the first item that
      does not decode aborts the whole list. */
  function DecodeItems(items: seq<ResultItem>): (r: Result<seq<ElevationPoint>, Error>)
    ensures r.Success? <==> forall i :: 0 <= i < |items| ==> CompleteRecord(items[i])
    ensures r.Success? ==> (
      && |r.value| == |items|
      && forall i :: 0 <= i < |items| ==> r.value[i] == PointOf(items[i]))
    ensures r.Failure? ==> r.error.MissingKey? || r.error == WrongType("results")
  {
    if |items| == 0 then Success([])
    else
      assert forall i :: 1 <= i < |items| ==> items[1..][i - 1] == items[i];
      match DecodeItem(items[0])
      case Failure(e) => Failure(e)
      case Success(p) =>
        match DecodeItems(items[1..])
        case Failure(e) => Failure(e)
        case Success(ps) => Success([p] + ps)
  }

  /** A body from which a points or path reply decodes. */
  predicate SamplesComplete(body: Body)
  {
    && body.results.Some?
    && (forall i :: 0 <= i < |body.results.value| ==> CompleteRecord(body.results.value[i]))
    && body.status.Some?
  }

  /** Decoding of a points or path reply: the status check, the JSON parse, the result
      items, then the status string. */
  function DecodeSamples(reply: Reply): (r: Result<ElevationResult, Error>)
    ensures reply.Failed? ==> r == Failure(RemoteError)
    ensures reply.Received? && reply.body.None? ==> r == Failure(NotJson)
    ensures r.Success? <==> reply.Received? && reply.body.Some? && SamplesComplete(reply.body.value)
    ensures r.Success? ==>
      var items := reply.body.value.results.value;
      && |r.value.results| == |items|
      && (forall i :: 0 <= i < |items| ==> r.value.results[i] == PointOf(items[i]))
      && r.value.status == reply.body.value.status.value
  {
    match reply
    case Failed => Failure(RemoteError)
    case Received(_, None) => Failure(NotJson)
    case Received(_, Some(body)) =>
      if body.results.None? then Failure(MissingKey("results"))
      else match DecodeItems(body.results.value)
        case Failure(e) => Failure(e)
        case Success(points) =>
          if body.status.None? then Failure(MissingKey("status"))
          else Success(ElevationResult(points, body.status.value))
  }

  /** The body a service sends for a points result: one record per point, and the status. */
  function EncodeSamples(result: ElevationResult): (body: Body)
    ensures SamplesComplete(body)
  {
    var items := seq(|result.results|, i requires 0 <= i < |result.results| =>
      Record(Some(result.results[i].latitude), Some(result.results[i].longitude), Some(result.results[i].elevation)));
    Body(Some(items), None, None, None, Some(result.status))
  }

  /** Decoding is the inverse of encoding: every field of every point comes back. */
  lemma DecodeEncodeSamples(result: ElevationResult, content: seq<bv8>)
    ensures DecodeSamples(Received(content, Some(EncodeSamples(result)))) == Success(result)
  {
    var r := DecodeSamples(Received(content, Some(EncodeSamples(result))));
    assert r.value.results == result.results;
  }

  /** A body from which an area reply decodes: rows of numbers and every metadata key. */
  predicate AreaComplete(body: Body)
  {
    && body.results.Some?
    && (forall i :: 0 <= i < |body.results.value| ==> body.results.value[i].Row?)
    && body.rows.Some? && body.columns.Some? && body.resolution.Some? && body.status.Some?
  }

  /** The area record repeats every field of the body verbatim. */
  predicate CopiesArea(body: Body, area: AreaElevationResult)
    requires AreaComplete(body)
  {
    && |area.results| == |body.results.value|
    && (forall i :: 0 <= i < |area.results| ==> area.results[i] == body.results.value[i].cells)
    && area.rows == body.rows.value
    && area.columns == body.columns.value
    && area.resolution == body.resolution.value
    && area.status == body.status.value
  }

  function Rows(items: seq<ResultItem>): (cells: Option<seq<seq<real>>>)
    ensures cells.Some? <==> forall i :: 0 <= i < |items| ==> items[i].Row?
    ensures cells.Some? ==> (
      && |cells.value| == |items|
      && forall i :: 0 <= i < |items| ==> cells.value[i] == items[i].cells)
  {
    if |items| == 0 then Some([])
    else
      assert forall i :: 1 <= i < |items| ==> items[1..][i - 1] == items[i];
      match Rows(items[1..])
      case None => None
      case Some(rest) => if items[0].Row? then Some([items[0].cells] + rest) else None
  }

  /** Builds the area record from the body's `results`, `rows`, `columns`, `resolution` and
      `status`, read in that order. */
  function DecodeArea(body: Body): (r: Result<AreaElevationResult, Error>)
    ensures r.Success? <==> AreaComplete(body)
    ensures r.Success? ==> CopiesArea(body, r.value)
  {
    if body.results.None? then Failure(MissingKey("results"))
    else match Rows(body.results.value)
      case None => Failure(WrongType("results"))
      case Some(cells) =>
        if body.rows.None? then Failure(MissingKey("rows"))
        else if body.columns.None? then Failure(MissingKey("columns"))
        else if body.resolution.None? then Failure(MissingKey("resolution"))
        else if body.status.None? then Failure(MissingKey("status"))
        else Success(AreaElevationResult(cells, body.rows.value, body.columns.value, body.resolution.value, body.status.value))
  }

  /** What an area reply becomes: for geotiff the raw content, whatever it holds; otherwise
      the decoded JSON body. */
  function AreaReply(reply: Reply, format: string): (r: Result<AreaOutcome, Error>)
    ensures reply.Failed? ==> r == Failure(RemoteError)
    ensures format == "geotiff" && reply.Received? ==> r == Success(Geotiff(reply.content))
    ensures format != "geotiff" ==>
      && (r.Success? <==> reply.Received? && reply.body.Some? && AreaComplete(reply.body.value))
      && (r.Success? ==> r.value.Area? && CopiesArea(reply.body.value, r.value.area))
  {
    match reply
    case Failed => Failure(RemoteError)
    case Received(content, body) =>
      if format == "geotiff" then Success(Geotiff(content))
      else if body.None? then Failure(NotJson)
      else match DecodeArea(body.value)
        case Failure(e) => Failure(e)
        case Success(area) => Success(Area(area))
  }

  // ---------------------------------------------------------------------------
  // Points, path, area, single

  /** `get_elevation_points`: on a validation error nothing is sent; otherwise exactly one
      points request carrying the joined locations is sent and its reply decoded. */
  method GetElevationPoints(api: TessaDEMAPI, locations: seq<LatLng>, unit: string, format: string)
    returns (c: Call<ElevationResult>)
    ensures PointsCheck(locations).Some? ==> c == Traced(Failure(PointsCheck(locations).value), [])
    ensures PointsCheck(locations).None? ==>
      var request := LocationsRequest(api, "points", locations, unit, format);
      c == Traced(DecodeSamples(api.service(request)), [request])
  {
    if |locations| > MaxLocationsPerRequest {
      return Traced(Failure(TooManyLocations), []);
    }
    var err := ValidateLatitudes(locations);
    if err.Some? {
      return Traced(Failure(err.value), []);
    }
    var request := LocationsRequest(api, "points", locations, unit, format);
    var reply := api.service(request);
    c := Traced(DecodeSamples(reply), [request]);
  }

  /** `get_elevation_path`: the latitude checks (no count limit), then one path request;
      the reply is decoded as for points, into a `PathElevationResult`. */
  method GetElevationPath(api: TessaDEMAPI, locations: seq<LatLng>, unit: string, format: string)
    returns (c: Call<PathElevationResult>)
    ensures LatitudeCheck(locations).Some? ==> c == Traced(Failure(LatitudeCheck(locations).value), [])
    ensures LatitudeCheck(locations).None? ==>
      var request := LocationsRequest(api, "path", locations, unit, format);
      var decoded := DecodeSamples(api.service(request));
      && c.sent == [request]
      && (decoded.Failure? ==> c.result == Failure(decoded.error))
      && (decoded.Success? ==> c.result == Success(PathElevationResult(decoded.value.results, decoded.value.status)))
  {
    var err := ValidateLatitudes(locations);
    if err.Some? {
      return Traced(Failure(err.value), []);
    }
    var request := LocationsRequest(api, "path", locations, unit, format);
    var reply := api.service(request);
    match DecodeSamples(reply)
    case Failure(e) =>
      c := Traced(Failure(e), [request]);
    case Success(samples) =>
      c := Traced(Success(PathElevationResult(samples.results, samples.status)), [request]);
  }

  /** `get_elevation_area`: the latitude checks, then one area request. */
  method GetElevationArea(api: TessaDEMAPI, locations: seq<LatLng>, unit: string, format: string)
    returns (c: Call<AreaOutcome>)
    ensures LatitudeCheck(locations).Some? ==> c == Traced(Failure(LatitudeCheck(locations).value), [])
    ensures LatitudeCheck(locations).None? ==>
      var request := LocationsRequest(api, "area", locations, unit, format);
      c == Traced(AreaReply(api.service(request), format), [request])
  {
    var err := ValidateLatitudes(locations);
    if err.Some? {
      return Traced(Failure(err.value), []);
    }
    var request := LocationsRequest(api, "area", locations, unit, format);
    var reply := api.service(request);
    c := Traced(AreaReply(reply, format), [request]);
  }

  /** `get_single_elevation`: the latitude check, then a one-location points call in the
      default `json` format, whose first result's elevation is returned. */
  method GetSingleElevation(api: TessaDEMAPI, latitude: real, longitude: real, unit: string)
    returns (c: Call<real>)
    ensures !LatitudeInRange(latitude) ==> c == Traced(Failure(LatitudeOutOfRange(latitude)), [])
    ensures LatitudeInRange(latitude) ==>
      var request := LocationsRequest(api, "points", [LatLng(latitude, longitude)], unit, "json");
      var decoded := DecodeSamples(api.service(request));
      && c.sent == [request]
      && (decoded.Failure? ==> c.result == Failure(decoded.error))
      && (decoded.Success? && |decoded.value.results| == 0 ==> c.result == Failure(IndexOutOfRange(0)))
      && (decoded.Success? && |decoded.value.results| > 0 ==> c.result == Success(decoded.value.results[0].elevation))
  {
    if !LatitudeInRange(latitude) {
      return Traced(Failure(LatitudeOutOfRange(latitude)), []);
    }
    var points := GetElevationPoints(api, [LatLng(latitude, longitude)], unit, "json");
    if points.result.Failure? {
      return Traced(Failure(points.result.error), points.sent);
    }
    if |points.result.value.results| == 0 {
      return Traced(Failure(IndexOutOfRange(0)), points.sent);
    }
    c := Traced(Success(points.result.value.results[0].elevation), points.sent);
  }

  // ---------------------------------------------------------------------------
  // The grid helper

  /** The checks of `get_grid_elevations`, in the order the source makes them. The
      longitudes themselves are not range-checked, only their extent. */
  function GridCheck(north: real, south: real, east: real, west: real, gridSize: int): (r: Option<Error>)
    ensures r.None? <==>
      && LatitudeInRange(north) && LatitudeInRange(south)
      && gridSize <= MaxGridSize && gridSize * gridSize <= MaxLocationsPerRequest
      && Abs(north - south) <= MaxRequestExtentDegrees && Abs(east - west) <= MaxRequestExtentDegrees
    ensures r.Some? ==> r.value.IsValidation()
  {
    if !LatitudeInRange(north) then Some(NorthOutOfRange(north))
    else if !LatitudeInRange(south) then Some(SouthOutOfRange(south))
    else if gridSize > MaxGridSize then Some(GridSizeTooLarge(gridSize))
    else if gridSize * gridSize > MaxLocationsPerRequest then Some(TooManyGridLocations(gridSize * gridSize))
    else if Abs(north - south) > MaxRequestExtentDegrees then Some(LatitudeExtentTooLarge(Abs(north - south)))
    else if Abs(east - west) > MaxRequestExtentDegrees then Some(LongitudeExtentTooLarge(Abs(east - west)))
    else None
  }

  /** Shifting both longitudes by the same amount never changes the outcome of the checks. */
  lemma GridCheckIgnoresLongitudePosition(north: real, south: real, east: real, west: real, gridSize: int, shift: real)
    ensures GridCheck(north, south, east + shift, west + shift, gridSize) == GridCheck(north, south, east, west, gridSize)
  {
    assert (east + shift) - (west + shift) == east - west;
  }

  /** Row i of the lattice: `(lat_i, lng_j)` for every column j. */
  function GridRow(g: Lattice, i: int): (row: seq<LatLng>)
    ensures |row| == g.Sides()
    ensures forall j :: 0 <= j < |row| ==> row[j] == LatLng(g.Lat(i), g.Lng(j))
  {
    seq(g.Sides(), j => LatLng(g.Lat(i), g.Lng(j)))
  }

  /** The locations the nested loops have appended after `rows` full rows. */
  function GridRows(g: Lattice, rows: nat): seq<LatLng>
  {
    if rows == 0 then [] else GridRows(g, rows - 1) + GridRow(g, rows - 1)
  }

  /** The list of grid locations `get_grid_elevations` builds. */
  function GridLocations(g: Lattice): seq<LatLng>
  {
    GridRows(g, g.Sides())
  }

  /** The nested loops over rows and columns that append each lattice point, row by row. */
  method GenerateGrid(g: Lattice) returns (locations: seq<LatLng>)
    ensures locations == GridLocations(g)
  {
    locations := [];
    var i := 0;
    while i < g.size
      invariant 0 <= i <= g.Sides()
      invariant locations == GridRows(g, i)
    {
      var j := 0;
      while j < g.size
        invariant 0 <= j <= g.size
        invariant locations == GridRows(g, i) + GridRow(g, i)[..j]
      {
        assert GridRow(g, i)[..j + 1] == GridRow(g, i)[..j] + [LatLng(g.Lat(i), g.Lng(j))];
        locations := locations + [LatLng(g.Lat(i), g.Lng(j))];
        j := j + 1;
      }
      assert GridRow(g, i)[..j] == GridRow(g, i);
      i := i + 1;
    }
  }

  /** After `rows` rows there are `rows * size` locations, and entry `i * size + j` is the
      lattice point of row i and column j. */
  lemma {:induction false} GridRowsAt(g: Lattice, rows: nat, i: int, j: int)
    ensures |GridRows(g, rows)| == rows * g.Sides()
    ensures 0 <= i < rows && 0 <= j < g.Sides() ==>
      && i * g.Sides() + j < rows * g.Sides()
      && GridRows(g, rows)[i * g.Sides() + j] == LatLng(g.Lat(i), g.Lng(j))
  {
    var n := g.Sides();
    if rows > 0 {
      GridRowsAt(g, rows - 1, i, j);
      assert rows * n == (rows - 1) * n + n;
      if 0 <= i < rows && 0 <= j < n {
        FlatIndex(i, j, n, rows);
        if i == rows - 1 {
          assert GridRows(g, rows)[i * n + j] == GridRow(g, i)[j];
        } else {
          FlatIndex(i, j, n, rows - 1);
        }
      }
    }
  }

  /** The generated list has `grid_size²` entries, and entry `i * grid_size + j` is the
      lattice point `LatLng(g.Lat(i), g.Lng(j))` of row i and column j. */
  lemma GridLocationsAt(g: Lattice, i: int, j: int)
    requires 0 <= i < g.Sides() && 0 <= j < g.Sides()
    ensures |GridLocations(g)| == g.Sides() * g.Sides()
    ensures i * g.Sides() + j < g.Sides() * g.Sides()
    ensures GridLocations(g)[i * g.Sides() + j] == LatLng(g.Lat(i), g.Lng(j))
  {
    GridRowsAt(g, g.Sides(), i, j);
  }

  /** Under exact arithmetic the first generated location is `(south, west)` and the last
      is `(north, east)`. */
  lemma GridLocationsCorners(north: real, south: real, east: real, west: real, gridSize: int)
    requires gridSize >= 2
    ensures var locations := GridLocations(Lattice.Over(north, south, east, west, gridSize));
      && |locations| == gridSize * gridSize
      && 0 < gridSize * gridSize
      && locations[0] == LatLng(south, west)
      && locations[gridSize * gridSize - 1] == LatLng(north, east)
  {
    var g := Lattice.Over(north, south, east, west, gridSize);
    GridRowsAt(g, gridSize, 0, 0);
    FlatIndex(0, 0, gridSize, gridSize);
    GridRowsAt(g, gridSize, gridSize - 1, gridSize - 1);
    LastIndex(gridSize);
    LatticeCorners(north, south, east, west, gridSize);
  }

  /** Every location in the first `rows` rows has the latitude of one of those rows. */
  lemma {:induction false} GridRowsLatitudes(g: Lattice, rows: nat)
    requires forall i :: 0 <= i < rows ==> LatitudeInRange(g.Lat(i))
    ensures forall k :: 0 <= k < |GridRows(g, rows)| ==> LatitudeInRange(GridRows(g, rows)[k].lat)
  {
    if rows > 0 {
      GridRowsLatitudes(g, rows - 1);
      var prefix: seq<LatLng>, row: seq<LatLng> := GridRows(g, rows - 1), GridRow(g, rows - 1);
      assert GridRows(g, rows) == prefix + row;
      forall k | 0 <= k < |prefix + row|
        ensures LatitudeInRange((prefix + row)[k].lat)
      {
        if k >= |prefix| {
          assert (prefix + row)[k] == row[k - |prefix|];
        }
      }
    }
  }

  /** A grid that passes its own checks passes those of the points call it makes: it has at
      most 512 locations, and each latitude lies between south and north. */
  lemma GridPassesPointsCheck(north: real, south: real, east: real, west: real, gridSize: int)
    requires GridCheck(north, south, east, west, gridSize).None?
    requires gridSize != 1
    ensures PointsCheck(GridLocations(Lattice.Over(north, south, east, west, gridSize))).None?
  {
    var g := Lattice.Over(north, south, east, west, gridSize);
    if gridSize > 0 {
      GridRowsAt(g, gridSize, 0, 0);
      forall i | 0 <= i < gridSize
        ensures LatitudeInRange(g.Lat(i))
      {
        LatticeInside(north, south, east, west, gridSize, i, 0);
      }
      GridRowsLatitudes(g, gridSize);
    }
  }

  /** Is `m` the row-major reshape of `points` into `n` rows of `n` elevations? */
  predicate IsReshape(points: seq<ElevationPoint>, n: int, m: seq<seq<real>>)
  {
    && |m| == (if n > 0 then n else 0)
    && (forall i :: 0 <= i < |m| ==> |m[i]| == n)
    && (forall i, j :: 0 <= i < |m| && 0 <= j < n ==>
          i * n + j < |points| && m[i][j] == points[i * n + j].elevation)
  }

  /** Row i of the reshape: the elevations at `i * n + j` for every column j. */
  function ReshapeRow(points: seq<ElevationPoint>, n: nat, i: nat): (row: seq<real>)
    requires i * n + n <= |points|
    ensures |row| == n
    ensures forall j :: 0 <= j < n ==> row[j] == points[i * n + j].elevation
  {
    seq(n, j requires 0 <= j < n => points[i * n + j].elevation)
  }

  /** The first `rows` rows of the reshape. */
  function ReshapeRows(points: seq<ElevationPoint>, n: nat, rows: nat): seq<seq<real>>
    requires rows * n <= |points|
  {
    if rows == 0 then []
    else
      assert (rows - 1) * n + n == rows * n;
      ReshapeRows(points, n, rows - 1) + [ReshapeRow(points, n, rows - 1)]
  }

  /** The rows built so far hold, at row a and column b, the elevation at `a * n + b`. */
  lemma {:induction false} ReshapeRowsAt(points: seq<ElevationPoint>, n: nat, rows: nat)
    requires rows * n <= |points|
    ensures |ReshapeRows(points, n, rows)| == rows
    ensures forall a :: 0 <= a < rows ==>
      a * n + n <= |points| && ReshapeRows(points, n, rows)[a] == ReshapeRow(points, n, a)
  {
    if rows > 0 {
      assert (rows - 1) * n + n == rows * n;
      ReshapeRowsAt(points, n, rows - 1);
    }
  }

  /** All n rows of the reshape form the matrix the source returns. */
  lemma ReshapeRowsIsReshape(points: seq<ElevationPoint>, n: nat)
    requires n * n <= |points|
    ensures IsReshape(points, n, ReshapeRows(points, n, n))
  {
    var m := ReshapeRows(points, n, n);
    ReshapeRowsAt(points, n, n);
    forall a, b | 0 <= a < n && 0 <= b < n
      ensures a * n + b < |points| && m[a][b] == points[a * n + b].elevation
    {
      FlatIndex(a, b, n, n);
    }
  }

  /** The nested loops that build the matrix row by row, taking cell (i, j) from the flat
      results at position `i * grid_size + j`; the first position past the end raises
      `IndexError`. */
  method Reshape(points: seq<ElevationPoint>, n: int) returns (r: Result<seq<seq<real>>, Error>)
    ensures r.Failure? <==> n > 0 && n * n > |points|
    ensures r.Failure? ==> r.error == IndexOutOfRange(|points|)
    ensures r.Success? ==> IsReshape(points, n, r.value)
  {
    if n <= 0 {
      return Success([]);
    }
    var elevations: seq<seq<real>> := [];
    var i := 0;
    var base := 0;
    while i < n
      invariant 0 <= i <= n
      invariant base == i * n <= |points|
      invariant elevations == ReshapeRows(points, n, i)
    {
      var row: seq<real> := [];
      var j := 0;
      while j < n
        invariant 0 <= j <= n
        invariant base + j <= |points|
        invariant |row| == j
        invariant forall b :: 0 <= b < j ==> row[b] == points[base + b].elevation
      {
        var idx := base + j;
        if idx >= |points| {
          FlatIndex(i, j, n, n);
          return Failure(IndexOutOfRange(idx));
        }
        row := row + [points[idx].elevation];
        j := j + 1;
      }
      assert (i + 1) * n == base + n;
      assert row == ReshapeRow(points, n, i);
      elevations := elevations + [row];
      i := i + 1;
      base := base + n;
    }
    ReshapeRowsIsReshape(points, n);
    r := Success(elevations);
  }

  /** `get_grid_elevations`: the checks, the division by `grid_size - 1`, then one points
      request for the generated grid, whose results are reshaped row-major. */
  method GetGridElevations(api: TessaDEMAPI, north: real, south: real, east: real, west: real, gridSize: int, unit: string)
    returns (c: Call<seq<seq<real>>>)
    ensures GridCheck(north, south, east, west, gridSize).Some? ==>
      c == Traced(Failure(GridCheck(north, south, east, west, gridSize).value), [])
    ensures GridCheck(north, south, east, west, gridSize).None? && gridSize == 1 ==>
      c == Traced(Failure(DivisionByZero), [])
    ensures GridCheck(north, south, east, west, gridSize).None? && gridSize != 1 ==>
      var locations := GridLocations(Lattice.Over(north, south, east, west, gridSize));
      var request := LocationsRequest(api, "points", locations, unit, "json");
      var decoded := DecodeSamples(api.service(request));
      && c.sent == [request]
      && (c.result.Success? <==> decoded.Success? && (gridSize <= 0 || gridSize * gridSize <= |decoded.value.results|))
      && (decoded.Failure? ==> c.result == Failure(decoded.error))
      && (c.result.Success? ==> IsReshape(decoded.value.results, gridSize, c.result.value))
  {
    var err := GridCheck(north, south, east, west, gridSize);
    if err.Some? {
      return Traced(Failure(err.value), []);
    }
    if gridSize == 1 {
      return Traced(Failure(DivisionByZero), []);
    }
    var g := Lattice.Over(north, south, east, west, gridSize);
    var locations := GenerateGrid(g);
    GridPassesPointsCheck(north, south, east, west, gridSize);
    var points := GetElevationPoints(api, locations, unit, "json");
    if points.result.Failure? {
      return Traced(Failure(points.result.error), points.sent);
    }
    var elevations := Reshape(points.result.value.results, gridSize);
    c := Traced(elevations, points.sent);
  }
}
