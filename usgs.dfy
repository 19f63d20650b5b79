/** The USGS Elevation Point Query Service client (`USGSEPQSApi`): the single-point
    query with its range and units checks and its field-by-field decoding, and the two
    helpers built on it, a batch that skips failed points and a grid that marks them. */
module Usgs {
  import opened Common
  import opened Grid

  datatype SpatialReference = SpatialReference(wkid: int, latestWkid: int)

  datatype Location = Location(x: real, y: real, spatialReference: SpatialReference)

  datatype ElevationResponse =
    ElevationResponse(location: Location, locationId: int, value: real, rasterId: int, resolution: real)

  /** A caller's `(longitude, latitude)` tuple in a batch. */
  datatype Coordinate = Coordinate(longitude: real, latitude: real)

  /** The query parameters `x`, `y` and `units` of one GET to the session's fixed endpoint
      (`https://epqs.nationalmap.gov/v1/json`); `output` is always `json`. */
  datatype Query = Query(x: real, y: real, units: string)

  /** The parsed JSON object of a reply; every key may be missing. */
  datatype RawSpatialReference = RawSpatialReference(wkid: Option<int>, latestWkid: Option<int>)

  datatype RawLocation = RawLocation(x: Option<real>, y: Option<real>, spatialReference: Option<RawSpatialReference>)

  datatype Body = Body(
    location: Option<RawLocation>,
    locationId: Option<int>,
    value: Option<real>,
    rasterId: Option<int>,
    resolution: Option<real>)

  /** What the session hands back: a failure (a network error, or a non-2xx status that
      `raise_for_status` turns into an exception), or the body when it parses as JSON. */
  datatype Reply = Failed | Received(body: Option<Body>)

  /** The remote service, as an oracle from query to reply. */
  type Service = Query -> Reply

  datatype Error =
    | LongitudeOutOfRange(longitude: real)
    | LatitudeOutOfRange(latitude: real)
    | InvalidUnits
    | LatitudesOutOfRange
    | LongitudesOutOfRange
    | NorthNotAboveSouth
    | EastNotAboveWest
    | DivisionByZero
    | RemoteError
    | NotJson
    | MissingKey(key: string)

  type Call<T> = Traced<T, Error, Query>

  predicate LongitudeInRange(x: real)
  {
    -180.0 <= x <= 180.0
  }

  predicate LatitudeInRange(y: real)
  {
    -90.0 <= y <= 90.0
  }

  /** The units are `Meters` or `Feet`, matched exactly and case-sensitively. */
  predicate ValidUnits(units: string)
  {
    units == "Meters" || units == "Feet"
  }

  /** A point query passes every check of `get_elevation`. */
  predicate ValidQuery(longitude: real, latitude: real, units: string)
  {
    LongitudeInRange(longitude) && LatitudeInRange(latitude) && ValidUnits(units)
  }

  // ---------------------------------------------------------------------------
  // Decoding

  /** A body with every key the decoder reads. */
  predicate Complete(body: Body)
  {
    && body.location.Some?
    && body.location.value.spatialReference.Some?
    && body.location.value.spatialReference.value.wkid.Some?
    && body.location.value.spatialReference.value.latestWkid.Some?
    && body.location.value.x.Some?
    && body.location.value.y.Some?
    && body.locationId.Some? && body.value.Some? && body.rasterId.Some? && body.resolution.Some?
  }

  /** The response repeats, field by field, what the body holds. */
  predicate Copies(body: Body, r: ElevationResponse)
    requires Complete(body)
  {
    && r.location.spatialReference.wkid == body.location.value.spatialReference.value.wkid.value
    && r.location.spatialReference.latestWkid == body.location.value.spatialReference.value.latestWkid.value
    && r.location.x == body.location.value.x.value
    && r.location.y == body.location.value.y.value
    && r.locationId == body.locationId.value
    && r.value == body.value.value
    && r.rasterId == body.rasterId.value
    && r.resolution == body.resolution.value
  }

  /** The nested construction of `SpatialReference`, `Location` and `ElevationResponse`,
      reading the keys in the order the source does; the first missing key raises. */
  function DecodeBody(body: Body): (r: Result<ElevationResponse, Error>)
    ensures r.Success? <==> Complete(body)
    ensures r.Success? ==> Copies(body, r.value)
    ensures r.Failure? ==> r.error.MissingKey?
  {
    if body.location.None? then Failure(MissingKey("location"))
    else
      var loc := body.location.value;
      if loc.spatialReference.None? then Failure(MissingKey("spatialReference"))
      else if loc.spatialReference.value.wkid.None? then Failure(MissingKey("wkid"))
      else if loc.spatialReference.value.latestWkid.None? then Failure(MissingKey("latestWkid"))
      else if loc.x.None? then Failure(MissingKey("x"))
      else if loc.y.None? then Failure(MissingKey("y"))
      else if body.locationId.None? then Failure(MissingKey("locationId"))
      else if body.value.None? then Failure(MissingKey("value"))
      else if body.rasterId.None? then Failure(MissingKey("rasterId"))
      else if body.resolution.None? then Failure(MissingKey("resolution"))
      else
        var spatialRef := SpatialReference(loc.spatialReference.value.wkid.value, loc.spatialReference.value.latestWkid.value);
        var location := Location(loc.x.value, loc.y.value, spatialRef);
        Success(ElevationResponse(location, body.locationId.value, body.value.value, body.rasterId.value, body.resolution.value))
  }

  /** The status check, the JSON parse, then the decoding of the body. */
  function DecodeReply(reply: Reply): (r: Result<ElevationResponse, Error>)
    ensures reply.Failed? ==> r == Failure(RemoteError)
    ensures reply == Received(None) ==> r == Failure(NotJson)
    ensures r.Success? <==> reply.Received? && reply.body.Some? && Complete(reply.body.value)
    ensures r.Success? ==> Copies(reply.body.value, r.value)
  {
    match reply
    case Failed => Failure(RemoteError)
    case Received(None) => Failure(NotJson)
    case Received(Some(body)) => DecodeBody(body)
  }

  /** The body the service sends for a response. */
  function Encode(r: ElevationResponse): (body: Body)
    ensures Complete(body)
  {
    var spatialRef := RawSpatialReference(Some(r.location.spatialReference.wkid), Some(r.location.spatialReference.latestWkid));
    Body(Some(RawLocation(Some(r.location.x), Some(r.location.y), Some(spatialRef))),
         Some(r.locationId), Some(r.value), Some(r.rasterId), Some(r.resolution))
  }

  /** Decoding is the inverse of encoding: no field is lost or swapped. */
  lemma DecodeEncode(r: ElevationResponse)
    ensures DecodeReply(Received(Some(Encode(r)))) == Success(r)
  {
  }

  // ---------------------------------------------------------------------------
  // Single point

  /** `get_elevation`: longitude, latitude and units are checked, in that order, before
      anything is sent; a valid query sends exactly `x = longitude, y = latitude`. */
  function GetElevation(service: Service, longitude: real, latitude: real, units: string): (c: Call<ElevationResponse>)
    ensures !LongitudeInRange(longitude) ==> c == Traced(Failure(LongitudeOutOfRange(longitude)), [])
    ensures LongitudeInRange(longitude) && !LatitudeInRange(latitude) ==>
      c == Traced(Failure(LatitudeOutOfRange(latitude)), [])
    ensures LongitudeInRange(longitude) && LatitudeInRange(latitude) && !ValidUnits(units) ==>
      c == Traced(Failure(InvalidUnits), [])
    ensures c.sent != [] <==> ValidQuery(longitude, latitude, units)
    ensures ValidQuery(longitude, latitude, units) ==>
      && c.sent == [Query(longitude, latitude, units)]
      && c.result == DecodeReply(service(Query(longitude, latitude, units)))
  {
    if !LongitudeInRange(longitude) then Traced(Failure(LongitudeOutOfRange(longitude)), [])
    else if !LatitudeInRange(latitude) then Traced(Failure(LatitudeOutOfRange(latitude)), [])
    else if !ValidUnits(units) then Traced(Failure(InvalidUnits), [])
    else
      var query := Query(longitude, latitude, units);
      Traced(DecodeReply(service(query)), [query])
  }

  /** `get_elevation_simple`: the `value` field of `get_elevation` for the same arguments,
      failing exactly when it fails. */
  function GetElevationSimple(service: Service, longitude: real, latitude: real, units: string): (c: Call<real>)
    ensures c.sent == GetElevation(service, longitude, latitude, units).sent
    ensures c.result.Success? <==> GetElevation(service, longitude, latitude, units).result.Success?
    ensures c.result.Success? ==> c.result.value == GetElevation(service, longitude, latitude, units).result.value.value
    ensures c.result.Failure? ==> c.result.error == GetElevation(service, longitude, latitude, units).result.error
  {
    var response := GetElevation(service, longitude, latitude, units);
    match response.result
    case Failure(e) => Traced(Failure(e), response.sent)
    case Success(r) => Traced(Success(r.value), response.sent)
  }

  // ---------------------------------------------------------------------------
  // Batch

  /** The lookup of one batch coordinate. */
  function Lookup(service: Service, p: Coordinate, units: string): Call<ElevationResponse>
  {
    GetElevation(service, p.longitude, p.latitude, units)
  }

  /** The list the batch loop builds: the successful responses, in input order. */
  function BatchResults(service: Service, coordinates: seq<Coordinate>, units: string): seq<ElevationResponse>
  {
    if |coordinates| == 0 then []
    else
      var last := Lookup(service, coordinates[|coordinates| - 1], units);
      BatchResults(service, coordinates[..|coordinates| - 1], units)
        + (if last.result.Success? then [last.result.value] else [])
  }

  /** The requests the batch loop sends: those of each lookup, in input order. */
  function BatchSent(service: Service, coordinates: seq<Coordinate>, units: string): seq<Query>
  {
    if |coordinates| == 0 then []
    else
      BatchSent(service, coordinates[..|coordinates| - 1], units)
        + Lookup(service, coordinates[|coordinates| - 1], units).sent
  }

  /** `get_elevation_batch`: every exception of a lookup, a failed check included, is
      caught and that coordinate skipped; the batch itself never fails. */
  method GetElevationBatch(service: Service, coordinates: seq<Coordinate>, units: string)
    returns (results: seq<ElevationResponse>, sent: seq<Query>)
    ensures results == BatchResults(service, coordinates, units)
    ensures sent == BatchSent(service, coordinates, units)
  {
    results, sent := [], [];
    var i := 0;
    while i < |coordinates|
      invariant 0 <= i <= |coordinates|
      invariant results == BatchResults(service, coordinates[..i], units)
      invariant sent == BatchSent(service, coordinates[..i], units)
    {
      var call := GetElevation(service, coordinates[i].longitude, coordinates[i].latitude, units);
      assert coordinates[..i + 1][..i] == coordinates[..i];
      sent := sent + call.sent;
      if call.result.Success? {
        results := results + [call.result.value];
      }
      i := i + 1;
    }
    assert coordinates[..i] == coordinates;
  }

  /** The positions of the coordinates whose lookup succeeds, in increasing order. */
  function SuccessIndices(service: Service, coordinates: seq<Coordinate>, units: string): seq<int>
  {
    if |coordinates| == 0 then []
    else
      var n := |coordinates| - 1;
      SuccessIndices(service, coordinates[..n], units)
        + (if Lookup(service, coordinates[n], units).result.Success? then [n] else [])
  }

  /** `SuccessIndices` lists positions in range, strictly increasing, and holds a position
      exactly when the lookup there succeeds. */
  lemma {:induction false} SuccessIndicesExact(service: Service, coordinates: seq<Coordinate>, units: string)
    ensures var idx := SuccessIndices(service, coordinates, units);
      && (forall k :: 0 <= k < |idx| ==> 0 <= idx[k] < |coordinates|)
      && (forall k, l :: 0 <= k < l < |idx| ==> idx[k] < idx[l])
      && (forall i :: 0 <= i < |coordinates| ==>
            (i in idx <==> Lookup(service, coordinates[i], units).result.Success?))
  {
    if |coordinates| > 0 {
      var n := |coordinates| - 1;
      var init := coordinates[..n];
      SuccessIndicesExact(service, init, units);
      var prev := SuccessIndices(service, init, units);
      var last: seq<int> := if Lookup(service, coordinates[n], units).result.Success? then [n] else [];
      var idx := prev + last;
      assert idx == SuccessIndices(service, coordinates, units);
      assert forall k :: 0 <= k < |prev| ==> idx[k] == prev[k] < n;
      assert forall k :: |prev| <= k < |idx| ==> idx[k] == n;
      forall i | 0 <= i < |coordinates|
        ensures i in idx <==> Lookup(service, coordinates[i], units).result.Success?
      {
        if i < n {
          assert init[i] == coordinates[i];
          assert i !in last;
        } else {
          assert i !in prev;
        }
      }
    }
  }

  /** The batch is the in-order subsequence of successful lookups: its k-th response is that
      of the k-th successful coordinate, so it is never longer than the input. */
  lemma {:induction false} BatchIsSuccessSubsequence(service: Service, coordinates: seq<Coordinate>, units: string)
    ensures var idx := SuccessIndices(service, coordinates, units);
      var results := BatchResults(service, coordinates, units);
      && |results| == |idx| <= |coordinates|
      && forall k :: 0 <= k < |idx| ==>
           && 0 <= idx[k] < |coordinates|
           && Lookup(service, coordinates[idx[k]], units).result == Success(results[k])
  {
    if |coordinates| > 0 {
      var n := |coordinates| - 1;
      var init := coordinates[..n];
      BatchIsSuccessSubsequence(service, init, units);
      SuccessIndicesExact(service, init, units);
      IndicesFit(SuccessIndices(service, init, units), n);
      var idx0, results0 := SuccessIndices(service, init, units), BatchResults(service, init, units);
      var last := Lookup(service, coordinates[n], units);
      var idx, results := SuccessIndices(service, coordinates, units), BatchResults(service, coordinates, units);
      assert idx == idx0 + (if last.result.Success? then [n] else []);
      assert results == results0 + (if last.result.Success? then [last.result.value] else []);
      forall k | 0 <= k < |idx|
        ensures 0 <= idx[k] < |coordinates| && Lookup(service, coordinates[idx[k]], units).result == Success(results[k])
      {
        if k < |idx0| {
          assert idx[k] == idx0[k] && results[k] == results0[k];
          assert init[idx0[k]] == coordinates[idx0[k]];
        } else {
          assert idx[k] == n && results[k] == last.result.value;
        }
      }
    }
  }

  /** Strictly increasing indices below n number at most n. */
  lemma {:induction false} IndicesFit(idx: seq<int>, n: nat)
    requires forall k :: 0 <= k < |idx| ==> 0 <= idx[k] < n
    requires forall k, l :: 0 <= k < l < |idx| ==> idx[k] < idx[l]
    ensures |idx| <= n
  {
    if |idx| > 0 {
      var last, prefix := idx[|idx| - 1], idx[..|idx| - 1];
      assert forall k :: 0 <= k < |prefix| ==> prefix[k] == idx[k] < last;
      IndicesFit(prefix, last);
      assert |idx| == |prefix| + 1 && last < n;
    }
  }

  /** When no lookup fails, the batch is the element-wise mapping of the input. */
  lemma {:induction false} BatchWithoutFailures(service: Service, coordinates: seq<Coordinate>, units: string)
    requires forall i :: 0 <= i < |coordinates| ==> Lookup(service, coordinates[i], units).result.Success?
    ensures var results := BatchResults(service, coordinates, units);
      && |results| == |coordinates|
      && forall i :: 0 <= i < |coordinates| ==> results[i] == Lookup(service, coordinates[i], units).result.value
  {
    if |coordinates| > 0 {
      var n := |coordinates| - 1;
      assert forall i :: 0 <= i < n ==> coordinates[..n][i] == coordinates[i];
      BatchWithoutFailures(service, coordinates[..n], units);
    }
  }

  /** With units other than `Meters` or `Feet` every lookup fails its check: the batch sends
      nothing and returns an empty list, and does not raise. */
  lemma {:induction false} BatchWithInvalidUnits(service: Service, coordinates: seq<Coordinate>, units: string)
    requires !ValidUnits(units)
    ensures BatchResults(service, coordinates, units) == []
    ensures BatchSent(service, coordinates, units) == []
  {
    if |coordinates| > 0 {
      BatchWithInvalidUnits(service, coordinates[..|coordinates| - 1], units);
    }
  }

  // ---------------------------------------------------------------------------
  // Grid

  /** The checks of `get_elevations_grid`, in the order the source makes them. */
  function GridCheck(north: real, south: real, east: real, west: real): (r: Option<Error>)
    ensures r.None? <==>
      && LatitudeInRange(north) && LatitudeInRange(south)
      && LongitudeInRange(east) && LongitudeInRange(west)
      && south < north && west < east
  {
    if !LatitudeInRange(north) || !LatitudeInRange(south) then Some(LatitudesOutOfRange)
    else if !LongitudeInRange(east) || !LongitudeInRange(west) then Some(LongitudesOutOfRange)
    else if north <= south then Some(NorthNotAboveSouth)
    else if east <= west then Some(EastNotAboveWest)
    else None
  }

  /** The lookup of cell (i, j): the simple lookup at the column's longitude and the row's
      latitude, longitude first. */
  function CellCall(service: Service, g: Lattice, units: string, i: int, j: int): Call<real>
  {
    GetElevationSimple(service, g.Lng(j), g.Lat(i), units)
  }

  /** Cell (i, j) of the matrix: `None` when its lookup raised, its value otherwise. */
  function CellValue(service: Service, g: Lattice, units: string, i: int, j: int): Option<real>
  {
    ToOption(CellCall(service, g, units, i, j).result)
  }

  /** Row i of the matrix: one cell per column. */
  function CellRow(service: Service, g: Lattice, units: string, i: int): (row: seq<Option<real>>)
    ensures |row| == g.Sides()
  {
    seq(g.Sides(), j => CellValue(service, g, units, i, j))
  }

  /** Is `m` the full matrix of cells: every position kept, `None` exactly where the lookup
      at the lattice point of row i and column j failed, that lookup's value elsewhere? */
  predicate IsCellGrid(service: Service, g: Lattice, units: string, m: seq<seq<Option<real>>>)
  {
    && |m| == g.Sides()
    && (forall i :: 0 <= i < |m| ==> |m[i]| == g.Sides())
    && (forall i, j :: 0 <= i < |m| && 0 <= j < g.Sides() ==>
          var lookup := GetElevation(service, g.Lng(j), g.Lat(i), units).result;
          && (m[i][j].None? <==> lookup.Failure?)
          && (m[i][j].Some? ==> m[i][j].value == lookup.value.value))
  }

  /** The requests the lookups of row i send, for its first `cols` cells. */
  function RowSent(service: Service, g: Lattice, units: string, i: int, cols: nat): seq<Query>
  {
    if cols == 0 then [] else RowSent(service, g, units, i, cols - 1) + CellCall(service, g, units, i, cols - 1).sent
  }

  /** The requests the lookups of the first `rows` rows send, in row-major order. */
  function GridSent(service: Service, g: Lattice, units: string, rows: nat): seq<Query>
  {
    if rows == 0 then [] else GridSent(service, g, units, rows - 1) + RowSent(service, g, units, rows - 1, g.Sides())
  }

  /** The body of the inner loop: one lookup, whose exception leaves `None`. */
  method LookupCell(service: Service, g: Lattice, units: string, i: int, j: int)
    returns (cell: Option<real>, sent: seq<Query>)
    ensures cell == CellValue(service, g, units, i, j)
    ensures sent == CellCall(service, g, units, i, j).sent
  {
    var call := GetElevationSimple(service, g.Lng(j), g.Lat(i), units);
    sent := call.sent;
    if call.result.Success? {
      cell := Some(call.result.value);
    } else {
      cell := None;
    }
  }

  /** The inner loop of `get_elevations_grid`: one lookup per column of row i, `None` where
      it raised. */
  method LookupRow(service: Service, g: Lattice, units: string, i: int)
    returns (row: seq<Option<real>>, sent: seq<Query>)
    ensures row == CellRow(service, g, units, i)
    ensures sent == RowSent(service, g, units, i, g.Sides())
  {
    row, sent := [], [];
    var j := 0;
    while j < g.size
      invariant 0 <= j <= g.Sides()
      invariant |row| == j
      invariant forall b :: 0 <= b < j ==> row[b] == CellValue(service, g, units, i, b)
      invariant sent == RowSent(service, g, units, i, j)
    {
      var cell, cellSent := LookupCell(service, g, units, i, j);
      sent := sent + cellSent;
      row := row + [cell];
      j := j + 1;
    }
    assert row == CellRow(service, g, units, i);
  }

  /** A cell is `None` exactly when `get_elevation` fails at its coordinates, and holds that
      call's `value` otherwise. */
  lemma CellValueMeaning(service: Service, g: Lattice, units: string, i: int, j: int)
    ensures var lookup := GetElevation(service, g.Lng(j), g.Lat(i), units).result;
      && (CellValue(service, g, units, i, j).None? <==> lookup.Failure?)
      && (CellValue(service, g, units, i, j).Some? ==> CellValue(service, g, units, i, j).value == lookup.value.value)
  {
  }

  /** The matrix the outer loop has built after `rows` rows. */
  function CellRows(service: Service, g: Lattice, units: string, rows: nat): seq<seq<Option<real>>>
  {
    if rows == 0 then [] else CellRows(service, g, units, rows - 1) + [CellRow(service, g, units, rows - 1)]
  }

  /** After `rows` rows the matrix has `rows` rows, row a being the row of cells a. */
  lemma {:induction false} CellRowsAt(service: Service, g: Lattice, units: string, rows: nat)
    ensures |CellRows(service, g, units, rows)| == rows
    ensures forall a :: 0 <= a < rows ==> CellRows(service, g, units, rows)[a] == CellRow(service, g, units, a)
  {
    if rows > 0 {
      CellRowsAt(service, g, units, rows - 1);
    }
  }

  /** The matrix of all rows is the full matrix of cells. */
  lemma CellRowsGrid(service: Service, g: Lattice, units: string)
    ensures IsCellGrid(service, g, units, CellRows(service, g, units, g.Sides()))
  {
    var m: seq<seq<Option<real>>> := CellRows(service, g, units, g.Sides());
    CellRowsAt(service, g, units, g.Sides());
    forall a, b | 0 <= a < |m| && 0 <= b < g.Sides()
      ensures var lookup := GetElevation(service, g.Lng(b), g.Lat(a), units).result;
        && (m[a][b].None? <==> lookup.Failure?)
        && (m[a][b].Some? ==> m[a][b].value == lookup.value.value)
    {
      assert m[a][b] == CellValue(service, g, units, a, b);
      CellValueMeaning(service, g, units, a, b);
    }
  }

  /** The outer loop of `get_elevations_grid`: one row of lookups per lattice row, in order. */
  method LookupRows(service: Service, g: Lattice, units: string)
    returns (elevations: seq<seq<Option<real>>>, sent: seq<Query>)
    ensures elevations == CellRows(service, g, units, g.Sides())
    ensures sent == GridSent(service, g, units, g.Sides())
  {
    elevations, sent := [], [];
    var i := 0;
    while i < g.size
      invariant 0 <= i <= g.Sides()
      invariant elevations == CellRows(service, g, units, i)
      invariant sent == GridSent(service, g, units, i)
    {
      var row, rowSent := LookupRow(service, g, units, i);
      sent := sent + rowSent;
      elevations := elevations + [row];
      i := i + 1;
    }
  }

  /** `get_elevations_grid`: the checks, the division by `grid_size - 1`, then one separate
      lookup per cell in row-major order; a failed lookup leaves `None` in its cell. */
  method GetElevationsGrid(service: Service, north: real, south: real, east: real, west: real, gridSize: int, units: string)
    returns (c: Call<seq<seq<Option<real>>>>)
    ensures GridCheck(north, south, east, west).Some? ==>
      c == Traced(Failure(GridCheck(north, south, east, west).value), [])
    ensures GridCheck(north, south, east, west).None? && gridSize == 1 ==>
      c == Traced(Failure(DivisionByZero), [])
    ensures GridCheck(north, south, east, west).None? && gridSize != 1 ==>
      var g := Lattice.Over(north, south, east, west, gridSize);
      && c.result.Success?
      && IsCellGrid(service, g, units, c.result.value)
      && c.sent == GridSent(service, g, units, g.Sides())
  {
    var err := GridCheck(north, south, east, west);
    if err.Some? {
      return Traced(Failure(err.value), []);
    }
    if gridSize == 1 {
      return Traced(Failure(DivisionByZero), []);
    }
    var g := Lattice.Over(north, south, east, west, gridSize);
    var elevations, sent := LookupRows(service, g, units);
    CellRowsGrid(service, g, units);
    c := Traced(Success(elevations), sent);
  }

  /** Every cell of a grid that passes its checks lies inside the box, so its lookup never
      fails a range check: with valid units it sends exactly `x = lng_j, y = lat_i`, and
      with invalid units it sends nothing and its cell is `None`. */
  lemma GridCellQuery(service: Service, north: real, south: real, east: real, west: real, gridSize: int, units: string, i: int, j: int)
    requires GridCheck(north, south, east, west).None?
    requires gridSize >= 2 && 0 <= i < gridSize && 0 <= j < gridSize
    ensures var g := Lattice.Over(north, south, east, west, gridSize);
      && (ValidUnits(units) ==> CellCall(service, g, units, i, j).sent == [Query(g.Lng(j), g.Lat(i), units)])
      && (!ValidUnits(units) ==> CellCall(service, g, units, i, j).sent == [] && CellValue(service, g, units, i, j) == None)
  {
    LatticeInside(north, south, east, west, gridSize, i, j);
  }

  /** One request per cell of a row when the units are valid, none when they are not. */
  lemma {:induction false} RowSentLength(service: Service, north: real, south: real, east: real, west: real, gridSize: int, units: string, i: int, cols: nat)
    requires GridCheck(north, south, east, west).None?
    requires gridSize >= 2 && 0 <= i < gridSize && cols <= gridSize
    ensures |RowSent(service, Lattice.Over(north, south, east, west, gridSize), units, i, cols)| == if ValidUnits(units) then cols else 0
  {
    if cols > 0 {
      RowSentLength(service, north, south, east, west, gridSize, units, i, cols - 1);
      GridCellQuery(service, north, south, east, west, gridSize, units, i, cols - 1);
    }
  }

  /** A grid that passes its checks sends `rows * grid_size` requests over its first `rows`
      rows when the units are valid, and none when they are not. */
  lemma {:induction false} GridSentLength(service: Service, north: real, south: real, east: real, west: real, gridSize: int, units: string, rows: nat)
    requires GridCheck(north, south, east, west).None?
    requires gridSize >= 2 && rows <= gridSize
    ensures |GridSent(service, Lattice.Over(north, south, east, west, gridSize), units, rows)| == if ValidUnits(units) then rows * gridSize else 0
  {
    if rows > 0 {
      var g := Lattice.Over(north, south, east, west, gridSize);
      GridSentLength(service, north, south, east, west, gridSize, units, rows - 1);
      RowSentLength(service, north, south, east, west, gridSize, units, rows - 1, gridSize);
      assert GridSent(service, g, units, rows) == GridSent(service, g, units, rows - 1) + RowSent(service, g, units, rows - 1, gridSize);
      assert rows * gridSize == (rows - 1) * gridSize + gridSize;
    }
  }
}
