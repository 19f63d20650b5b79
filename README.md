# Verified model of two elevation-service clients

This project models, in Dafny, the request-shaping and result-shaping logic of two thin
HTTP clients for elevation services:

- `TessaDEMAPI`, a client for the TessaDEM elevation API (points, path, area, a
  single point, and a grid helper). It checks requests against the provider's limits:
  latitude in [-80, 84], at most 512 locations, grid side at most 128 with its square at
  most 512, and a box extent of at most 5 degrees. It joins the locations into the
  `|`-separated `lat,lng` parameter and decodes the JSON reply into `ElevationPoint`s.
  The grid helper generates `grid_size²` interpolated locations, makes one batched
  points call, and reshapes the flat results row-major.
- `USGSEPQSApi`, a client for the USGS Elevation Point Query Service. It checks a
  single-point query's longitude, latitude and units, then decodes the nested reply
  field by field. It also has a batch that skips every point whose lookup raises, and a
  grid that keeps every position and puts `None` where a lookup raised.

Structure:

- `common.dfy`, module `Common`: `Option`, `Result`, and `Traced`. `Traced` pairs an
  operation's result with the list of requests it sent, in order. So "fails before any
  request is sent" is stated as `sent == []`.
- `text.dfy`, module `Text`: Python's `str.join` and `str.split` on one separator
  character, with both round trips.
- `grid.dfy`, module `Grid`: the step `(hi - lo) / (n - 1)`, the samples
  `lo + i * step`, and the `Lattice` of a grid helper. Its lemmas: the edges are hit
  exactly, every sample lies between the edges, and row-major index arithmetic.
- `tessadem.dfy`, module `TessaDem`: the TessaDEM client.
- `usgs.dfy`, module `Usgs`: the USGS client.

Modelling choices:

- Each remote service is a total function parameter (`Service = Request -> Reply`), a
  fixed oracle. A reply is either `Failed` or `Received`. `Failed` covers a network
  error and a non-2xx status that `raise_for_status` turns into an exception; the model
  reports it as `RemoteError`. `Received` carries the parsed JSON body, or `None` when
  the content is not JSON (`NotJson`). For TessaDEM it also carries the raw content.
- A JSON body is a record whose keys are each `Option`al. A missing key fails with
  `MissingKey(key)`, for the first key the source reads, in the source's order. In a
  TessaDEM points or path reply, a `results` item that is a list of numbers where an
  object is expected fails with `WrongType("results")`. That is Python's `TypeError`.
- Coordinates and elevations are `real`. The interpolation is exact, so the last grid
  point is exactly `(north, east)`.
- Python's float formatting of each coordinate in the `locations` parameter is the `formatNumber` field of the
  `TessaDEMAPI` value. It is an arbitrary function from reals to strings. It is assumed
  to produce neither `|` nor `,` (`PlainFormatter`) only where the split property is
  proved.
- The loop-based parts are methods with loops, each proved equal to a specification
  function: the latitude loop, grid generation, the reshape, the USGS batch, and the
  USGS grid.
- `grid_size == 1` fails with `DivisionByZero`, before any request, in both grid
  helpers. That is the source's arithmetic as written. A `grid_size` that is not positive
  gives an empty grid, because `range` is then empty: for USGS any such size, for TessaDEM
  the sizes -22 to 0. Below -22 the square exceeds 512 and the TessaDEM total-locations
  check fails first. For TessaDEM an empty grid still sends one points request, with an
  empty `locations` parameter.

The model follows the code as written:

- The code copies whatever `results` the service returns. So a points result is not
  proved to have one entry per input location.
- `get_elevation_batch` catches every exception, including the `ValueError` of a failed
  range or units check. So validation errors are swallowed there, not raised.
- `get_elevations_grid` does not check `units`. With invalid units every cell's check
  fails, no request is sent, and every cell is `None`.
- The "too many locations" error carries only the limit, not the offending count.

## Model

| member | source | states |
|---|---|---|
| `TessaDem.LatitudeCheck` | tessadem_api.py:74-76 | no error exactly when every latitude is in [-80, 84]; otherwise the error names the latitude of the first location out of range |
| `TessaDem.ValidateLatitudes` | tessadem_api.py:74-76 | the validation loop raises exactly the error `LatitudeCheck` specifies |
| `TessaDem.PointsCheck` | tessadem_api.py:71-76 | more than 512 locations gives `TooManyLocations`; no error exactly when the count is at most 512 and every latitude is in range; every error is a validation error |
| `TessaDem.Segment` | tessadem_api.py:78 | a location's segment holds no `\|` when its formatted coordinates hold none, and splits on `,` into the formatted latitude and longitude when they hold no comma |
| `TessaDem.LocationsParam` | tessadem_api.py:78 | no locations give the empty string; otherwise, when no segment holds a `\|`, splitting the parameter on `\|` gives back the segments of the locations, in order |
| `TessaDem.LocationsRequest` | tessadem_api.py:80-86 | the request goes to the fixed endpoint with the client's key and the caller's mode, unit and format unchanged; with a formatter that writes no `\|` or `,`, its `locations` parameter splits into one segment per location, in order |
| `TessaDem.LocationsParamSplits` | tessadem_api.py:78 | splitting the `locations` parameter on `\|` gives one segment per location, in input order; segment i splits on `,` into location i's formatted latitude and longitude |
| `TessaDem.DecodeItem` | tessadem_api.py:93-97 | a result item decodes exactly when it is an object with `lat`, `lng` and `elevation`, and the point copies those three; otherwise a missing-key or type error |
| `TessaDem.DecodeItems` | tessadem_api.py:92-99 | decoding succeeds exactly when every item is complete, and then gives one point per item, in the same order, each copying its item's fields |
| `TessaDem.DecodeSamples` | tessadem_api.py:88-104 | a transport failure is `RemoteError` and unparsable content `NotJson`; success exactly when `results` and `status` are present and every item is complete; the points match the items one to one and the status is carried through |
| `TessaDem.DecodeEncodeSamples` | tessadem_api.py:92-104 | decoding the body the service sends for a result gives that result back |
| `TessaDem.DecodeArea` | tessadem_api.py:192-199 | an area body decodes exactly when `results`, `rows`, `columns`, `resolution` and `status` are all present (results as rows of numbers), and every field is copied verbatim |
| `TessaDem.AreaReply` | tessadem_api.py:186-199 | with format `geotiff` a received reply becomes its raw content, with no JSON decoding even when the body does not parse; otherwise the area record decodes as `DecodeArea` states |
| `TessaDem.GetElevationPoints` | tessadem_api.py:71-104 | a failed count or latitude check returns that error with no request sent; otherwise exactly one `points` request carrying the joined locations is sent, and the result is its decoded reply |
| `TessaDem.GetElevationPath` | tessadem_api.py:123-153 | a latitude outside the range fails with nothing sent, and there is no count limit; otherwise exactly one `path` request is sent and its reply decoded into a `PathElevationResult` |
| `TessaDem.GetElevationArea` | tessadem_api.py:172-199 | a latitude outside the range fails with nothing sent; otherwise exactly one `area` request is sent and the outcome is `AreaReply` for the requested format |
| `TessaDem.GetSingleElevation` | tessadem_api.py:218-222 | an out-of-range latitude fails with nothing sent; otherwise the one-location `json` points request is sent, and the result is the first decoded point's elevation, or `IndexError` when there are no results |
| `TessaDem.GridCheck` | tessadem_api.py:247-262 | no error exactly when north and south are in [-80, 84], `grid_size <= 128`, `grid_size² <= 512`, `\|north-south\| <= 5` and `\|east-west\| <= 5`; every error is a validation error |
| `TessaDem.GridCheckIgnoresLongitudePosition` | tessadem_api.py:259-262 | east and west are not range-checked themselves: shifting both by any amount leaves the checks' outcome unchanged |
| `TessaDem.GenerateGrid` | tessadem_api.py:267-272 | the nested loops build exactly the row-major list of lattice points |
| `TessaDem.GridRowsAt` | tessadem_api.py:267-272 | after `rows` rows there are `rows * grid_size` locations, and entry `i * grid_size + j` is the point of row i and column j |
| `TessaDem.GridLocationsAt` | tessadem_api.py:264-272 | the generated list has `grid_size²` entries, and entry `i * grid_size + j` (always within it) is the lattice point of row i and column j, `(south + i * lat_step, west + j * lng_step)` |
| `TessaDem.GridLocationsCorners` | tessadem_api.py:264-272 | with `grid_size >= 2`, the first generated location is `(south, west)` and the last is `(north, east)` |
| `TessaDem.GridRowsLatitudes` | tessadem_api.py:268-272 | when every row's latitude is in range, every generated location's latitude is in range |
| `TessaDem.GridPassesPointsCheck` | tessadem_api.py:247-274 | a grid that passes its own checks also passes the checks of the points call it makes: at most 512 locations, with every latitude between south and north |
| `TessaDem.ReshapeRowsAt` | tessadem_api.py:276-282 | the rows built so far number `rows`, and row a holds the elevations at `a * grid_size + j` |
| `TessaDem.ReshapeRowsIsReshape` | tessadem_api.py:276-284 | with at least `grid_size²` results, the full reshape has `grid_size` rows of `grid_size` cells, and cell `[i][j]` is `results[i * grid_size + j].elevation` |
| `TessaDem.Reshape` | tessadem_api.py:276-284 | it fails exactly when `grid_size > 0` and there are fewer than `grid_size²` results, with `IndexError` at the first missing index; otherwise it returns the row-major reshape |
| `TessaDem.GetGridElevations` | tessadem_api.py:247-284 | a failed check returns that error with nothing sent; `grid_size == 1` is a division by zero with nothing sent; otherwise exactly one `points` request for the generated grid is sent, and the result is its decoded reply reshaped row-major, failing when the decode fails or too few results came back |
| `Text.Join` | tessadem_api.py:78 | no parts give the empty string; otherwise the result is as long as all parts together plus one separator fewer than there are parts |
| `Text.SplitJoin` | tessadem_api.py:78 | splitting a `\|`-join recovers the parts, when there is at least one part and none holds the separator |
| `Text.JoinSplit` | tessadem_api.py:78 | re-joining a split gives the string back, so `Split` is a faithful inverse of `Join` |
| `Grid.Step` | tessadem_api.py:264-265 | the step is defined for every sample count except 1, and `n - 1` steps from `lo` land exactly on `hi` |
| `Grid.Lattice.Over` | usgs_epqs_api.py:185-186 | the lattice starts at the south and west edges with `grid_size` points per side, and `grid_size - 1` steps reach the north and east edges exactly |
| `Grid.Endpoints` | tessadem_api.py:264-272 | with `n >= 2`, sample 0 is `lo` and sample `n - 1` is `hi` under exact arithmetic |
| `Grid.Between` | usgs_epqs_api.py:185-193 | every sample `lo + i * step` for `0 <= i < n` lies between the two edges |
| `Grid.LatticeInside` | usgs_epqs_api.py:185-193 | every row latitude of a grid lies between south and north, and every column longitude between west and east |
| `Grid.LatticeCorners` | usgs_epqs_api.py:185-193 | the first row and column sit on the south and west edges, and the last on the north and east edges |
| `Usgs.DecodeBody` | usgs_epqs_api.py:87-104 | the body decodes exactly when every key is present; then `location.x`, `location.y`, `spatialReference.wkid`, `spatialReference.latestWkid`, `locationId`, `value`, `rasterId` and `resolution` are each copied; otherwise a missing-key error |
| `Usgs.DecodeReply` | usgs_epqs_api.py:82-104 | a transport failure is `RemoteError` and unparsable content `NotJson`; success exactly when the body is complete, copying every field |
| `Usgs.DecodeEncode` | usgs_epqs_api.py:87-104 | decoding the body the service sends for a response gives that response back |
| `Usgs.GetElevation` | usgs_epqs_api.py:67-104 | a longitude outside [-180, 180], then a latitude outside [-90, 90], then units other than exactly `Meters` or `Feet`, fail with that error and nothing sent; a request is sent exactly when all checks pass, and it is the one query `x = longitude, y = latitude`, whose reply is decoded |
| `Usgs.GetElevationSimple` | usgs_epqs_api.py:150-151 | sends what `get_elevation` sends, succeeds exactly when it does with its `value`, and otherwise fails with its error |
| `Usgs.GetElevationBatch` | usgs_epqs_api.py:121-131 | the loop returns exactly `BatchResults`, the list of successful responses, and sends exactly the lookups' requests in order; it never fails |
| `Usgs.SuccessIndicesExact` | usgs_epqs_api.py:121-131 | the positions of successful lookups: in range, strictly increasing, and a position belongs exactly when its lookup succeeds |
| `Usgs.BatchIsSuccessSubsequence` | usgs_epqs_api.py:121-131 | the batch is the in-order subsequence of successful lookups: its k-th element is the response at the k-th successful position, and it is no longer than the input |
| `Usgs.BatchWithoutFailures` | usgs_epqs_api.py:121-131 | when no lookup fails, the batch is the element-wise mapping of the input |
| `Usgs.BatchWithInvalidUnits` | usgs_epqs_api.py:123-129 | a failed check is caught like any other failure: with invalid units the batch sends nothing and returns an empty list |
| `Usgs.GridCheck` | usgs_epqs_api.py:176-183 | no error exactly when both latitudes are in [-90, 90], both longitudes in [-180, 180], `south < north` and `west < east` |
| `Usgs.LookupCell` | usgs_epqs_api.py:192-199 | one inner-loop step: the cell is the lookup's value when it succeeds and `None` when it raised, and the step sends exactly that lookup's requests |
| `Usgs.LookupRow` | usgs_epqs_api.py:190-199 | the inner loop gives one cell per column, each `None` exactly where that lookup raised, and sends the row's lookups in column order |
| `Usgs.LookupRows` | usgs_epqs_api.py:188-200 | the outer loop appends one row of cells per lattice row, in order, and sends the rows' lookups in row-major order |
| `Usgs.CellRowsAt` | usgs_epqs_api.py:188-200 | after `rows` rows the matrix has `rows` rows, and row a is the row of cells of lattice row a |
| `Usgs.CellRowsGrid` | usgs_epqs_api.py:188-202 | the full matrix has `grid_size` rows of `grid_size` cells, and cell `[i][j]` is `None` exactly when `get_elevation` fails at `(lng_j, lat_i)`, and otherwise holds its `value` |
| `Usgs.CellValueMeaning` | usgs_epqs_api.py:194-199 | a cell is `None` exactly when `get_elevation` fails at `(west + j * lng_step, south + i * lat_step)`, and otherwise holds that call's `value` |
| `Usgs.GetElevationsGrid` | usgs_epqs_api.py:176-202 | a failed check returns that error with nothing sent, and `grid_size == 1` is a division by zero; otherwise it never fails, returns `grid_size` rows of `grid_size` cells with every position kept, and sends the cells' lookups in row-major order |
| `Usgs.GridCellQuery` | usgs_epqs_api.py:192-195 | every cell of a checked grid passes the range checks: with valid units its lookup sends exactly `x = lng_j, y = lat_i` (longitude first); with invalid units it sends nothing and the cell is `None` |
| `Usgs.RowSentLength` | usgs_epqs_api.py:191-199 | a row sends one request per cell when the units are valid, and none otherwise |
| `Usgs.GridSentLength` | usgs_epqs_api.py:189-200 | a checked grid sends `rows * grid_size` requests over its first `rows` rows when the units are valid, and none otherwise |

## Left out

- HTTP transport is an oracle parameter. Not modelled: `requests.get`, the USGS `requests.Session` and its headers, `raise_for_status` status codes, and `response.json()` parsing. The oracle is a fixed function of the request, so a service that answers the same request differently at different times is not modelled.
- The API-key fallback to the `API_KEY_TESSADEM` environment variable, the `.env` loading and the constructor's missing-key `ValueError` are left out, because they are environment I/O. The key is a field of the `TessaDEMAPI` value.
- The `print` calls in the batch and grid `except` branches are side effects only. The model keeps their effect on the data: the item is skipped or the cell is `None`.
- The `__main__` example block is left out.
- Default arguments are not modelled: every parameter is explicit, including `unit`, `format`, `units` and `grid_size`. Where the source's own calls rely on a default, the model passes that value explicitly: the single-point and grid helpers send format `json`.
- IEEE float rounding in the interpolation is not modelled, and neither is Python's float-to-string conversion of each coordinate. Reals are exact, and the formatter is a parameter.
- The constants `MAX_URL_LENGTH`, `MAX_PATH_SAMPLES`, `MAX_AREA_DATA_POINTS` and the 300-per-minute rate limit are left out. No code checks them.
- Geotiff and KML payloads are opaque bytes. The `unit` and `format` parameters are passed through unchecked, as in the source.
- JSON values of the wrong type are not modelled, except a TessaDEM `results` item that is a list where an object is expected. Each decoded field is taken to have the type the dataclass declares.
- `TessaDem.DecodeArea`: a `results` list whose items are not all lists of numbers is rejected with `WrongType("results")`. Python would copy such a list verbatim into `AreaElevationResult.results`.
- `TessaDem.GetElevationPoints`: the model does not promise one result per input location, because the source copies whatever the service returns.
