/** The places actions: the list response is unwrapped from one of two
    shapes, each row is turned into a place, the per-location list is a
    filter on the client, and create/update unwrap what the backend echoes. */
module PlaceActions {
  import opened Wrappers
  import opened Js

  /** A network or HTTP failure. */
  datatype HttpError = HttpError(status: Option<int>, message: string)

  /** A place as the screens receive it. The `as string` casts of the
      source convert nothing, so each field holds whatever the row held. */
  datatype Place = Place(
    id: Option<Json>,
    name: Json,
    area: Json,
    locationId: Option<Json>,
    createdAt: Option<Json>,
    updatedAt: Option<Json>)

  /** `a || b` on possibly undefined values. */
  function OrElse(a: Option<Json>, b: Option<Json>): (r: Option<Json>)
    ensures Truthy(a) ==> r == a
    ensures !Truthy(a) ==> r == b
  {
    if Truthy(a) then a else b
  }

  /** The raw rows: `data.data` when it is an array, else `data` when it is
      an array; any other shape has none. */
  function RawPlaces(data: Option<Json>): (r: Option<seq<Json>>)
    ensures r.Some? <==> (Truthy(data) && IsArray(Get(data.value, "data"))) || IsArray(data)
    ensures Truthy(data) && IsArray(Get(data.value, "data")) ==> r == Some(Get(data.value, "data").value.items)
    ensures !(Truthy(data) && IsArray(Get(data.value, "data"))) && IsArray(data) ==> r == Some(data.value.items)
  {
    if Truthy(data) && Truthy(Get(data.value, "data")) && IsArray(Get(data.value, "data")) then
      Some(Get(data.value, "data").value.items)
    else if IsArray(data) then Some(data.value.items)
    else None
  }

  /** Reading a property of a `null` row throws; the fetches catch it. */
  predicate HasNullRow(rows: seq<Json>) {
    exists i :: 0 <= i < |rows| && rows[i].JNull?
  }

  /** `rawPlace.locationId || rawPlace.location_id` */
  function RowLocationId(row: Json): Option<Json> {
    OrElse(Get(row, "locationId"), Get(row, "location_id"))
  }

  /** `(v as string) || ''` */
  function OrEmptyString(v: Option<Json>): (r: Json)
    ensures Truthy(v) ==> r == v.value
    ensures !Truthy(v) ==> r == JStr("")
  {
    if Truthy(v) then v.value else JStr("")
  }

  /** The row transform shared by both fetches. */
  function TransformRow(row: Json): (p: Place)
    ensures p.id == Get(row, "id") && p.createdAt == Get(row, "createdAt") && p.updatedAt == Get(row, "updatedAt")
    ensures p.name == OrEmptyString(Get(row, "name")) && p.area == OrEmptyString(Get(row, "area"))
    ensures p.locationId == RowLocationId(row)
  {
    Place(Get(row, "id"), OrEmptyString(Get(row, "name")), OrEmptyString(Get(row, "area")),
          RowLocationId(row), Get(row, "createdAt"), Get(row, "updatedAt"))
  }

  /** `rows.map(transform)` */
  function TransformAll(rows: seq<Json>): (r: seq<Place>)
    ensures |r| == |rows|
    ensures forall i :: 0 <= i < |rows| ==> r[i] == TransformRow(rows[i])
  {
    seq(|rows|, i requires 0 <= i < |rows| => TransformRow(rows[i]))
  }

  /** `placeLocationId === locationId` */
  predicate RowAt(row: Json, locationId: string) {
    RowLocationId(row) == Some(JStr(locationId))
  }

  /** `rows.filter(...)` by location. */
  function FilterRows(rows: seq<Json>, locationId: string): (r: seq<Json>)
    ensures |r| <= |rows|
    ensures forall x :: x in r <==> x in rows && RowAt(x, locationId)
  {
    if rows == [] then []
    else
      var rest := FilterRows(rows[1..], locationId);
      assert forall x :: x in rows <==> x == rows[0] || x in rows[1..];
      if RowAt(rows[0], locationId) then [rows[0]] + rest else rest
  }

  /** `fetchPlaces`; `response` is the answer to the list request. */
  function FetchPlaces(response: Result<Option<Json>, HttpError>): (r: seq<Place>)
    ensures response.Failure? ==> r == []
    ensures response.Success? && RawPlaces(response.value).None? ==> r == []
    ensures response.Success? && RawPlaces(response.value).Some? && !HasNullRow(RawPlaces(response.value).value) ==>
      r == TransformAll(RawPlaces(response.value).value)
  {
    match response
    case Failure(_) => []
    case Success(data) =>
      match RawPlaces(data)
      case None => []
      case Some(rows) => if HasNullRow(rows) then [] else TransformAll(rows)
  }

  /** `fetchPlacesByLocation`: the whole list is fetched and filtered here. */
  function FetchPlacesByLocation(response: Result<Option<Json>, HttpError>, locationId: string): (r: seq<Place>)
    ensures response.Failure? ==> r == []
    ensures response.Success? && RawPlaces(response.value).None? ==> r == []
  {
    match response
    case Failure(_) => []
    case Success(data) =>
      match RawPlaces(data)
      case None => []
      case Some(rows) => if HasNullRow(rows) then [] else TransformAll(FilterRows(rows, locationId))
  }

  /** The places of one location, picked from a list of places. */
  function SelectPlaces(places: seq<Place>, locationId: string): (r: seq<Place>)
    ensures forall p :: p in r <==> p in places && p.locationId == Some(JStr(locationId))
  {
    if places == [] then []
    else
      var rest := SelectPlaces(places[1..], locationId);
      assert forall x :: x in places <==> x == places[0] || x in places[1..];
      if places[0].locationId == Some(JStr(locationId)) then [places[0]] + rest else rest
  }

  /** `a` is `b` with some elements taken out, the rest kept in order:
      each element of `b` is either kept, matching the next element of `a`,
      or skipped. */
  predicate SubsequenceOf<T(==)>(a: seq<T>, b: seq<T>)
    decreases |b|
  {
    if b == [] then a == []
    else (a != [] && a[0] == b[0] && SubsequenceOf(a[1..], b[1..])) || SubsequenceOf(a, b[1..])
  }

  /** What the caller passes to `createPlace`: the three place fields, and
      whatever else its object carries. */
  datatype PlaceInput = PlaceInput(name: string, area: string, locationId: string, others: seq<(string, Json)>)

  /** `backendPayload` of `createPlace`: the three fields and nothing else. */
  function CreatePlaceBody(input: PlaceInput): (body: Json)
    ensures body.JObj? && |body.fields| == 3
    ensures Get(body, "name") == Some(JStr(input.name))
    ensures Get(body, "area") == Some(JStr(input.area))
    ensures Get(body, "locationId") == Some(JStr(input.locationId))
  {
    var fields := [("name", JStr(input.name)), ("area", JStr(input.area)), ("locationId", JStr(input.locationId))];
    assert fields[1..] == [("area", JStr(input.area)), ("locationId", JStr(input.locationId))];
    assert fields[1..][1..] == [("locationId", JStr(input.locationId))];
    assert "name" != "area" && "name" != "locationId" && "area" != "locationId" by {
      assert "name"[0] != "area"[0] && "name"[0] != "locationId"[0] && "area"[0] != "locationId"[0];
    }
    assert Lookup(fields[1..], "area") == Some(JStr(input.area));
    assert Lookup(fields[1..][1..], "locationId") == Some(JStr(input.locationId));
    assert Lookup(fields[1..], "locationId") == Some(JStr(input.locationId));
    JObj(fields)
  }

  /** `response.data.data` when that is truthy, else `response.data`. */
  function UnwrapSaved(data: Option<Json>): (r: Option<Json>)
    ensures Truthy(data) && Truthy(Get(data.value, "data")) ==> r == Get(data.value, "data")
    ensures !(Truthy(data) && Truthy(Get(data.value, "data"))) ==> r == data
    ensures r.Some? <==> data.Some?
    ensures r != data ==> data.value.JObj? && exists i :: 0 <= i < |data.value.fields| && data.value.fields[i] == ("data", r.value)
  {
    if Truthy(data) && Truthy(Get(data.value, "data")) then Get(data.value, "data") else data
  }

  /** `createPlace` and `updatePlace`: a failure is rethrown unchanged. */
  function SavePlace(response: Result<Option<Json>, HttpError>): (r: Result<Option<Json>, HttpError>)
    ensures response.Failure? ==> r == response
    ensures response.Success? ==> r == Success(UnwrapSaved(response.value))
  {
    match response
    case Failure(e) => Failure(e)
    case Success(data) => Success(UnwrapSaved(data))
  }

  // ------------------------------------------------------------ lemmas

  /** Filtering the rows and then transforming them gives the same places
      as transforming every row and then picking the location's places. */
  lemma {:induction false} FilterThenTransform(rows: seq<Json>, locationId: string)
    ensures TransformAll(FilterRows(rows, locationId)) == SelectPlaces(TransformAll(rows), locationId)
  {
    if rows != [] {
      FilterThenTransform(rows[1..], locationId);
      ConsSteps(rows, locationId);
    }
  }

  /** One row of `FilterThenTransform`: both sides take the first row
      exactly when it is at the location. */
  lemma ConsSteps(rows: seq<Json>, locationId: string)
    requires rows != []
    ensures var ps := TransformAll(rows);
      ps != [] && ps[1..] == TransformAll(rows[1..]) &&
      (RowAt(rows[0], locationId) <==> ps[0].locationId == Some(JStr(locationId))) &&
      FilterRows(rows, locationId) ==
        (if RowAt(rows[0], locationId) then [rows[0]] + FilterRows(rows[1..], locationId) else FilterRows(rows[1..], locationId)) &&
      TransformAll([rows[0]] + FilterRows(rows[1..], locationId)) == [ps[0]] + TransformAll(FilterRows(rows[1..], locationId))
  {
    var ps := TransformAll(rows);
    assert ps[1..] == TransformAll(rows[1..]);
    assert ps[0] == TransformRow(rows[0]);
    var rest := FilterRows(rows[1..], locationId);
    assert TransformAll([rows[0]] + rest) == [ps[0]] + TransformAll(rest);
  }

  /** The per-location list is the full list with the other locations' places
      taken out: every place it holds has that location id, none of the
      location's places is missing, and the order is the full list's. */
  lemma ByLocationIsSublist(response: Result<Option<Json>, HttpError>, locationId: string)
    ensures FetchPlacesByLocation(response, locationId) == SelectPlaces(FetchPlaces(response), locationId)
    ensures forall p :: p in FetchPlacesByLocation(response, locationId) <==>
      p in FetchPlaces(response) && p.locationId == Some(JStr(locationId))
    ensures SubsequenceOf(FetchPlacesByLocation(response, locationId), FetchPlaces(response))
  {
    if response.Success? && RawPlaces(response.value).Some? && !HasNullRow(RawPlaces(response.value).value) {
      FilterThenTransform(RawPlaces(response.value).value, locationId);
    }
    SelectIsSubsequence(FetchPlaces(response), locationId);
  }

  lemma {:induction false} SelectIsSubsequence(places: seq<Place>, locationId: string)
    ensures SubsequenceOf(SelectPlaces(places, locationId), places)
  {
    if places != [] {
      SelectIsSubsequence(places[1..], locationId);
      var rest := SelectPlaces(places[1..], locationId);
      if places[0].locationId == Some(JStr(locationId)) {
        assert ([places[0]] + rest)[1..] == rest;
      }
    }
  }

  /** A failed request and an unexpected body both give the empty list, and
      so does a row that is `null`. */
  lemma FallbacksAreEmpty(response: Result<Option<Json>, HttpError>, locationId: string)
    requires response.Failure? || RawPlaces(response.value).None? || HasNullRow(RawPlaces(response.value).value)
    ensures FetchPlaces(response) == [] && FetchPlacesByLocation(response, locationId) == []
  {
  }

  /** The name and area fall back to the empty string; the location id falls
      back from `locationId` to `location_id`. */
  lemma RowDefaults(row: Json, name: string, locationId: string, other: Option<Json>)
    ensures Get(row, "name") == Some(JStr(name)) && name != "" ==> TransformRow(row).name == JStr(name)
    ensures Get(row, "name").None? ==> TransformRow(row).name == JStr("")
    ensures Get(row, "area").None? ==> TransformRow(row).area == JStr("")
    ensures Get(row, "locationId") == Some(JStr(locationId)) && locationId != "" ==>
      TransformRow(row).locationId == Some(JStr(locationId))
    ensures !Truthy(Get(row, "locationId")) ==> TransformRow(row).locationId == Get(row, "location_id")
  {
  }

  /** A body wrapped as `{data: place}` is unwrapped; a bare body is kept. */
  lemma SavedUnwrapping(place: Json, rest: seq<(string, Json)>)
    requires Truthy(Some(place))
    ensures UnwrapSaved(Some(JObj([("data", place)] + rest))) == Some(place)
    ensures Get(place, "data").None? ==> UnwrapSaved(Some(place)) == Some(place)
  {
    assert Lookup([("data", place)] + rest, "data") == Some(place);
  }
}
