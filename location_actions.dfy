/** `fetchLocations`: the location list is looked for in four shapes of
    response body, tried in a fixed order. */
module LocationActions {
  import opened Wrappers
  import opened Js

  /** A network or HTTP failure. */
  datatype HttpError = HttpError(status: Option<int>, message: string)

  /** `Object.keys(obj)` */
  function KeysOf(fields: seq<(string, Json)>): (ks: seq<string>)
    ensures |ks| == |fields|
    ensures forall i :: 0 <= i < |fields| ==> ks[i] == fields[i].0
  {
    seq(|fields|, i requires 0 <= i < |fields| => fields[i].0)
  }

  /** The items of the first of `keys` whose property is an array. */
  function FirstArrayProperty(fields: seq<(string, Json)>, keys: seq<string>): (r: Option<seq<Json>>)
    ensures r.Some? ==> exists i :: 0 <= i < |fields| && fields[i].1 == JArr(r.value)
  {
    if keys == [] then None
    else if IsArray(Lookup(fields, keys[0])) then Some(Lookup(fields, keys[0]).value.items)
    else FirstArrayProperty(fields, keys[1..])
  }

  /** The list a response body yields, case by case. */
  function LocationsOf(data: Option<Json>): (r: seq<Json>)
    ensures data.Some? && data.value.JArr? ==> r == data.value.items
    ensures !(data.Some? && (data.value.JArr? || data.value.JObj?)) ==> r == []
    ensures data.Some? && data.value.JObj? && r != [] ==>
      exists i :: 0 <= i < |data.value.fields| && data.value.fields[i].1 == JArr(r)
  {
    if Truthy(data) && Truthy(Get(data.value, "data")) && IsArray(Get(data.value, "data")) then
      Get(data.value, "data").value.items
    else if Truthy(data) && Truthy(Get(data.value, "locations")) && IsArray(Get(data.value, "locations")) then
      Get(data.value, "locations").value.items
    else if IsArray(data) then
      data.value.items
    else if Truthy(data) && data.value.JObj? then
      match FirstArrayProperty(data.value.fields, KeysOf(data.value.fields))
      case Some(items) => items
      case None => []
    else []
  }

  /** `fetchLocations`; `response` is the answer to the request. A failure
      is rethrown. */
  method FetchLocations(response: Result<Option<Json>, HttpError>) returns (r: Result<seq<Json>, HttpError>)
    ensures response.Failure? ==> r == Failure(response.error)
    ensures response.Success? ==> r == Success(LocationsOf(response.value))
  {
    if response.Failure? {
      return Failure(response.error);
    }
    var data := response.value;
    var locations: seq<Json> := [];
    if Truthy(data) && Truthy(Get(data.value, "data")) && IsArray(Get(data.value, "data")) {
      locations := Get(data.value, "data").value.items;
    } else if Truthy(data) && Truthy(Get(data.value, "locations")) && IsArray(Get(data.value, "locations")) {
      locations := Get(data.value, "locations").value.items;
    } else if IsArray(data) {
      locations := data.value.items;
    } else if Truthy(data) && data.value.JObj? {
      var fields := data.value.fields;
      var keys := KeysOf(fields);
      var i := 0;
      while i < |keys|
        invariant 0 <= i <= |keys|
        invariant locations == []
        invariant FirstArrayProperty(fields, keys) == FirstArrayProperty(fields, keys[i..])
      {
        assert keys[i..][1..] == keys[i + 1..];
        if IsArray(Lookup(fields, keys[i])) {
          locations := Lookup(fields, keys[i]).value.items;
          break;
        }
        i := i + 1;
      }
    }
    return Success(locations);
  }

  // ------------------------------------------------------------ lemmas

  /** The scan finds nothing exactly when no key holds an array, and
      otherwise finds the first key that does. */
  lemma {:induction false} FirstArrayPropertyIsFirst(fields: seq<(string, Json)>, keys: seq<string>)
    ensures var r := FirstArrayProperty(fields, keys);
      r.None? <==> forall i :: 0 <= i < |keys| ==> !IsArray(Lookup(fields, keys[i]))
    ensures var r := FirstArrayProperty(fields, keys);
      r.Some? ==>
        exists i :: 0 <= i < |keys| && IsArray(Lookup(fields, keys[i])) &&
                    Lookup(fields, keys[i]).value.items == r.value &&
                    forall j :: 0 <= j < i ==> !IsArray(Lookup(fields, keys[j]))
  {
    if keys != [] && !IsArray(Lookup(fields, keys[0])) {
      FirstArrayPropertyIsFirst(fields, keys[1..]);
      var r := FirstArrayProperty(fields, keys[1..]);
      assert forall i :: 1 <= i < |keys| ==> keys[i] == keys[1..][i - 1];
      if r.Some? {
        var i :| 0 <= i < |keys[1..]| && IsArray(Lookup(fields, keys[1..][i])) &&
          Lookup(fields, keys[1..][i]).value.items == r.value &&
          forall j :: 0 <= j < i ==> !IsArray(Lookup(fields, keys[1..][j]));
        forall j | 0 <= j < i + 1 ensures !IsArray(Lookup(fields, keys[j])) {
          if j > 0 { assert keys[j] == keys[1..][j - 1]; }
        }
        assert keys[i + 1] == keys[1..][i];
      }
    }
  }

  /** `data.data` is preferred to `data.locations`, which is preferred to a
      bare array body, whatever the other properties hold. */
  lemma CaseOrder(a: seq<Json>, b: seq<Json>, rest: seq<(string, Json)>)
    ensures LocationsOf(Some(JObj([("data", JArr(a)), ("locations", JArr(b))] + rest))) == a
    ensures LocationsOf(Some(JObj([("locations", JArr(b)), ("data", JArr(a))] + rest))) == a
    ensures LocationsOf(Some(JObj([("locations", JArr(b))]))) == b
    ensures LocationsOf(Some(JArr(a))) == a
  {
    var f1 := [("data", JArr(a)), ("locations", JArr(b))] + rest;
    assert Lookup(f1, "data") == Some(JArr(a));
    var f2 := [("locations", JArr(b)), ("data", JArr(a))] + rest;
    assert "locations" != "data" by { assert "locations"[0] != "data"[0]; }
    assert f2[1..] == [("data", JArr(a))] + rest;
    assert Lookup(f2[1..], "data") == Some(JArr(a));
    var f3 := [("locations", JArr(b))];
    assert Lookup(f3[1..], "data") == None;
  }

  /** Under any other property names, the first array-valued property in
      key order is the list; with no array anywhere the list is empty. */
  lemma KeyScan(fields: seq<(string, Json)>)
    requires !IsArray(Lookup(fields, "data")) && !IsArray(Lookup(fields, "locations"))
    ensures var r := FirstArrayProperty(fields, KeysOf(fields));
      LocationsOf(Some(JObj(fields))) == if r.Some? then r.value else []
  {
  }

  /** A body that is not an object or an array gives the empty list. */
  lemma ScalarBody(data: Option<Json>)
    requires data.None? || data.value.JNull? || data.value.JBool? || data.value.JNum? || data.value.JStr?
    ensures LocationsOf(data) == []
  {
  }
}
