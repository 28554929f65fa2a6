/** Query assembly: the selector's query items, prefixed by the API key and the
    unit system, attached to the fixed endpoint. URL parsing and percent-encoding
    are not modelled: a URL is its base string plus its ordered query items, and
    whether the base string parses is a parameter. */
module Query {
  import opened Wrappers
  import opened Weather
  import opened ServiceError

  /** The fixed endpoint every request is sent to. */
  const ApiUrl: string := "https://api.openweathermap.org/data/2.5/weather"

  /** The only unit system the service asks for. */
  const Units: string := "metric"

  datatype QueryItem = QueryItem(name: string, value: string)

  /** A URL as its base and its ordered query items. */
  datatype Components = Components(base: string, queryItems: seq<QueryItem>)

  /** The three ways a caller may name a location. Coordinates are carried
      already formatted as the decimal strings that are sent. */
  datatype Selector = City(city: string) | Coords(lat: string, lon: string) | Zip(zipCode: string)

  /** The two items every query starts with, in this order. */
  function FixedItems(appid: string): (r: seq<QueryItem>)
    ensures |r| == 2
  {
    [QueryItem("appid", appid), QueryItem("units", Units)]
  }

  /** The items a selector contributes: one for a city or a postal code, two
      (latitude first) for coordinates. */
  function SelectorItems(sel: Selector): (r: seq<QueryItem>)
    ensures |r| == if sel.Coords? then 2 else 1
    ensures forall i :: 0 <= i < |r| ==> r[i].name in SelectorNames(sel)
  {
    match sel
    case City(city) => [QueryItem("q", city)]
    case Coords(lat, lon) => [QueryItem("lat", lat), QueryItem("lon", lon)]
    case Zip(zipCode) => [QueryItem("zip", zipCode)]
  }

  /** The parameter names a selector is expressed with. */
  function SelectorNames(sel: Selector): set<string> {
    match sel
    case City(_) => {"q"}
    case Coords(_, _) => {"lat", "lon"}
    case Zip(_) => {"zip"}
  }

  /** The coordinate selector, with each degree value formatted by `format`
      (Swift's `String(Float)`, which is not modelled): it sends latitude and
      then longitude, each under its own name. */
  function CoordinatesSelector(c: Coordinates, format: real -> string): (r: Selector)
    ensures SelectorItems(r) == [QueryItem("lat", format(c.lat)), QueryItem("lon", format(c.lon))]
  {
    Coords(format(c.lat), format(c.lon))
  }

  /** The full query for one selector. */
  function QueryItems(appid: string, sel: Selector): seq<QueryItem> {
    FixedItems(appid) + SelectorItems(sel)
  }

  /** Builds the request URL: the fixed endpoint, with the API key, the unit
      system and then exactly the given items as its query. Fails when the
      endpoint string does not parse as a URL. */
  method GenerateURL(appid: string, items: seq<QueryItem>, parses: string -> bool)
    returns (r: Result<Components, WeatherServiceError>)
    ensures r.Failure? <==> !parses(ApiUrl)
    ensures r.Failure? ==> r.error == InvalidBaseURL
    ensures r.Success? ==> r.value.base == ApiUrl
    ensures r.Success? ==> |r.value.queryItems| == 2 + |items|
    ensures r.Success? ==> r.value.queryItems[0] == QueryItem("appid", appid)
    ensures r.Success? ==> r.value.queryItems[1] == QueryItem("units", "metric")
    ensures r.Success? ==> r.value.queryItems[2..] == items
  {
    if !parses(ApiUrl) {
      return Failure(InvalidBaseURL);
    }
    var queryItems := FixedItems(appid);
    var i := 0;
    while i < |items|
      invariant 0 <= i <= |items|
      invariant queryItems == FixedItems(appid) + items[..i]
    {
      queryItems := queryItems + [items[i]];
      i := i + 1;
    }
    assert items[..i] == items;
    return Success(Components(ApiUrl, queryItems));
  }

  /** The position of the first item called `name`, or `|items|` when there
      is none. */
  function FirstIndex(items: seq<QueryItem>, name: string): (i: nat)
    ensures i <= |items|
    ensures i < |items| ==> items[i].name == name
    ensures forall j :: 0 <= j < i ==> items[j].name != name
  {
    if |items| == 0 then 0
    else if items[0].name == name then 0
    else
      var i := FirstIndex(items[1..], name);
      assert forall j :: 1 <= j < |items| ==> items[j] == items[1..][j - 1];
      i + 1
  }

  /** The value of the first item called `name`, if any: how a query
      parameter is read back. */
  function Lookup(items: seq<QueryItem>, name: string): (r: Option<string>)
    ensures r.None? <==> forall i :: 0 <= i < |items| ==> items[i].name != name
    ensures r.Some? ==> FirstIndex(items, name) < |items| && items[FirstIndex(items, name)] == QueryItem(name, r.value)
  {
    if |items| == 0 then None
    else if items[0].name == name then Some(items[0].value)
    else
      var r := Lookup(items[1..], name);
      assert forall i :: 1 <= i < |items| ==> items[i] == items[1..][i - 1];
      r
  }

  lemma {:induction false} LookupAppend(a: seq<QueryItem>, b: seq<QueryItem>, name: string)
    ensures Lookup(a + b, name) == if Lookup(a, name).Some? then Lookup(a, name) else Lookup(b, name)
    decreases |a|
  {
    if |a| == 0 {
      assert a + b == b;
    } else {
      assert (a + b)[1..] == a[1..] + b;
      LookupAppend(a[1..], b, name);
    }
  }

  /** What a query asks for, read back from its items. */
  datatype Request = Request(appid: string, units: string, selector: Selector)

  /** A reference reading of a query, independent of how it was built: each
      parameter is taken from its first occurrence; `q` names a city, otherwise `lat` with `lon` name
      coordinates, otherwise `zip` names a postal code. */
  function Interpret(items: seq<QueryItem>): Option<Request> {
    var appid := Lookup(items, "appid");
    var units := Lookup(items, "units");
    var q := Lookup(items, "q");
    var lat := Lookup(items, "lat");
    var lon := Lookup(items, "lon");
    var zip := Lookup(items, "zip");
    if appid.None? || units.None? then None
    else if q.Some? then Some(Request(appid.value, units.value, City(q.value)))
    else if lat.Some? && lon.Some? then Some(Request(appid.value, units.value, Coords(lat.value, lon.value)))
    else if zip.Some? then Some(Request(appid.value, units.value, Zip(zip.value)))
    else None
  }

  /** A parameter of a built query is read from the fixed items when it is
      one of theirs, and from the selector's items otherwise. */
  lemma {:induction false} LookupQueryItems(appid: string, sel: Selector, name: string)
    ensures Lookup(QueryItems(appid, sel), name) ==
              if name == "appid" then Some(appid)
              else if name == "units" then Some(Units)
              else Lookup(SelectorItems(sel), name)
  {
    LookupAppend(FixedItems(appid), SelectorItems(sel), name);
  }

  /** Reading a built query back yields the key, the metric unit system and
      the selector it was built from. */
  lemma {:induction false} InterpretQueryItems(appid: string, sel: Selector)
    ensures Interpret(QueryItems(appid, sel)) == Some(Request(appid, Units, sel))
  {
    var items := SelectorItems(sel);
    LookupQueryItems(appid, sel, "appid");
    LookupQueryItems(appid, sel, "units");
    LookupQueryItems(appid, sel, "q");
    LookupQueryItems(appid, sel, "lat");
    LookupQueryItems(appid, sel, "lon");
    LookupQueryItems(appid, sel, "zip");
    match sel
    case City(city) =>
      assert Lookup(items, "q") == Some(city);
    case Coords(lat, lon) =>
      assert Lookup(items, "q").None?;
      assert Lookup(items, "lat") == Some(lat);
      assert Lookup(items, "lon") == Some(lon);
    case Zip(zipCode) =>
      assert Lookup(items, "q").None?;
      assert Lookup(items, "lat").None?;
      assert Lookup(items, "zip") == Some(zipCode);
  }

  /** A built query holds no parameter besides the fixed two and the
      selector's own. */
  lemma {:induction false} QueryItemsHaveNoOtherParameters(appid: string, sel: Selector)
    ensures forall name :: name != "appid" && name != "units" && name !in SelectorNames(sel) ==>
              Lookup(QueryItems(appid, sel), name).None?
  {
    forall name | name != "appid" && name != "units" && name !in SelectorNames(sel)
      ensures Lookup(QueryItems(appid, sel), name).None?
    {
      LookupQueryItems(appid, sel, name);
    }
  }

  /** Distinct keys or distinct selectors never produce the same query. */
  lemma {:induction false} QueryItemsInjective(appid1: string, sel1: Selector, appid2: string, sel2: Selector)
    requires QueryItems(appid1, sel1) == QueryItems(appid2, sel2)
    ensures appid1 == appid2 && sel1 == sel2
  {
    InterpretQueryItems(appid1, sel1);
    InterpretQueryItems(appid2, sel2);
  }
}
