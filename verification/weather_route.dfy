/**
 * The `/api/weather` route: the `location` query parameter is lower-cased and trimmed and
 * looked up in a table of Jharkhand district coordinates; the upstream forecast for those
 * coordinates is reduced to humidity, a condition text taken from the weather-code table,
 * and the reading time. The upstream request is a parameter: a function from the
 * coordinates sent to what came back.
 */
module WeatherRoute {
  import opened Common
  import opened Text

  /** Latitude and longitude in millionths of a degree. */
  datatype Coord = Coord(lat: int, lon: int)

  datatype District = District(name: string, coord: Coord)

  /** The district table, in its declaration (and so `Object.keys`) order. */
  const DISTRICT_COORDINATES: seq<District> := [
    District("ranchi", Coord(23344315, 85296013)),
    District("dhanbad", Coord(23795700, 86430400)),
    District("bokaro", Coord(23801000, 85325000)),
    District("giridih", Coord(24180000, 85199000)),
    District("hazaribagh", Coord(24160000, 85372000)),
    District("jamshedpur", Coord(22794000, 86180000)),
    District("east singhbhum", Coord(22804200, 86197100)),
    District("west singhbhum", Coord(22639200, 84827200)),
    District("deoghar", Coord(24485000, 86696000)),
    District("dumka", Coord(24269000, 87249000)),
    District("garhwa", Coord(24168000, 83813000)),
    District("godda", Coord(24827000, 87212000)),
    District("gumla", Coord(23043000, 84541000)),
    District("jamtara", Coord(23963000, 86802000)),
    District("khunti", Coord(23073000, 85278000)),
    District("koderma", Coord(24467000, 85599000)),
    District("latehar", Coord(23744000, 84499000)),
    District("lohardaga", Coord(23434000, 84680000)),
    District("pakur", Coord(24633000, 87849000)),
    District("palamu", Coord(24031000, 84073000)),
    District("ramgarh", Coord(23631000, 85519000)),
    District("sahibganj", Coord(25250000, 87650000)),
    District("seraikela-kharsawan", Coord(22701000, 86148000)),
    District("simdega", Coord(22617000, 84500000)),
    District("chatra", Coord(24207000, 84872000))
  ]

  /** `Object.keys` of a table. */
  function Names(ds: seq<District>): (r: seq<string>)
    ensures |r| == |ds|
    ensures forall i :: 0 <= i < |ds| ==> r[i] == ds[i].name
  {
    seq(|ds|, i requires 0 <= i < |ds| => ds[i].name)
  }

  /** The coordinates a table gives a name, if it lists it. */
  function Search(ds: seq<District>, name: string): (r: Option<Coord>)
    ensures r.Some? <==> name in Names(ds)
    ensures r.Some? ==> District(name, r.value) in ds
  {
    if ds == [] then None
    else if ds[0].name == name then Some(ds[0].coord)
    else
      assert Names(ds) == [ds[0].name] + Names(ds[1..]);
      Search(ds[1..], name)
  }

  /** `location.toLowerCase().trim()`. */
  function Normalize(location: string): string {
    Trim(ToLower(location))
  }

  /**
   * A district name typed in any letter case, with any white space around it, normalizes to
   * its table key.
   */
  lemma NormalizePadded(a: string, name: string, b: string)
    requires IsBlank(a) && IsBlank(b)
    requires name != [] && !IsSpace(name[0]) && !IsSpace(name[|name| - 1])
    ensures Normalize(a + name + b) == ToLower(name)
  {
    ToLowerAppend(a + name, b);
    ToLowerAppend(a, name);
    assert ToLower(a) == a;
    assert ToLower(b) == b;
    var d := ToLower(name);
    LowerCharSpace(name[0]);
    LowerCharSpace(name[|name| - 1]);
    TrimPadded(a, d, b);
  }

  lemma LowerRanchi(name: string)
    requires name == "Ranchi"
    ensures ToLower(name) == "ranchi"
  {
    var lower := ToLower(name);
    assert lower[0] == 'r';
    assert lower[1..] == name[1..];
  }

  /** " Ranchi " normalizes to 'ranchi'. */
  lemma PaddedRanchi(location: string, name: string)
    requires location == " Ranchi " && name == "Ranchi"
    ensures Normalize(location) == "ranchi"
  {
    assert location == " " + name + " ";
    NormalizePadded(" ", name, " ");
    LowerRanchi(name);
  }

  /** 'ranchi' is the first district of the table. */
  lemma RanchiCoordinates(key: string)
    requires key == "ranchi"
    ensures Search(DISTRICT_COORDINATES, key) == Some(Coord(23344315, 85296013))
  {
    assert DISTRICT_COORDINATES[0].name == key;
  }

  /** Keys every plain object answers through `Object.prototype` that survive lower-casing. */
  const INHERITED_KEYS: set<string> := {"constructor", "__proto__"}

  /** What indexing the table object yields: a district's coordinates, or an inherited member. */
  datatype Entry = Own(coord: Coord) | Inherited

  /** `DISTRICT_COORDINATES[key]` as written: a plain object also answers inherited keys. */
  function IndexAsWritten(key: string): Option<Entry> {
    match Search(DISTRICT_COORDINATES, key)
    case Some(c) => Some(Own(c))
    case None => if key in INHERITED_KEYS then Some(Inherited) else None
  }

  /** The lookup with own keys only, which every other member uses. */
  function Index(key: string): (r: Option<Entry>)
    ensures r.Some? <==> key in Names(DISTRICT_COORDINATES)
    ensures r.Some? ==> r.value.Own? && District(key, r.value.coord) in DISTRICT_COORDINATES
  {
    match Search(DISTRICT_COORDINATES, key)
    case Some(c) => Some(Own(c))
    case None => None
  }

  /** The weather-code descriptions (the icons are not modelled). */
  const WEATHER_CODES: map<int, string> := map[
    0 := "Clear sky",
    1 := "Mainly clear",
    2 := "Partly cloudy",
    3 := "Overcast",
    45 := "Foggy",
    48 := "Foggy",
    51 := "Light drizzle",
    53 := "Drizzle",
    55 := "Heavy drizzle",
    61 := "Light rain",
    63 := "Rain",
    65 := "Heavy rain",
    71 := "Light snow",
    73 := "Snow",
    75 := "Heavy snow",
    77 := "Snow grains",
    80 := "Light showers",
    81 := "Showers",
    82 := "Heavy showers",
    85 := "Light snow showers",
    86 := "Snow showers",
    95 := "Thunderstorm",
    96 := "Thunderstorm with hail",
    99 := "Thunderstorm with heavy hail"
  ]

  const UNKNOWN := "Unknown"

  /** `(WEATHER_CODES[code] || {description: 'Unknown'}).description`. */
  function Condition(code: int): string {
    if code in WEATHER_CODES then WEATHER_CODES[code] else UNKNOWN
  }

  /**
   * Known codes read through the table and every other code reads "Unknown"; fog (45) and
   * depositing rime fog (48) share "Foggy"; no condition is empty.
   */
  lemma ConditionTable(code: int)
    ensures code in WEATHER_CODES ==> Condition(code) == WEATHER_CODES[code]
    ensures code !in WEATHER_CODES ==> Condition(code) == "Unknown"
    ensures Condition(45) == "Foggy" && Condition(48) == "Foggy"
    ensures Condition(code) != ""
  {
  }

  /** What the forecast request produced: a non-OK status, an unreadable body, or the current readings. */
  datatype Upstream = NotOk | Malformed | Current(weatherCode: int, humidity: int, time: string)

  /** The route's answers. */
  datatype Reply =
    | LocationRequired
    | DistrictNotFound(message: string, availableDistricts: seq<string>)
    | Failed
    | Weather(humidity: int, condition: string, time: string)
  {
    function Status(): int {
      match this
      case LocationRequired => 400
      case DistrictNotFound(_, _) => 404
      case Failed => 500
      case Weather(_, _, _) => 200
    }
  }

  function NotFoundMessage(location: string): string {
    "Location \"" + location + "\" not found. Please use a valid Jharkhand district name."
  }

  /**
   * The handler over a district table and a lookup in it. `fetch(Some(c))` is the forecast for coordinates `c`;
   * `fetch(None)` is the request sent when the entry has no coordinates.
   */
  function Answer(table: seq<District>, location: Option<string>, index: string -> Option<Entry>,
                  fetch: Option<Coord> -> Upstream): Reply {
    if location.None? || location.value == "" then LocationRequired
    else match index(Normalize(location.value))
      case None => DistrictNotFound(NotFoundMessage(location.value), Names(table))
      case Some(entry) =>
        match fetch(if entry.Own? then Some(entry.coord) else None)
        case Current(code, humidity, time) => Weather(humidity, Condition(code), time)
        case _ => Failed
  }

  /**
   * The handler with own keys of a district table: 400 without a location; 404 listing every
   * district when the normalized location is not one; otherwise the district's forecast, or
   * 500 when that request fails.
   */
  function GetFrom(table: seq<District>, location: Option<string>, fetch: Option<Coord> -> Upstream): (r: Reply)
    ensures r == LocationRequired <==> location.None? || location.value == ""
    ensures r.DistrictNotFound? <==>
              location.Some? && location.value != "" && Normalize(location.value) !in Names(table)
    ensures r.DistrictNotFound? ==>
              r.message == NotFoundMessage(location.value) && r.availableDistricts == Names(table)
    ensures r.Weather? || r.Failed? ==>
              var c := Search(table, Normalize(location.value));
              && c.Some?
              && (r.Weather? <==> fetch(c).Current?)
              && (r.Weather? ==> r == Weather(fetch(c).humidity, Condition(fetch(c).weatherCode), fetch(c).time))
  {
    if location.None? || location.value == "" then LocationRequired
    else match Search(table, Normalize(location.value))
      case None => DistrictNotFound(NotFoundMessage(location.value), Names(table))
      case Some(c) =>
        match fetch(Some(c))
        case Current(code, humidity, time) => Weather(humidity, Condition(code), time)
        case _ => Failed
  }

  /** `GET /api/weather` over the district table. */
  function Get(location: Option<string>, fetch: Option<Coord> -> Upstream): Reply {
    GetFrom(DISTRICT_COORDINATES, location, fetch)
  }

  /** The handler as written, where inherited keys of the table object pass the lookup. */
  function GetAsWritten(location: Option<string>, fetch: Option<Coord> -> Upstream): Reply {
    Answer(DISTRICT_COORDINATES, location, IndexAsWritten, fetch)
  }

  /** With own keys only, the general handler is the table handler. */
  lemma AnswerOwnKeys(location: Option<string>, fetch: Option<Coord> -> Upstream)
    ensures Answer(DISTRICT_COORDINATES, location, Index, fetch) == Get(location, fetch)
  {
  }

  /** `availableDistricts` lists all 25 districts. */
  lemma AvailableDistricts()
    ensures |Names(DISTRICT_COORDINATES)| == 25
    ensures forall d :: d in DISTRICT_COORDINATES ==> d.name in Names(DISTRICT_COORDINATES)
  {
    forall d | d in DISTRICT_COORDINATES
      ensures d.name in Names(DISTRICT_COORDINATES)
    {
      var i :| 0 <= i < |DISTRICT_COORDINATES| && DISTRICT_COORDINATES[i] == d;
      assert Names(DISTRICT_COORDINATES)[i] == d.name;
    }
  }

  /** No inherited key is a district. */
  lemma InheritedKeysAreNotDistricts(key: string)
    requires key in INHERITED_KEYS
    ensures key !in Names(DISTRICT_COORDINATES)
  {
  }

  /** An inherited key passes the lookup as written and fails the own-keys lookup. */
  lemma InheritedIndex(key: string)
    requires key in INHERITED_KEYS
    ensures IndexAsWritten(key) == Some(Inherited) && Index(key) == None
  {
    InheritedKeysAreNotDistricts(key);
  }

  /**
   * As written, a location normalizing to an inherited key is not answered with 404: the
   * request goes out without coordinates.
   */
  lemma InheritedKeyAsWritten(location: string, fetch: Option<Coord> -> Upstream)
    requires location != "" && Normalize(location) in INHERITED_KEYS
    ensures !GetAsWritten(Some(location), fetch).DistrictNotFound?
    ensures fetch(None).Current? <==> GetAsWritten(Some(location), fetch).Weather?
  {
    InheritedIndex(Normalize(location));
    AnswerInherited(DISTRICT_COORDINATES, location, IndexAsWritten, fetch);
  }

  /** Whatever the table, an entry without coordinates is never a 404 and asks `fetch(None)`. */
  lemma AnswerInherited(table: seq<District>, location: string, index: string -> Option<Entry>,
                        fetch: Option<Coord> -> Upstream)
    requires location != "" && index(Normalize(location)) == Some(Inherited)
    ensures !Answer(table, Some(location), index, fetch).DistrictNotFound?
    ensures fetch(None).Current? <==> Answer(table, Some(location), index, fetch).Weather?
  {
  }

  /** With own keys only, a location normalizing to an inherited key gets 404. */
  lemma InheritedKeyNotFound(location: string, fetch: Option<Coord> -> Upstream)
    requires location != "" && Normalize(location) in INHERITED_KEYS
    ensures Get(Some(location), fetch).DistrictNotFound?
  {
    InheritedKeysAreNotDistricts(Normalize(location));
  }

  lemma LowerConstructor(name: string)
    requires name == "Constructor"
    ensures ToLower(name) == "constructor"
  {
    var lower := ToLower(name);
    assert lower[0] == 'c';
    assert lower[1..] == name[1..];
  }

  /** "Constructor" is such a location. */
  lemma ConstructorLocation(location: string)
    requires location == "Constructor"
    ensures Normalize(location) == "constructor" && Normalize(location) in INHERITED_KEYS
  {
    assert location == [] + location + [];
    NormalizePadded([], location, []);
    LowerConstructor(location);
  }
}
