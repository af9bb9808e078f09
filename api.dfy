/** The vocabulary of the QuakeWatch API (apps/api/main.py): time windows and
    their USGS feeds, request validation, the decoded upstream feed document,
    and the normalised records and envelope that `/quakes` returns. */
module Api {
  import opened Wrappers

  // ---------------------------------------------------------------------
  // Windows and feeds
  // ---------------------------------------------------------------------

  /** The `Window` literal type: "hour", "day" or "week". */
  datatype Window = Hour | Day | Week

  /** The query-string spelling of a window. */
  function WindowName(w: Window): string
  {
    match w
    case Hour => "hour"
    case Day => "day"
    case Week => "week"
  }

  /** Reads a query-string value as a window; anything but the three names is refused. */
  function ParseWindow(s: string): (r: Option<Window>)
    ensures r.Some? ==> WindowName(r.value) == s
    ensures r.None? <==> s != "hour" && s != "day" && s != "week"
  {
    if s == "hour" then Some(Hour)
    else if s == "day" then Some(Day)
    else if s == "week" then Some(Week)
    else None
  }

  /** Every window's name reads back as that window. */
  lemma WindowNameRoundTrip(w: Window)
    ensures ParseWindow(WindowName(w)) == Some(w)
  {
  }

  const USGS_SUMMARY := "https://earthquake.usgs.gov/earthquakes/feed/v1.0/summary/"

  /** The `USGS_FEEDS` table: one summary feed per window name. */
  const USGS_FEEDS: map<string, string> := map[
    "hour" := "https://earthquake.usgs.gov/earthquakes/feed/v1.0/summary/all_hour.geojson",
    "day" := "https://earthquake.usgs.gov/earthquakes/feed/v1.0/summary/all_day.geojson",
    "week" := "https://earthquake.usgs.gov/earthquakes/feed/v1.0/summary/all_week.geojson"
  ]

  /** The feed of a window: the lookup never misses, and each window gets
      the summary feed named after it. */
  function FeedUrl(w: Window): (url: string)
    ensures url == USGS_SUMMARY + "all_" + WindowName(w) + ".geojson"
  {
    match w
    case Hour => HourFeed(); USGS_FEEDS["hour"]
    case Day => DayFeed(); USGS_FEEDS["day"]
    case Week => WeekFeed(); USGS_FEEDS["week"]
  }

  // One table entry each, so that every long literal is compared on its own.
  lemma HourFeed()
    ensures USGS_FEEDS["hour"] == USGS_SUMMARY + "all_" + "hour" + ".geojson"
  {
  }

  lemma DayFeed()
    ensures USGS_FEEDS["day"] == USGS_SUMMARY + "all_" + "day" + ".geojson"
  {
  }

  lemma WeekFeed()
    ensures USGS_FEEDS["week"] == USGS_SUMMARY + "all_" + "week" + ".geojson"
  {
  }

  // ---------------------------------------------------------------------
  // Request parameters
  // ---------------------------------------------------------------------

  const DEFAULT_WINDOW := "day"
  const DEFAULT_MIN_MAG := 0.0
  const DEFAULT_LIMIT := 50
  const MAX_LIMIT := 200

  /** The three validated query parameters of `/quakes`. */
  datatype Query = Query(window: Window, minMag: real, limit: int)

  /** The bounds the query declaration enforces: `minMag >= 0`, `1 <= limit <= 200`. */
  predicate InBounds(q: Query)
  {
    q.minMag >= 0.0 && 1 <= q.limit <= MAX_LIMIT
  }

  /** A query parameter that failed validation. */
  datatype Param = WindowParam | MinMagParam | LimitParam

  /** Query-parameter validation: absent parameters take their defaults
      ("day", 0.0, 50); a present one outside its bounds is reported, and the
      request is refused (a client error) listing every offending parameter. */
  function ParseQuery(window: Option<string>, minMag: Option<real>, limit: Option<int>): (r: Result<Query, set<Param>>)
    ensures r.Success? <==>
      && ParseWindow(window.GetOr(DEFAULT_WINDOW)).Some?
      && minMag.GetOr(DEFAULT_MIN_MAG) >= 0.0
      && 1 <= limit.GetOr(DEFAULT_LIMIT) <= MAX_LIMIT
    ensures r.Success? ==>
      && InBounds(r.value)
      && WindowName(r.value.window) == window.GetOr(DEFAULT_WINDOW)
      && r.value.minMag == minMag.GetOr(DEFAULT_MIN_MAG)
      && r.value.limit == limit.GetOr(DEFAULT_LIMIT)
    ensures r.Failure? ==>
      && r.error != {}
      && (WindowParam in r.error <==> ParseWindow(window.GetOr(DEFAULT_WINDOW)).None?)
      && (MinMagParam in r.error <==> minMag.GetOr(DEFAULT_MIN_MAG) < 0.0)
      && (LimitParam in r.error <==> !(1 <= limit.GetOr(DEFAULT_LIMIT) <= MAX_LIMIT))
  {
    var w := ParseWindow(window.GetOr(DEFAULT_WINDOW));
    var m := minMag.GetOr(DEFAULT_MIN_MAG);
    var l := limit.GetOr(DEFAULT_LIMIT);
    var bad :=
      (if w.None? then {WindowParam} else {}) +
      (if m < 0.0 then {MinMagParam} else {}) +
      (if 1 <= l <= MAX_LIMIT then {} else {LimitParam});
    if bad == {} then Success(Query(w.value, m, l)) else Failure(bad)
  }

  // ---------------------------------------------------------------------
  // The decoded upstream document
  // ---------------------------------------------------------------------

  /** A feature's `properties` object; every key may be missing or null. */
  datatype RawProperties = RawProperties(
    mag: Option<real>,
    place: Option<string>,
    time: Option<int>,
    updated: Option<int>,
    url: Option<string>,
    tsunami: Option<int>,
    felt: Option<int>,
    sig: Option<int>)

  /** The empty object `{}`. */
  const EMPTY_PROPERTIES := RawProperties(None, None, None, None, None, None, None, None)

  /** A feature's `geometry` object; `coordinates` may be missing, null or any list. */
  datatype RawGeometry = RawGeometry(coordinates: Option<seq<Option<real>>>)

  /** One element of `features`; `properties` and `geometry` may be missing or null. */
  datatype RawFeature = RawFeature(id: Option<string>, properties: Option<RawProperties>, geometry: Option<RawGeometry>)

  /** The decoded feed document; `features` may be missing. */
  datatype FeedDocument = FeedDocument(features: Option<seq<RawFeature>>)

  // ---------------------------------------------------------------------
  // Timestamps
  // ---------------------------------------------------------------------

  /** The library's ISO-8601 rendering of epoch milliseconds never yields "". */
  ghost predicate NonEmptyFormatter(iso: int -> string)
  {
    forall ms :: iso(ms) != ""
  }

  /** Epoch milliseconds as a UTC timestamp: null stays null, a value is
      rendered by `iso` (the datetime library's formatting, not modelled). */
  function IsoUtc(iso: int -> string, ms: Option<int>): (r: Option<string>)
    ensures r.None? <==> ms.None?
    ensures ms.Some? ==> r == Some(iso(ms.value))
    ensures NonEmptyFormatter(iso) && r.Some? ==> r.value != ""
  {
    match ms
    case None => None
    case Some(t) => Some(iso(t))
  }

  // ---------------------------------------------------------------------
  // What the endpoint returns
  // ---------------------------------------------------------------------

  /** One normalised earthquake record; `mag` is never null. */
  datatype Quake = Quake(
    id: Option<string>,
    mag: real,
    place: Option<string>,
    time: Option<string>,
    updated: Option<string>,
    url: Option<string>,
    tsunami: Option<int>,
    felt: Option<int>,
    sig: Option<int>,
    depthKm: Option<real>,
    longitude: Option<real>,
    latitude: Option<real>)

  const SOURCE := "USGS"

  datatype Meta = Meta(source: string, window: Window, minMag: real, count: int, generatedAt: string)

  datatype Envelope = Envelope(meta: Meta, items: seq<Quake>)

  /** A request that fails after validation: indexing a coordinate list of
      length one or two raises, and the endpoint answers with a server error. */
  datatype ServerError = CoordinateIndexError
}
