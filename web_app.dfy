/** The data-loading logic of the QuakeWatch page (apps/web/src/App.tsx):
    the filter state, the `load` transition that drives `loading`, `data`
    and `error`, and the four guarded panels that show the outcome. The
    markup, styling and effect scheduling are not modelled. */
module WebApp {
  import opened Wrappers
  import opened Api
  import Quakes

  /** The optional argument of `load`: each filter may be overridden. */
  datatype Overrides = Overrides(window: Option<Window>, minMag: Option<real>, limit: Option<int>)

  /** The parameters sent with `GET /quakes`. */
  datatype Request = Request(window: Window, minMag: real, limit: int)

  /** How the request settles: the decoded response body, or a thrown
      error whose `message` may be missing. */
  datatype Outcome = Fetched(response: Envelope) | Thrown(message: Option<string>)

  /** The three pieces of state that decide what the page shows. */
  datatype LoadState = LoadState(loading: bool, data: Option<Envelope>, error: Option<string>)

  /** The mutually exclusive blocks of the results card: the error alert,
      the loading indicator, the empty-state note and the results table. */
  datatype Panel = Alert | Spinner | EmptyNote | Table

  const NO_OVERRIDES := Overrides(None, None, None)

  /** For each filter a supplied override wins, otherwise the current
      state value is sent. */
  function Resolve(overrides: Option<Overrides>, current: Request): (r: Request)
    ensures r.window == if overrides.Some? && overrides.value.window.Some? then overrides.value.window.value else current.window
    ensures r.minMag == if overrides.Some? && overrides.value.minMag.Some? then overrides.value.minMag.value else current.minMag
    ensures r.limit == if overrides.Some? && overrides.value.limit.Some? then overrides.value.limit.value else current.limit
  {
    var o := overrides.GetOr(NO_OVERRIDES);
    Request(o.window.GetOr(current.window), o.minMag.GetOr(current.minMag), o.limit.GetOr(current.limit))
  }

  /** The Refresh button passes the current filters as overrides, which
      requests exactly what `load()` without overrides requests. */
  lemma RefreshRequestsCurrentFilters(current: Request)
    ensures Resolve(Some(Overrides(Some(current.window), Some(current.minMag), Some(current.limit))), current)
      == Resolve(None, current) == current
  {
  }

  /** JavaScript truthiness of a nullable string: null and "" are falsy. */
  predicate Truthy(s: Option<string>)
    ensures Truthy(s) ==> s.Some?
    ensures s == Some("") ==> !Truthy(s)
  {
    s.Some? && s.value != ""
  }

  /** The panels rendered for a state, one guard per block. */
  function Shown(s: LoadState): (ps: set<Panel>)
    ensures |ps| <= 1
    ensures Truthy(s.error) <==> ps == {Alert}
    ensures Spinner in ps <==> !Truthy(s.error) && s.loading
  {
    (if Truthy(s.error) then {Alert} else {}) +
    (if !Truthy(s.error) && s.loading then {Spinner} else {}) +
    (if !Truthy(s.error) && !s.loading && s.data.Some? && |s.data.value.items| == 0 then {EmptyNote} else {}) +
    (if !Truthy(s.error) && !s.loading && s.data.Some? && |s.data.value.items| > 0 then {Table} else {})
  }

  /** The guards exclude one another: never two panels at once. */
  lemma AtMostOnePanel(s: LoadState)
    ensures |Shown(s)| <= 1
  {
  }

  /** A (truthy) error wins: only the alert is shown. */
  lemma ErrorWins(s: LoadState)
    requires Truthy(s.error)
    ensures Shown(s) == {Alert}
  {
  }

  /** With no error and no load in flight, present data shows the empty
      note exactly when it holds no records and the table exactly when it
      holds some; the alert is not shown. */
  lemma SettledDataPanel(s: LoadState)
    requires !Truthy(s.error) && !s.loading && s.data.Some?
    ensures Shown(s) == {EmptyNote} <==> |s.data.value.items| == 0
    ensures Shown(s) == {Table} <==> |s.data.value.items| > 0
    ensures Alert !in Shown(s)
  {
  }

  /** The start of `load`: set `loading`, clear `error`. */
  function Begin(s: LoadState): (t: LoadState)
    ensures t.loading && t.error.None? && t.data == s.data
    ensures Shown(t) == {Spinner}
  {
    s.(loading := true, error := None)
  }

  const FALLBACK_MESSAGE := "Failed to load data"

  /** The error text stored on failure, as written: the thrown message
      when there is one, else the fallback. An empty message is kept. */
  function FailureMessageAsWritten(message: Option<string>): (r: string)
    ensures message.Some? ==> r == message.value
    ensures message.None? ==> r == FALLBACK_MESSAGE
  {
    message.GetOr(FALLBACK_MESSAGE)
  }

  /** The error text as evidently intended: the fallback also replaces an
      empty message, so the stored error is truthy. */
  function FailureMessage(message: Option<string>): (r: string)
    ensures r != ""
    ensures Truthy(message) ==> r == message.value
  {
    if Truthy(message) then message.value else FALLBACK_MESSAGE
  }

  /** How `load` settles, as written: the response is stored on success;
      on failure the error is set and the data cleared; `finally` clears
      `loading`. */
  function SettleAsWritten(s: LoadState, outcome: Outcome): (t: LoadState)
    ensures !t.loading
    ensures outcome.Fetched? ==> t.data == Some(outcome.response) && t.error == s.error
    ensures outcome.Thrown? ==> t.data.None? && t.error == Some(FailureMessageAsWritten(outcome.message))
  {
    match outcome
    case Fetched(response) => LoadState(false, Some(response), s.error)
    case Thrown(message) => LoadState(false, None, Some(FailureMessageAsWritten(message)))
  }

  /** How `load` settles with the corrected error text. */
  function Settle(s: LoadState, outcome: Outcome): (t: LoadState)
    ensures !t.loading
    ensures outcome.Fetched? ==> t.data == Some(outcome.response) && t.error == s.error
    ensures outcome.Thrown? ==> t.data.None? && t.error == Some(FailureMessage(outcome.message)) && Truthy(t.error)
  {
    match outcome
    case Fetched(response) => LoadState(false, Some(response), s.error)
    case Thrown(message) => LoadState(false, None, Some(FailureMessage(message)))
  }

  /** As written, a failure whose message is "" stores a falsy error and
      clears the data, so once loading ends no panel at all is shown. */
  lemma EmptyMessageShowsNoPanel(s: LoadState)
    ensures Shown(SettleAsWritten(Begin(s), Thrown(Some("")))) == {}
  {
  }

  /** With the corrected text every completed load ends in exactly one of
      the three final panels: the alert on failure, otherwise the empty
      note or the table according to the number of records. */
  lemma CompletedLoadIsReady(s: LoadState, outcome: Outcome)
    ensures var t := Settle(Begin(s), outcome);
      && |Shown(t)| == 1
      && Spinner !in Shown(t)
      && (outcome.Thrown? ==> Shown(t) == {Alert})
      && (outcome.Fetched? && |outcome.response.items| == 0 ==> Shown(t) == {EmptyNote})
      && (outcome.Fetched? && |outcome.response.items| > 0 ==> Shown(t) == {Table})
  {
    var t := Settle(Begin(s), outcome);
    if outcome.Thrown? {
      ErrorWins(t);
    } else {
      SettledDataPanel(t);
    }
  }

  /** As written, a completed load ends with exactly one of the three final
      panels unless the request threw an error whose message is "". */
  lemma CompletedLoadAsWritten(s: LoadState, outcome: Outcome)
    requires outcome != Thrown(Some(""))
    ensures var t := SettleAsWritten(Begin(s), outcome);
      && |Shown(t)| == 1
      && (outcome.Thrown? ==> Shown(t) == {Alert})
      && (outcome.Fetched? && |outcome.response.items| == 0 ==> Shown(t) == {EmptyNote})
      && (outcome.Fetched? && |outcome.response.items| > 0 ==> Shown(t) == {Table})
  {
    var t := SettleAsWritten(Begin(s), outcome);
    if outcome.Thrown? {
      ErrorWins(t);
    } else {
      SettledDataPanel(t);
    }
  }

  /** A successful answer in which no feature passed the magnitude gate is
      shown as the empty note, never as an error. */
  lemma ZeroResultsAreEmptyNotError(doc: FeedDocument, q: Query, generatedAt: string, iso: int -> string, s: LoadState)
    requires InBounds(q)
    requires Quakes.Passing(Quakes.FeaturesOf(doc), q.minMag) == []
    ensures Quakes.Response(doc, q, generatedAt, iso).Success?
    ensures Shown(SettleAsWritten(Begin(s), Fetched(Quakes.Response(doc, q, generatedAt, iso).value))) == {EmptyNote}
  {
    var r := Quakes.Response(doc, q, generatedAt, iso);
    Quakes.CountIsCapped(doc, q, generatedAt, iso);
    CompletedLoadAsWritten(s, Fetched(r.value));
  }

  /** The page component's state: the three filters and the three pieces of
      load state, each updated through its setter. */
  class App {
    var window: Window
    var minMag: real
    var limit: int
    var loading: bool
    var data: Option<Envelope>
    var error: Option<string>

    /** The initial `useState` values. */
    constructor ()
      ensures Filters() == Request(Day, 4.5, 50)
      ensures View() == LoadState(false, None, None)
    {
      window := Day;
      minMag := 4.5;
      limit := 50;
      loading := false;
      data := None;
      error := None;
    }

    function Filters(): Request
      reads this
    {
      Request(window, minMag, limit)
    }

    function View(): LoadState
      reads this
    {
      LoadState(loading, data, error)
    }

    /** The synchronous part of `load`: resolve the request parameters,
        then set `loading` and clear `error`. */
    method BeginLoad(overrides: Option<Overrides>) returns (request: Request)
      modifies this`loading, this`error
      ensures request == Resolve(overrides, Filters())
      ensures View() == Begin(old(View()))
      ensures Shown(View()) == {Spinner}
    {
      request := Resolve(overrides, Filters());
      loading := true;
      error := None;
    }

    /** The part of `load` after the request settles: the `try`, `catch`
        and `finally` blocks. */
    method SettleLoad(outcome: Outcome)
      modifies this`loading, this`error, this`data
      ensures View() == SettleAsWritten(old(View()), outcome)
      ensures !loading
    {
      match outcome {
        case Fetched(response) =>
          data := Some(response);
        case Thrown(message) =>
          error := Some(FailureMessageAsWritten(message));
          data := None;
      }
      loading := false;
    }

    /** One whole `load`, with the request answered by `fetch`: the
        filters are untouched and at most one panel shows; exactly one
        does unless the request threw an error whose message is "". */
    method Load(overrides: Option<Overrides>, fetch: Request -> Outcome)
      modifies this`loading, this`error, this`data
      ensures Filters() == old(Filters())
      ensures View() == SettleAsWritten(Begin(old(View())), fetch(Resolve(overrides, old(Filters()))))
      ensures !loading && |Shown(View())| <= 1
      ensures fetch(Resolve(overrides, old(Filters()))) != Thrown(Some("")) ==> |Shown(View())| == 1
    {
      var request := BeginLoad(overrides);
      var outcome := fetch(request);
      SettleLoad(outcome);
      if outcome != Thrown(Some("")) {
        CompletedLoadAsWritten(old(View()), outcome);
      }
    }
  }
}
