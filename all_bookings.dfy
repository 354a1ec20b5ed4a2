/**
 * The admin's list of all bookings: the query URL built from the page, the
 * filters and the search text; how the outcome of the request is turned
 * into a list, a "session expired" re-login prompt or a generic alert; the
 * pagination and filter state; and the two per-row rules for the payment
 * badge and the amount.
 */
module AllBookings {
  import opened Wrappers
  import opened Entities
  import JsStrings

  const TOKEN_NOT_FOUND := "Authentication token not found"
  const INVALID_TOKEN := "Unauthorized - Invalid token"
  const FETCH_FAILED := "Failed to fetch bookings"
  const LOAD_FAILED := "Failed to load bookings"

  /** The three filter fields; "" means the filter is off. */
  datatype Filters = Filters(status: string, dateFrom: string, dateTo: string)

  const NO_FILTERS := Filters("", "", "")

  // ------------------------------------------------------------- query string

  /** `ps` with `(k, v)` appended when `v` is non-empty. */
  function WithParam(ps: seq<(string, string)>, k: string, v: string): seq<(string, string)> {
    if v != "" then ps + [(k, v)] else ps
  }

  /** The query parameters in the order they are appended: page and limit
      always, then each filter and the search text only when non-empty. */
  function QueryParams(page: nat, limit: nat, f: Filters, search: string): seq<(string, string)> {
    var base := [("page", JsStrings.NatToString(page)), ("limit", JsStrings.NatToString(limit))];
    WithParam(WithParam(WithParam(WithParam(base, "status", f.status), "dateFrom", f.dateFrom), "dateTo", f.dateTo), "search", search)
  }

  /** `k=v` pairs joined with '&'; values are inserted as they are, without
      percent-encoding. */
  function Render(ps: seq<(string, string)>): string {
    if ps == [] then "" else ps[0].0 + "=" + ps[0].1 + Continued(ps[1..])
  }

  /** `&k=v` for each pair. */
  function Continued(ps: seq<(string, string)>): string {
    if ps == [] then "" else Continued(ps[..|ps| - 1]) + ("&" + ps[|ps| - 1].0 + "=" + ps[|ps| - 1].1)
  }

  /** Appending a parameter appends its `&k=v`. */
  lemma RenderAppend(ps: seq<(string, string)>, k: string, v: string)
    requires ps != []
    ensures Render(ps + [(k, v)]) == Render(ps) + ("&" + k + "=" + v)
  {
    var qs := ps + [(k, v)];
    assert qs[1..] == ps[1..] + [(k, v)];
    assert qs[1..][..|qs[1..]| - 1] == ps[1..];
  }

  /** The query is page and limit, carrying their values, followed by each
      optional parameter with its own value exactly when that value is
      non-empty, in the order status, dateFrom, dateTo, search. */
  lemma QueryParamsSpec(page: nat, limit: nat, f: Filters, search: string)
    ensures QueryParams(page, limit, f, search)
      == [("page", JsStrings.NatToString(page)), ("limit", JsStrings.NatToString(limit))]
         + (if f.status != "" then [("status", f.status)] else [])
         + (if f.dateFrom != "" then [("dateFrom", f.dateFrom)] else [])
         + (if f.dateTo != "" then [("dateTo", f.dateTo)] else [])
         + (if search != "" then [("search", search)] else [])
  {
  }

  /** One `if (value) url += ...` step keeps the URL equal to the prefix
      followed by the rendered parameters. */
  lemma UrlStep(url: string, prefix: string, ps: seq<(string, string)>, k: string, v: string)
    requires ps != [] && url == prefix + Render(ps)
    ensures (if v != "" then url + ("&" + k + "=" + v) else url) == prefix + Render(WithParam(ps, k, v))
  {
    if v != "" {
      RenderAppend(ps, k, v);
      var piece := "&" + k + "=" + v;
      assert (prefix + Render(ps)) + piece == prefix + (Render(ps) + piece);
    }
  }

  /** The two parameters every query starts with. */
  lemma RenderBase(page: string, limit: string)
    ensures Render([("page", page), ("limit", limit)]) == "page" + "=" + page + ("&" + "limit" + "=" + limit)
  {
    var ps := [("page", page), ("limit", limit)];
    var tail := "&" + "limit" + "=" + limit;
    assert ps[1..][..0] == [];
    assert Continued(ps[1..]) == "" + tail;
    assert "" + tail == tail;
  }

  /** `fetchAllBookings`' URL: the page and limit in the template literal,
      then one `url +=` per non-empty filter and for a non-empty search. */
  method BuildUrl(page: nat, limit: nat, f: Filters, search: string) returns (url: string)
    ensures url == BASE_URL + "/bookings/all?" + Render(QueryParams(page, limit, f, search))
  {
    var prefix := BASE_URL + "/bookings/all?";
    ghost var ps := [("page", JsStrings.NatToString(page)), ("limit", JsStrings.NatToString(limit))];
    RenderBase(JsStrings.NatToString(page), JsStrings.NatToString(limit));
    url := prefix + ("page" + "=" + JsStrings.NatToString(page) + ("&" + "limit" + "=" + JsStrings.NatToString(limit)));
    UrlStep(url, prefix, ps, "status", f.status);
    if f.status != "" {
      url := url + ("&" + "status" + "=" + f.status);
    }
    ps := WithParam(ps, "status", f.status);
    UrlStep(url, prefix, ps, "dateFrom", f.dateFrom);
    if f.dateFrom != "" {
      url := url + ("&" + "dateFrom" + "=" + f.dateFrom);
    }
    ps := WithParam(ps, "dateFrom", f.dateFrom);
    UrlStep(url, prefix, ps, "dateTo", f.dateTo);
    if f.dateTo != "" {
      url := url + ("&" + "dateTo" + "=" + f.dateTo);
    }
    ps := WithParam(ps, "dateTo", f.dateTo);
    UrlStep(url, prefix, ps, "search", search);
    if search != "" {
      url := url + ("&" + "search" + "=" + search);
    }
  }

  // --------------------------------------------------------- error handling

  /** The test in the `catch`: a message mentioning 'Unauthorized', 'token' or
      'jwt' is taken for an expired session. */
  predicate IsAuthError(message: string) {
    JsStrings.Includes(message, "Unauthorized") || JsStrings.Includes(message, "token")
    || JsStrings.Includes(message, "jwt")
  }

  /** What the screen does with a thrown error: the re-login prompt, or an
      alert with the message ('Failed to load bookings' when it is empty). */
  datatype Reaction = SessionExpired | ErrorAlert(text: string)

  function Classify(message: string): (r: Reaction)
    ensures r == SessionExpired <==> IsAuthError(message)
    ensures !IsAuthError(message) && message != "" ==> r == ErrorAlert(message)
    ensures !IsAuthError(message) && message == "" ==> r == ErrorAlert(LOAD_FAILED)
  {
    if IsAuthError(message) then SessionExpired
    else ErrorAlert(if message != "" then message else LOAD_FAILED)
  }

  /** Both errors the screen raises itself about credentials take the
      re-login path. */
  lemma OwnAuthErrorsExpireSession()
    ensures Classify(TOKEN_NOT_FOUND) == SessionExpired
    ensures Classify(INVALID_TOKEN) == SessionExpired
  {
    JsStrings.IncludesAt(TOKEN_NOT_FOUND, "token", 15);
    JsStrings.IncludesAt(INVALID_TOKEN, "Unauthorized", 0);
  }

  /** The parsed body of a 2xx reply. */
  datatype BookingsBody = BookingsBody(success: bool, bookings: seq<Booking>, totalPages: nat, message: string)

  /** What the request brought back: a thrown transport error, or a status
      with its body; a non-2xx body only contributes its `message`. */
  datatype BookingsReply = TransportError(message: string) | Reply(status: int, body: BookingsBody)

  /** How one `fetchAllBookings` run ends: the list and the page count, or
      the reaction to the error it threw. */
  datatype FetchOutcome = Loaded(bookings: seq<Booking>, totalPages: nat) | Failed(reaction: Reaction)

  /** The message `fetchAllBookings` throws for a reply, if any: the
      transport error's own, the fixed text for a 401, and otherwise for a
      failing status or a body with `success` false the server's message or
      'Failed to fetch bookings'. Nothing is thrown only for a 2xx body with
      `success` true. */
  function ThrownMessage(reply: BookingsReply): (m: Option<string>)
    ensures m.None? <==> reply.Reply? && reply.status != 401 && 200 <= reply.status < 300 && reply.body.success
    ensures reply.TransportError? ==> m == Some(reply.message)
    ensures reply.Reply? && reply.status == 401 ==> m == Some(INVALID_TOKEN)
    ensures reply.Reply? && reply.status != 401 && m.Some? ==>
      m.value != "" && (reply.body.message != "" ==> m.value == reply.body.message)
    ensures reply.Reply? && reply.status != 401 && m.Some? && reply.body.message == "" ==> m.value == FETCH_FAILED
  {
    match reply
    case TransportError(m) => Some(m)
    case Reply(status, body) =>
      if status == 401 then Some(INVALID_TOKEN)
      else if !(200 <= status < 300) || !body.success then Some(if body.message != "" then body.message else FETCH_FAILED)
      else None
  }

  /** `fetchAllBookings`: without a token nothing is requested and the
      session is taken as expired; a 401 is too; another failing status or a
      body with `success` false raises the server's message or 'Failed to
      fetch bookings'; a 2xx body with `success` true is loaded. */
  function FetchAllBookings(token: Option<string>, reply: BookingsReply): (r: FetchOutcome)
    ensures !Truthy(token) ==> r == Failed(SessionExpired)
    ensures Truthy(token) && reply.TransportError? ==> r == Failed(Classify(reply.message))
    ensures Truthy(token) && reply.Reply? && reply.status == 401 ==> r == Failed(SessionExpired)
    ensures r.Loaded? <==> Truthy(token) && reply.Reply? && 200 <= reply.status < 300 && reply.body.success
    ensures r.Loaded? ==> r.bookings == reply.body.bookings && r.totalPages == reply.body.totalPages
    ensures Truthy(token) && reply.Reply? && reply.status != 401 && !(200 <= reply.status < 300 && reply.body.success) ==>
      r == Failed(Classify(if reply.body.message != "" then reply.body.message else FETCH_FAILED))
  {
    OwnAuthErrorsExpireSession();
    if !Truthy(token) then Failed(Classify(TOKEN_NOT_FOUND))
    else
      match ThrownMessage(reply)
      case Some(m) => Failed(Classify(m))
      case None => Loaded(reply.body.bookings, reply.body.totalPages)
  }

  /** `Object.values(filters)`: the three fields in declaration order. */
  function FilterValues(f: Filters): seq<string> {
    [f.status, f.dateFrom, f.dateTo]
  }

  /** Whether the filter button shows its badge: some value of the filters
      is not ''. The search text is not one of them. */
  function FilterBadge(f: Filters): (shown: bool)
    ensures shown <==> exists i :: 0 <= i < |FilterValues(f)| && FilterValues(f)[i] != ""
    ensures !shown <==> f == NO_FILTERS
  {
    var vs := FilterValues(f);
    if f.status != "" then assert vs[0] != ""; true
    else if f.dateFrom != "" then assert vs[1] != ""; true
    else if f.dateTo != "" then assert vs[2] != ""; true
    else false
  }

  // -------------------------------------------------------------- row rules

  /** The payment badge's text. */
  function PaymentLabel(b: Booking): (text: string)
    ensures text == "Paid" <==> b.paymentStatus == "completed"
    ensures text != "Paid" ==> text == "Pending"
  {
    if b.paymentStatus == "completed" then "Paid" else "Pending"
  }

  /** `item.room?.pricePerBed * item.seatsBooked`: `None` stands for the
      `NaN` shown when the booking has no room. */
  function Amount(b: Booking): (a: Option<int>)
    ensures a.Some? <==> b.room.Some?
    ensures a.Some? ==> a.value == b.room.value.pricePerBed * b.seatsBooked
  {
    if b.room.Some? then Some(b.room.value.pricePerBed * b.seatsBooked) else None
  }

  // ------------------------------------------------------------ screen state

  class BookingsScreen {
    var bookings: seq<Booking>
    var loading: bool
    var refreshing: bool
    var searchQuery: string
    var filters: Filters
    var page: nat
    var limit: nat
    var totalPages: nat

    /** The screen's initial state: page 1 of 1, 20 per page, no filter. */
    constructor ()
      ensures bookings == [] && loading && !refreshing
      ensures searchQuery == "" && filters == NO_FILTERS
      ensures page == 1 && limit == 20 && totalPages == 1
    {
      bookings, loading, refreshing := [], true, false;
      searchQuery, filters := "", NO_FILTERS;
      page, limit, totalPages := 1, 20, 1;
    }

    /** `onRefresh`: back to page 1, showing the refresh indicator. */
    method OnRefresh()
      modifies this`refreshing, this`page
      ensures refreshing && page == 1
    {
      refreshing, page := true, 1;
    }

    /** `loadMore`: the next page, but never past the last one. */
    method LoadMore()
      modifies this`page
      ensures old(page) < totalPages ==> page == old(page) + 1
      ensures old(page) >= totalPages ==> page == old(page)
      ensures old(page) <= totalPages ==> page <= totalPages
    {
      if page < totalPages {
        page := page + 1;
      }
    }

    /** `resetFilters`: all filters and the search text cleared, page 1. */
    method ResetFilters()
      modifies this`filters, this`searchQuery, this`page
      ensures filters == NO_FILTERS && searchQuery == "" && page == 1
      ensures !FilterBadge(filters)
    {
      filters, searchQuery, page := NO_FILTERS, "", 1;
    }

    /** The end of one `fetchAllBookings` run: a loaded list replaces the
        bookings and the page count (the page and limit are kept); whatever
        the outcome, both indicators stop. */
    method FetchSettled(outcome: FetchOutcome)
      modifies this`bookings, this`totalPages, this`loading, this`refreshing
      ensures !loading && !refreshing
      ensures outcome.Loaded? ==> bookings == outcome.bookings && totalPages == outcome.totalPages
      ensures outcome.Failed? ==> bookings == old(bookings) && totalPages == old(totalPages)
    {
      if outcome.Loaded? {
        bookings, totalPages := outcome.bookings, outcome.totalPages;
      }
      loading, refreshing := false, false;
    }
  }
}
