/**
 * The `bookings` slice: the hostellite's bookings, the hostel owner's
 * bookings, a request status and an error. Besides its own case reducers it
 * has two generic matchers that react to EVERY action in the store whose
 * type ends in "/pending" or "/rejected", whichever slice it comes from.
 */
module BookSlice {
  import opened Wrappers
  import opened Entities
  import JsStrings
  import JsArrays

  const REQUEST_FAILED := "Request failed"

  /** The `fetch` configuration `apiRequest` builds. */
  datatype FetchConfig<B> = FetchConfig(verb: string, authorization: string, contentType: string, body: Option<B>)

  /** `apiRequest`'s configuration: the bearer header (a missing token renders
      as "null" in the template literal), JSON content type, and a body only
      when data was passed. */
  function RequestConfig<B>(verb: string, token: Option<string>, data: Option<B>): (c: FetchConfig<B>)
    ensures c.verb == verb && c.contentType == "application/json"
    ensures c.body.Some? <==> data.Some?
    ensures data.Some? ==> c.body.value == data.value
    ensures token.Some? ==> c.authorization == "Bearer " + token.value
    ensures token.None? ==> c.authorization == "Bearer null"
  {
    FetchConfig(verb, "Bearer " + TemplateText(token), "application/json", data)
  }

  /** How `apiRequest` settles on a reply: the parsed body on success; on a
      non-2xx status an error with the server's message or "Request failed";
      a transport error propagates with its own message. The thunks have no
      `rejectWithValue`, so the message ends up in `action.error.message`. */
  function ApiRequestResult<T>(reply: HttpReply<T>): (r: ThunkResult<T>)
    ensures r.Fulfilled? <==> reply.Success?
    ensures reply.Success? ==> r.value == reply.body
    ensures reply.ErrorStatus? ==> r.payload != ""
    ensures reply.ErrorStatus? && reply.message == "" ==> r.payload == REQUEST_FAILED
    ensures reply.ErrorStatus? && reply.message != "" ==> r.payload == reply.message
    ensures reply.NetworkFailure? ==> r.payload == reply.message
  {
    match reply
    case NetworkFailure(m) => Rejected(m)
    case ErrorStatus(_, m) => Rejected(if m != "" then m else REQUEST_FAILED)
    case Success(b) => Fulfilled(b)
  }

  datatype Status = Idle | Loading | Succeeded | Failed

  /** The actions this reducer can receive: the four fulfilled cases, the two
      plain reducers, and any other action of the store, given by its type
      string and `action.error.message`. */
  datatype BookAction =
    | UserBookingsFetched(bookings: seq<Booking>)
    | OwnerBookingsFetched(bookings: seq<Booking>)
    | BookingCreated(booking: Booking)
    | BookingCancelled(bookingId: string)
    | BookingsCleared
    | LastBookingCleared
    | Other(kind: string, errorMessage: Option<string>)

  /** The type strings that have a case reducer in this slice. */
  const CASE_TYPES: set<string> := {
    "bookings/fetchUserBookings/fulfilled", "bookings/fetchHostelOwnerBookings/fulfilled",
    "bookings/createBooking/fulfilled", "bookings/cancelBooking/fulfilled",
    "bookings/clearBookings", "bookings/clearLastBooking" }

  /** No action type matches both generic matchers. */
  lemma MatchersExclusive(kind: string)
    ensures !(JsStrings.EndsWith(kind, "/pending") && JsStrings.EndsWith(kind, "/rejected"))
  {
    if JsStrings.EndsWith(kind, "/pending") {
      LastCharOfSuffix(kind, "/pending");
      if JsStrings.EndsWith(kind, "/rejected") {
        LastCharOfSuffix(kind, "/rejected");
      }
    }
  }

  /** A string ending in a non-empty suffix ends in that suffix's last character. */
  lemma LastCharOfSuffix(s: string, suffix: string)
    requires JsStrings.EndsWith(s, suffix) && suffix != []
    ensures s[|s| - 1] == suffix[|suffix| - 1]
  {
    assert s[|s| - 1] == s[|s| - |suffix|..][|suffix| - 1];
  }

  /** No type with a case reducer matches a generic matcher, so on this
      slice's own fulfilled actions the matchers never run. */
  lemma CaseTypesMatchNoMatcher(kind: string)
    requires kind in CASE_TYPES
    ensures !JsStrings.EndsWith(kind, "/pending") && !JsStrings.EndsWith(kind, "/rejected")
  {
    if JsStrings.EndsWith(kind, "/pending") {
      SlashOfSuffix(kind, "/pending");
      NoSlashNearEnd(kind);
    }
    if JsStrings.EndsWith(kind, "/rejected") {
      SlashOfSuffix(kind, "/rejected");
      NoSlashNearEnd(kind);
    }
  }

  /** A string ending in a suffix that starts with '/' has that '/' where
      the suffix begins. */
  lemma SlashOfSuffix(s: string, suffix: string)
    requires JsStrings.EndsWith(s, suffix) && suffix != [] && suffix[0] == '/'
    ensures s[|s| - |suffix|] == '/'
  {
    assert s[|s| - |suffix|] == s[|s| - |suffix|..][0];
  }

  /** Neither the eighth nor the ninth character from the end of a case
      type is a '/'. */
  lemma NoSlashNearEnd(kind: string)
    requires kind in CASE_TYPES
    ensures |kind| >= 9 && kind[|kind| - 8] != '/' && kind[|kind| - 9] != '/'
  {
  }

  class BookState {
    var userBookings: seq<Booking>
    var hostelOwnerBookings: seq<Booking>
    var status: Status
    var error: Option<string>
    var lastBooking: Option<Booking>

    /** The record equals `initialState`. */
    predicate IsInitial()
      reads this
    {
      userBookings == [] && hostelOwnerBookings == [] && status == Idle
      && error == None && lastBooking == None
    }

    constructor ()
      ensures IsInitial()
    {
      userBookings, hostelOwnerBookings := [], [];
      status, error, lastBooking := Idle, None, None;
    }

    /** `clearBookings`: returns to exactly the initial record. */
    method ClearBookings()
      modifies this
      ensures IsInitial()
    {
      userBookings, hostelOwnerBookings := [], [];
      status, error, lastBooking := Idle, None, None;
    }

    /** `clearLastBooking`. */
    method ClearLastBooking()
      modifies this`lastBooking
      ensures lastBooking == None
    {
      lastBooking := None;
    }

    /** `fetchUserBookings.fulfilled`: the user's list is replaced wholesale;
        the owner's list is not touched. */
    method FetchUserBookingsFulfilled(bookings: seq<Booking>)
      modifies this`status, this`userBookings
      ensures status == Succeeded && userBookings == bookings
    {
      status := Succeeded;
      userBookings := bookings;
    }

    /** `fetchHostelOwnerBookings.fulfilled`: the owner's list is replaced
        wholesale; the user's list is not touched. */
    method FetchHostelOwnerBookingsFulfilled(bookings: seq<Booking>)
      modifies this`status, this`hostelOwnerBookings
      ensures status == Succeeded && hostelOwnerBookings == bookings
    {
      status := Succeeded;
      hostelOwnerBookings := bookings;
    }

    /** `createBooking.fulfilled`: `unshift` puts the new booking at index 0,
        with every earlier booking following in its old order. */
    method CreateBookingFulfilled(booking: Booking)
      modifies this`status, this`userBookings
      ensures status == Succeeded
      ensures |userBookings| == |old(userBookings)| + 1
      ensures userBookings[0] == booking && userBookings[1..] == old(userBookings)
    {
      status := Succeeded;
      userBookings := [booking] + userBookings;
    }

    /** `cancelBooking.fulfilled`: every booking with the cancelled id leaves
        the user's list, the others stay in order; the owner's list is not
        touched. */
    method CancelBookingFulfilled(bookingId: string)
      modifies this`status, this`userBookings
      ensures status == Succeeded
      ensures userBookings == JsArrays.Filter((b: Booking) => b.id != bookingId, old(userBookings))
      ensures forall b :: b in userBookings <==> b in old(userBookings) && b.id != bookingId
      ensures JsArrays.IsSubsequence(userBookings, old(userBookings))
    {
      var keep := (b: Booking) => b.id != bookingId;
      JsArrays.FilterIsSubsequence(keep, userBookings);
      JsArrays.FilterSpec(keep, userBookings);
      status := Succeeded;
      userBookings := JsArrays.Filter(keep, userBookings);
    }

    /** The `/pending` matcher. */
    method MatchPending()
      modifies this`status, this`error
      ensures status == Loading && error == None
    {
      status := Loading;
      error := None;
    }

    /** The `/rejected` matcher: the error is the action's `error.message`. */
    method MatchRejected(errorMessage: Option<string>)
      modifies this`status, this`error
      ensures status == Failed && error == errorMessage
    {
      status := Failed;
      error := errorMessage;
    }

    /** The slice reducer: the case reducer for the action's type, then every
        matcher whose test the type passes. An action of any slice whose type
        ends in "/pending" (such as "auth/loginUser/pending") starts loading,
        one ending in "/rejected" fails with its message, and any other
        foreign action changes nothing. `lastBooking` is only ever assigned
        `null`, so once it is `null` it stays so. */
    method Dispatch(a: BookAction)
      requires a.Other? ==> a.kind !in CASE_TYPES
      modifies this
      ensures a.BookingsCleared? ==> IsInitial()
      ensures !a.BookingsCleared? && !a.LastBookingCleared? ==> lastBooking == old(lastBooking)
      ensures a.LastBookingCleared? ==> (lastBooking == None && userBookings == old(userBookings)
        && hostelOwnerBookings == old(hostelOwnerBookings) && status == old(status) && error == old(error))
      ensures a.UserBookingsFetched? ==> (status == Succeeded && userBookings == a.bookings
        && hostelOwnerBookings == old(hostelOwnerBookings) && error == old(error))
      ensures a.OwnerBookingsFetched? ==> (status == Succeeded && hostelOwnerBookings == a.bookings
        && userBookings == old(userBookings) && error == old(error))
      ensures a.BookingCreated? ==> (status == Succeeded && userBookings == [a.booking] + old(userBookings)
        && hostelOwnerBookings == old(hostelOwnerBookings) && error == old(error))
      ensures a.BookingCancelled? ==> (status == Succeeded
        && userBookings == JsArrays.Filter((b: Booking) => b.id != a.bookingId, old(userBookings))
        && hostelOwnerBookings == old(hostelOwnerBookings) && error == old(error))
      ensures a.Other? ==> userBookings == old(userBookings) && hostelOwnerBookings == old(hostelOwnerBookings)
      ensures a.Other? && JsStrings.EndsWith(a.kind, "/pending") ==> status == Loading && error == None
      ensures a.Other? && JsStrings.EndsWith(a.kind, "/rejected") ==> status == Failed && error == a.errorMessage
      ensures a.Other? && !JsStrings.EndsWith(a.kind, "/pending") && !JsStrings.EndsWith(a.kind, "/rejected")
        ==> status == old(status) && error == old(error)
    {
      match a
      case UserBookingsFetched(bs) => FetchUserBookingsFulfilled(bs);
      case OwnerBookingsFetched(bs) => FetchHostelOwnerBookingsFulfilled(bs);
      case BookingCreated(b) => CreateBookingFulfilled(b);
      case BookingCancelled(id) => CancelBookingFulfilled(id);
      case BookingsCleared => ClearBookings();
      case LastBookingCleared => ClearLastBooking();
      case Other(kind, msg) =>
        MatchersExclusive(kind);
        if JsStrings.EndsWith(kind, "/pending") {
          MatchPending();
        }
        if JsStrings.EndsWith(kind, "/rejected") {
          MatchRejected(msg);
        }
    }
  }
}
