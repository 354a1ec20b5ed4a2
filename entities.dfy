/**
 * The records the app exchanges with its backend, reduced to the fields the
 * modelled logic reads, plus the two result shapes every network call is
 * reduced to: what a request brought back, and how an async thunk settled.
 */
module Entities {
  import opened Wrappers

  /** The API root from service/api.js. */
  const BASE_URL := "https://findyourhostelbackendk.onrender.com/api"

  /** A possibly missing string read with `x || ''`. */
  function OrEmpty(o: Option<string>): (s: string)
    ensures o.Some? ==> s == o.value
    ensures o.None? ==> s == ""
  {
    o.GetOr("")
  }

  /** A possibly `null` string inside a template literal: `null` renders as
      "null". */
  function TemplateText(o: Option<string>): (s: string)
    ensures o.Some? ==> s == o.value
    ensures o.None? ==> s == "null"
    ensures s == "" <==> o == Some("")
  {
    o.GetOr("null")
  }

  /** A stored role read with `role || fallback`: the role when it is
      present and non-empty, the fallback otherwise. */
  function RoleOr(role: Option<string>, fallback: string): (r: string)
    requires fallback != ""
    ensures Truthy(role) ==> r == role.value
    ensures !Truthy(role) ==> r == fallback
    ensures r != ""
  {
    if Truthy(role) then role.value else fallback
  }

  /** JavaScript truthiness of a possibly missing string: present and non-empty. */
  predicate Truthy(o: Option<string>) {
    o.Some? && o.value != ""
  }

  datatype User = User(
    id: string,
    name: Option<string>,
    email: Option<string>,
    phone: Option<string>,
    role: Option<string>)

  /** A booking's populated `hostel` reference. */
  datatype HostelRef = HostelRef(id: string, name: string)

  /** A booking's populated `room` reference; prices are whole rupees. */
  datatype RoomRef = RoomRef(roomNumber: string, pricePerBed: int)

  datatype Booking = Booking(
    id: string,
    hostel: Option<HostelRef>,
    room: Option<RoomRef>,
    seatsBooked: int,
    paymentStatus: string,
    status: string)

  /** A review; `response` is "" while the owner has not answered. */
  datatype Review = Review(id: string, rating: int, title: string, comment: string, response: string)

  /** A coordinate as the client renders it in text; the app only copies
      coordinates around and never computes with them. */
  type Coordinate = string

  /** The `location` object of a hostel: `address` is "" when missing or empty,
      `coordinates` is `None` when missing (or otherwise falsy). */
  datatype LocationFields = LocationFields(address: string, coordinates: Option<seq<Coordinate>>)

  /** What a `fetch` brought back: a thrown transport error with its message,
      a non-2xx status with the body's `message` ("" when it has none), or a
      2xx status with its parsed body. */
  datatype HttpReply<T> =
    | NetworkFailure(message: string)
    | ErrorStatus(status: int, message: string)
    | Success(body: T)

  /** How a `createAsyncThunk` settled: `fulfilled` with a value, or
      `rejected` through `rejectWithValue` with a message. */
  datatype ThunkResult<T> = Fulfilled(value: T) | Rejected(payload: string)

  /** An authenticated request the client issues: HTTP method, URL, bearer token
      and (when it has one) body. */
  datatype Request<B> = Request(verb: string, url: string, bearer: string, body: Option<B>)
}
