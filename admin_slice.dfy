/**
 * The `admin` slice. Its thunk queries four endpoints at once, turns each
 * failure into an empty list tagged with the endpoint's key, merges the
 * four tagged results into one record by key and counts each list; the
 * reducers store the counts and the loading/error flags.
 */
module AdminSlice {
  import opened Wrappers
  import opened Entities

  /** The `data` of an axios response, as far as `length` sees it: a falsy
      value, something with a `length` (an array of that many items), or a
      truthy value without one. */
  datatype ResponseData = Falsy | Array(length: nat) | NoLength

  /** How one `axios.get` settled. */
  datatype AxiosReply = Resolved(data: ResponseData) | Failed(message: string)

  /** The record one endpoint's `.then`/`.catch` produces: the success flag,
      the endpoint's key with its list, and on failure the error message. */
  datatype EndpointResponse = EndpointResponse(success: bool, key: string, data: ResponseData, error: Option<string>)

  /** The request's four endpoints, each with the key its list is filed under. */
  const ENDPOINTS: seq<(string, string)> := [
    (BASE_URL + "/hostels/all", "hostels"),
    (BASE_URL + "/users/all-users", "users"),
    (BASE_URL + "/bookings", "bookings"),
    (BASE_URL + "/hostels/pending", "pending")]

  /** One endpoint's `.then` and `.catch`: a reply's data (or `[]` when it is
      falsy) on success, and on failure an empty list with the message. */
  function ToResponse(key: string, reply: AxiosReply): (r: EndpointResponse)
    ensures r.key == key && r.success == reply.Resolved?
    ensures r.data != Falsy
    ensures reply.Failed? ==> r.data == Array(0) && r.error == Some(reply.message)
    ensures reply.Resolved? && reply.data != Falsy ==> r.data == reply.data && r.error == None
    ensures reply.Resolved? && reply.data == Falsy ==> r.data == Array(0) && r.error == None
  {
    match reply
    case Resolved(d) => EndpointResponse(true, key, if d == Falsy then Array(0) else d, None)
    case Failed(m) => EndpointResponse(false, key, Array(0), Some(m))
  }

  /** The `reduce` that spreads each response's list into the accumulator
      under its key, later responses overwriting earlier ones. */
  function Combine(responses: seq<EndpointResponse>): map<string, ResponseData>
  {
    if responses == [] then map[]
    else
      var last := responses[|responses| - 1];
      Combine(responses[..|responses| - 1])[last.key := last.data]
  }

  /** The keys of the combined record are exactly the keys that occur. */
  lemma {:induction false} CombineKeys(responses: seq<EndpointResponse>)
    ensures forall k :: k in Combine(responses) <==> exists i :: 0 <= i < |responses| && responses[i].key == k
  {
    if responses != [] {
      var n := |responses|;
      var init := responses[..n - 1];
      CombineKeys(init);
      forall k
        ensures k in Combine(responses) <==> exists i :: 0 <= i < n && responses[i].key == k
      {
        if k == responses[n - 1].key {
          assert responses[n - 1].key == k;
        } else if exists i :: 0 <= i < n && responses[i].key == k {
          var i :| 0 <= i < n && responses[i].key == k;
          assert init[i].key == k;
        }
      }
    }
  }

  /** Each key maps to the list of the last response carrying it. */
  lemma {:induction false} CombineLastWins(responses: seq<EndpointResponse>, i: nat)
    requires i < |responses|
    requires forall j :: i < j < |responses| ==> responses[j].key != responses[i].key
    ensures responses[i].key in Combine(responses) && Combine(responses)[responses[i].key] == responses[i].data
  {
    var n := |responses|;
    if i < n - 1 {
      var init := responses[..n - 1];
      assert init[i] == responses[i];
      CombineLastWins(init, i);
    }
  }

  /** `combined[key]?.length || 0`. */
  function Count(m: map<string, ResponseData>, key: string): nat {
    if key in m && m[key].Array? then m[key].length else 0
  }

  /** The count a single reply stands for when read on its own: its list's
      length, 0 for a failure, a falsy body, or a body without a length. */
  function ReplyCount(reply: AxiosReply): nat {
    if reply.Resolved? && reply.data.Array? then reply.data.length else 0
  }

  datatype AdminCounts = AdminCounts(totalHostels: nat, totalUsers: nat, totalBookings: nat, pendingApprovals: nat)

  /** No two responses carry the same key. */
  predicate DistinctKeys(responses: seq<EndpointResponse>) {
    forall i, j :: 0 <= i < j < |responses| ==> responses[i].key != responses[j].key
  }

  /** With distinct keys, every response's list is found under its key. */
  lemma CombineDistinct(responses: seq<EndpointResponse>)
    requires DistinctKeys(responses)
    ensures forall i :: 0 <= i < |responses| ==>
      responses[i].key in Combine(responses) && Combine(responses)[responses[i].key] == responses[i].data
  {
    forall i | 0 <= i < |responses|
      ensures responses[i].key in Combine(responses) && Combine(responses)[responses[i].key] == responses[i].data
    {
      CombineLastWins(responses, i);
    }
  }

  /** With distinct keys the combined record does not depend on the order in
      which the responses arrive: the same responses in any order combine to
      the same record. */
  lemma CombineOrderIndependent(rs: seq<EndpointResponse>, ts: seq<EndpointResponse>)
    requires DistinctKeys(rs) && DistinctKeys(ts)
    requires forall r :: r in rs <==> r in ts
    ensures Combine(rs) == Combine(ts)
  {
    CombineDistinct(rs);
    CombineDistinct(ts);
    CombineKeys(rs);
    CombineKeys(ts);
    var a, b := Combine(rs), Combine(ts);
    forall k | k in a
      ensures k in b && a[k] == b[k]
    {
      var i :| 0 <= i < |rs| && rs[i].key == k;
      assert rs[i] in ts;
      var j :| 0 <= j < |ts| && ts[j] == rs[i];
    }
    forall k | k in b
      ensures k in a
    {
      var j :| 0 <= j < |ts| && ts[j].key == k;
      assert ts[j] in rs;
      var i :| 0 <= i < |rs| && rs[i] == ts[j];
    }
  }

  /** The counts a combined record yields for a response's key are its own
      reply's count, whatever the other endpoints did. */
  lemma CountOfResponse(key: string, reply: AxiosReply, m: map<string, ResponseData>)
    requires key in m && m[key] == ToResponse(key, reply).data
    ensures Count(m, key) == ReplyCount(reply)
  {
  }

  /** `fetchAdminData`. Every failure is caught per endpoint, so the thunk
      always fulfils, and each count is the length of its own endpoint's list
      (0 when that endpoint failed or sent no list), independently of the
      three others. */
  function FetchAdminData(hostels: AxiosReply, users: AxiosReply, bookings: AxiosReply, pending: AxiosReply)
    : (r: ThunkResult<AdminCounts>)
    ensures r.Fulfilled?
    ensures r.value == AdminCounts(ReplyCount(hostels), ReplyCount(users), ReplyCount(bookings), ReplyCount(pending))
  {
    var responses := [
      ToResponse(ENDPOINTS[0].1, hostels), ToResponse(ENDPOINTS[1].1, users),
      ToResponse(ENDPOINTS[2].1, bookings), ToResponse(ENDPOINTS[3].1, pending)];
    assert DistinctKeys(responses);
    CombineDistinct(responses);
    var combined := Combine(responses);
    assert responses[0].key == "hostels" && responses[1].key == "users";
    assert responses[2].key == "bookings" && responses[3].key == "pending";
    CountOfResponse("hostels", hostels, combined);
    CountOfResponse("users", users, combined);
    CountOfResponse("bookings", bookings, combined);
    CountOfResponse("pending", pending, combined);
    Fulfilled(AdminCounts(
      Count(combined, "hostels"), Count(combined, "users"),
      Count(combined, "bookings"), Count(combined, "pending")))
  }

  /** Even when all four endpoints fail, the thunk fulfils, with all counts 0. */
  lemma AllFailedGivesZero(e1: string, e2: string, e3: string, e4: string)
    ensures FetchAdminData(Failed(e1), Failed(e2), Failed(e3), Failed(e4)) == Fulfilled(AdminCounts(0, 0, 0, 0))
  {
  }

  /** A failing endpoint zeroes its own count and leaves the others as they
      were: replacing the users reply by a failure changes only totalUsers. */
  lemma FailureOnlyZeroesItsCount(hostels: AxiosReply, users: AxiosReply, bookings: AxiosReply, pending: AxiosReply, e: string)
    ensures var before := FetchAdminData(hostels, users, bookings, pending).value;
      FetchAdminData(hostels, Failed(e), bookings, pending).value == before.(totalUsers := 0)
  {
  }

  class AdminState {
    var data: AdminCounts
    var loading: bool
    var error: Option<string>

    /** The slice's initial state: all counts 0, not loading, no error. */
    constructor ()
      ensures data == AdminCounts(0, 0, 0, 0) && !loading && error == None
    {
      data, loading, error := AdminCounts(0, 0, 0, 0), false, None;
    }

    /** `resetAdminError`: only the error is touched. */
    method ResetAdminError()
      modifies this`error
      ensures error == None
    {
      error := None;
    }

    /** `fetchAdminData.pending`. */
    method FetchPending()
      modifies this`loading, this`error
      ensures loading && error == None
    {
      loading, error := true, None;
    }

    /** `fetchAdminData.fulfilled`: the counts are replaced, loading stops;
        the error is kept. */
    method FetchFulfilled(counts: AdminCounts)
      modifies this`loading, this`data
      ensures !loading && data == counts
    {
      loading, data := false, counts;
    }

    /** `fetchAdminData.rejected`: the counts are kept. */
    method FetchRejected(payload: string)
      modifies this`loading, this`error
      ensures !loading && error == Some(payload)
    {
      loading, error := false, Some(payload);
    }
  }
}
