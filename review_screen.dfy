/**
 * The reviews screen of one hostel: which of the user's bookings make them
 * eligible to review it, whether the signed-in user owns the hostel, the
 * five-star row drawn for a rating, the Respond button, and the owner's
 * response modal with its blank-response guard.
 */
module ReviewScreen {
  import opened Wrappers
  import opened Entities
  import JsStrings
  import JsArrays

  // ------------------------------------------------------------ eligibility

  /** The `filter` test in `fetchUserBookings`: a booking of this hostel
      (a booking without a hostel never is one), paid, and confirmed or
      completed. */
  predicate IsEligible(hostelId: string, b: Booking) {
    && b.hostel.Some? && b.hostel.value.id == hostelId
    && b.paymentStatus == "completed"
    && (b.status == "confirmed" || b.status == "completed")
  }

  /** The bookings kept for the review form: exactly the eligible ones, in
      the order the server sent them. */
  function EligibleBookings(hostelId: string, data: seq<Booking>): (r: seq<Booking>)
    ensures forall b :: b in r <==> b in data && IsEligible(hostelId, b)
    ensures forall b :: multiset(r)[b] == if IsEligible(hostelId, b) then multiset(data)[b] else 0
    ensures JsArrays.IsSubsequence(r, data)
  {
    var keep := (b: Booking) => IsEligible(hostelId, b);
    JsArrays.FilterIsSubsequence(keep, data);
    JsArrays.FilterSpec(keep, data);
    JsArrays.Filter(keep, data)
  }

  /** When every fetched booking is eligible, the list is kept whole. */
  lemma AllEligibleKept(hostelId: string, data: seq<Booking>)
    requires forall i :: 0 <= i < |data| ==> IsEligible(hostelId, data[i])
    ensures EligibleBookings(hostelId, data) == data
  {
    JsArrays.FilterKeepsAll((b: Booking) => IsEligible(hostelId, b), data);
  }

  /** A booking without a hostel, unpaid, or pending or cancelled, is never
      kept, whatever else it carries. */
  lemma IneligibleDropped(hostelId: string, data: seq<Booking>, b: Booking)
    requires b.hostel.None? || b.paymentStatus != "completed" || b.status !in {"confirmed", "completed"}
    ensures b !in EligibleBookings(hostelId, data)
  {
  }

  /** The hostel reply's `owner` as JavaScript sees it: absent
      (`undefined`), JSON `null`, or an id string. */
  datatype OwnerValue = Undefined | Null | Id(id: string)

  /** What `AsyncStorage.getItem` yields: the stored string, or `null` when
      nothing is stored under the key. */
  function Stored(item: Option<string>): (v: OwnerValue)
    ensures v != Undefined
    ensures item.Some? <==> v.Id?
    ensures item.Some? ==> v.id == item.value
  {
    if item.Some? then Id(item.value) else Null
  }

  /** `data.owner === userId`: strict equality, so an id matches the same
      stored id, `null` matches only a missing stored id, and `undefined`
      matches nothing `getItem` can return. */
  function IsOwner(owner: OwnerValue, userId: Option<string>): (owns: bool)
    ensures owns <==> (owner.Id? && userId.Some? && owner.id == userId.value) || (owner.Null? && userId.None?)
  {
    owner == Stored(userId)
  }

  /** No file of the app stores a 'userId', so `getItem` yields `null`:
      then no hostel whose owner is an id is recognised as owned, and only a
      reply whose owner is JSON `null` is. */
  lemma NoStoredUserId(owner: OwnerValue)
    ensures IsOwner(owner, None) <==> owner == Null
    ensures owner.Id? ==> !IsOwner(owner, None)
  {
  }

  // -------------------------------------------------------------- star row

  /** `[1, 2, 3, 4, 5].map(star => star <= rating)`: which stars are drawn
      filled. */
  function StarsFrom(stars: seq<int>, rating: int): (filled: seq<bool>)
    ensures |filled| == |stars|
    ensures forall k :: 0 <= k < |stars| ==> filled[k] == (stars[k] <= rating)
  {
    if stars == [] then [] else [stars[0] <= rating] + StarsFrom(stars[1..], rating)
  }

  const STAR_VALUES := [1, 2, 3, 4, 5]

  function Stars(rating: int): seq<bool> {
    StarsFrom(STAR_VALUES, rating)
  }

  /** The number of `true`s in a row of stars. */
  function FilledCount(row: seq<bool>): nat {
    if row == [] then 0 else (if row[0] then 1 else 0) + FilledCount(row[1..])
  }

  /** Exactly five stars are drawn; star `k + 1` is filled iff `k + 1 <= rating`,
      so the filled ones come first and there are `rating` of them, clamped
      to 0..5. */
  lemma StarsSpec(rating: int)
    ensures |Stars(rating)| == 5
    ensures forall k :: 0 <= k < 5 ==> Stars(rating)[k] == (k + 1 <= rating)
    ensures forall j, k :: 0 <= j < k < 5 && Stars(rating)[k] ==> Stars(rating)[j]
    ensures FilledCount(Stars(rating)) == if rating < 0 then 0 else if rating > 5 then 5 else rating
  {
    var row := Stars(rating);
    var c := (b: bool) => if b then 1 else 0;
    assert row[4..][1..] == [];
    assert FilledCount(row[4..]) == c(5 <= rating);
    assert row[3..][1..] == row[4..];
    assert FilledCount(row[3..]) == c(4 <= rating) + c(5 <= rating);
    assert row[2..][1..] == row[3..];
    assert FilledCount(row[2..]) == c(3 <= rating) + c(4 <= rating) + c(5 <= rating);
    assert row[1..][1..] == row[2..];
    assert FilledCount(row[1..]) == c(2 <= rating) + c(3 <= rating) + c(4 <= rating) + c(5 <= rating);
  }

  // ------------------------------------------------------------ respond flow

  /** The Respond button under a review: for the owner, while the review
      has no response yet. */
  predicate ShowRespondButton(isOwner: bool, review: Review) {
    isOwner && review.response == ""
  }

  /** The body of the response request. */
  datatype ResponseBody = ResponseBody(response: string)

  class ReviewScreenState {
    const hostelId: string
    var reviews: seq<Review>
    var userBookings: seq<Booking>
    var isOwner: bool
    var showResponseModal: bool
    var selectedReview: Option<Review>
    var responseText: string

    constructor (hostelId: string)
      ensures this.hostelId == hostelId
      ensures reviews == [] && userBookings == [] && !isOwner
      ensures !showResponseModal && selectedReview == None && responseText == ""
    {
      this.hostelId := hostelId;
      reviews, userBookings, isOwner := [], [], false;
      showResponseModal, selectedReview, responseText := false, None, "";
    }

    /** The reviews request succeeded: its list replaces the old one. */
    method ReviewsFetched(data: seq<Review>)
      modifies this`reviews
      ensures reviews == data
    {
      reviews := data;
    }

    /** The hostel request succeeded: ownership is decided from its owner
        and the stored user id. */
    method HostelInfoFetched(owner: OwnerValue, userId: Option<string>)
      modifies this`isOwner
      ensures isOwner <==> IsOwner(owner, userId)
    {
      isOwner := IsOwner(owner, userId);
    }

    /** The bookings request succeeded: only the eligible bookings are kept. */
    method UserBookingsFetched(data: seq<Booking>)
      modifies this`userBookings
      ensures userBookings == EligibleBookings(hostelId, data)
      ensures forall b :: b in userBookings ==> IsEligible(hostelId, b)
    {
      userBookings := EligibleBookings(hostelId, data);
    }

    /** Pressing Respond under a review opens the modal for it. */
    method OpenResponse(review: Review)
      requires ShowRespondButton(isOwner, review)
      modifies this`selectedReview, this`showResponseModal
      ensures selectedReview == Some(review) && showResponseModal
    {
      selectedReview, showResponseModal := Some(review), true;
    }

    /** Typing into the response box. */
    method EditResponse(text: string)
      modifies this`responseText
      ensures responseText == text
    {
      responseText := text;
    }

    /** The Submit button is disabled while the text is blank. */
    predicate SubmitDisabled()
      reads this
    {
      JsStrings.Trim(responseText) == ""
    }

    /** The button and the guard in `handleResponse` agree: a disabled
        button means no request would be sent, and an enabled one with a
        review selected means a request would be. */
    lemma SubmitDisabledIffBlank(token: Option<string>)
      ensures SubmitDisabled() <==> JsStrings.AllWhitespace(responseText)
      ensures SubmitDisabled() ==> ResponseRequest(token).None?
      ensures !SubmitDisabled() && selectedReview.Some? ==> ResponseRequest(token).Some?
    {
      JsStrings.TrimEmptyIff(responseText);
    }

    /** The request `handleResponse` sends, if any: nothing for a blank or
        white-space-only text (the 'Please enter a response' alert), nothing
        when no review is selected (reading its `_id` throws inside the
        `try`); otherwise a POST for the selected review whose body is the
        trimmed text. */
    function ResponseRequest(token: Option<string>): (r: Option<Request<ResponseBody>>)
      reads this
      ensures r.None? <==> JsStrings.AllWhitespace(responseText) || selectedReview.None?
      ensures r.Some? ==> r.value == Request("POST", BASE_URL + "/reviews/respond/" + selectedReview.value.id,
        TemplateText(token), Some(ResponseBody(JsStrings.Trim(responseText))))
      ensures r.Some? ==> var sent := r.value.body.value.response;
        sent != "" && !JsStrings.IsWhitespace(sent[0]) && !JsStrings.IsWhitespace(sent[|sent| - 1])
    {
      JsStrings.TrimEmptyIff(responseText);
      JsStrings.TrimEdges(responseText);
      if JsStrings.Trim(responseText) == "" || selectedReview.None? then None
      else Some(Request("POST", BASE_URL + "/reviews/respond/" + selectedReview.value.id,
        TemplateText(token), Some(ResponseBody(JsStrings.Trim(responseText)))))
    }

    /** The response request succeeded: the modal closes and forgets its
        text and review. On failure nothing changes (only an alert). */
    method ResponseSettled(ok: bool)
      modifies this`showResponseModal, this`responseText, this`selectedReview
      ensures ok ==> !showResponseModal && responseText == "" && selectedReview == None
      ensures !ok ==> (showResponseModal == old(showResponseModal) && responseText == old(responseText)
        && selectedReview == old(selectedReview))
    {
      if ok {
        showResponseModal, responseText, selectedReview := false, "", None;
      }
    }

    /** Cancel resets the modal exactly as a successful response does. */
    method CancelResponse()
      modifies this`showResponseModal, this`responseText, this`selectedReview
      ensures !showResponseModal && responseText == "" && selectedReview == None
      ensures ResponseRequest(None) == None
    {
      showResponseModal, responseText, selectedReview := false, "", None;
    }
  }
}
