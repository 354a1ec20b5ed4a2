/**
 * The review form: the booking being reviewed, the star rating, title and
 * comment, the validation run before submitting, the request it sends, and
 * the three places an error message can appear.
 */
module CreateReviewScreen {
  import opened Wrappers
  import opened Entities
  import JsStrings

  const SELECT_BOOKING := "Please select a booking"
  const PROVIDE_RATING := "Please provide a rating"
  const AUTH_REQUIRED := "Authentication required"
  const SUBMIT_FAILED := "Failed to submit review"

  /** `validateForm`'s verdict: the first failing check's message, or none.
      The booking is checked before the rating. */
  function FormError(selectedBooking: Option<Booking>, rating: int): (e: Option<string>)
    ensures selectedBooking.None? ==> e == Some(SELECT_BOOKING)
    ensures selectedBooking.Some? ==> (e == Some(PROVIDE_RATING) <==> rating == 0)
    ensures e.None? <==> selectedBooking.Some? && rating != 0
  {
    if selectedBooking.None? then Some(SELECT_BOOKING)
    else if rating == 0 then Some(PROVIDE_RATING)
    else None
  }

  /** The body of the review request; title and comment are trimmed. */
  datatype ReviewBody = ReviewBody(hostelId: string, bookingId: string, rating: int, title: string, comment: string)

  /** Where an error message is shown: under the booking list (only drawn
      when there are bookings), under the stars, and at the bottom of the
      form. */
  datatype ErrorSlots = ErrorSlots(underBookings: bool, underStars: bool, atBottom: bool)

  function Slots(error: Option<string>, bookingCount: nat): (s: ErrorSlots)
    ensures s.underBookings <==> Truthy(error) && bookingCount > 0 && JsStrings.Includes(error.value, "booking")
    ensures s.underStars <==> Truthy(error) && JsStrings.Includes(error.value, "rating")
    ensures s.atBottom <==> (Truthy(error) && !JsStrings.Includes(error.value, "booking")
      && !JsStrings.Includes(error.value, "rating"))
  {
    if !Truthy(error) then ErrorSlots(false, false, false)
    else
      var booking := JsStrings.Includes(error.value, "booking");
      var rating := JsStrings.Includes(error.value, "rating");
      ErrorSlots(bookingCount > 0 && booking, rating, !booking && !rating)
  }

  /** Which of the two key words each validation message mentions. */
  lemma SelectBookingWords()
    ensures JsStrings.Includes(SELECT_BOOKING, "booking") && !JsStrings.Includes(SELECT_BOOKING, "rating")
  {
    JsStrings.IncludesAt(SELECT_BOOKING, "booking", 16);
    JsStrings.NotIncludesWithoutFirst(SELECT_BOOKING, "rating");
  }

  lemma ProvideRatingWords()
    ensures JsStrings.Includes(PROVIDE_RATING, "rating") && !JsStrings.Includes(PROVIDE_RATING, "booking")
  {
    JsStrings.IncludesAt(PROVIDE_RATING, "rating", 17);
    JsStrings.NotIncludesWithoutFirst(PROVIDE_RATING, "booking");
  }

  /** 'Please select a booking' shows under the booking list, and so is not
      shown at all when the list is empty. */
  lemma SelectBookingSlot(bookingCount: nat)
    ensures Slots(Some(SELECT_BOOKING), bookingCount) == ErrorSlots(bookingCount > 0, false, false)
  {
    SelectBookingWords();
  }

  /** 'Please provide a rating' shows under the stars only. */
  lemma ProvideRatingSlot(bookingCount: nat)
    ensures Slots(Some(PROVIDE_RATING), bookingCount) == ErrorSlots(false, true, false)
  {
    ProvideRatingWords();
  }

  /** Any message is shown in at least one place, save one that mentions
      'booking' while there are no bookings and does not mention 'rating'. */
  lemma ErrorAlwaysShownSomewhere(error: string, bookingCount: nat)
    requires error != ""
    requires bookingCount > 0 || !JsStrings.Includes(error, "booking") || JsStrings.Includes(error, "rating")
    ensures var s := Slots(Some(error), bookingCount); s.underBookings || s.underStars || s.atBottom
  {
  }

  class ReviewForm {
    const hostelId: string
    const userBookings: seq<Booking>
    var selectedBooking: Option<Booking>
    var rating: int
    var title: string
    var comment: string
    var submitting: bool
    var error: Option<string>

    /** The rating is always one of 0 (none yet) to 5. */
    predicate Valid()
      reads this
    {
      0 <= rating <= 5
    }

    constructor (hostelId: string, userBookings: seq<Booking>)
      ensures Valid()
      ensures this.hostelId == hostelId && this.userBookings == userBookings
      ensures selectedBooking == None && rating == 0 && title == "" && comment == ""
      ensures !submitting && error == None
    {
      this.hostelId, this.userBookings := hostelId, userBookings;
      selectedBooking, rating, title, comment := None, 0, "", "";
      submitting, error := false, None;
    }

    /** `handleStarPress`: the stars offer the values 1 to 5. */
    method HandleStarPress(star: int)
      requires 1 <= star <= 5
      modifies this`rating
      ensures rating == star && Valid()
    {
      rating := star;
    }

    /** `handleBookingSelect`: the booking is chosen and the error cleared. */
    method HandleBookingSelect(booking: Booking)
      modifies this`selectedBooking, this`error
      ensures selectedBooking == Some(booking) && error == None
    {
      selectedBooking, error := Some(booking), None;
    }

    /** `validateForm`: true when there is nothing to complain about;
        otherwise the message of the first failing check becomes the error. */
    method ValidateForm() returns (ok: bool)
      modifies this`error
      ensures ok <==> FormError(selectedBooking, rating).None?
      ensures ok ==> error == old(error)
      ensures !ok ==> error == FormError(selectedBooking, rating)
    {
      var e := FormError(selectedBooking, rating);
      if e.Some? {
        error := e;
        return false;
      }
      return true;
    }

    /** The first half of `handleSubmit`, up to the request: validation
        (failing, nothing is sent and `submitting` is untouched), then
        `submitting` and a cleared error, then the token check (failing, the
        error is 'Authentication required' and `submitting` is reset), and
        only then the POST with the trimmed title and comment. */
    method SubmitStart(token: Option<string>) returns (request: Option<Request<ReviewBody>>)
      requires Valid()
      modifies this`error, this`submitting
      ensures Valid()
      ensures request.Some? <==> FormError(selectedBooking, rating).None? && Truthy(token)
      ensures FormError(selectedBooking, rating).Some? ==>
        error == FormError(selectedBooking, rating) && submitting == old(submitting)
      ensures FormError(selectedBooking, rating).None? && !Truthy(token) ==>
        error == Some(AUTH_REQUIRED) && !submitting
      ensures request.Some? ==> submitting && error == None && request.value == Request(
        "POST", BASE_URL + "/reviews/add", token.value,
        Some(ReviewBody(hostelId, selectedBooking.value.id, rating, JsStrings.Trim(title), JsStrings.Trim(comment))))
      ensures request.Some? ==> 1 <= request.value.body.value.rating <= 5
    {
      var ok := ValidateForm();
      if !ok {
        return None;
      }
      submitting, error := true, None;
      if !Truthy(token) {
        error, submitting := Some(AUTH_REQUIRED), false;
        return None;
      }
      request := Some(Request("POST", BASE_URL + "/reviews/add", token.value,
        Some(ReviewBody(hostelId, selectedBooking.value.id, rating, JsStrings.Trim(title), JsStrings.Trim(comment)))));
    }

    /** The second half: a failure's message (or 'Failed to submit review')
        becomes the error; either way `submitting` ends. */
    method SubmitSettled(reply: HttpReply<Review>)
      modifies this`error, this`submitting
      ensures !submitting
      ensures reply.Success? ==> error == old(error)
      ensures reply.NetworkFailure? ==> error == Some(if reply.message != "" then reply.message else SUBMIT_FAILED)
      ensures reply.ErrorStatus? ==> error == Some(if reply.message != "" then reply.message else SUBMIT_FAILED)
    {
      match reply {
        case Success(_) =>
        case NetworkFailure(m) => error := Some(if m != "" then m else SUBMIT_FAILED);
        case ErrorStatus(_, m) => error := Some(if m != "" then m else SUBMIT_FAILED);
      }
      submitting := false;
    }
  }
}
