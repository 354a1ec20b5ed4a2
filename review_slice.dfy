/**
 * The `reviews` slice: the reviews of the hostel on screen, the signed-in
 * user's own reviews, and the loading, error and success flags, with one
 * method per reducer case. `success` reports that a review was created.
 */
module ReviewSlice {
  import opened Wrappers
  import opened Entities
  import JsArrays

  /** The thunks whose lifecycle actions this slice handles. */
  datatype ReviewThunk = CreateReview | FetchHostelReviews | FetchUserReviews | RespondToReview

  class ReviewState {
    var hostelReviews: seq<Review>
    var userReviews: seq<Review>
    var loading: bool
    var error: Option<string>
    var success: bool

    /** The slice's `initialState`. */
    constructor ()
      ensures hostelReviews == [] && userReviews == []
      ensures !loading && error == None && !success
    {
      hostelReviews, userReviews := [], [];
      loading, error, success := false, None, false;
    }

    /** `resetReviewStatus`: the three flags go back to their initial values;
        neither review list is touched. */
    method ResetReviewStatus()
      modifies this`loading, this`error, this`success
      ensures !loading && error == None && !success
    {
      loading, error, success := false, None, false;
    }

    /** The `pending` case of every thunk: loading starts and the error is
        cleared; only `createReview.pending` also clears `success`. */
    method Pending(thunk: ReviewThunk)
      modifies this`loading, this`error, this`success
      ensures loading && error == None
      ensures thunk == CreateReview ==> !success
      ensures thunk != CreateReview ==> success == old(success)
    {
      loading, error := true, None;
      if thunk == CreateReview {
        success := false;
      }
    }

    /** The `rejected` case of every thunk: loading stops and the error is
        the rejection payload; `success` and the lists are kept. */
    method Rejected(thunk: ReviewThunk, payload: string)
      modifies this`loading, this`error
      ensures !loading && error == Some(payload)
    {
      loading, error := false, Some(payload);
    }

    /** `createReview.fulfilled`: the one place `success` becomes true; the
        new review is put at index 0 of the user's reviews, ahead of all the
        earlier ones in their old order. */
    method CreateReviewFulfilled(review: Review)
      modifies this`loading, this`success, this`userReviews
      ensures !loading && success
      ensures |userReviews| == |old(userReviews)| + 1
      ensures userReviews[0] == review && userReviews[1..] == old(userReviews)
    {
      loading, success := false, true;
      userReviews := [review] + userReviews;
    }

    /** `fetchHostelReviews.fulfilled`: the hostel's reviews are replaced. */
    method FetchHostelReviewsFulfilled(reviews: seq<Review>)
      modifies this`loading, this`hostelReviews
      ensures !loading && hostelReviews == reviews
    {
      loading, hostelReviews := false, reviews;
    }

    /** `fetchUserReviews.fulfilled`: the user's reviews are replaced. */
    method FetchUserReviewsFulfilled(reviews: seq<Review>)
      modifies this`loading, this`userReviews
      ensures !loading && userReviews == reviews
    {
      loading, userReviews := false, reviews;
    }

    /** `respondToReview.fulfilled`: the answered review replaces every
        hostel review with its id, in place; the list keeps its length and
        every other entry where it was. The user's reviews are not touched. */
    method RespondToReviewFulfilled(answered: Review)
      modifies this`loading, this`hostelReviews
      ensures !loading
      ensures |hostelReviews| == |old(hostelReviews)|
      ensures forall i :: 0 <= i < |hostelReviews| ==>
        hostelReviews[i] == if old(hostelReviews)[i].id == answered.id then answered else old(hostelReviews)[i]
    {
      loading := false;
      hostelReviews := JsArrays.ReplaceWhere(hostelReviews, (r: Review) => r.id == answered.id, answered);
    }
  }
}
