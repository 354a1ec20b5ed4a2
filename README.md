# FindYourHostel front end — a Dafny model of its client-side logic

FindYourHostel is a React Native app for finding and booking hostels. It has
three kinds of user:

- *Hostellites* (students) search for hostels, book them and review them.
- *Hostellers* (owners) list hostels, manage rooms and answer reviews.
- *Admins* approve hostels and oversee bookings.

Most of the app is views over fetched JSON. This project models the parts that
decide something, with each network or storage result taken as an input:

- **Redux slices** (`auth`, `bookings`, `reviews`, `admin`). Each slice is a
  class with one method per reducer case. Each method's frame lists the fields
  that the case assigns, so every other field provably stays as it was.
- **The generic matchers of the `bookings` slice.** They react to any
  action in the store whose type ends in `/pending` or `/rejected`.
- **The admin dashboard's count logic.** Four endpoints are queried, each
  failure becomes an empty list, the results are merged by key, and each list
  is counted.
- **The location label parser.** `JSON.parse` is a parameter: a function from
  text to a parse outcome.
- **The screens' decision logic:**
  - the hostel owner's screen: status tabs, the GeoJSON marker encoding,
    image part naming and MIME type, the reverse-geocoded address, submit
    guards, and the image list;
  - the admin bookings list: query string, error classification, pagination
    and filters;
  - the reviews screen: eligibility filter, star row, respond flow;
  - the review form: validation order, request body, error routing;
  - the registration, login and profile forms, with their validators;
  - the navigator's role-based drawer and token gate;
  - the home screen's per-role behaviour.

JavaScript is modelled explicitly where it matters:

- Truthiness of possibly missing strings (`Truthy`, `OrEmpty`).
- `null` inside a template literal, which renders as "null" (`TemplateText`).
- `trim` and `\s`, with the ECMAScript white-space set written out.
- `includes`, `endsWith`, `split('/').pop()`, `join`, and decimal rendering
  of integers.
- Each fixed regular expression, as a hand-written predicate.

Coordinates are opaque text and are never computed with. Prices are integers.

The reviews screen compares the hostel's `owner` with a stored 'userId'
using `===`. The only key the app writes to storage is 'userToken'
(src/redux/authSlice.js:47 and app/screens/Login.jsx:55), so `getItem('userId')`
yields `null`. Under strict equality, a hostel whose owner is an id then never
counts as owned, and the Respond button never shows. `NoStoredUserId` states
this.

Modules, one per source file plus shared ones:

- `Wrappers`: `Option`.
- `JsStrings`, `JsArrays`: the built-ins listed above.
- `Entities`: the records exchanged with the backend.
- `Validators`: the regular expressions.
- `AuthSlice`, `BookSlice`, `ReviewSlice`, `AdminSlice`: the four slices.
- `LocationParser`, `AddHostel`, `AllBookings`, `ReviewScreen`,
  `CreateReviewScreen`, `Registration`, `Login`, `ProfileScreen`,
  `AppNavigator`, `HomePage`: one module per source file.

## Model

| member | source | states |
|---|---|---|
| Entities.OrEmpty | app/screens/ProfileScreen.jsx:34-36 | `x \|\| ''` on a possibly missing string: the value when present, "" otherwise |
| Entities.TemplateText | app/screens/ReviewScreen.jsx:117-122 | a possibly `null` value inside a template literal: the value when present, "null" otherwise, so it is empty only for a present empty string |
| JsStrings.SkipLeading | app/screens/ReviewScreen.jsx:111 | the scan that skips leading white space stays within the string |
| JsStrings.SkipTrailing | app/screens/ReviewScreen.jsx:111 | the scan that drops trailing white space stays within what is left |
| JsStrings.SkipLeadingSpec | app/screens/ReviewScreen.jsx:111 | everything skipped is white space, and the scan stops at a character that is not |
| JsStrings.SkipTrailingSpec | app/screens/ReviewScreen.jsx:111 | everything dropped is white space, and the scan stops after a character that is not |
| JsStrings.TrimIsSlice | app/screens/ReviewScreen.jsx:124 | `trim` yields a contiguous piece of the input with only white space around it |
| JsStrings.TrimEdges | app/screens/ReviewScreen.jsx:124 | a trimmed string is empty or starts and ends with a non-white-space character |
| JsStrings.TrimEmptyIff | app/screens/ReviewScreen.jsx:111 | `!text.trim()` holds exactly when the text is all white space (both directions) |
| JsStrings.IncludesIff | app/screens/admin/AllBookings.jsx:109-111 | `includes` holds exactly when the substring occurs at some position |
| JsStrings.IncludesAt | app/screens/admin/AllBookings.jsx:109-111 | one occurrence at a known position establishes `includes` |
| JsStrings.NotIncludesWithoutFirst | app/screens/CreateReviewScreen.jsx:176 | a string without the first character of `sub` does not include `sub` |
| JsStrings.LastSlash | app/screens/AddHostel.jsx:279 | the result is the position of the last '/' among the first `n` characters, or -1 when none is there |
| JsStrings.LastSegmentSpec | app/screens/AddHostel.jsx:279 | `split('/').pop()` is a '/'-free suffix of the URI, preceded by '/' when shorter than the URI |
| JsStrings.JoinEmptyIff | app/screens/AddHostel.jsx:227 | with a non-empty separator, a join is "" only for no parts or one empty part |
| JsStrings.DigitChar | app/screens/AddHostel.jsx:284 | a digit below 10 renders as a character '0'..'9' |
| JsStrings.DigitValue | app/screens/AddHostel.jsx:284 | a character '0'..'9' has a value below 10 |
| JsStrings.NatToStringDigits | app/screens/AddHostel.jsx:284 | `${index}` is a non-empty run of digits without a leading zero |
| JsStrings.NatToStringRoundTrip | app/screens/AddHostel.jsx:284 | reading the decimal rendering back gives the number |
| JsStrings.NatToStringInjective | app/screens/AddHostel.jsx:284 | different indices render differently, so part names never collide on the index |
| JsArrays.Filter | src/redux/bookSlice.js:97-99 | `filter` never yields more elements than it was given |
| JsArrays.FilterSpec | src/redux/bookSlice.js:97-99 | every element `filter` keeps passes the test; an element is kept iff it occurs and passes, and each passing element is kept as often as it occurs (multiset) |
| JsArrays.FilterIsSubsequence | src/redux/authSlice.js:223 | what `filter` keeps stays in its original relative order |
| JsArrays.FilterKeepsAll | app/screens/ReviewScreen.jsx:99-103 | filtering with a test every element passes changes nothing |
| ReviewScreen.AllEligibleKept | app/screens/ReviewScreen.jsx:99-103 | when every fetched booking is eligible, the eligibility filter keeps the whole list unchanged |
| JsArrays.ReplaceWhere | src/redux/reviewSlice.js:155-157 | the `map` keeps the length and replaces exactly the matching entries, in place |
| JsArrays.SpliceOne | app/screens/AddHostel.jsx:684-686 | `splice(i, 1)` removes exactly element `i` and shifts the rest down by one |
| Validators.EmailFromParts | app/screens/Login.jsx:26-29 | any three white-space-free, '@'-free non-empty parts around '@' and '.' form an address |
| Validators.EmailShape | app/screens/Registration.jsx:33 | an address has at least five characters, no white space, and exactly one '@', which is not first |
| Validators.EmptyIsNotEmail | app/screens/Login.jsx:27 | the empty string does not match the e-mail pattern |
| Validators.NameExamples | app/screens/Registration.jsx:32 | the name pattern accepts a lone space and rejects "", a digit and a non-ASCII letter |
| AuthSlice.UpdateUserProfileThunk | src/redux/authSlice.js:58-92 | without a token: 'Authentication required' and no request; otherwise a PUT with the token, fulfilled with the reply's user; a failing status rejects with its message ('Update failed' when empty); a transport failure rejects with its own message |
| AuthSlice.AuthState.constructor | src/redux/authSlice.js:136-143 | the initial state: no session, no users, not loading, no error |
| AuthSlice.AuthState.SetCredentials | src/redux/authSlice.js:145-149 | user and token from the payload, role from the user (missing with it); nothing else changes |
| AuthSlice.AuthState.Logout | src/redux/authSlice.js:150-157 | user, token and role become null, loading false, error null; `users` is untouched |
| AuthSlice.AuthState.ClearError | src/redux/authSlice.js:158-160 | only `error` changes, to null |
| AuthSlice.AuthState.Pending | src/redux/authSlice.js:165-213 | every pending case sets loading and clears the error; `deleteUser` has none and changes nothing |
| AuthSlice.AuthState.Rejected | src/redux/authSlice.js:175-221 | every rejected case stops loading and stores the payload; the session is untouched |
| AuthSlice.AuthState.LoginFulfilled | src/redux/authSlice.js:169-174 | token and user from the payload, role from the payload's user, loading false |
| AuthSlice.AuthState.RegisterFulfilled | src/redux/authSlice.js:185-189 | user and role set, loading false, token never set |
| AuthSlice.AuthState.UpdateProfileFulfilled | src/redux/authSlice.js:200-203 | user replaced, loading false; token and role unchanged |
| AuthSlice.AuthState.GetAllUsersFulfilled | src/redux/authSlice.js:214-217 | the user list is replaced wholesale |
| AuthSlice.AuthState.DeleteUserFulfilled | src/redux/authSlice.js:222-224 | exactly the users with the deleted id leave; the rest stay in order; nothing else changes |
| BookSlice.RequestConfig | src/redux/bookSlice.js:6-17 | the bearer header ("Bearer null" without a token), JSON content type, and a body exactly when data is given |
| BookSlice.ApiRequestResult | src/redux/bookSlice.js:19-26 | fulfilled iff the reply is a success, with the parsed body; a failing status rejects with the server message when it is non-empty and with 'Request failed' when it is empty; a transport error rejects with its own message |
| BookSlice.MatchersExclusive | src/redux/bookSlice.js:104-117 | no action type matches both the `/pending` and the `/rejected` matcher |
| BookSlice.LastCharOfSuffix | src/redux/bookSlice.js:105 | a string ending in a suffix ends in that suffix's last character |
| BookSlice.CaseTypesMatchNoMatcher | src/redux/bookSlice.js:83-117 | no type with its own case reducer in this slice matches a generic matcher |
| BookSlice.SlashOfSuffix | src/redux/bookSlice.js:105 | a string ending in a suffix that starts with '/' has that '/' where the suffix begins |
| BookSlice.NoSlashNearEnd | src/redux/bookSlice.js:83-100 | no case type has a '/' eighth or ninth from its end |
| BookSlice.BookState.constructor | src/redux/bookSlice.js:63-69 | the record is `initialState` |
| BookSlice.BookState.ClearBookings | src/redux/bookSlice.js:75 | `clearBookings` yields exactly the initial state |
| BookSlice.BookState.ClearLastBooking | src/redux/bookSlice.js:76-78 | only `lastBooking` changes, to null |
| BookSlice.BookState.FetchUserBookingsFulfilled | src/redux/bookSlice.js:83-86 | the user's list is replaced and the status is 'succeeded'; the owner's list is untouched |
| BookSlice.BookState.FetchHostelOwnerBookingsFulfilled | src/redux/bookSlice.js:87-90 | the owner's list is replaced and the status is 'succeeded'; the user's list is untouched |
| BookSlice.BookState.CreateBookingFulfilled | src/redux/bookSlice.js:91-94 | the new booking is at index 0, all earlier bookings follow in their old order |
| BookSlice.BookState.CancelBookingFulfilled | src/redux/bookSlice.js:95-100 | every booking with the id leaves the user's list, the rest stay in order; the owner's list is untouched |
| BookSlice.BookState.MatchPending | src/redux/bookSlice.js:104-110 | status 'loading' and the error cleared |
| BookSlice.BookState.MatchRejected | src/redux/bookSlice.js:111-117 | status 'failed' and the error is `action.error.message` |
| BookSlice.BookState.Dispatch | src/redux/bookSlice.js:71-119 | the whole reducer: each case's effect with the other fields kept; any foreign `/pending` or `/rejected` action (e.g. 'auth/loginUser/pending') hits the matcher; other foreign actions change nothing; `lastBooking` is never set non-null |
| ReviewSlice.ReviewState.constructor | src/redux/reviewSlice.js:84-90 | the initial state: both lists empty, flags off |
| ReviewSlice.ReviewState.ResetReviewStatus | src/redux/reviewSlice.js:96-100 | the three flags are reset; neither review list changes |
| ReviewSlice.ReviewState.Pending | src/redux/reviewSlice.js:105-109 | loading true and error null for every thunk; only `createReview.pending` clears `success` |
| ReviewSlice.ReviewState.Rejected | src/redux/reviewSlice.js:115-162 | loading false and error the payload; `success` and the lists kept |
| ReviewSlice.ReviewState.CreateReviewFulfilled | src/redux/reviewSlice.js:110-114 | `success` becomes true and the review is prepended to `userReviews` |
| ReviewSlice.ReviewState.FetchHostelReviewsFulfilled | src/redux/reviewSlice.js:125-128 | the hostel's reviews are replaced |
| ReviewSlice.ReviewState.FetchUserReviewsFulfilled | src/redux/reviewSlice.js:139-142 | the user's reviews are replaced |
| ReviewSlice.ReviewState.RespondToReviewFulfilled | src/redux/reviewSlice.js:153-158 | `hostelReviews` keeps its length and order, and only entries with the payload's id are replaced; `userReviews` is untouched |
| AdminSlice.ToResponse | src/redux/adminSlice.js:30-40 | a reply's data (or `[]` when falsy) under the endpoint's key; a failure as an empty list with its message |
| AdminSlice.CombineKeys | src/redux/adminSlice.js:45-48 | the merged record's keys are exactly the keys that occur |
| AdminSlice.CombineLastWins | src/redux/adminSlice.js:45-48 | a key maps to the list of the last response carrying it |
| AdminSlice.CombineDistinct | src/redux/adminSlice.js:45-48 | with distinct keys, every response's list is found under its key |
| AdminSlice.CombineOrderIndependent | src/redux/adminSlice.js:29-48 | with distinct keys, the merged record does not depend on the order of the responses |
| AdminSlice.CountOfResponse | src/redux/adminSlice.js:50-55 | a key's count is its own reply's length, or 0 for a failure or missing data |
| AdminSlice.FetchAdminData | src/redux/adminSlice.js:5-65 | the thunk always fulfils, and each of the four counts is its own endpoint's list length (0 on failure) |
| AdminSlice.AllFailedGivesZero | src/redux/adminSlice.js:29-55 | four failures still fulfil, with all counts 0 |
| AdminSlice.FailureOnlyZeroesItsCount | src/redux/adminSlice.js:35-41 | a failing endpoint zeroes only its own count |
| AdminSlice.AdminState.constructor | src/redux/adminSlice.js:69-78 | zero counts, not loading, no error |
| AdminSlice.AdminState.ResetAdminError | src/redux/adminSlice.js:80-82 | only the error changes |
| AdminSlice.AdminState.FetchPending | src/redux/adminSlice.js:86-89 | loading starts, the error is cleared |
| AdminSlice.AdminState.FetchFulfilled | src/redux/adminSlice.js:90-93 | the counts are replaced, loading stops |
| AdminSlice.AdminState.FetchRejected | src/redux/adminSlice.js:94-97 | loading stops, the error is the payload, the counts are kept |
| LocationParser.CoordinatesLabel | utils/locationParser.js:9 | coordinates print second element first: `Coordinates: c[1], c[0]` |
| LocationParser.FieldsLabel | utils/locationParser.js:8-9 | a non-empty address wins; otherwise coordinates give their label; with neither, no label |
| LocationParser.ParseLocation | utils/locationParser.js:2-21 | falsy input gives 'Location not specified'; unparseable text (or text parsing to null) is returned unchanged; parsed objects and objects use the field rules; the label is never empty |
| LocationParser.TextAndObjectAgree | utils/locationParser.js:5-18 | a JSON string and its object give the same label when an address or coordinates are present |
| LocationParser.AddressTakesPrecedence | utils/locationParser.js:8-16 | a non-empty address is the label on both paths |
| LocationParser.NeitherFieldNotSpecified | utils/locationParser.js:5-20 | a parseable string with neither field gives 'Location not specified', not the string itself |
| AddHostel.HostelsForTab | app/screens/AddHostel.jsx:104-118 | on 'pending', 'approved' or 'rejected', exactly the hostels with that status, in order and with multiplicity; on any other tab, all hostels |
| AddHostel.DecodeMarker | app/screens/AddHostel.jsx:182-186 | a marker exists iff the location has exactly two coordinates; its latitude is c[1] and its longitude c[0] |
| AddHostel.EncodeLocation | app/screens/AddHostel.jsx:263-267 | a GeoJSON Point with [longitude, latitude] (RFC 7946 section 3.1.1); decoding it gives the original marker and address back |
| AddHostel.WordStartSpec | app/screens/AddHostel.jsx:280 | the word-character run found at the end of a name is maximal |
| AddHostel.ExtensionIff | app/screens/AddHostel.jsx:280 | `/\.(\w+)$/` captures `e` exactly when the name ends in '.' followed by the non-empty word `e` |
| AddHostel.MimeTypeOfExtension | app/screens/AddHostel.jsx:281 | such a name is sent as `image/<e>` |
| AddHostel.MimeTypeDefault | app/screens/AddHostel.jsx:281 | any other name is sent as `image/jpeg` |
| AddHostel.AppendedSpec | app/screens/AddHostel.jsx:277-287 | every part comes from a non-empty URI at its own index, and every non-empty URI has its part: skipping does not renumber |
| AddHostel.AppendedWithoutGaps | app/screens/AddHostel.jsx:277-287 | with no empty URI, part `i` is the part of image `i` |
| AddHostel.AppendedStep | app/screens/AddHostel.jsx:277-287 | each visited image appends at most its own part |
| AddHostel.BuildImageParts | app/screens/AddHostel.jsx:277-287 | the `forEach` loop builds exactly the appended parts described above, named `image_<index>_<filename>` |
| AddHostel.PresentParts | app/screens/AddHostel.jsx:220-227 | the result is, in the order road, house number, suburb, city, state, country, each part that is non-empty (a missing part counts as empty) and no other |
| AddHostel.GeocodedAddress | app/screens/AddHostel.jsx:212-235 | the present parts joined with ', ', or 'Location selected' on failure or when none is present; never empty |
| AddHostel.JoinedPartsNonEmpty | app/screens/AddHostel.jsx:227-230 | the join is "" only when no part is present |
| AddHostel.ManageHostels.constructor | app/screens/AddHostel.jsx:15-48 | the screen's initial state |
| AddHostel.ManageHostels.FilterHostels | app/screens/AddHostel.jsx:58-60 | the shown list is the tab filter of the hostel list |
| AddHostel.ManageHostels.PickImages | app/screens/AddHostel.jsx:150-156 | while editing, picked images are appended; otherwise they replace the list |
| AddHostel.ManageHostels.RemoveImage | app/screens/AddHostel.jsx:683-687 | removing preview `i` deletes exactly element `i` |
| AddHostel.ManageHostels.OpenEditModal | app/screens/AddHostel.jsx:172-198 | the selection is made; a hostel without `amenities` throws at the `join` and nothing else changes, so the modal stays closed; otherwise the form is filled from the hostel without a status, the marker and address are set only for exactly two coordinates, the images are the hostel's, and the modal opens |
| AddHostel.ManageHostels.HandleMapPress | app/screens/AddHostel.jsx:206-210 | the marker moves to the pressed point |
| AddHostel.ManageHostels.ReverseGeocodeSettled | app/screens/AddHostel.jsx:230-234 | the address becomes the geocoded text |
| AddHostel.ManageHostels.ResetHostelForm | app/screens/AddHostel.jsx:420-432 | the form, images, marker, address and selection are reset |
| AddHostel.ManageHostels.BuildSubmission | app/screens/AddHostel.jsx:237-288 | guards in order (token, then name and marker, then images of a new hostel), each without a request; PUT for an update with no images, POST for an add with the image parts; the location as a GeoJSON point |
| AddHostel.ManageHostels.AddRoomOutcome | app/screens/AddHostel.jsx:337-357 | a room is sent iff a hostel is selected and all three room fields are non-empty |
| AddHostel.ManageHostels.SaveDisabled | app/screens/AddHostel.jsx:699 | the save button is disabled while a request runs, and enabled iff none runs and a point has been picked on the map |
| AllBookings.RenderAppend | app/screens/admin/AllBookings.jsx:69-72 | rendering one more parameter appends `&k=v` |
| AllBookings.QueryParamsSpec | app/screens/admin/AllBookings.jsx:67-72 | the parameters are page and limit with their values, then `(status, filters.status)`, `(dateFrom, filters.dateFrom)`, `(dateTo, filters.dateTo)` and `(search, searchQuery)` in that order, each present exactly when its value is non-empty |
| AllBookings.UrlStep | app/screens/admin/AllBookings.jsx:69-72 | one `if (v) url += ...` step keeps the URL equal to the rendered parameter list |
| AllBookings.RenderBase | app/screens/admin/AllBookings.jsx:67 | the two leading parameters render as `page=..&limit=..` |
| AllBookings.BuildUrl | app/screens/admin/AllBookings.jsx:67-72 | the successive `url +=` updates give the base URL followed by the rendered query parameters |
| AllBookings.Classify | app/screens/admin/AllBookings.jsx:109-115 | re-login iff the message contains 'Unauthorized', 'token' or 'jwt'; otherwise an alert with the message, or with 'Failed to load bookings' when the message is empty |
| AllBookings.OwnAuthErrorsExpireSession | app/screens/admin/AllBookings.jsx:63-88 | 'Authentication token not found' and 'Unauthorized - Invalid token' both take the re-login path |
| AllBookings.ThrownMessage | app/screens/admin/AllBookings.jsx:86-105 | nothing is thrown iff the status is 2xx (not 401) and `success` holds; a transport error throws its own message, a 401 'Unauthorized - Invalid token', any other failure the body's message or 'Failed to fetch bookings' when that is empty |
| AllBookings.FetchAllBookings | app/screens/admin/AllBookings.jsx:59-120 | no token or a 401 means session expired; a transport error is classified by its message; bookings load iff there is a token, a 2xx status and `success`; any other non-2xx status, or a 2xx body with `success` false, raises the server message or 'Failed to fetch bookings' |
| AllBookings.PaymentLabel | app/screens/admin/AllBookings.jsx:216-219 | 'Paid' iff paymentStatus is 'completed', otherwise 'Pending' |
| AllBookings.Amount | app/screens/admin/AllBookings.jsx:212 | pricePerBed × seatsBooked when the booking has a room; NaN (no amount) otherwise |
| AllBookings.FilterBadge | app/screens/admin/AllBookings.jsx:243 | the badge shows iff some value of the filters is non-empty, and is hidden exactly for the cleared filters |
| AllBookings.BookingsScreen.constructor | app/screens/admin/AllBookings.jsx:21-35 | page 1 of 1, 20 per page, no filters, loading |
| AllBookings.BookingsScreen.OnRefresh | app/screens/admin/AllBookings.jsx:147-150 | refreshing, and back to page 1 |
| AllBookings.BookingsScreen.LoadMore | app/screens/admin/AllBookings.jsx:152-156 | the page grows by exactly 1, only while below totalPages, and never passes it |
| AllBookings.BookingsScreen.ResetFilters | app/screens/admin/AllBookings.jsx:158-167 | all three filters and the search text cleared, page 1, so no filter badge |
| AllBookings.BookingsScreen.FetchSettled | app/screens/admin/AllBookings.jsx:97-119 | a loaded result replaces the bookings and totalPages; both indicators stop either way |
| ReviewScreen.EligibleBookings | app/screens/ReviewScreen.jsx:99-103 | exactly the bookings of this hostel that are paid and confirmed or completed, each kept as often as it was sent (multiset), as an order-preserving subsequence |
| ReviewScreen.IneligibleDropped | app/screens/ReviewScreen.jsx:99-103 | a booking without a hostel, unpaid, or in another status is never kept |
| ReviewScreen.StarsFrom | app/screens/ReviewScreen.jsx:150-153 | one star per value, filled iff the value is at most the rating |
| ReviewScreen.StarsSpec | app/screens/ReviewScreen.jsx:147-160 | exactly 5 stars; star k is filled iff k ≤ rating; the filled ones come first and number the rating clamped to 0..5 |
| ReviewScreen.ReviewScreenState.constructor | app/screens/ReviewScreen.jsx:21-31 | the screen's initial state |
| ReviewScreen.ReviewScreenState.ReviewsFetched | app/screens/ReviewScreen.jsx:59 | the reviews are replaced |
| ReviewScreen.Stored | app/screens/ReviewScreen.jsx:81 | `getItem` yields the stored string, or `null` when nothing is stored, never `undefined` |
| ReviewScreen.IsOwner | app/screens/ReviewScreen.jsx:82 | `===` holds iff the owner is an id equal to the stored id, or the owner is JSON `null` and no id is stored |
| ReviewScreen.NoStoredUserId | app/screens/ReviewScreen.jsx:81-82 | with no stored user id, only a JSON-`null` owner counts as owned, and an owner id never does |
| ReviewScreen.ReviewScreenState.HostelInfoFetched | app/screens/ReviewScreen.jsx:81-82 | isOwner is set to `data.owner === userId` under strict equality |
| ReviewScreen.ReviewScreenState.UserBookingsFetched | app/screens/ReviewScreen.jsx:99-104 | only eligible bookings are kept |
| ReviewScreen.ReviewScreenState.OpenResponse | app/screens/ReviewScreen.jsx:184-191 | the Respond button shows only for the owner on an unanswered review, and opens the modal for it |
| ReviewScreen.ReviewScreenState.EditResponse | app/screens/ReviewScreen.jsx:259-260 | the response text follows the input |
| ReviewScreen.ReviewScreenState.ResponseRequest | app/screens/ReviewScreen.jsx:110-125 | no request for blank or white-space-only text or without a selected review; otherwise a POST whose body is the trimmed text |
| ReviewScreen.ReviewScreenState.SubmitDisabledIffBlank | app/screens/ReviewScreen.jsx:279 | Submit is disabled iff the text is blank; then no request would be sent, and with a review selected an enabled button means one would |
| ReviewScreen.ReviewScreenState.ResponseSettled | app/screens/ReviewScreen.jsx:129-138 | success resets the modal, the text and the selection; failure changes none of them |
| ReviewScreen.ReviewScreenState.CancelResponse | app/screens/ReviewScreen.jsx:267-271 | Cancel resets the same three fields as success, leaving nothing to send |
| CreateReviewScreen.FormError | app/screens/CreateReviewScreen.jsx:66-76 | 'Please select a booking' without a booking, checked first; then 'Please provide a rating' iff the rating is 0 |
| CreateReviewScreen.Slots | app/screens/CreateReviewScreen.jsx:155-214 | an error with 'booking' shows under the list (only when it is non-empty), one with 'rating' under the stars, any other at the bottom |
| CreateReviewScreen.SelectBookingWords | app/screens/CreateReviewScreen.jsx:68-176 | 'Please select a booking' mentions 'booking' and not 'rating' |
| CreateReviewScreen.ProvideRatingWords | app/screens/CreateReviewScreen.jsx:72-184 | 'Please provide a rating' mentions 'rating' and not 'booking' |
| CreateReviewScreen.SelectBookingSlot | app/screens/CreateReviewScreen.jsx:155-178 | that message shows only under the booking list, so nowhere when the list is empty |
| CreateReviewScreen.ProvideRatingSlot | app/screens/CreateReviewScreen.jsx:184-186 | that message shows only under the stars |
| CreateReviewScreen.ErrorAlwaysShownSomewhere | app/screens/CreateReviewScreen.jsx:155-214 | any other non-empty error shows in at least one place |
| CreateReviewScreen.ReviewForm.constructor | app/screens/CreateReviewScreen.jsx:50-55 | no booking, rating 0, empty texts, not submitting, no error |
| CreateReviewScreen.ReviewForm.HandleStarPress | app/screens/CreateReviewScreen.jsx:57-131 | a star press sets the rating to that star's value 1..5, so the rating stays in 0..5 |
| CreateReviewScreen.ReviewForm.HandleBookingSelect | app/screens/CreateReviewScreen.jsx:61-64 | selecting a booking clears the error |
| CreateReviewScreen.ReviewForm.ValidateForm | app/screens/CreateReviewScreen.jsx:66-76 | true iff there is no form error; otherwise the first failing message is set |
| CreateReviewScreen.ReviewForm.SubmitStart | app/screens/CreateReviewScreen.jsx:78-103 | no request when validation fails or the token is missing ('Authentication required'); the body carries the trimmed title and comment and a rating in 1..5 |
| CreateReviewScreen.ReviewForm.SubmitSettled | app/screens/CreateReviewScreen.jsx:107-119 | a failure's message (or 'Failed to submit review') becomes the error; submitting ends either way |
| Registration.RoleValue | app/screens/Registration.jsx:21-96 | the role sent is 'Hostellite' or 'Hosteller' |
| Registration.FillAllRedundant | app/screens/Registration.jsx:37-60 | when the four checks pass, no field is empty, so the fill-all check never changes the result |
| Registration.PhoneCountsOnly | app/screens/Registration.jsx:52-55 | eleven letters pass this phone check, though they are not digits |
| Registration.RegistrationForm.constructor | app/screens/Registration.jsx:21-29 | the role starts as Hostellite; all fields and errors empty |
| Registration.RegistrationForm.SetRole | app/screens/Registration.jsx:93 | the picker sets the role |
| Registration.RegistrationForm.ChangeName | app/screens/Registration.jsx:106-114 | the name error is empty iff the new name passes the name check |
| Registration.RegistrationForm.ChangeEmail | app/screens/Registration.jsx:127-135 | the e-mail error is empty iff the new e-mail passes the e-mail check |
| Registration.RegistrationForm.ChangePassword | app/screens/Registration.jsx:159-166 | the password error is empty iff the new password has at least 8 characters |
| Registration.RegistrationForm.ChangePhone | app/screens/Registration.jsx:148 | the phone field has no live check |
| Registration.RegistrationForm.ValidateInput | app/screens/Registration.jsx:31-63 | true iff all four checks pass; every check runs, so several errors and both alerts can be raised in one call; a passing check clears nothing |
| Registration.RegistrationForm.HandleRegister | app/screens/Registration.jsx:65-69 | dispatched only when valid, carrying the chosen role |
| Login.LoginError | app/screens/Login.jsx:31-42 | an empty e-mail or password gives 'Please fill out all required fields.', before the format check; otherwise a malformed e-mail gives 'Please enter a valid email address.' |
| Login.LoginForm.constructor | app/screens/Login.jsx:22-24 | empty fields, no local error |
| Login.LoginForm.ChangeEmail | app/screens/Login.jsx:22 | the e-mail follows the input |
| Login.LoginForm.ChangePassword | app/screens/Login.jsx:23 | the password follows the input |
| Login.LoginForm.HandleLogin | app/screens/Login.jsx:31-49 | the local error is cleared, then set by the first failing check; login is dispatched iff both checks pass, with the e-mail test shared with registration |
| Login.LoginForm.StoreErrorChanged | app/screens/Login.jsx:77-81 | a non-empty store error is copied into the local error |
| ProfileScreen.ProfileEditor.constructor | app/screens/ProfileScreen.jsx:25-29 | the dialog is closed, fields empty, not loading |
| ProfileScreen.ProfileEditor.OpenEditModal | app/screens/ProfileScreen.jsx:32-39 | nothing happens without a user; otherwise name, e-mail and phone are copied ('' when missing) and the dialog opens |
| ProfileScreen.ProfileEditor.ChangePhone | app/screens/ProfileScreen.jsx:28 | the phone follows the input |
| ProfileScreen.ProfileEditor.UpdateStart | app/screens/ProfileScreen.jsx:42-53 | an empty phone or exactly 11 digits is accepted; otherwise nothing is dispatched; an accepted update starts loading |
| ProfileScreen.ProfileEditor.UpdateSettled | app/screens/ProfileScreen.jsx:53-61 | the dialog closes only after success and stays open on failure; loading ends either way |
| Entities.RoleOr | app/navigation/AppNavigator.jsx:44 | `role \|\| fallback`: a present, non-empty role is kept, anything else becomes the fallback; never empty |
| AppNavigator.DrawerRole | app/navigation/AppNavigator.jsx:44 | the drawer sees 'Hostellite' exactly when that role is stored or the role is missing or empty |
| AppNavigator.Kind | app/navigation/AppNavigator.jsx:83-110 | the role tests `role === 'Hosteller'`, `'Hostellite'` and `'Admin'`, each iff |
| AppNavigator.DrawerByKind | app/navigation/AppNavigator.jsx:75-122 | the exact entry list for each kind of role |
| AppNavigator.DrawerVisibility | app/navigation/AppNavigator.jsx:44-122 | Home and Profile first and Logout last for every role; Add Hostel iff Hosteller; Search Hostels and Your Bookings iff Hostellite; both admin entries iff Admin; a missing role sees the Hostellite drawer |
| AppNavigator.DrawerEntriesWellFormed | app/navigation/AppNavigator.jsx:75-169 | no entry appears twice, and every navigating entry targets a registered drawer screen |
| AppNavigator.StackScreens | app/navigation/AppNavigator.jsx:179-261 | Login is registered iff there is no token, AppDrawer iff there is one |
| AppNavigator.ScreenSetsNeverMix | app/navigation/AppNavigator.jsx:179-261 | every registered screen is a sign-in screen exactly when there is no token, and an app screen exactly when there is one |
| AppNavigator.DrawerState.constructor | app/navigation/AppNavigator.jsx:46 | not logging out |
| AppNavigator.DrawerState.LogoutStart | app/navigation/AppNavigator.jsx:48-115 | pressing the enabled button sets isLoggingOut, which disables it |
| AppNavigator.DrawerState.LogoutSettled | app/navigation/AppNavigator.jsx:50-64 | logged out iff the token was removed; isLoggingOut false afterwards, whatever the outcome |
| HomePage.HomeRole | app/screens/HomePage.jsx:9 | the home screen sees 'Hostellite' only when that role is stored: a missing or empty role becomes 'User' |
| HomePage.RoleEffect | app/screens/HomePage.jsx:18-26 | Hostellite fetches user bookings, Hosteller fetches owner bookings, Admin navigates to AdminDashboard, any other role does nothing (each iff) |
| HomePage.PrimaryAction | app/screens/HomePage.jsx:28-39 | AddHostel iff Hosteller, SearchHostel iff Hostellite, otherwise the 'Invalid role' alert |
| HomePage.BookingsToShow | app/screens/HomePage.jsx:53 | userBookings for a Hostellite, hostelOwnerBookings for every other role |
| HomePage.ButtonLabel | app/screens/HomePage.jsx:106-108 | an 'Add…' label iff the role is Hosteller, a 'Find…' label otherwise, the 'Another' form iff there are bookings |
| HomePage.Render | app/screens/HomePage.jsx:41-108 | Admin renders nothing; otherwise loading renders the loading view; otherwise a welcome heading for the role, the list BookingsToShow picks, the label ButtonLabel gives for it, and the PrimaryAction press |
| HomePage.ShownListIsFetchedList | app/screens/HomePage.jsx:18-54 | the list shown is the one the entry effect fetched: userBookings for Hostellite, hostelOwnerBookings for Hosteller |
| HomePage.LabelMatchesAction | app/screens/HomePage.jsx:28-108 | an 'Add…' label iff the button goes to AddHostel; 'Find…' labels otherwise; the 'Another' wording iff there are bookings |
| HomePage.MissingRoleDefaultsDiffer | app/screens/HomePage.jsx:9-39 | with no role, the drawer offers Search Hostels, while the home screen fetches nothing and its button only raises the alert |

## Left out

- Network and storage I/O are not modelled: `fetch`, `axios`, `AsyncStorage`, the Nominatim request, the image picker and its permission flow, and navigation calls. Each result enters as a parameter: a payload, a reply record, or a flag such as the token having been removed.
- The Redux Toolkit and Immer machinery (`createAsyncThunk`, `createSlice`, draft proxies) is not modelled. Each reducer case is a method that assigns its fields directly.
- `JSON.parse` and the regular-expression engine are not modelled. Parsing is a function parameter, and each fixed pattern is a hand-written predicate.
- Floating point, locale formatting and map regions are left out: `toLocaleString`, `toLocaleDateString`, `setMapRegion`. Coordinates are opaque text and prices are integers.
- AllBookings.Amount: the NaN of a room-less booking is modelled as a missing amount, not as a value that is printed.
- Strings are sequences of Unicode scalar values. `length` and `maxLength` in the source count UTF-16 code units, so for text outside the Basic Multilingual Plane the password-length and phone-length checks may count differently.
- The `maxLength` limits on text inputs (phone 11, response 500, title 100, comment 500) are UI limits and are not modelled.
- Query values are concatenated verbatim, and so is the source's URL: neither percent-encodes.
- The AllBookings Apply button calls `applyFilters`, which is not defined anywhere, so there is nothing to model.
- `reviewSlice` is not registered in the store, so it is modelled standalone.
- `adminSlice` sends `auth.userToken`, which the auth slice never defines. The header does not affect the counts.
- The outer `catch` of `fetchAdminData` cannot be reached: every endpoint failure is caught per endpoint. So `FetchAdminData` always fulfils.
- These handlers are not modelled, because each is a network call with at most a success alert: `fetchRooms`, `handleDeleteRoom`, `handleDeleteHostel` and `loadData` in the hostel owner's screen.
- The `loading` flag that `handleAddOrUpdateHostel` and `handleAddRoom` raise during their requests is a field of `ManageHostels`, but no method toggles it. It only disables buttons while a request runs; `SaveDisabled` states the save button's rule in terms of it.
- The reservation and payment screens (`ReservationScreen`, `StripePayment`, `MyBookingScreen`) are not part of this model. The navigator only registers them as routes; their booking and payment behaviour is outside the core modelled here.
- These screens are not modelled, because they are markup or displays over fetched data: LandingPage, SettingScreen, HostelDetails, the admin Dashboard, AllHostel and AllUsers, and UserReviewsScreen. The approval screens (Adminstatus and PendingApproval) are not modelled either: each is a network call around a single trimmed-reason guard. JSX layout and styles are left out everywhere.
- The home screen's booking cards (hostel name, room number, dates) are display only and are not modelled.
- Login.LoginForm.HandleLogin: what happens after the dispatch is left out. `unwrap` errors are only logged, and the store error reaches the form through `StoreErrorChanged`.
- AppNavigator.DrawerState.LogoutSettled: the alert text and the navigation reset are not modelled, only the outcome.
