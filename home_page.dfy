/**
 * The home screen: what it does on entry for each role, where its main
 * button leads, which booking list it shows and the label on that button.
 */
module HomePage {
  import opened Wrappers
  import opened Entities
  import AppNavigator
  import BookSlice

  /** The stored role as the home screen reads it: a missing or empty role
      counts as 'User', so it is
      'Hostellite' only when that role is stored. */
  function HomeRole(role: Option<string>): (r: string)
    ensures r == "Hostellite" <==> role == Some("Hostellite")
  {
    RoleOr(role, "User")
  }

  /** The entry effect: a thunk dispatched, a navigation, or nothing. */
  datatype EntryEffect = FetchUserBookings | FetchHostelOwnerBookings | NavigateTo(route: string) | NoEffect

  function RoleEffect(role: string): (e: EntryEffect)
    ensures e == FetchUserBookings <==> role == "Hostellite"
    ensures e == FetchHostelOwnerBookings <==> role == "Hosteller"
    ensures e.NavigateTo? <==> role == "Admin"
    ensures e.NavigateTo? ==> e.route == "AdminDashboard"
  {
    if role == "Hostellite" then FetchUserBookings
    else if role == "Hosteller" then FetchHostelOwnerBookings
    else if role == "Admin" then NavigateTo("AdminDashboard")
    else NoEffect
  }

  /** `navigateBasedOnRole`: a navigation, or the 'Invalid role' alert. */
  datatype ButtonAction = Navigate(route: string) | InvalidRoleAlert

  function PrimaryAction(role: string): (a: ButtonAction)
    ensures a == Navigate("AddHostel") <==> role == "Hosteller"
    ensures a == Navigate("SearchHostel") <==> role == "Hostellite"
    ensures a == InvalidRoleAlert <==> role != "Hosteller" && role != "Hostellite"
  {
    if role == "Hosteller" then Navigate("AddHostel")
    else if role == "Hostellite" then Navigate("SearchHostel")
    else InvalidRoleAlert
  }

  /** The list shown: the user's own bookings for a Hostellite, the owner's
      bookings for every other role. */
  function BookingsToShow(role: string, userBookings: seq<Booking>, hostelOwnerBookings: seq<Booking>)
    : (shown: seq<Booking>)
    ensures role == "Hostellite" ==> shown == userBookings
    ensures role != "Hostellite" ==> shown == hostelOwnerBookings
  {
    if role == "Hostellite" then userBookings else hostelOwnerBookings
  }

  /** The main button's text: an 'Add…' label exactly for a Hosteller, a
      'Find…' label for every other role, and the 'Another' form exactly
      when there are bookings. */
  function ButtonLabel(role: string, hasBookings: bool): (text: string)
    ensures text in {"Add Hostel", "Add Another Hostel"} <==> role == "Hosteller"
    ensures text in {"Find Hostel", "Find Another Hostel"} <==> role != "Hosteller"
    ensures text in {"Add Another Hostel", "Find Another Hostel"} <==> hasBookings
  {
    if role == "Hosteller" then (if hasBookings then "Add Another Hostel" else "Add Hostel")
    else (if hasBookings then "Find Another Hostel" else "Find Hostel")
  }

  /** What the screen draws. */
  datatype HomeView =
    | Nothing
    | LoadingView
    | Content(heading: string, bookings: seq<Booking>, buttonLabel: string, onPress: ButtonAction)

  function Render(role: Option<string>, status: BookSlice.Status, userBookings: seq<Booking>, hostelOwnerBookings: seq<Booking>)
    : (v: HomeView)
    ensures v.Nothing? <==> HomeRole(role) == "Admin"
    ensures v.LoadingView? <==> HomeRole(role) != "Admin" && status == BookSlice.Loading
    ensures v.Content? ==> v.heading == "Welcome, " + HomeRole(role) + "!"
    ensures v.Content? ==> v.bookings == BookingsToShow(HomeRole(role), userBookings, hostelOwnerBookings)
    ensures v.Content? ==> v.buttonLabel == ButtonLabel(HomeRole(role), |v.bookings| > 0)
    ensures v.Content? ==> v.onPress == PrimaryAction(HomeRole(role))
  {
    var r := HomeRole(role);
    if r == "Admin" then Nothing
    else if status == BookSlice.Loading then LoadingView
    else
      var shown := BookingsToShow(r, userBookings, hostelOwnerBookings);
      Content("Welcome, " + r + "!", shown, ButtonLabel(r, |shown| > 0), PrimaryAction(r))
  }

  /** The list drawn is the list the entry effect fetched: the user's own
      bookings after `fetchUserBookings`, the owner's after
      `fetchHostelOwnerBookings`. */
  lemma ShownListIsFetchedList(role: string, userBookings: seq<Booking>, hostelOwnerBookings: seq<Booking>)
    ensures RoleEffect(role) == FetchUserBookings ==>
      BookingsToShow(role, userBookings, hostelOwnerBookings) == userBookings
    ensures RoleEffect(role) == FetchHostelOwnerBookings ==>
      BookingsToShow(role, userBookings, hostelOwnerBookings) == hostelOwnerBookings
  {
  }

  /** The label names the place the button leads to: 'Add…' labels go to
      AddHostel, and for a Hostellite the 'Find…' labels go to SearchHostel.
      Any other role sees a 'Find…' label on a button that only raises the
      'Invalid role' alert. */
  lemma LabelMatchesAction(role: string, hasBookings: bool)
    ensures (ButtonLabel(role, hasBookings) in {"Add Hostel", "Add Another Hostel"}) <==>
      PrimaryAction(role) == Navigate("AddHostel")
    ensures role == "Hostellite" ==> (PrimaryAction(role) == Navigate("SearchHostel")
      && ButtonLabel(role, hasBookings) in {"Find Hostel", "Find Another Hostel"})
    ensures role != "Hosteller" && role != "Hostellite" ==> (PrimaryAction(role) == InvalidRoleAlert
      && ButtonLabel(role, hasBookings) in {"Find Hostel", "Find Another Hostel"})
    ensures (ButtonLabel(role, hasBookings) in {"Add Another Hostel", "Find Another Hostel"}) <==> hasBookings
  {
  }

  /** A signed-in user without a role is a Hostellite to the drawer but a
      'User' to the home screen: the drawer offers Search Hostels, while the
      home screen fetches nothing and its button only raises the alert. */
  lemma MissingRoleDefaultsDiffer(role: Option<string>)
    requires !Truthy(role)
    ensures AppNavigator.SearchHostels in AppNavigator.DrawerEntries(role)
    ensures RoleEffect(HomeRole(role)) == NoEffect
    ensures PrimaryAction(HomeRole(role)) == InvalidRoleAlert
  {
    AppNavigator.DrawerVisibility(role);
  }
}
