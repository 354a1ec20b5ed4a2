/**
 * The navigator: the drawer entries each role sees, the token gate that
 * decides which stack screens exist, and the drawer's logout flag.
 */
module AppNavigator {
  import opened Wrappers
  import opened Entities

  /** The stored role as the drawer reads it: a missing or empty role counts
      as 'Hostellite'. */
  function DrawerRole(role: Option<string>): (r: string)
    ensures r == "Hostellite" <==> !Truthy(role) || role == Some("Hostellite")
  {
    RoleOr(role, "Hostellite")
  }

  /** The drawer's buttons, in the order they are drawn. */
  datatype Entry = Home | Profile | AddHostel | SearchHostels | AdminDashboard | PendingApprovals | YourBookings | Logout

  /** The drawer screen each button navigates to; Logout navigates nowhere
      itself (it runs the logout handler). */
  function Route(e: Entry): Option<string> {
    match e
    case Home => Some("Home")
    case Profile => Some("Profile")
    case AddHostel => Some("AddHostel")
    case SearchHostels => Some("SearchHostel")
    case AdminDashboard => Some("AdminDashboard")
    case PendingApprovals => Some("PendingApproval")
    case YourBookings => Some("MyBookings")
    case Logout => None
  }

  /** The screens registered in the drawer navigator. */
  const DRAWER_SCREENS := ["Home", "Profile", "Settings", "AddHostel", "SearchHostel",
                           "AdminDashboard", "PendingApproval", "MyBookings"]

  /** The roles the drawer tells apart. */
  datatype RoleKind = HostellerRole | HostelliteRole | AdminRole | OtherRole

  function Kind(r: string): (k: RoleKind)
    ensures k == HostellerRole <==> r == "Hosteller"
    ensures k == HostelliteRole <==> r == "Hostellite"
    ensures k == AdminRole <==> r == "Admin"
  {
    if r == "Hosteller" then HostellerRole
    else if r == "Hostellite" then HostelliteRole
    else if r == "Admin" then AdminRole
    else OtherRole
  }

  /** `CustomDrawerContent`'s buttons for a role, each conditional block in
      the order it is drawn. */
  function DrawerEntries(role: Option<string>): seq<Entry> {
    var k := Kind(DrawerRole(role));
    [Home, Profile]
      + (if k == HostellerRole then [AddHostel] else [])
      + (if k == HostelliteRole then [SearchHostels] else [])
      + (if k == AdminRole then [AdminDashboard, PendingApprovals] else [])
      + (if k == HostelliteRole then [YourBookings] else [])
      + [Logout]
  }

  /** What each kind of user sees, written out. */
  lemma DrawerByKind(role: Option<string>)
    ensures Kind(DrawerRole(role)) == HostellerRole ==> DrawerEntries(role) == [Home, Profile, AddHostel, Logout]
    ensures Kind(DrawerRole(role)) == HostelliteRole ==>
      DrawerEntries(role) == [Home, Profile, SearchHostels, YourBookings, Logout]
    ensures Kind(DrawerRole(role)) == AdminRole ==>
      DrawerEntries(role) == [Home, Profile, AdminDashboard, PendingApprovals, Logout]
    ensures Kind(DrawerRole(role)) == OtherRole ==> DrawerEntries(role) == [Home, Profile, Logout]
  {
  }

  /** Home and Profile come first and Logout last for everyone; Add Hostel
      appears exactly for a Hosteller, Search Hostels and Your Bookings
      exactly for a Hostellite (which a missing role counts as), the two
      admin entries exactly for an Admin. */
  lemma DrawerVisibility(role: Option<string>)
    ensures var es := DrawerEntries(role);
      |es| >= 3 && es[0] == Home && es[1] == Profile && es[|es| - 1] == Logout
    ensures AddHostel in DrawerEntries(role) <==> DrawerRole(role) == "Hosteller"
    ensures SearchHostels in DrawerEntries(role) <==> DrawerRole(role) == "Hostellite"
    ensures YourBookings in DrawerEntries(role) <==> DrawerRole(role) == "Hostellite"
    ensures AdminDashboard in DrawerEntries(role) <==> DrawerRole(role) == "Admin"
    ensures PendingApprovals in DrawerEntries(role) <==> DrawerRole(role) == "Admin"
    ensures !Truthy(role) ==> DrawerEntries(role) == [Home, Profile, SearchHostels, YourBookings, Logout]
  {
    DrawerByKind(role);
  }

  /** No button is drawn twice, and every button that navigates goes to a
      screen the drawer registers. */
  lemma DrawerEntriesWellFormed(role: Option<string>)
    ensures forall i, j :: 0 <= i < j < |DrawerEntries(role)| ==> DrawerEntries(role)[i] != DrawerEntries(role)[j]
    ensures forall e :: e in DrawerEntries(role) && Route(e).Some? ==> Route(e).value in DRAWER_SCREENS
  {
    DrawerByKind(role);
  }

  /** The stack screens registered without a token, and with one. */
  const AUTH_SCREENS := ["LandingPage", "Registration", "Login"]
  const APP_SCREENS := ["AppDrawer", "HostelDetail", "Reservation", "MyBookings", "AllHostels",
                        "AllUsers", "AllBookings", "Review", "CreateReview"]

  /** `AppNavigator`'s gate: a falsy token registers only the sign-in
      screens, a truthy one only the app's screens. */
  function StackScreens(token: Option<string>): (names: seq<string>)
    ensures "Login" in names <==> !Truthy(token)
    ensures "AppDrawer" in names <==> Truthy(token)
  {
    if !Truthy(token) then AUTH_SCREENS else APP_SCREENS
  }

  /** The two screen sets never mix: whatever the token, a registered screen
      is a sign-in screen exactly when there is no token. */
  lemma ScreenSetsNeverMix(token: Option<string>)
    ensures forall n :: n in StackScreens(token) ==> (n in AUTH_SCREENS <==> !Truthy(token))
    ensures forall n :: n in StackScreens(token) ==> (n in APP_SCREENS <==> Truthy(token))
  {
    forall n | n in AUTH_SCREENS
      ensures n !in APP_SCREENS
    {
    }
  }

  /** How the logout handler ended: when the stored token was removed, the
      `logout` action was dispatched and the stack reset to Login;
      otherwise an error alert. */
  datatype LogoutOutcome = LoggedOut | LogoutFailed

  /** The drawer's own state. */
  class DrawerState {
    var isLoggingOut: bool

    constructor ()
      ensures !isLoggingOut
    {
      isLoggingOut := false;
    }

    /** The Logout button is disabled while a logout runs. */
    predicate LogoutEnabled()
      reads this
    {
      !isLoggingOut
    }

    /** Pressing Logout (possible only while it is enabled) raises the flag
        before the storage call. */
    method LogoutStart()
      requires LogoutEnabled()
      modifies this`isLoggingOut
      ensures isLoggingOut && !LogoutEnabled()
    {
      isLoggingOut := true;
    }

    /** The storage call settled: the outcome follows it, and the `finally`
        lowers the flag whatever happened. */
    method LogoutSettled(tokenRemoved: bool) returns (outcome: LogoutOutcome)
      modifies this`isLoggingOut
      ensures outcome == LoggedOut <==> tokenRemoved
      ensures !isLoggingOut && LogoutEnabled()
    {
      outcome := if tokenRemoved then LoggedOut else LogoutFailed;
      isLoggingOut := false;
    }
  }
}
