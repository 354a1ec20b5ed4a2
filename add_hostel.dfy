/**
 * The hostel owner's "Manage Hostels" screen: the status tabs over the
 * owner's hostels, the add/edit form with its map marker and image list,
 * the multipart upload it submits, and the room form's guard.
 */
module AddHostel {
  import opened Wrappers
  import opened Entities
  import JsStrings
  import JsArrays

  const AUTH_REQUIRED := "Authentication required"
  const FILL_REQUIRED := "Please fill all required fields and select a location on the map"
  const IMAGE_REQUIRED := "At least one image is required"
  const ROOM_DETAILS_REQUIRED := "Please fill all room details"
  const LOCATION_SELECTED := "Location selected"

  /** A hostel as the owner's list delivers it. `images` and `amenities`
      are `None` when the field is missing; `availability` is the text
      `String(availability)`. */
  datatype Hostel = Hostel(
    id: string,
    name: string,
    status: string,
    location: Option<LocationFields>,
    images: Option<seq<string>>,
    amenities: Option<seq<string>>,
    availability: string)

  // ---------------------------------------------------------------- status tabs

  /** The tabs that filter by status; any other tab ("all") shows everything. */
  const STATUS_TABS: set<string> := {"pending", "approved", "rejected"}

  /** `filterHostels`: on a status tab exactly the hostels with that status,
      each as often as in the list and in the list's order; on any other tab
      the whole list. */
  function HostelsForTab(tab: string, hostels: seq<Hostel>): (shown: seq<Hostel>)
    ensures tab in STATUS_TABS ==> forall h :: h in shown <==> h in hostels && h.status == tab
    ensures tab in STATUS_TABS ==> forall h :: multiset(shown)[h] == if h.status == tab then multiset(hostels)[h] else 0
    ensures tab in STATUS_TABS ==> JsArrays.IsSubsequence(shown, hostels)
    ensures tab !in STATUS_TABS ==> shown == hostels
  {
    if tab in STATUS_TABS then
      var hasTab := (h: Hostel) => h.status == tab;
      JsArrays.FilterIsSubsequence(hasTab, hostels);
      JsArrays.FilterSpec(hasTab, hostels);
      JsArrays.Filter(hasTab, hostels)
    else hostels
  }

  // ----------------------------------------------------- location encode/decode

  /** The map marker. */
  datatype Marker = Marker(latitude: Coordinate, longitude: Coordinate)

  /** The `location` sent with the form: a GeoJSON Point, whose position lists
      longitude before latitude (section 3.1.1 of RFC 7946), plus the address. */
  datatype GeoPoint = GeoPoint(kind: string, coordinates: seq<Coordinate>, address: string)

  /** How the backend hands a stored point back: as location fields. */
  function Stored(p: GeoPoint): LocationFields {
    LocationFields(p.address, Some(p.coordinates))
  }

  /** `openEditModal`'s marker: only a location with exactly two coordinates
      places one, at latitude `c[1]` and longitude `c[0]`. */
  function DecodeMarker(location: Option<LocationFields>): (m: Option<Marker>)
    ensures m.Some? <==> location.Some? && location.value.coordinates.Some? && |location.value.coordinates.value| == 2
    ensures m.Some? ==> (m.value.latitude == location.value.coordinates.value[1]
                     && m.value.longitude == location.value.coordinates.value[0])
  {
    if location.Some? && location.value.coordinates.Some? && |location.value.coordinates.value| == 2 then
      var c := location.value.coordinates.value;
      Some(Marker(c[1], c[0]))
    else None
  }

  /** The location part of the upload. Read back by the edit form, it gives
      the same marker and the same address: encoding loses nothing. */
  function EncodeLocation(m: Marker, address: string): (p: GeoPoint)
    ensures p.kind == "Point" && |p.coordinates| == 2 && p.address == address
    ensures DecodeMarker(Some(Stored(p))) == Some(m)
    ensures Stored(p).address == address
  {
    GeoPoint("Point", [m.longitude, m.latitude], address)
  }

  // --------------------------------------------------------- image upload parts

  /** `\w`: an ASCII letter, digit or underscore. */
  predicate IsWordChar(c: char) {
    ('a' <= c <= 'z') || ('A' <= c <= 'Z') || ('0' <= c <= '9') || c == '_'
  }

  predicate AllWord(s: string) {
    forall i :: 0 <= i < |s| ==> IsWordChar(s[i])
  }

  /** Where the run of word characters that ends at position `n` of `s`
      begins. */
  function WordStart(s: string, n: nat): nat
    requires n <= |s|
  {
    if n > 0 && IsWordChar(s[n - 1]) then WordStart(s, n - 1) else n
  }

  /** The run is maximal: all word characters, with none just before it. */
  lemma {:induction false} WordStartSpec(s: string, n: nat)
    requires n <= |s|
    ensures var k := WordStart(s, n);
      && k <= n
      && (forall i :: k <= i < n ==> IsWordChar(s[i]))
      && (k > 0 ==> !IsWordChar(s[k - 1]))
  {
    if n > 0 && IsWordChar(s[n - 1]) {
      WordStartSpec(s, n - 1);
    }
  }

  /** The capture of `/\.(\w+)$/.exec(filename)`: the word characters that
      end the name, when there is at least one and a '.' precedes them. */
  function Extension(filename: string): Option<string> {
    var k := WordStart(filename, |filename|);
    if k < |filename| && k > 0 && filename[k - 1] == '.' then Some(filename[k..]) else None
  }

  /** The regular expression matches with capture `e` exactly when the name
      ends in '.' followed by the non-empty word `e`. */
  lemma ExtensionIff(filename: string, e: string)
    ensures Extension(filename) == Some(e) <==> e != "" && AllWord(e) && JsStrings.EndsWith(filename, "." + e)
  {
    var n := |filename|;
    var k := WordStart(filename, n);
    WordStartSpec(filename, n);
    if Extension(filename) == Some(e) {
      assert filename[k - 1..] == "." + e;
    }
    if e != "" && AllWord(e) && JsStrings.EndsWith(filename, "." + e) {
      var m := n - |e|;
      assert filename[m..] == e;
      assert filename[m - 1] == '.';
      forall i | m <= i < n
        ensures IsWordChar(filename[i])
      {
        assert filename[i] == e[i - m];
      }
      assert k == m;
    }
  }

  /** The MIME type sent for an image. */
  function MimeType(filename: string): string {
    match Extension(filename)
    case Some(ext) => "image/" + ext
    case None => "image/jpeg"
  }

  /** A name ending in '.' and a word is sent as `image/<that word>`. */
  lemma MimeTypeOfExtension(filename: string, e: string)
    requires e != "" && AllWord(e) && JsStrings.EndsWith(filename, "." + e)
    ensures MimeType(filename) == "image/" + e
  {
    ExtensionIff(filename, e);
  }

  /** Any other name is sent as `image/jpeg`. */
  lemma MimeTypeDefault(filename: string)
    requires forall e :: e != "" && AllWord(e) ==> !JsStrings.EndsWith(filename, "." + e)
    ensures MimeType(filename) == "image/jpeg"
  {
    if Extension(filename).Some? {
      ExtensionIff(filename, Extension(filename).value);
    }
  }

  /** One `images` entry of the upload. */
  datatype ImagePart = ImagePart(uri: string, name: string, mimeType: string)

  /** The part for the image at `index` of the list: named
      `image_<index>_<filename>`, where the file name is the URI's last path
      segment. */
  function PartFor(uri: string, index: nat): ImagePart {
    var filename := JsStrings.LastSegment(uri);
    ImagePart(uri, "image_" + JsStrings.NatToString(index) + "_" + filename, MimeType(filename))
  }

  /** What the `forEach` over the image list has appended after visiting the
      first `n` images, when the callback turns the image at index `i` into
      `part(uri, i)`: empty URIs are skipped, the others keep their own index. */
  function Appended<T>(images: seq<string>, n: nat, part: (string, nat) -> T): seq<T>
    requires n <= |images|
  {
    if n == 0 then []
    else Appended(images, n - 1, part) + (if images[n - 1] == "" then [] else [part(images[n - 1], n - 1)])
  }

  /** Every appended part comes from a non-empty image at its own index, and
      every non-empty image has its part: skipping an empty URI does not
      renumber the images after it. */
  lemma {:induction false} AppendedSpec<T>(images: seq<string>, n: nat, part: (string, nat) -> T)
    requires n <= |images|
    ensures forall j :: 0 <= j < |Appended(images, n, part)| ==>
      exists i :: 0 <= i < n && images[i] != "" && Appended(images, n, part)[j] == part(images[i], i)
    ensures forall i :: 0 <= i < n && images[i] != "" ==> part(images[i], i) in Appended(images, n, part)
  {
    if n > 0 {
      AppendedSpec(images, n - 1, part);
      var prev := Appended(images, n - 1, part);
      var parts := Appended(images, n, part);
      forall j | 0 <= j < |parts|
        ensures exists i :: 0 <= i < n && images[i] != "" && parts[j] == part(images[i], i)
      {
        if j < |prev| {
          var i :| 0 <= i < n - 1 && images[i] != "" && prev[j] == part(images[i], i);
          assert parts[j] == part(images[i], i);
        } else {
          assert parts[j] == part(images[n - 1], n - 1);
        }
      }
      forall i | 0 <= i < n && images[i] != ""
        ensures part(images[i], i) in parts
      {
        if i < n - 1 {
          assert part(images[i], i) in prev;
        } else {
          assert parts[|parts| - 1] == part(images[i], i);
        }
      }
    } else {
      assert Appended(images, n, part) == [];
    }
  }

  /** With no empty URI, part `i` is the part of image `i`. */
  lemma {:induction false} AppendedWithoutGaps<T>(images: seq<string>, n: nat, part: (string, nat) -> T)
    requires n <= |images|
    requires forall i :: 0 <= i < n ==> images[i] != ""
    ensures |Appended(images, n, part)| == n
    ensures forall i :: 0 <= i < n ==> Appended(images, n, part)[i] == part(images[i], i)
  {
    if n > 0 {
      AppendedWithoutGaps(images, n - 1, part);
      var prev := Appended(images, n - 1, part);
      var parts := Appended(images, n, part);
      forall i | 0 <= i < n
        ensures parts[i] == part(images[i], i)
      {
        if i < n - 1 {
          assert parts[i] == prev[i];
        }
      }
    } else {
      assert Appended(images, n, part) == [];
    }
  }

  /** One more visited image appends at most its own part. */
  lemma AppendedStep<T>(images: seq<string>, n: nat, part: (string, nat) -> T)
    requires n < |images|
    ensures images[n] == "" ==> Appended(images, n + 1, part) == Appended(images, n, part)
    ensures images[n] != "" ==> Appended(images, n + 1, part) == Appended(images, n, part) + [part(images[n], n)]
  {
  }

  /** The upload's image parts: the `forEach` over the image list that
      appends one part per non-empty URI. */
  method BuildImageParts(images: seq<string>) returns (parts: seq<ImagePart>)
    ensures parts == Appended(images, |images|, PartFor)
  {
    parts := [];
    var i := 0;
    while i < |images|
      invariant 0 <= i <= |images|
      invariant parts == Appended(images, i, PartFor)
    {
      AppendedStep(images, i, PartFor);
      if images[i] != "" {
        var part := PartFor(images[i], i);
        parts := parts + [part];
      }
      assert parts == Appended(images, i + 1, PartFor);
      i := i + 1;
    }
  }

  // ------------------------------------------------------------ reverse geocode

  /** The `address` object of a reverse-geocoding reply; missing parts are `None`. */
  datatype AddressParts = AddressParts(
    road: Option<string>, houseNumber: Option<string>, suburb: Option<string>,
    city: Option<string>, state: Option<string>, country: Option<string>)

  /** The reverse-geocoding request failed, or it brought data, with or
      without an `address`. */
  datatype GeocodeReply = GeocodeFailed | GeocodeData(address: Option<AddressParts>)

  /** `Boolean` as a filter test on text: non-empty. */
  predicate IsPresent(s: string) {
    s != ""
  }

  /** A part as `filter(Boolean)` keeps it: alone when non-empty, not at all
      otherwise. */
  function Kept(s: string): seq<string> {
    JsArrays.Kept(IsPresent, s)
  }

  /** `[road, house_number, suburb, city, state, country].filter(Boolean)`:
      every non-empty part, in that order. */
  function PresentParts(a: AddressParts): (parts: seq<string>)
    ensures parts == Kept(OrEmpty(a.road)) + (Kept(OrEmpty(a.houseNumber)) + (Kept(OrEmpty(a.suburb))
      + (Kept(OrEmpty(a.city)) + (Kept(OrEmpty(a.state)) + Kept(OrEmpty(a.country))))))
    ensures forall i :: 0 <= i < |parts| ==> parts[i] != ""
  {
    JsArrays.FilterSpec(IsPresent, [OrEmpty(a.road), OrEmpty(a.houseNumber), OrEmpty(a.suburb), OrEmpty(a.city),
      OrEmpty(a.state), OrEmpty(a.country)]);
    JsArrays.FilterSix(IsPresent, OrEmpty(a.road), OrEmpty(a.houseNumber), OrEmpty(a.suburb), OrEmpty(a.city), OrEmpty(a.state),
      OrEmpty(a.country));
    JsArrays.Filter(IsPresent, [OrEmpty(a.road), OrEmpty(a.houseNumber), OrEmpty(a.suburb), OrEmpty(a.city),
      OrEmpty(a.state), OrEmpty(a.country)])
  }

  /** The address shown for a map press: the present parts joined with ", ",
      in the order road, house number, suburb, city, state, country; or
      "Location selected" when the request failed or no part is present. */
  function GeocodedAddress(reply: GeocodeReply): (text: string)
    ensures text != ""
    ensures reply.GeocodeData? && reply.address.Some? && PresentParts(reply.address.value) != [] ==>
      text == JsStrings.Join(PresentParts(reply.address.value), ", ")
    ensures !(reply.GeocodeData? && reply.address.Some? && PresentParts(reply.address.value) != []) ==>
      text == LOCATION_SELECTED
  {
    var joined :=
      if reply.GeocodeData? && reply.address.Some? then
        JoinedPartsNonEmpty(reply.address.value);
        JsStrings.Join(PresentParts(reply.address.value), ", ")
      else "";
    if joined != "" then joined else LOCATION_SELECTED
  }

  /** Joining the present parts gives "" only when none is present. */
  lemma JoinedPartsNonEmpty(a: AddressParts)
    ensures JsStrings.Join(PresentParts(a), ", ") == "" <==> PresentParts(a) == []
  {
    var parts := PresentParts(a);
    JsStrings.JoinEmptyIff(parts, ", ");
  }

  // ------------------------------------------------------------- the form state

  /** The hostel form. `status` is `None` after `openEditModal`, which builds
      the form without it. */
  datatype HostelForm = HostelForm(
    name: string, location: LocationFields, amenities: string, availability: string, status: Option<string>)

  const EMPTY_FORM := HostelForm("", LocationFields("", Some([])), "", "true", Some("pending"))

  datatype RoomForm = RoomForm(roomNumber: string, totalBeds: string, pricePerBed: string)

  /** The multipart request of `handleAddOrUpdateHostel`. Every field is text;
      `status` renders a missing value as "undefined". */
  datatype HostelUpload = HostelUpload(
    verb: string, url: string, bearer: string,
    name: string, location: GeoPoint, amenities: string, availability: string, status: string,
    price: string, rooms: string, bedsPerRoom: string,
    images: seq<ImagePart>)

  /** The JSON body of `handleAddRoom`. */
  datatype RoomUpload = RoomUpload(hostelId: string, roomNumber: string, totalBeds: string, pricePerBed: string)

  /** A handler either alerts and returns, or sends a request. */
  datatype Outcome<R> = Alert(message: string) | Send(request: R)

  class ManageHostels {
    var hostels: seq<Hostel>
    var filteredHostels: seq<Hostel>
    var activeTab: string
    var selectedHostel: Option<Hostel>
    var images: seq<string>
    var token: string
    var loading: bool
    var markerPosition: Option<Marker>
    var address: string
    var form: HostelForm
    var roomForm: RoomForm
    var modalVisible: bool

    /** The screen's initial state. */
    constructor ()
      ensures hostels == [] && filteredHostels == [] && activeTab == "all"
      ensures selectedHostel.None? && images == [] && token == "" && !loading
      ensures markerPosition.None? && address == "" && form == EMPTY_FORM
      ensures roomForm == RoomForm("", "", "") && !modalVisible
    {
      hostels, filteredHostels, activeTab := [], [], "all";
      selectedHostel, images, token, loading := None, [], "", false;
      markerPosition, address, form := None, "", EMPTY_FORM;
      roomForm, modalVisible := RoomForm("", "", ""), false;
    }

    /** The effect that re-filters whenever the list or the tab changes. */
    method FilterHostels()
      modifies this`filteredHostels
      ensures filteredHostels == HostelsForTab(activeTab, hostels)
    {
      filteredHostels := HostelsForTab(activeTab, hostels);
    }

    /** `pickImages` once the picker returned `picked`: while editing a hostel
        the picked images are appended, otherwise they replace the list. */
    method PickImages(picked: seq<string>)
      modifies this`images
      ensures selectedHostel.Some? ==> images == old(images) + picked
      ensures selectedHostel.None? ==> images == picked
    {
      if selectedHostel.Some? {
        images := images + picked;
      } else {
        images := picked;
      }
    }

    /** The remove button of preview `index`: exactly that image leaves the
        list, the others keep their order. */
    method RemoveImage(index: nat)
      requires index < |images|
      modifies this`images
      ensures |images| == |old(images)| - 1
      ensures forall j :: 0 <= j < |images| ==> images[j] == if j < index then old(images)[j] else old(images)[j + 1]
    {
      images := JsArrays.SpliceOne(images, index);
    }

    /** `openEditModal`: the form is filled from the hostel (without a status),
        the marker and address are taken from its location only when that has
        exactly two coordinates, and the images are the hostel's own. A
        hostel without `amenities` makes `hostel.amenities.join` throw right
        after the selection is made: nothing else changes and the modal stays
        closed. */
    method OpenEditModal(h: Hostel)
      modifies this`selectedHostel, this`form, this`markerPosition, this`address, this`images, this`modalVisible
      ensures selectedHostel == Some(h)
      ensures h.amenities.None? ==>
        form == old(form) && markerPosition == old(markerPosition) && address == old(address)
        && images == old(images) && modalVisible == old(modalVisible)
      ensures h.amenities.Some? ==> modalVisible
      ensures h.amenities.Some? ==> form == HostelForm(h.name, h.location.GetOr(LocationFields("", Some([]))),
        JsStrings.Join(h.amenities.value, ", "), if h.availability == "" then "true" else h.availability, None)
      ensures h.amenities.Some? && DecodeMarker(h.location).Some? ==>
        markerPosition == DecodeMarker(h.location) && address == h.location.value.address
      ensures DecodeMarker(h.location).None? ==> markerPosition == old(markerPosition) && address == old(address)
      ensures h.amenities.Some? ==> images == h.images.GetOr([])
    {
      selectedHostel := Some(h);
      if h.amenities.None? {
        return;
      }
      form := HostelForm(h.name, h.location.GetOr(LocationFields("", Some([]))),
        JsStrings.Join(h.amenities.value, ", "), if h.availability == "" then "true" else h.availability, None);
      var m := DecodeMarker(h.location);
      if m.Some? {
        markerPosition := m;
        address := h.location.value.address;
      }
      images := h.images.GetOr([]);
      modalVisible := true;
    }

    /** `handleMapPress`: the marker moves to the pressed point. */
    method HandleMapPress(latitude: Coordinate, longitude: Coordinate)
      modifies this`markerPosition
      ensures markerPosition == Some(Marker(latitude, longitude))
    {
      markerPosition := Some(Marker(latitude, longitude));
    }

    /** The end of `reverseGeocode`: the address becomes the geocoded text. */
    method ReverseGeocodeSettled(reply: GeocodeReply)
      modifies this`address
      ensures address == GeocodedAddress(reply)
    {
      address := GeocodedAddress(reply);
    }

    /** `resetHostelForm`. */
    method ResetHostelForm()
      modifies this`form, this`images, this`markerPosition, this`address, this`selectedHostel
      ensures form == EMPTY_FORM && images == [] && markerPosition.None?
      ensures address == "" && selectedHostel.None?
    {
      form, images, markerPosition := EMPTY_FORM, [], None;
      address, selectedHostel := "", None;
    }

    /** Whether the save button is disabled: while a request runs, and
        while no point has been picked on the map. */
    predicate SaveDisabled()
      reads this
      ensures loading ==> SaveDisabled()
      ensures !SaveDisabled() <==> !loading && markerPosition.Some?
    {
      loading || markerPosition.None?
    }

    /** `handleAddOrUpdateHostel` up to the request. The guards run in order
        (token, then name and marker, then images of a new hostel) and each
        alerts without a request. A request updates the selected hostel with
        PUT, or adds one with POST; the marker goes out as a GeoJSON point;
        images are attached only when adding. */
    method BuildSubmission() returns (outcome: Outcome<HostelUpload>)
      ensures token == "" ==> outcome == Alert(AUTH_REQUIRED)
      ensures token != "" && (form.name == "" || markerPosition.None?) ==> outcome == Alert(FILL_REQUIRED)
      ensures token != "" && form.name != "" && markerPosition.Some? && selectedHostel.None? && images == [] ==>
        outcome == Alert(IMAGE_REQUIRED)
      ensures outcome.Send? <==> token != "" && form.name != "" && markerPosition.Some? && (selectedHostel.Some? || images != [])
      ensures outcome.Send? ==> outcome.request.bearer == token && outcome.request.name == form.name
      ensures outcome.Send? && selectedHostel.Some? ==>
        outcome.request.verb == "PUT" && outcome.request.url == BASE_URL + "/hostels/update/" + selectedHostel.value.id
        && outcome.request.images == []
      ensures outcome.Send? && selectedHostel.None? ==>
        outcome.request.verb == "POST" && outcome.request.url == BASE_URL + "/hostels/add"
        && outcome.request.images == Appended(images, |images|, PartFor)
      ensures outcome.Send? ==> outcome.request.location == EncodeLocation(markerPosition.value, address)
      ensures outcome.Send? ==> outcome.request.amenities == form.amenities && outcome.request.availability == form.availability
      ensures outcome.Send? ==> outcome.request.status == form.status.GetOr("undefined")
      ensures outcome.Send? ==> outcome.request.price == "0" && outcome.request.rooms == "0" && outcome.request.bedsPerRoom == "0"
    {
      if token == "" {
        return Alert(AUTH_REQUIRED);
      }
      if form.name == "" || markerPosition.None? {
        return Alert(FILL_REQUIRED);
      }
      if selectedHostel.None? && images == [] {
        return Alert(IMAGE_REQUIRED);
      }
      var verb, url := "POST", BASE_URL + "/hostels/add";
      if selectedHostel.Some? {
        verb, url := "PUT", BASE_URL + "/hostels/update/" + selectedHostel.value.id;
      }
      var parts := [];
      if selectedHostel.None? {
        parts := BuildImageParts(images);
      }
      outcome := Send(HostelUpload(
        verb, url, token,
        form.name, EncodeLocation(markerPosition.value, address), form.amenities, form.availability,
        form.status.GetOr("undefined"), "0", "0", "0", parts));
    }

    /** `handleAddRoom` up to the request: a selected hostel and all three room
        fields are required. */
    function AddRoomOutcome(): (outcome: Outcome<RoomUpload>)
      reads this
      ensures outcome.Send? <==> (selectedHostel.Some? && roomForm.roomNumber != ""
        && roomForm.totalBeds != "" && roomForm.pricePerBed != "")
      ensures outcome.Alert? ==> outcome.message == ROOM_DETAILS_REQUIRED
      ensures outcome.Send? ==> (outcome.request.hostelId == selectedHostel.value.id
        && outcome.request.roomNumber == roomForm.roomNumber && outcome.request.totalBeds == roomForm.totalBeds
        && outcome.request.pricePerBed == roomForm.pricePerBed)
    {
      if selectedHostel.None? || roomForm.roomNumber == "" || roomForm.totalBeds == "" || roomForm.pricePerBed == "" then
        Alert(ROOM_DETAILS_REQUIRED)
      else
        Send(RoomUpload(selectedHostel.value.id, roomForm.roomNumber, roomForm.totalBeds, roomForm.pricePerBed))
    }
  }
}
