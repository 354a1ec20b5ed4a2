/**
 * `parseLocation`: the one-line label shown for a hostel's location, which
 * the backend may deliver as a GeoJSON-like object, as that object serialised
 * to a JSON string, as some other string, or not at all. `JSON.parse` is a
 * parameter of the model: a function from text to a parse outcome.
 */
module LocationParser {
  import opened Wrappers
  import opened Entities

  const NOT_SPECIFIED := "Location not specified"

  /** What `JSON.parse` can yield, as far as the parser looks at it: `null`
      (reading a property of it throws), an object with location fields, or
      any other value (a number, a string, an array, a boolean), which has
      neither field. */
  datatype JsonValue = JsonNull | JsonObject(fields: LocationFields) | JsonOther

  /** `JSON.parse` either throws a syntax error or yields a value. */
  datatype ParseOutcome = SyntaxError | Parsed(value: JsonValue)

  /** The argument of `parseLocation`: a falsy value other than the empty
      string (`null`, `undefined`, `0`, `false`), a string (falsy when empty),
      an object, or any other truthy value. */
  datatype LocationInput = Falsy | Text(raw: string) | Object(fields: LocationFields) | OtherTruthy

  /** `cs[i]` inside a template literal: a missing element renders "undefined". */
  function At(cs: seq<Coordinate>, i: nat): string {
    if i < |cs| then cs[i] else "undefined"
  }

  /** The coordinates label prints the second element first. */
  function CoordinatesLabel(cs: seq<Coordinate>): (text: string)
    ensures |cs| >= 2 ==> text == "Coordinates: " + cs[1] + ", " + cs[0]
  {
    "Coordinates: " + At(cs, 1) + ", " + At(cs, 0)
  }

  /** The two field checks shared by the string and the object path: a
      non-empty address wins; otherwise present coordinates give the
      coordinates label; otherwise neither check returns. */
  function FieldsLabel(f: LocationFields): (text: Option<string>)
    ensures text.None? <==> f.address == "" && f.coordinates.None?
    ensures f.address != "" ==> text == Some(f.address)
    ensures f.address == "" && f.coordinates.Some? ==> text == Some(CoordinatesLabel(f.coordinates.value))
  {
    if f.address != "" then Some(f.address)
    else if f.coordinates.Some? then Some(CoordinatesLabel(f.coordinates.value))
    else None
  }

  /** `parseLocation`. A falsy location, and a parseable string or object with
      neither field, give "Location not specified"; a string that does not
      parse, or parses to `null`, is returned unchanged; otherwise the field
      checks decide. The label is never empty. */
  function ParseLocation(location: LocationInput, parse: string -> ParseOutcome): (text: string)
    ensures text != ""
    ensures location.Falsy? || location == Text("") || location.OtherTruthy? ==> text == NOT_SPECIFIED
    ensures location.Text? && location.raw != "" && parse(location.raw) in {SyntaxError, Parsed(JsonNull)} ==>
      text == location.raw
    ensures location.Text? && location.raw != "" && parse(location.raw) == Parsed(JsonOther) ==>
      text == NOT_SPECIFIED
    ensures location.Text? && location.raw != "" && parse(location.raw).Parsed? && parse(location.raw).value.JsonObject? ==>
      text == FieldsLabel(parse(location.raw).value.fields).GetOr(NOT_SPECIFIED)
    ensures location.Object? ==> text == FieldsLabel(location.fields).GetOr(NOT_SPECIFIED)
  {
    match location
    case Falsy => NOT_SPECIFIED
    case Text(raw) =>
      if raw == "" then NOT_SPECIFIED
      else (
        match parse(raw)
        case SyntaxError => raw
        case Parsed(JsonNull) => raw
        case Parsed(JsonObject(f)) => FieldsLabel(f).GetOr(NOT_SPECIFIED)
        case Parsed(JsonOther) => NOT_SPECIFIED)
    case Object(f) => FieldsLabel(f).GetOr(NOT_SPECIFIED)
    case OtherTruthy => NOT_SPECIFIED
  }

  /** A JSON string and the object it encodes get the same label whenever the
      object has an address or coordinates. */
  lemma TextAndObjectAgree(raw: string, f: LocationFields, parse: string -> ParseOutcome)
    requires raw != "" && parse(raw) == Parsed(JsonObject(f))
    requires f.address != "" || f.coordinates.Some?
    ensures ParseLocation(Text(raw), parse) == ParseLocation(Object(f), parse)
  {
  }

  /** The address takes precedence over the coordinates, on both paths. */
  lemma AddressTakesPrecedence(raw: string, f: LocationFields, parse: string -> ParseOutcome)
    requires f.address != ""
    ensures ParseLocation(Object(f), parse) == f.address
    ensures raw != "" && parse(raw) == Parsed(JsonObject(f)) ==> ParseLocation(Text(raw), parse) == f.address
  {
  }

  /** A string that parses to an object with neither field gives "Location
      not specified", not the string itself. */
  lemma NeitherFieldNotSpecified(raw: string, f: LocationFields, parse: string -> ParseOutcome)
    requires raw != "" && parse(raw) == Parsed(JsonObject(f))
    requires f.address == "" && f.coordinates.None?
    ensures ParseLocation(Text(raw), parse) == NOT_SPECIFIED
  {
  }
}
