/** What the two organisation forms share: the cleaned values and errors of a
    bound form, the `clean_location_coords` hook, and the step of Django's
    field cleaning that stores the hook's outcome. */
module FormData {
  import opened Common
  import opened Text
  import opened Geo

  /** A cleaned value: `None`, the text of a character field, or a point. */
  datatype FormValue = Null | Text(text: string) | PointValue(point: Point)

  /** `form.cleaned_data` and `form.errors` (field name to messages). */
  datatype FormState = FormState(cleaned: map<string, FormValue>, errors: map<string, seq<string>>)

  const CoordsField: string := "location_coords"
  const LocationField: string := "location"

  const InvalidCoordsMessage: string :=
    "Invalid coordinates. Coordinates must be comma-separated latitude,longitude decimals, eg: -33.921124,18.417313"

  /** `cleaned_data.get('location_coords')` as the character field left it. */
  function CoordsText(cleaned: map<string, FormValue>): Option<string> {
    if CoordsField in cleaned && cleaned[CoordsField].Text? then Some(cleaned[CoordsField].text) else None
  }

  /** `clean_location_coords`: absent or empty text is handed back as it is;
      any other text must be `"lat,lng"` and becomes a point, or the hook
      raises a `ValidationError` with `InvalidCoordsMessage`. */
  function CleanLocationCoords(coords: Option<string>, parseFloat: string -> Option<real>): (r: Result<FormValue, string>)
    ensures coords == None ==> r == Success(Null)
    ensures coords == Some("") ==> r == Success(Text(""))
    ensures coords.Some? && coords.value != "" ==>
              (r.Success? <==> ParseLatLng(coords.value, parseFloat).Some?)
    ensures r.Success? && coords.Some? && coords.value != "" ==>
              r.value.PointValue? && r.value.point.srid == WGS84 && Count(coords.value, ',') == 1
    ensures r.Failure? ==> r.error == InvalidCoordsMessage
  {
    match coords
    case None => Success(Null)
    case Some(text) =>
      if text == "" then Success(Text(text))
      else
        match ParseLatLng(text, parseFloat)
        case Some(point) =>
          ParseLatLngAccepted(text, parseFloat);
          Success(PointValue(point))
        case None => Failure(InvalidCoordsMessage)
  }

  /** `"lat,lng"` with two numbers cleans to the point whose `y` is the
      latitude and whose `x` is the longitude. */
  lemma CleanLocationCoordsOfPair(lat: string, lng: string, parseFloat: string -> Option<real>)
    requires ',' !in lat && ',' !in lng
    requires parseFloat(lat).Some? && parseFloat(lng).Some?
    ensures CleanLocationCoords(Some(lat + "," + lng), parseFloat)
         == Success(PointValue(Point(parseFloat(lng).value, parseFloat(lat).value, WGS84)))
  {
    ParseLatLngPair(lat, lng, parseFloat);
  }

  /** Django's `_clean_fields` for `location_coords`: the hook's value
      replaces the cleaned value; a `ValidationError` removes the cleaned
      value and appends its message to the field's errors. */
  function AfterCoordsHook(s: FormState, parseFloat: string -> Option<real>): (r: FormState)
    ensures CleanLocationCoords(CoordsText(s.cleaned), parseFloat).Success? ==>
              && r.errors == s.errors && CoordsField in r.cleaned
              && r.cleaned[CoordsField] == CleanLocationCoords(CoordsText(s.cleaned), parseFloat).value
    ensures CleanLocationCoords(CoordsText(s.cleaned), parseFloat).Failure? ==>
              CoordsField !in r.cleaned && CoordsField in r.errors
              && r.errors[CoordsField] == (if CoordsField in s.errors then s.errors[CoordsField] else [])
                                          + [InvalidCoordsMessage]
    ensures forall k :: k != CoordsField ==>
              (k in r.cleaned <==> k in s.cleaned) && (k in r.cleaned ==> r.cleaned[k] == s.cleaned[k])
    ensures forall k :: k != CoordsField ==>
              (k in r.errors <==> k in s.errors) && (k in r.errors ==> r.errors[k] == s.errors[k])
  {
    match CleanLocationCoords(CoordsText(s.cleaned), parseFloat)
    case Success(value) => FormState(s.cleaned[CoordsField := value], s.errors)
    case Failure(message) =>
      var previous := if CoordsField in s.errors then s.errors[CoordsField] else [];
      FormState(s.cleaned - {CoordsField}, s.errors[CoordsField := previous + [message]])
  }

  /** The point the coordinates field cleaned to, if it did. */
  function CoordsPoint(cleaned: map<string, FormValue>): Option<Point> {
    if CoordsField in cleaned && cleaned[CoordsField].PointValue? then Some(cleaned[CoordsField].point) else None
  }

  /** `cleaned_data['location'] = location_coords`, then
      `if has_error('location'): del errors['location']`. */
  function Override(s: FormState, p: Point): (r: FormState)
    ensures LocationField in r.cleaned && r.cleaned[LocationField] == PointValue(p)
    ensures LocationField !in r.errors
    ensures forall k :: k != LocationField ==>
              (k in r.cleaned <==> k in s.cleaned) && (k in r.cleaned ==> r.cleaned[k] == s.cleaned[k])
    ensures forall k :: k != LocationField ==>
              (k in r.errors <==> k in s.errors) && (k in r.errors ==> r.errors[k] == s.errors[k])
  {
    FormState(s.cleaned[LocationField := PointValue(p)], s.errors - {LocationField})
  }

  /** Overriding twice with one point is overriding once. */
  lemma OverrideIdempotent(s: FormState, p: Point)
    ensures Override(Override(s, p), p) == Override(s, p)
  {
    assert Override(Override(s, p), p).cleaned == Override(s, p).cleaned;
    assert Override(Override(s, p), p).errors == Override(s, p).errors;
  }

  /** GEOS equality of two points in the Django version the system runs on:
      the coordinates, not the spatial reference. */
  predicate SameLocation(a: Point, b: Point) {
    a.x == b.x && a.y == b.y
  }
}
