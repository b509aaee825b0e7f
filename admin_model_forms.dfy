/** The admin's organisation form: coordinates typed into `location_coords`
    replace the map's location, unless they are the location already saved. */
module AdminModelForms {
  import opened Common
  import opened Geo
  import opened FormData

  /** `clean()`: the coordinates override the location, and drop its errors,
      only when they cleaned to a point that differs from the saved one. */
  function AdminCleaned(s: FormState, current: Point): (r: FormState)
    ensures CoordsPoint(s.cleaned).Some? && !SameLocation(CoordsPoint(s.cleaned).value, current) ==>
              r == Override(s, CoordsPoint(s.cleaned).value)
    ensures CoordsPoint(s.cleaned).None? || SameLocation(CoordsPoint(s.cleaned).value, current) ==> r == s
  {
    match CoordsPoint(s.cleaned)
    case Some(p) => if !SameLocation(p, current) then Override(s, p) else s
    case None => s
  }

  /** Cleaning twice is cleaning once. */
  lemma AdminCleanedIdempotent(s: FormState, current: Point)
    ensures AdminCleaned(AdminCleaned(s, current), current) == AdminCleaned(s, current)
  {
    match CoordsPoint(s.cleaned)
    case Some(p) =>
      if !SameLocation(p, current) {
        assert CoordsPoint(Override(s, p).cleaned) == Some(p);
        OverrideIdempotent(s, p);
      }
    case None =>
  }

  /** Coordinates equal to the saved location change nothing: a location
      error (the map marker was removed, say) survives them. */
  lemma AdminKeepsLocationErrorForSavedCoords(s: FormState, current: Point)
    requires CoordsPoint(s.cleaned).Some? && SameLocation(CoordsPoint(s.cleaned).value, current)
    ensures LocationField in s.errors <==> LocationField in AdminCleaned(s, current).errors
  {
  }

  /** Typing new coordinates `"lat,lng"` leaves the form with the typed
      point as its location, and with every error it had except the location
      error (a removed map marker, say). */
  lemma {:induction false} AdminTypedCoordsReplaceLocation(s: FormState, current: Point, lat: string, lng: string,
                                        parseFloat: string -> Option<real>)
    requires CoordsField in s.cleaned && s.cleaned[CoordsField] == Text(lat + "," + lng)
    requires ',' !in lat && ',' !in lng && parseFloat(lat).Some? && parseFloat(lng).Some?
    requires parseFloat(lng).value != current.x || parseFloat(lat).value != current.y
    ensures var r := AdminCleaned(AfterCoordsHook(s, parseFloat), current);
            && LocationField in r.cleaned
            && r.cleaned[LocationField] == PointValue(Point(parseFloat(lng).value, parseFloat(lat).value, WGS84))
            && LocationField !in r.errors
            && r.errors == (s.errors - {LocationField})
  {
    CleanLocationCoordsOfPair(lat, lng, parseFloat);
    var p := Point(parseFloat(lng).value, parseFloat(lat).value, WGS84);
    var h := AfterCoordsHook(s, parseFloat);
    assert h.cleaned[CoordsField] == PointValue(p);
    assert CoordsPoint(h.cleaned) == Some(p);
  }

  /** A bound `OrganisationModelForm` for an existing organisation. */
  class OrganisationModelForm {
    var cleanedData: map<string, FormValue>
    var errors: map<string, seq<string>>
    /** `self.instance.location`. */
    const instanceLocation: Point

    constructor(cleanedData: map<string, FormValue>, errors: map<string, seq<string>>, instanceLocation: Point)
      ensures this.cleanedData == cleanedData && this.errors == errors
      ensures this.instanceLocation == instanceLocation
    {
      this.cleanedData := cleanedData;
      this.errors := errors;
      this.instanceLocation := instanceLocation;
    }

    function State(): FormState
      reads this
    {
      FormState(cleanedData, errors)
    }

    /** `clean_location_coords` as the field-cleaning pass runs it. */
    method CleanLocationCoordsField(parseFloat: string -> Option<real>)
      modifies this
      ensures State() == AfterCoordsHook(old(State()), parseFloat)
    {
      var s := AfterCoordsHook(State(), parseFloat);
      cleanedData, errors := s.cleaned, s.errors;
    }

    /** `clean()`. */
    method Clean()
      modifies this
      ensures State() == AdminCleaned(old(State()), instanceLocation)
    {
      if CoordsField in cleanedData && cleanedData[CoordsField].PointValue? {
        var p := cleanedData[CoordsField].point;
        if !SameLocation(p, instanceLocation) {
          cleanedData := cleanedData[LocationField := PointValue(p)];
          if LocationField in errors {
            errors := errors - {LocationField};
          }
        }
      }
    }
  }
}
