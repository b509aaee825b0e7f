/** The public organisation form: coordinates that clean to a point always
    replace the location and drop its errors. */
module Forms {
  import opened Common
  import opened Geo
  import opened FormData

  /** `clean()`: override whenever the coordinates cleaned to a point. */
  function PublicCleaned(s: FormState): (r: FormState)
    ensures CoordsPoint(s.cleaned).Some? ==> r == Override(s, CoordsPoint(s.cleaned).value)
    ensures CoordsPoint(s.cleaned).None? ==> r == s
  {
    match CoordsPoint(s.cleaned)
    case Some(p) => Override(s, p)
    case None => s
  }

  /** Cleaning twice is cleaning once. */
  lemma PublicCleanedIdempotent(s: FormState)
    ensures PublicCleaned(PublicCleaned(s)) == PublicCleaned(s)
  {
    match CoordsPoint(s.cleaned)
    case Some(p) =>
      assert CoordsPoint(Override(s, p).cleaned) == Some(p);
      OverrideIdempotent(s, p);
    case None =>
  }

  /** After cleaning, a form whose coordinates are a point has that point as
      its location and no location error. */
  lemma PublicCoordsWin(s: FormState)
    requires CoordsPoint(s.cleaned).Some?
    ensures var r := PublicCleaned(s);
            r.cleaned[LocationField] == PointValue(CoordsPoint(s.cleaned).value) && LocationField !in r.errors
  {
  }

  /** A bound public `OrganisationModelForm`. */
  class OrganisationModelForm {
    var cleanedData: map<string, FormValue>
    var errors: map<string, seq<string>>

    constructor(cleanedData: map<string, FormValue>, errors: map<string, seq<string>>)
      ensures this.cleanedData == cleanedData && this.errors == errors
    {
      this.cleanedData := cleanedData;
      this.errors := errors;
    }

    function State(): FormState
      reads this
    {
      FormState(cleanedData, errors)
    }

    /** `clean_location_coords` as the field-cleaning pass runs it. */
    method CleanLocationCoordsField(parseFloat: string -> Option<real>)
      modifies this
      ensures State() == AfterCoordsHook(old(State()), parseFloat)
    {
      var s := AfterCoordsHook(State(), parseFloat);
      cleanedData, errors := s.cleaned, s.errors;
    }

    /** `clean()`. */
    method Clean()
      modifies this
      ensures State() == PublicCleaned(old(State()))
    {
      if CoordsField in cleanedData && cleanedData[CoordsField].PointValue? {
        cleanedData := cleanedData[LocationField := cleanedData[CoordsField]];
        if LocationField in errors {
          errors := errors - {LocationField};
        }
      }
    }
  }
}
