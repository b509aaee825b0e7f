/** Spreadsheet import: the point column widget and the check that every
    country, category and keyword a row names already exists. */
module ImportExport {
  import opened Common
  import opened Text
  import opened Geo

  // ---------------------------------------------------------------------
  // PointWidget

  const InvalidCoordinatesMessage: string :=
    "Invalid coordinates. Coordinates must be comma-separated latitude,longitude decimals, eg: \"-33.921124,18.417313\""

  /** `PointWidget.clean`: a `ValidationError` unless the text is two numbers
      around one comma; the first number is the latitude. */
  function PointWidgetClean(value: string, parseFloat: string -> Option<real>): (r: Result<Point, string>)
    ensures r.Success? <==> ParseLatLng(value, parseFloat).Some?
    ensures r.Success? ==> r.value == ParseLatLng(value, parseFloat).value
    ensures r.Success? ==> r.value.srid == WGS84 && Count(value, ',') == 1
    ensures r.Failure? ==> r.error == InvalidCoordinatesMessage
  {
    match ParseLatLng(value, parseFloat)
    case Some(p) =>
      ParseLatLngAccepted(value, parseFloat);
      Success(p)
    case None => Failure(InvalidCoordinatesMessage)
  }

  /** A cell `"lat,lng"` with two numbers cleans to the point whose `y` is
      the latitude and whose `x` is the longitude. */
  lemma PointWidgetCleanOfPair(lat: string, lng: string, parseFloat: string -> Option<real>)
    requires ',' !in lat && ',' !in lng
    requires parseFloat(lat).Some? && parseFloat(lng).Some?
    ensures PointWidgetClean(lat + "," + lng, parseFloat)
         == Success(Point(parseFloat(lng).value, parseFloat(lat).value, WGS84))
  {
    ParseLatLngPair(lat, lng, parseFloat);
  }

  /** `PointWidget.render`: `"y,x"`, latitude first; `formatFloat` is
      Python's `str` on a float. */
  function PointWidgetRender(p: Point, formatFloat: real -> string): (r: string)
    ensures var lat := formatFloat(p.y);
            |r| > |lat| && r[..|lat|] == lat && r[|lat|] == ',' && r[|lat| + 1..] == formatFloat(p.x)
    ensures ',' !in formatFloat(p.y) && ',' !in formatFloat(p.x) ==>
              Split(r, ',') == [formatFloat(p.y), formatFloat(p.x)]
  {
    var r := formatFloat(p.y) + "," + formatFloat(p.x);
    assert ',' !in formatFloat(p.y) && ',' !in formatFloat(p.x) ==>
             Split(r, ',') == [formatFloat(p.y), formatFloat(p.x)] by {
      if ',' !in formatFloat(p.y) && ',' !in formatFloat(p.x) {
        SplitPair(formatFloat(p.y), formatFloat(p.x), ',');
      }
    }
    r
  }

  /** Rendering then cleaning gives the point back: `render` writes the
      latitude first and `clean` reads the latitude first, so the swap of
      `x` and `y` cancels. Stated for numbers whose text form reads back as
      the same number and holds no comma. */
  lemma PointWidgetRoundTrip(p: Point, parseFloat: string -> Option<real>, formatFloat: real -> string)
    requires p.srid == WGS84
    requires parseFloat(formatFloat(p.y)) == Some(p.y) && ',' !in formatFloat(p.y)
    requires parseFloat(formatFloat(p.x)) == Some(p.x) && ',' !in formatFloat(p.x)
    ensures PointWidgetClean(PointWidgetRender(p, formatFloat), parseFloat) == Success(p)
  {
    ParseLatLngPair(formatFloat(p.y), formatFloat(p.x), parseFloat);
  }

  // ---------------------------------------------------------------------
  // import_obj reference checks

  /** An imported row: column name to cell text. */
  type Row = map<string, string>

  /** `data.get(column, u'')`. */
  function Column(row: Row, column: string): string {
    if column in row then row[column] else ""
  }

  /** `set(text.split(','))`. */
  function NameSet(text: string): set<string> {
    var parts := Split(text, ',');
    set i | 0 <= i < |parts| :: parts[i]
  }

  /** `{x.name for x in Model.objects.filter(name__in=requested)}`: the
      requested names that exist. */
  function FoundNames(requested: set<string>, existing: set<string>): set<string> {
    requested * existing
  }

  datatype RefKind = Countries | Categories | Keywords

  /** The `ValidationError` of a failed check: the kind of record being
      imported and its identifying cell (the text before the missing names
      in the message), the kind of reference, and the missing names. */
  datatype ImportError = MissingReferences(importing: string, subject: string, kind: RefKind, missing: set<string>)

  /** `Delegated` is the call of the base class's `import_obj`. */
  datatype ImportOutcome = Delegated | Rejected(error: ImportError)

  /** One check: `None` when every requested name exists, otherwise the
      requested names minus the found names. */
  function CheckNames(requested: set<string>, existing: set<string>): (r: Option<set<string>>)
    ensures r.None? <==> requested <= existing
    ensures r.Some? ==> r.value == requested - existing && r.value != {}
  {
    var found := FoundNames(requested, existing);
    if requested != found then
      assert requested - found == requested - existing;
      var n :| n in requested && n !in existing;
      assert n in requested - found;
      Some(requested - found)
    else None
  }

  /** `KeywordResource.import_obj`. */
  function ImportKeyword(row: Row, categoryNames: set<string>): (r: ImportOutcome)
    ensures r.Rejected? <==> exists n :: n in NameSet(Column(row, "categories")) && n !in categoryNames
    ensures r.Rejected? ==>
              r.error == MissingReferences("Keyword", Column(row, "name"), Categories,
                                           NameSet(Column(row, "categories")) - categoryNames)
  {
    match CheckNames(NameSet(Column(row, "categories")), categoryNames)
    case None => Delegated
    case Some(missing) => Rejected(MissingReferences("Keyword", Column(row, "name"), Categories, missing))
  }

  /** `OrganisationResource.import_obj`: countries, then categories, then
      keywords; the first failing check decides the error. */
  function ImportOrganisation(row: Row, countryNames: set<string>, categoryNames: set<string>,
                              keywordNames: set<string>): (r: ImportOutcome)
    ensures var countries := NameSet(Column(row, "country"));
            !(countries <= countryNames) ==>
              r == Rejected(MissingReferences("Organisation", Column(row, "name"), Countries,
                                              countries - countryNames))
    ensures var countries, categories := NameSet(Column(row, "country")), NameSet(Column(row, "categories"));
            countries <= countryNames && !(categories <= categoryNames) ==>
              r == Rejected(MissingReferences("Service", Column(row, "id"), Categories,
                                              categories - categoryNames))
    ensures var countries, categories := NameSet(Column(row, "country")), NameSet(Column(row, "categories"));
            var keywords := NameSet(Column(row, "keywords"));
            countries <= countryNames && categories <= categoryNames && !(keywords <= keywordNames) ==>
              r == Rejected(MissingReferences("Service", Column(row, "id"), Keywords,
                                              keywords - keywordNames))
    ensures r == Delegated <==>
              && NameSet(Column(row, "country")) <= countryNames
              && NameSet(Column(row, "categories")) <= categoryNames
              && NameSet(Column(row, "keywords")) <= keywordNames
  {
    match CheckNames(NameSet(Column(row, "country")), countryNames)
    case Some(missing) => Rejected(MissingReferences("Organisation", Column(row, "name"), Countries, missing))
    case None =>
      match CheckNames(NameSet(Column(row, "categories")), categoryNames)
      case Some(missing) => Rejected(MissingReferences("Service", Column(row, "id"), Categories, missing))
      case None =>
        match CheckNames(NameSet(Column(row, "keywords")), keywordNames)
        case Some(missing) => Rejected(MissingReferences("Service", Column(row, "id"), Keywords, missing))
        case None => Delegated
  }

  /** The names a comma-joined cell yields are exactly its pieces. */
  lemma NameSetOfJoin(parts: seq<string>)
    requires |parts| > 0
    requires forall i :: 0 <= i < |parts| ==> ',' !in parts[i]
    ensures NameSet(Join(parts, ",")) == set i | 0 <= i < |parts| :: parts[i]
  {
    SplitJoin(parts, ',');
  }

  /** Reordering or repeating names in the categories cell does not change
      the outcome of a keyword import: the check works on sets. */
  lemma ImportKeywordIgnoresOrderAndRepeats(row: Row, parts: seq<string>, parts': seq<string>,
                                            categoryNames: set<string>)
    requires |parts| > 0 && |parts'| > 0
    requires forall i :: 0 <= i < |parts| ==> ',' !in parts[i]
    requires forall i :: 0 <= i < |parts'| ==> ',' !in parts'[i]
    requires forall n :: n in parts <==> n in parts'
    ensures ImportKeyword(row["categories" := Join(parts, ",")], categoryNames)
         == ImportKeyword(row["categories" := Join(parts', ",")], categoryNames)
  {
    NameSetOfJoin(parts);
    NameSetOfJoin(parts');
    var a := set i | 0 <= i < |parts| :: parts[i];
    var b := set i | 0 <= i < |parts'| :: parts'[i];
    assert a == b by {
      forall n ensures n in a <==> n in b {
        if n in a {
          var i :| 0 <= i < |parts| && parts[i] == n;
          assert n in parts';
        }
        if n in b {
          var i :| 0 <= i < |parts'| && parts'[i] == n;
          assert n in parts;
        }
      }
    }
  }

  /** A row without a categories column asks for the category named `''`,
      so it is rejected unless such a category exists. */
  lemma ImportKeywordWithoutCategoriesColumn(row: Row, categoryNames: set<string>)
    requires "categories" !in row
    ensures ImportKeyword(row, categoryNames).Rejected? <==> "" !in categoryNames
    ensures ImportKeyword(row, categoryNames).Rejected? ==>
              ImportKeyword(row, categoryNames).error.missing == {""}
  {
    var parts := Split("", ',');
    assert parts == [""];
    assert parts[0] == "";
    assert NameSet("") == {""};
  }
}
