/** The API endpoints: the home-page category groups, the keyword list, the
    service lookup and the incorrect-information report. */
module Views {
  import opened Common
  import opened Text
  import opened Seqs
  import opened Geo
  import opened Models
  import opened Serializers

  // ---------------------------------------------------------------------
  // HomePageCategoryKeywordGrouping

  /** One serialised home-page category: its name and its keywords' names. */
  datatype CategoryGroup = CategoryGroup(name: string, keywords: seq<string>)

  /** `keyword.categories` holds the category with id `id`. */
  predicate HasCategory(k: Keyword, id: nat) {
    exists j | 0 <= j < |k.categories| :: k.categories[j].id == id
  }

  predicate OnHomePage(c: Category) {
    c.showOnHomePage
  }

  /** The prefetched `filtered_keywords` of `c`: its keywords that are shown
      on the home page, in keyword order. */
  function FilteredKeywords(c: Category, keywords: seq<Keyword>): seq<Keyword> {
    Filter(keywords, (k: Keyword) => k.showOnHomePage && HasCategory(k, c.id))
  }

  function GroupOf(c: Category, keywords: seq<Keyword>): CategoryGroup {
    CategoryGroup(c.name, KeywordNames(FilteredKeywords(c, keywords)))
  }

  function GroupFor(keywords: seq<Keyword>): Category -> CategoryGroup {
    (c: Category) => GroupOf(c, keywords)
  }

  predicate HasKeywords(g: CategoryGroup) {
    g.keywords != []
  }

  /** The categories the page lists: shown, with at least one shown keyword. */
  function ListedFor(keywords: seq<Keyword>): Category -> bool {
    (c: Category) => c.showOnHomePage && FilteredKeywords(c, keywords) != []
  }

  /** `HomePageCategoryKeywordGrouping.get`: the shown categories with their
      shown keywords, leaving out the groups that come out empty. The result
      is the grouping of one filter of the categories, so groups keep the
      categories' query order. */
  function HomePageGroups(categories: seq<Category>, keywords: seq<Keyword>): (r: seq<CategoryGroup>)
    ensures r == MapSeq(Filter(categories, ListedFor(keywords)), GroupFor(keywords))
  {
    HomePageGroupsAsOneFilter(categories, keywords);
    Filter(MapSeq(Filter(categories, OnHomePage), GroupFor(keywords)), HasKeywords)
  }

  /** Every group has keywords and comes from a shown category. */
  lemma HomePageGroupsSound(categories: seq<Category>, keywords: seq<Keyword>, g: CategoryGroup)
    ensures g in HomePageGroups(categories, keywords) ==>
              g.keywords != [] && exists c :: c in categories && c.showOnHomePage && g == GroupOf(c, keywords)
  {
    var listed := Filter(categories, ListedFor(keywords));
    var r := HomePageGroups(categories, keywords);
    if g in r {
      var i :| 0 <= i < |r| && r[i] == g;
      var c := listed[i];
      assert ListedFor(keywords)(c) && c in categories;
      assert g == GroupOf(c, keywords);
      assert |g.keywords| == |FilteredKeywords(c, keywords)|;
    }
  }

  /** Every shown category with a shown keyword has its group. */
  lemma HomePageGroupsComplete(categories: seq<Category>, keywords: seq<Keyword>, c: Category)
    requires c in categories && c.showOnHomePage && FilteredKeywords(c, keywords) != []
    ensures GroupOf(c, keywords) in HomePageGroups(categories, keywords)
  {
    var listed := Filter(categories, ListedFor(keywords));
    var j :| 0 <= j < |categories| && categories[j] == c;
    assert ListedFor(keywords)(categories[j]);
    assert c in listed;
    var i :| 0 <= i < |listed| && listed[i] == c;
    assert HomePageGroups(categories, keywords)[i] == GroupOf(c, keywords);
  }

  /** The page's two filters are one filter of the categories, followed by
      the grouping: groups stay in category query order. */
  lemma HomePageGroupsAsOneFilter(categories: seq<Category>, keywords: seq<Keyword>)
    ensures Filter(MapSeq(Filter(categories, OnHomePage), GroupFor(keywords)), HasKeywords)
         == MapSeq(Filter(categories, ListedFor(keywords)), GroupFor(keywords))
  {
    var nonEmpty := (c: Category) => FilteredKeywords(c, keywords) != [];
    forall c ensures nonEmpty(c) == HasKeywords(GroupFor(keywords)(c)) {
      assert |KeywordNames(FilteredKeywords(c, keywords))| == |FilteredKeywords(c, keywords)|;
    }
    FilterMap(Filter(categories, OnHomePage), GroupFor(keywords), HasKeywords, nonEmpty);
    FilterFilter(categories, OnHomePage, nonEmpty, ListedFor(keywords));
  }

  /** Each group names exactly the keywords of its category that are shown
      on the home page, in keyword order. */
  lemma GroupKeywordsAreShown(c: Category, keywords: seq<Keyword>, i: nat)
    requires i < |GroupOf(c, keywords).keywords|
    ensures exists k :: k in keywords && k.showOnHomePage && HasCategory(k, c.id)
                        && GroupOf(c, keywords).keywords[i] == k.name
  {
    var shown := FilteredKeywords(c, keywords);
    assert GroupOf(c, keywords).keywords[i] == shown[i].name;
  }

  // ---------------------------------------------------------------------
  // KeywordList

  /** The `categories__name__in` condition on one keyword. */
  predicate InCategories(k: Keyword, names: seq<string>) {
    exists j | 0 <= j < |k.categories| :: k.categories[j].name in names
  }

  function NamedIn(names: seq<string>): Category -> bool {
    (c: Category) => c.name in names
  }

  function InCategoriesFor(names: seq<string>): Keyword -> bool {
    (k: Keyword) => InCategories(k, names)
  }

  /** How many rows the join gives a keyword: one per matching category. */
  function MatchingRows(k: Keyword, names: seq<string>): (r: nat)
    ensures r > 0 <==> InCategories(k, names)
  {
    var matching := Filter(k.categories, NamedIn(names));
    assert InCategories(k, names) ==> |matching| > 0 by {
      if InCategories(k, names) {
        var j :| 0 <= j < |k.categories| && k.categories[j].name in names;
        assert NamedIn(names)(k.categories[j]);
      }
    }
    assert |matching| > 0 ==> InCategories(k, names) by {
      if |matching| > 0 {
        assert matching[0] in k.categories && matching[0].name in names;
      }
    }
    |matching|
  }

  function Repeat(k: Keyword, n: nat): (r: seq<Keyword>)
    ensures |r| == n && forall i :: 0 <= i < n ==> r[i] == k
  {
    seq(n, _ => k)
  }

  /** The rows of `filter(categories__name__in=names)` without `distinct()`:
      a keyword comes back once for every category of it whose name is
      listed. */
  function JoinRows(keywords: seq<Keyword>, names: seq<string>): (r: seq<Keyword>)
    ensures forall i :: 0 <= i < |r| ==> r[i] in keywords && InCategories(r[i], names)
    ensures |r| >= |Filter(keywords, InCategoriesFor(names))|
    decreases |keywords|
  {
    if keywords == [] then []
    else
      var head := keywords[0];
      var rows := Repeat(head, MatchingRows(head, names));
      var rest := JoinRows(keywords[1..], names);
      assert keywords == [head] + keywords[1..];
      assert Filter(keywords, InCategoriesFor(names))
          == (if InCategoriesFor(names)(head) then [head] else []) + Filter(keywords[1..], InCategoriesFor(names));
      assert forall i :: 0 <= i < |rows| ==> rows[i] == head && InCategories(head, names);
      rows + rest
  }

  /** `KeywordList.get_queryset` as written: the same keywords as intended,
      but a row for each listed category a keyword has. */
  function KeywordListAsWritten(keywords: seq<Keyword>, names: seq<string>): (r: seq<Keyword>)
    ensures names == [] ==> r == keywords
    ensures names != [] ==> forall i :: 0 <= i < |r| ==> r[i] in keywords && InCategories(r[i], names)
    ensures names != [] ==> forall i :: 0 <= i < |keywords| && InCategories(keywords[i], names) ==> keywords[i] in r
  {
    if names == [] then keywords
    else
      assert forall i :: 0 <= i < |keywords| && InCategories(keywords[i], names) ==>
               keywords[i] in JoinRows(keywords, names) by {
        forall i | 0 <= i < |keywords| && InCategories(keywords[i], names)
          ensures keywords[i] in JoinRows(keywords, names)
        {
          assert InCategoriesFor(names)(keywords[i]);
          JoinRowsMembers(keywords, names, keywords[i]);
        }
      }
      JoinRows(keywords, names)
  }

  /** `KeywordList.get_queryset` as intended: every keyword without a
      category parameter, otherwise each keyword having a listed category,
      once, in keyword order. */
  function KeywordList(keywords: seq<Keyword>, names: seq<string>): (r: seq<Keyword>)
    ensures names == [] ==> r == keywords
    ensures names != [] ==> forall i :: 0 <= i < |r| ==> r[i] in keywords && InCategories(r[i], names)
    ensures names != [] ==> forall i :: 0 <= i < |keywords| && InCategories(keywords[i], names) ==> keywords[i] in r
    ensures NoDuplicates(keywords) ==> NoDuplicates(r)
  {
    if names == [] then keywords
    else
      assert NoDuplicates(keywords) ==> NoDuplicates(Filter(keywords, InCategoriesFor(names))) by {
        if NoDuplicates(keywords) {
          FilterNoDuplicates(keywords, InCategoriesFor(names));
        }
      }
      Filter(keywords, InCategoriesFor(names))
  }

  /** The join returns the intended keywords and no others. */
  lemma {:induction false} JoinRowsMembers(keywords: seq<Keyword>, names: seq<string>, k: Keyword)
    ensures k in JoinRows(keywords, names) <==> k in Filter(keywords, InCategoriesFor(names))
    decreases |keywords|
  {
    if keywords != [] {
      JoinRowsMembers(keywords[1..], names, k);
      var head := keywords[0];
      var rows := Repeat(head, MatchingRows(head, names));
      assert JoinRows(keywords, names) == rows + JoinRows(keywords[1..], names);
      assert Filter(keywords, InCategoriesFor(names))
          == (if InCategories(head, names) then [head] else []) + Filter(keywords[1..], InCategoriesFor(names));
      assert k in rows <==> (k == head && InCategories(head, names)) by {
        if k in rows {
          var i :| 0 <= i < |rows| && rows[i] == k;
        }
        if k == head && InCategories(head, names) {
          assert rows[0] == head;
        }
      }
    }
  }

  /** Both definitions hold the same keywords. */
  lemma KeywordListSameMembers(keywords: seq<Keyword>, names: seq<string>, k: Keyword)
    ensures k in KeywordListAsWritten(keywords, names) <==> k in KeywordList(keywords, names)
  {
    if names != [] {
      JoinRowsMembers(keywords, names, k);
    }
  }

  /** When no keyword has two listed categories, the join and the intended
      list coincide. */
  lemma {:induction false} JoinRowsWithoutOverlap(keywords: seq<Keyword>, names: seq<string>)
    requires forall i :: 0 <= i < |keywords| ==> MatchingRows(keywords[i], names) <= 1
    ensures JoinRows(keywords, names) == Filter(keywords, InCategoriesFor(names))
    decreases |keywords|
  {
    if keywords != [] {
      assert forall i :: 0 <= i < |keywords| - 1 ==> keywords[1..][i] == keywords[i + 1];
      JoinRowsWithoutOverlap(keywords[1..], names);
      var head := keywords[0];
      assert MatchingRows(head, names) <= 1;
      if InCategories(head, names) {
        assert Repeat(head, MatchingRows(head, names)) == [head];
      } else {
        assert Repeat(head, MatchingRows(head, names)) == [];
      }
    }
  }

  /** A keyword in two listed categories comes back twice from the code as
      written, and once from the intended list. */
  lemma KeywordListAsWrittenRepeats()
    ensures var a, b := Category(1, "a", false), Category(2, "b", false);
            var k := Keyword(1, "k", [a, b], false);
            KeywordListAsWritten([k], ["a", "b"]) == [k, k]
            && KeywordList([k], ["a", "b"]) == [k]
  {
    var a, b := Category(1, "a", false), Category(2, "b", false);
    var k := Keyword(1, "k", [a, b], false);
    var names := ["a", "b"];
    assert NamedIn(names)(a) && NamedIn(names)(b);
    assert Filter([b], NamedIn(names)) == [b];
    assert Filter([a, b], NamedIn(names)) == [a] + Filter([b], NamedIn(names));
    assert MatchingRows(k, names) == 2;
    assert Repeat(k, 2) == [k, k];
    assert JoinRows([k], names) == Repeat(k, 2) + JoinRows([], names);
    assert InCategoriesFor(names)(k) by {
      assert k.categories[0].name in names;
    }
    assert Filter([k], InCategoriesFor(names)) == [k] + Filter([], InCategoriesFor(names));
  }

  // ---------------------------------------------------------------------
  // ServiceLookup

  /** What the lookup asks of the search engine: an optional fuzzy match on
      the document text, and an optional point to measure distances from,
      which also orders the hits by ascending distance. */
  datatype SearchQuery = SearchQuery(textMatch: Option<string>, distanceFrom: Option<Point>, orderByDistance: bool)

  /** A search result: the matched organisation and, when distances were
      asked for, its distance in hundredths of a kilometre. */
  datatype SearchHit = SearchHit(organisation: Organisation, distance: Option<nat>)

  /** The engine, in the order it yields hits. */
  type SearchEngine = SearchQuery -> seq<SearchHit>

  const ResultLimit: nat := 20

  /** The reply: the serialised summaries, or the server error an uncaught
      `ValueError` on a malformed `near` becomes. */
  datatype LookupResponse = Ok(items: seq<OrderedDict>) | ServerError

  /** The query the request's parameters ask for; `None` when `near` is
      present but is not `"lat,lng"`. */
  function LookupQuery(params: map<string, string>, parseFloat: string -> Option<real>): (r: Option<SearchQuery>)
    ensures r.None? <==> "near" in params && ParseLatLng(Strip(params["near"]), parseFloat).None?
    ensures r.Some? ==>
              && (r.value.distanceFrom.Some? <==> "near" in params)
              && r.value.orderByDistance == r.value.distanceFrom.Some?
              && (r.value.textMatch.Some? <==> "keyword" in params && Strip(params["keyword"]) != "")
    ensures r.Some? && r.value.textMatch.Some? ==>
              var t := r.value.textMatch.value;
              t == Strip(params["keyword"]) && !IsSpace(t[0]) && !IsSpace(t[|t| - 1])
  {
    var near := if "near" in params then ParseLatLng(Strip(params["near"]), parseFloat) else None;
    var keyword := if "keyword" in params then Strip(params["keyword"]) else "";
    if "near" in params && near.None? then None
    else Some(SearchQuery(if keyword != "" then Some(keyword) else None, near, near.Some?))
  }

  /** `near=lat,lng`, with any surrounding whitespace, measures distances
      from `Point(lng, lat)`. */
  lemma LookupQueryNearPair(params: map<string, string>, lat: string, lng: string, parseFloat: string -> Option<real>)
    requires "near" in params && Strip(params["near"]) == lat + "," + lng
    requires ',' !in lat && ',' !in lng && parseFloat(lat).Some? && parseFloat(lng).Some?
    ensures LookupQuery(params, parseFloat).Some?
    ensures LookupQuery(params, parseFloat).value.distanceFrom
         == Some(Point(parseFloat(lng).value, parseFloat(lat).value, WGS84))
  {
    ParseLatLngPair(lat, lng, parseFloat);
  }

  /** A `near` without exactly one comma is a server error. */
  lemma LookupQueryNearMalformed(params: map<string, string>, parseFloat: string -> Option<real>)
    requires "near" in params && Count(Strip(params["near"]), ',') != 1
    ensures LookupQuery(params, parseFloat).None?
  {
    ParseLatLngNeedsOneComma(Strip(params["near"]), parseFloat);
  }

  /** `'{0:.2f}km'.format(km)` for a distance of `h` hundredths of a
      kilometre: whole kilometres, a point, two digits, `km`. */
  function FormatDistance(h: nat): (r: string)
    ensures |r| >= 6 && r[|r| - 2..] == "km" && r[|r| - 5] == '.'
    ensures r[..|r| - 5] == NatToString(h / 100)
    ensures r[|r| - 4..|r| - 2] == [DigitChar(h % 100 / 10), DigitChar(h % 10)]
    ensures ParseNat(r[..|r| - 5]) == Some(h / 100)
    ensures ParseNat(r[|r| - 4..|r| - 2]) == Some(h % 100)
  {
    var whole := NatToString(h / 100);
    var cents := [DigitChar(h % 100 / 10), DigitChar(h % 10)];
    NatToStringRoundTrip(h / 100);
    LastDigitOfHundredths(h);
    TwoDigitsValue(h % 100);
    var r := whole + "." + cents + "km";
    assert |r| == |whole| + 5;
    assert r[..|r| - 5] == whole;
    assert r[|r| - 4..|r| - 2] == cents;
    assert r[|r| - 2..] == "km";
    r
  }

  lemma LastDigitOfHundredths(h: nat)
    ensures h % 100 % 10 == h % 10
  {
    var q, m := h / 100, h % 100;
    assert h == 100 * q + m;
    assert m == 10 * (m / 10) + m % 10;
    assert h == 10 * (10 * q + m / 10) + m % 10;
  }

  lemma TwoDigitsValue(n: nat)
    requires n < 100
    ensures ParseNat([DigitChar(n / 10), DigitChar(n % 10)]) == Some(n)
  {
    var s := [DigitChar(n / 10), DigitChar(n % 10)];
    assert s[..1] == [DigitChar(n / 10)];
    assert s[..1][..0] == [];
    assert DigitsValue(s[..1]) == n / 10;
    assert DigitsValue(s) == n / 10 * 10 + n % 10;
  }

  /** Different distances never print alike. */
  lemma FormatDistanceInjective(a: nat, b: nat)
    ensures FormatDistance(a) == FormatDistance(b) ==> a == b
  {
  }

  /** The `distance` attribute a hit's object is given. */
  function DistanceText(distance: Option<nat>): (r: Option<string>)
    ensures r.Some? <==> distance.Some?
    ensures r.Some? ==> r.value == FormatDistance(distance.value)
  {
    match distance
    case Some(h) => Some(FormatDistance(h))
    case None => None
  }

  function Min(a: nat, b: nat): nat {
    if a <= b then a else b
  }

  /** What a successful lookup replies for the engine's hits: the first
      twenty, each summarised with its distance text when it has one. */
  predicate RepliesWith(items: seq<OrderedDict>, hits: seq<SearchHit>) {
    && |items| == Min(ResultLimit, |hits|)
    && forall i :: 0 <= i < |items| ==>
         IsSummaryOf(items[i], SummaryInstance(hits[i].organisation, DistanceText(hits[i].distance)))
  }

  /** Each hit's object with the `distance` attribute the lookup gives it. */
  method Instances(hits: seq<SearchHit>) returns (instances: seq<SummaryInstance>)
    ensures |instances| == |hits|
    ensures forall j :: 0 <= j < |hits| ==>
              instances[j] == SummaryInstance(hits[j].organisation, DistanceText(hits[j].distance))
  {
    instances := [];
    var i := 0;
    while i < |hits|
      invariant 0 <= i <= |hits| && |instances| == i
      invariant forall j :: 0 <= j < i ==>
                  instances[j] == SummaryInstance(hits[j].organisation, DistanceText(hits[j].distance))
    {
      var distance: Option<string> := None;
      if hits[i].distance.Some? {
        distance := Some(FormatDistance(hits[i].distance.value));
      }
      instances := instances + [SummaryInstance(hits[i].organisation, distance)];
      i := i + 1;
    }
  }

  /** `OrganisationSummarySerializer(objects, many=True).data`. */
  method Summaries(instances: seq<SummaryInstance>) returns (items: seq<OrderedDict>)
    ensures |items| == |instances|
    ensures forall j :: 0 <= j < |instances| ==> IsSummaryOf(items[j], instances[j])
  {
    items := [];
    var i := 0;
    while i < |instances|
      invariant 0 <= i <= |instances| && |items| == i
      invariant forall j :: 0 <= j < i ==> IsSummaryOf(items[j], instances[j])
    {
      var d := ToRepresentation(instances[i]);
      items := items + [d];
      i := i + 1;
    }
  }

  /** `ServiceLookup.get`: read `near` and `keyword`, build the query step by
      step, keep the first twenty hits, give each its distance text and
      serialise them in order. */
  method ServiceLookup(params: map<string, string>, parseFloat: string -> Option<real>, engine: SearchEngine)
    returns (response: LookupResponse)
    ensures response.ServerError? <==> LookupQuery(params, parseFloat).None?
    ensures response.Ok? ==> RepliesWith(response.items, engine(LookupQuery(params, parseFloat).value))
  {
    var point: Option<Point> := None;
    if "near" in params {
      var latlng := Strip(params["near"]);
      point := ParseLatLng(latlng, parseFloat);
      if point.None? {
        response := ServerError;
        return;
      }
    }
    var keyword: Option<string> := None;
    if "keyword" in params {
      keyword := Some(Strip(params["keyword"]));
    }

    var query := SearchQuery(None, None, false);
    if keyword.Some? && keyword.value != "" {
      query := query.(textMatch := keyword);
    }
    if point.Some? {
      query := query.(distanceFrom := point, orderByDistance := true);
    }
    assert query == LookupQuery(params, parseFloat).value;

    var all := engine(query);
    var hits := if |all| > ResultLimit then all[..ResultLimit] else all;

    var instances := Instances(hits);
    var items := Summaries(instances);
    response := Ok(items);
  }

  // ---------------------------------------------------------------------
  // ServiceReportIncorrectInformation

  /** A saved report: the service it is about and its validated fields. */
  datatype Report = Report(serviceId: nat, fields: map<string, string>)

  /** Field errors, or the validated fields, of the report serializer. */
  type Validation = Result<map<string, string>, map<string, seq<string>>>

  datatype ReportResponse = NotFound | BadRequest(errors: map<string, seq<string>>) | Created(report: Report)

  function StatusCode(r: ReportResponse): int {
    match r
    case NotFound => 404
    case BadRequest(_) => 400
    case Created(_) => 201
  }

  /** The outcome of a report: 404 for an unknown service, 400 with the
      serializer's errors for an invalid payload, otherwise 201 with the
      report saved against the service. */
  function ReportOutcome(services: set<nat>, serviceId: nat, validation: Validation): (r: ReportResponse)
    ensures StatusCode(r) == 404 <==> serviceId !in services
    ensures StatusCode(r) == 400 <==> serviceId in services && validation.Failure?
    ensures StatusCode(r) == 201 <==> serviceId in services && validation.Success?
    ensures r.BadRequest? ==> r.errors == validation.error
    ensures r.Created? ==> r.report == Report(serviceId, validation.value)
  {
    if serviceId !in services then NotFound
    else
      match validation
      case Failure(errors) => BadRequest(errors)
      case Success(fields) => Created(Report(serviceId, fields))
  }

  /** The services that exist and the reports saved so far. */
  class ReportStore {
    var services: set<nat>
    var reports: seq<Report>

    constructor(services: set<nat>)
      ensures this.services == services && this.reports == []
    {
      this.services := services;
      this.reports := [];
    }

    /** `ServiceReportIncorrectInformation.post`; `validate` stands for the
        report serializer's `is_valid`. */
    method Post(serviceId: nat, payload: map<string, string>, validate: map<string, string> -> Validation)
      returns (response: ReportResponse)
      modifies this
      ensures response == ReportOutcome(old(services), serviceId, validate(payload))
      ensures services == old(services)
      ensures reports == old(reports) + (if response.Created? then [response.report] else [])
    {
      if serviceId !in services {
        return NotFound;
      }
      var validation := validate(payload);
      if validation.Failure? {
        return BadRequest(validation.error);
      }
      var report := Report(serviceId, validation.value);
      reports := reports + [report];
      response := Created(report);
    }
  }
}
