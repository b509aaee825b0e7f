/** The directory's records and their display text: `__unicode__`, the
    comma-joined name lists shown in the admin, and the country-area label. */
module Models {
  import opened Common
  import opened Text
  import opened Seqs
  import opened Geo

  datatype Country = Country(id: nat, name: string, isoCode: string)

  datatype CountryArea = CountryArea(id: nat, name: string, level: int, country: Country)

  datatype Category = Category(id: nat, name: string, showOnHomePage: bool)

  /** `categories` is the related manager in its own order. */
  datatype Keyword = Keyword(id: nat, name: string, categories: seq<Category>, showOnHomePage: bool)

  datatype Organisation = Organisation(
    id: nat, name: string, address: string, country: Country, location: Point,
    categories: seq<Category>, keywords: seq<Keyword>)

  datatype Service = Service(id: nat, organisationId: nat, categories: seq<Category>, keywords: seq<Keyword>)

  // `__unicode__` of the named records.
  function CountryDisplay(c: Country): string { c.name }
  function OrganisationDisplay(o: Organisation): string { o.name }
  function CategoryDisplay(c: Category): string { c.name }
  function KeywordDisplay(k: Keyword): string { k.name }

  /** Each of these records displays as its name, unchanged. */
  lemma DisplayIsName(country: Country, organisation: Organisation, category: Category, keyword: Keyword)
    ensures CountryDisplay(country) == country.name
    ensures OrganisationDisplay(organisation) == organisation.name
    ensures CategoryDisplay(category) == category.name
    ensures KeywordDisplay(keyword) == keyword.name
  {
  }

  /** `', '.join(names)`: empty for no names; otherwise each name at its
      place, `", "` between neighbours, and nothing else. */
  function FormatNames(names: seq<string>): (r: string)
    ensures names == [] ==> r == ""
    ensures forall i :: 0 <= i < |names| ==> OccursAt(names[i], r, PartStart(names, ", ", i))
    ensures forall i :: 0 <= i < |names| - 1 ==> OccursAt(", ", r, PartStart(names, ", ", i) + |names[i]|)
    ensures |names| > 0 ==> |r| == TotalLength(names) + 2 * (|names| - 1)
  {
    var r := Join(names, ", ");
    assert forall i :: 0 <= i < |names| ==> OccursAt(names[i], r, PartStart(names, ", ", i))
                                            && (i + 1 < |names| ==> OccursAt(", ", r, PartStart(names, ", ", i) + |names[i]|)) by {
      forall i | 0 <= i < |names|
        ensures OccursAt(names[i], r, PartStart(names, ", ", i))
        ensures i + 1 < |names| ==> OccursAt(", ", r, PartStart(names, ", ", i) + |names[i]|)
      {
        JoinPartAt(names, ", ", i);
      }
    }
    if names != [] then JoinLength(names, ", "); r
    else r
  }

  function CategoryNames(categories: seq<Category>): seq<string> {
    MapSeq(categories, CategoryDisplay)
  }

  function KeywordNames(keywords: seq<Keyword>): seq<string> {
    MapSeq(keywords, KeywordDisplay)
  }

  /** `Keyword.formatted_categories`: the category names in related-manager
      order, comma-joined. */
  function KeywordFormattedCategories(k: Keyword): (r: string)
    ensures k.categories == [] ==> r == ""
    ensures forall i :: 0 <= i < |k.categories| ==>
              OccursAt(k.categories[i].name, r, PartStart(CategoryNames(k.categories), ", ", i))
    ensures forall i :: 0 <= i < |k.categories| - 1 ==>
              OccursAt(", ", r, PartStart(CategoryNames(k.categories), ", ", i) + |k.categories[i].name|)
    ensures |k.categories| > 0 ==> |r| == TotalLength(CategoryNames(k.categories)) + 2 * (|k.categories| - 1)
  {
    FormatNames(CategoryNames(k.categories))
  }

  /** `Service.formatted_categories`. */
  function ServiceFormattedCategories(s: Service): (r: string)
    ensures s.categories == [] ==> r == ""
    ensures forall i :: 0 <= i < |s.categories| ==>
              OccursAt(s.categories[i].name, r, PartStart(CategoryNames(s.categories), ", ", i))
    ensures forall i :: 0 <= i < |s.categories| - 1 ==>
              OccursAt(", ", r, PartStart(CategoryNames(s.categories), ", ", i) + |s.categories[i].name|)
    ensures |s.categories| > 0 ==> |r| == TotalLength(CategoryNames(s.categories)) + 2 * (|s.categories| - 1)
  {
    FormatNames(CategoryNames(s.categories))
  }

  /** `Service.formatted_keywords`. */
  function ServiceFormattedKeywords(s: Service): (r: string)
    ensures s.keywords == [] ==> r == ""
    ensures forall i :: 0 <= i < |s.keywords| ==>
              OccursAt(s.keywords[i].name, r, PartStart(KeywordNames(s.keywords), ", ", i))
    ensures forall i :: 0 <= i < |s.keywords| - 1 ==>
              OccursAt(", ", r, PartStart(KeywordNames(s.keywords), ", ", i) + |s.keywords[i].name|)
    ensures |s.keywords| > 0 ==> |r| == TotalLength(KeywordNames(s.keywords)) + 2 * (|s.keywords| - 1)
  {
    FormatNames(KeywordNames(s.keywords))
  }

  // ---------------------------------------------------------------------
  // CountryArea

  /** `CountryArea.AREA_LEVELS`, the choices of the `level` field. */
  const AreaLevels: seq<(int, string)> :=
    [(1, "Province/State"), (2, "Region"), (3, "Municipality/City/Town"), (4, "Suburb/Area")]

  /** `dict(choices).get(value)`: the label of the last choice whose value
      is `value`, since a later pair overwrites an earlier one in the dict. */
  function ChoiceLabel(choices: seq<(int, string)>, value: int): (r: Option<string>)
    ensures r.Some? <==> exists i :: 0 <= i < |choices| && choices[i].0 == value
    ensures r.Some? ==> exists i :: 0 <= i < |choices| && choices[i] == (value, r.value)
                                    && forall j :: i < j < |choices| ==> choices[j].0 != value
    decreases |choices|
  {
    if choices == [] then None
    else if choices[|choices| - 1].0 == value then Some(choices[|choices| - 1].1)
    else
      var front := choices[..|choices| - 1];
      var r := ChoiceLabel(front, value);
      assert forall i :: 0 <= i < |front| ==> front[i] == choices[i];
      assert (exists i :: 0 <= i < |choices| && choices[i].0 == value)
         ==> (exists i :: 0 <= i < |front| && front[i].0 == value) by {
        if exists i :: 0 <= i < |choices| && choices[i].0 == value {
          var i :| 0 <= i < |choices| && choices[i].0 == value;
          assert i < |front| && front[i].0 == value;
        }
      }
      assert r.Some? ==> exists i :: 0 <= i < |choices| && choices[i] == (value, r.value)
                                     && forall j :: i < j < |choices| ==> choices[j].0 != value by {
        if r.Some? {
          var i :| 0 <= i < |front| && front[i] == (value, r.value)
                   && forall j :: i < j < |front| ==> front[j].0 != value;
          assert choices[i] == (value, r.value);
        }
      }
      r
  }

  /** `get_level_display()`: the choice label, or the value itself as text
      when it is not one of the choices. */
  function LevelDisplay(level: int): string {
    match ChoiceLabel(AreaLevels, level)
    case Some(name) => name
    case None => IntToString(level)
  }

  /** `CountryArea.__unicode__`: `"name (label in country)"`. The area's
      name, its level's label and its country's name can be read back from
      the text at fixed offsets. */
  function CountryAreaDisplay(a: CountryArea): (r: string)
    ensures var n, l := |a.name|, |LevelDisplay(a.level)|;
            && |r| == n + l + |a.country.name| + 7
            && r[..n] == a.name && r[n..n + 2] == " ("
            && r[n + 2..n + 2 + l] == LevelDisplay(a.level)
            && r[n + 2 + l..n + 6 + l] == " in "
            && r[n + 6 + l..|r| - 1] == a.country.name && r[|r| - 1] == ')'
  {
    a.name + " (" + LevelDisplay(a.level) + " in " + CountryDisplay(a.country) + ")"
  }

  /** Levels 1 to 4 display their label from `AREA_LEVELS`. */
  lemma LevelDisplayOfChoices(level: int)
    requires 1 <= level <= 4
    ensures LevelDisplay(level) == AreaLevels[level - 1].1
  {
  }

  /** Other levels display as their decimal numeral. */
  lemma LevelDisplayOutsideChoices(level: int)
    requires level < 1 || level > 4
    ensures LevelDisplay(level) == IntToString(level)
    ensures ParseInt(LevelDisplay(level)) == Some(level)
  {
    IntToStringRoundTrip(level);
  }

  lemma NumeralStart(i: int)
    ensures IntToString(i) != [] && (IsDigit(IntToString(i)[0]) || IntToString(i)[0] == '-')
  {
    if i < 0 {
      NatToStringRoundTrip(-i);
    } else {
      NatToStringRoundTrip(i);
    }
  }

  /** A label of `AREA_LEVELS` starts with a letter, so it is no numeral. */
  lemma ChoiceDisplayNotNumeral(level: int)
    requires 1 <= level <= 4
    ensures LevelDisplay(level) != [] && !IsDigit(LevelDisplay(level)[0]) && LevelDisplay(level)[0] != '-'
  {
    LevelDisplayOfChoices(level);
  }

  /** Two levels from `AREA_LEVELS` with one label are the same level. */
  lemma ChoiceDisplayInjective(a: int, b: int)
    requires 1 <= a <= 4 && 1 <= b <= 4
    ensures LevelDisplay(a) == LevelDisplay(b) ==> a == b
  {
    LevelDisplayOfChoices(a);
    LevelDisplayOfChoices(b);
    if a != b {
      assert AreaLevels[a - 1].1[0] != AreaLevels[b - 1].1[0];
    }
  }

  /** Distinct levels never display alike. */
  lemma LevelDisplayInjective(a: int, b: int)
    ensures LevelDisplay(a) == LevelDisplay(b) ==> a == b
  {
    if 1 <= a <= 4 && 1 <= b <= 4 {
      ChoiceDisplayInjective(a, b);
    } else if 1 <= a <= 4 {
      ChoiceDisplayNotNumeral(a);
      LevelDisplayOutsideChoices(b);
      NumeralStart(b);
    } else if 1 <= b <= 4 {
      ChoiceDisplayNotNumeral(b);
      LevelDisplayOutsideChoices(a);
      NumeralStart(a);
    } else {
      LevelDisplayOutsideChoices(a);
      LevelDisplayOutsideChoices(b);
    }
  }

  lemma SameSlice(r: string, x: string, y: string, i: nat)
    requires |x| == |y| && i + |x| <= |r|
    requires r[i..i + |x|] == x && r[i..i + |y|] == y
    ensures x == y
  {
  }

  /** Two areas of one name in one country display alike only when they are
      at the same level, so the label tells such areas apart. */
  lemma CountryAreaDisplayDistinguishesLevels(a: CountryArea, b: CountryArea)
    requires a.name == b.name && a.country == b.country
    requires CountryAreaDisplay(a) == CountryAreaDisplay(b)
    ensures a.level == b.level
  {
    var n := |a.name|;
    var la, lb := LevelDisplay(a.level), LevelDisplay(b.level);
    assert |la| == |lb|;
    SameSlice(CountryAreaDisplay(a), la, lb, n + 2);
    LevelDisplayInjective(a.level, b.level);
  }
}
