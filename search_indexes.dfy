/** The organisation document of the search index: the categories field. */
module SearchIndexes {
  import opened Seqs
  import opened Models

  function CategoryIds(categories: seq<Category>): seq<nat> {
    MapSeq(categories, (c: Category) => c.id)
  }

  /** `OrganisationIndex.prepare_categories`: the ids of the organisation's
      categories, read through `order_by('pk')`. The organisation-category
      pairing is unique in the database, so the ids are distinct there and
      the result is then strictly ascending. */
  function PrepareCategories(o: Organisation): (r: seq<nat>)
    ensures Ascending(r)
    ensures multiset(r) == multiset(CategoryIds(o.categories))
    ensures |r| == |o.categories|
    ensures forall c :: c in o.categories ==> c.id in r
    ensures forall i :: 0 <= i < |r| ==> exists c :: c in o.categories && c.id == r[i]
    ensures NoDuplicates(CategoryIds(o.categories)) ==> NoDuplicates(r)
    ensures o.categories == [] ==> r == []
  {
    var ids := CategoryIds(o.categories);
    var r := Sort(ids);
    assert |r| == |multiset(r)| == |multiset(ids)| == |ids|;
    forall c | c in o.categories
      ensures c.id in r
    {
      var k :| 0 <= k < |o.categories| && o.categories[k] == c;
      assert ids[k] == c.id && ids[k] in multiset(ids);
    }
    forall i | 0 <= i < |r|
      ensures exists c :: c in o.categories && c.id == r[i]
    {
      assert r[i] in multiset(r);
      var k :| 0 <= k < |ids| && ids[k] == r[i];
      assert o.categories[k] in o.categories && o.categories[k].id == r[i];
    }
    r
  }

  /** With the unique pairing the ids come out strictly ascending. */
  lemma PrepareCategoriesStrictlyAscending(o: Organisation)
    requires NoDuplicates(CategoryIds(o.categories))
    ensures StrictlyAscending(PrepareCategories(o))
  {
    AscendingDistinct(PrepareCategories(o));
  }
}
