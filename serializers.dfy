/** The organisation summary the lookup endpoint returns, built as an
    `OrderedDict` one key at a time. */
module Serializers {
  import opened Common
  import opened Seqs
  import opened Models

  /** The JSON values a summary holds. */
  datatype Json = JNull | JInt(n: int) | JString(s: string) | JStrings(items: seq<string>)

  /** An `OrderedDict`: its entries in insertion order. */
  type OrderedDict = seq<(string, Json)>

  function Keys(d: OrderedDict): seq<string> {
    MapSeq(d, (e: (string, Json)) => e.0)
  }

  lemma KeysCons(e: (string, Json), d: OrderedDict)
    ensures Keys([e] + d) == [e.0] + Keys(d)
  {
    assert ([e] + d)[1..] == d;
  }

  /** `d[key]`, or `None` when the key is absent. */
  function Get(d: OrderedDict, key: string): Option<Json>
    decreases |d|
  {
    if d == [] then None
    else if d[0].0 == key then Some(d[0].1)
    else Get(d[1..], key)
  }

  /** The first entry with the key gives its value. */
  lemma {:induction false} GetAt(d: OrderedDict, i: nat, key: string)
    requires i < |d| && d[i].0 == key
    requires forall j :: 0 <= j < i ==> d[j].0 != key
    ensures Get(d, key) == Some(d[i].1)
    decreases i
  {
    if i > 0 {
      GetAt(d[1..], i - 1, key);
    }
  }

  /** `d[key] = value`: an existing key keeps its place, a new key goes last,
      and no other key changes its value. */
  function Assign(d: OrderedDict, key: string, value: Json): (r: OrderedDict)
    ensures key in Keys(d) ==> Keys(r) == Keys(d)
    ensures key !in Keys(d) ==> Keys(r) == Keys(d) + [key]
    ensures Get(r, key) == Some(value)
    ensures forall k :: k != key ==> Get(r, k) == Get(d, k)
    decreases |d|
  {
    if d == [] then [(key, value)]
    else
      KeysCons(d[0], d[1..]);
      assert d == [d[0]] + d[1..];
      if d[0].0 == key then
        KeysCons((key, value), d[1..]);
        [(key, value)] + d[1..]
      else
        var rest := Assign(d[1..], key, value);
        KeysCons(d[0], rest);
        assert ([d[0]] + rest)[1..] == rest;
        [d[0]] + rest
  }

  /** Assigning a key the dict lacks appends it. */
  lemma {:induction false} AssignNew(d: OrderedDict, key: string, value: Json)
    requires key !in Keys(d)
    ensures Assign(d, key, value) == d + [(key, value)]
    decreases |d|
  {
    if d != [] {
      KeysCons(d[0], d[1..]);
      assert d == [d[0]] + d[1..];
      AssignNew(d[1..], key, value);
      assert [d[0]] + (d[1..] + [(key, value)]) == d + [(key, value)];
    }
  }

  /** Assignment keeps every key once. */
  lemma AssignKeepsKeysUnique(d: OrderedDict, key: string, value: Json)
    requires NoDuplicates(Keys(d))
    ensures NoDuplicates(Keys(Assign(d, key, value)))
  {
  }

  /** The serialized instance: an organisation, and the `distance` attribute
      when the lookup attached one (`hasattr(instance, 'distance')`). */
  datatype SummaryInstance = SummaryInstance(organisation: Organisation, distance: Option<string>)

  const SummaryFields: seq<string> := ["id", "name", "address", "keywords", "distance"]

  /** What `to_representation` promises of `d`: exactly the five summary
      keys in order; id, name and address copied; the keyword names in
      related-manager order; the distance, or null when there is none. */
  predicate IsSummaryOf(d: OrderedDict, instance: SummaryInstance) {
    var o := instance.organisation;
    && Keys(d) == SummaryFields
    && Get(d, "id") == Some(JInt(o.id))
    && Get(d, "name") == Some(JString(o.name))
    && Get(d, "address") == Some(JString(o.address))
    && Get(d, "keywords").Some? && Get(d, "keywords").value.JStrings?
    && (var names := Get(d, "keywords").value.items;
        && |names| == |o.keywords|
        && forall i :: 0 <= i < |names| ==> names[i] == o.keywords[i].name)
    && Get(d, "distance") == Some(match instance.distance
                                  case Some(text) => JString(text)
                                  case None => JNull)
  }

  /** The five assignments of `to_representation`, in order, give the
      entries in that order. */
  lemma SummaryAssignments(id: int, name: string, address: string, names: seq<string>, distance: Json)
    ensures Assign(Assign(Assign(Assign(Assign([], "id", JInt(id)), "name", JString(name)),
                                 "address", JString(address)), "keywords", JStrings(names)), "distance", distance)
         == [("id", JInt(id)), ("name", JString(name)), ("address", JString(address)),
             ("keywords", JStrings(names)), ("distance", distance)]
  {
    var d1: OrderedDict := [("id", JInt(id))];
    var d2 := d1 + [("name", JString(name))];
    var d3 := d2 + [("address", JString(address))];
    var d4 := d3 + [("keywords", JStrings(names))];
    assert Keys(d1) == ["id"];
    AssignNew(d1, "name", JString(name));
    assert Keys(d2) == ["id", "name"];
    AssignNew(d2, "address", JString(address));
    assert Keys(d3) == ["id", "name", "address"];
    AssignNew(d3, "keywords", JStrings(names));
    assert Keys(d4) == ["id", "name", "address", "keywords"];
    AssignNew(d4, "distance", distance);
  }

  /** The five entries in order are the summary of the instance. */
  lemma SummaryEntries(instance: SummaryInstance)
    ensures var o := instance.organisation;
            var distance := if instance.distance.Some? then JString(instance.distance.value) else JNull;
            IsSummaryOf([("id", JInt(o.id)), ("name", JString(o.name)), ("address", JString(o.address)),
                         ("keywords", JStrings(KeywordNames(o.keywords))), ("distance", distance)], instance)
  {
    var o := instance.organisation;
    var distance := if instance.distance.Some? then JString(instance.distance.value) else JNull;
    var d: OrderedDict := [("id", JInt(o.id)), ("name", JString(o.name)), ("address", JString(o.address)),
                           ("keywords", JStrings(KeywordNames(o.keywords))), ("distance", distance)];
    assert Keys(d) == SummaryFields;
    GetAt(d, 0, "id");
    GetAt(d, 1, "name");
    GetAt(d, 2, "address");
    GetAt(d, 3, "keywords");
    GetAt(d, 4, "distance");
    var names := KeywordNames(o.keywords);
    assert |names| == |o.keywords| && forall i :: 0 <= i < |names| ==> names[i] == o.keywords[i].name;
  }

  /** `OrganisationSummarySerializer.to_representation`. */
  method ToRepresentation(instance: SummaryInstance) returns (d: OrderedDict)
    ensures IsSummaryOf(d, instance)
  {
    var o := instance.organisation;
    var names := KeywordNames(o.keywords);
    var distance := if instance.distance.Some? then JString(instance.distance.value) else JNull;
    d := [];
    d := Assign(d, "id", JInt(o.id));
    d := Assign(d, "name", JString(o.name));
    d := Assign(d, "address", JString(o.address));
    d := Assign(d, "keywords", JStrings(names));
    d := Assign(d, "distance", distance);
    SummaryAssignments(o.id, o.name, o.address, names, distance);
    SummaryEntries(instance);
  }
}
