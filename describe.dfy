/** Describing documents and collections.

    A document is described by the type tag of each of its fields and by the
    description of each attached sub-collection. A collection is described by
    folding the descriptions of its sampled documents, in sample order, into
    one aggregate with the first-write-wins merge, then dropping an empty
    `fields` or `subcollections` entry. The two call each other down the
    finite document tree. */
module Describe {
  import opened Wrappers
  import opened Store
  import opened Structures
  import opened Sampler

  /** `doc_snapshot.to_dict() or {}`. */
  function DataOf(d: Document): map<string, Value> {
    d.data.GetOr(map[])
  }

  /** The type tag of every field of `data`. */
  function TypeTags(data: map<string, Value>): (tags: map<string, TypeTag>)
    ensures tags.Keys == data.Keys
    ensures forall name | name in data :: tags[name] == data[name].typeName
  {
    map name | name in data :: data[name].typeName
  }

  /** The ids of a sequence of collections. */
  function Ids(cs: seq<Collection>): set<string> {
    set c | c in cs :: c.id
  }

  /** The aggregate a collection's description starts from:
      `{"fields": {}, "subcollections": {}}`. */
  const Initial := Structure(Some(map[]), Present(map[]))

  /** Drops the `subcollections` and `fields` entries that hold an empty map. */
  function Strip(st: Structure): (r: Structure)
    ensures r.fields != Some(map[]) && r.subcollections != Present(map[])
    ensures FieldsOf(r) == FieldsOf(st) && SubsOf(r) == SubsOf(st)
  {
    Structure(
      if st.fields == Some(map[]) then None else st.fields,
      if st.subcollections == Present(map[]) then Absent else st.subcollections)
  }

  /** What `describe_collection` returns, or the store error that aborts it. */
  function CollectionShape(c: Collection, cfg: Config): Result<Structure, StoreError>
    decreases c, 2, 0
  {
    match Sample(c, cfg)
    case Err(e) => Err(e)
    case Ok(docs) =>
      SampleRank(c, cfg);
      match FoldShapes(c, docs, Initial, cfg)
      case Err(e) => Err(e)
      case Ok(aggregate) => Ok(Strip(aggregate))
  }

  /** Merges the descriptions of `docs`, first to last, into `acc`; stops at
      the first document whose description fails. */
  function FoldShapes(c: Collection, docs: seq<Document>, acc: Structure, cfg: Config): Result<Structure, StoreError>
    requires forall d | d in docs :: d < c
    decreases c, 1, |docs|
  {
    if docs == [] then Ok(acc)
    else
      assert docs[0] in docs;
      assert forall d | d in docs[1..] :: d in docs;
      match DocumentShape(docs[0], cfg)
      case Err(e) => Err(e)
      case Ok(shape) => FoldShapes(c, docs[1..], Merge(acc, shape), cfg)
  }

  /** What `describe_document` returns, or the store error that aborts it. */
  function DocumentShape(d: Document, cfg: Config): Result<Structure, StoreError>
    decreases d, 1, 0
  {
    match ShapesById(d.subcollections, map[], cfg)
    case Err(e) => Err(e)
    case Ok(subs) =>
      Ok(Structure(Some(TypeTags(DataOf(d))), if subs == map[] then Absent else Present(subs)))
  }

  /** Describes each collection of `cs` in turn and files its description
      under its id in `acc`; a later collection with the same id replaces an
      earlier one, as a dictionary assignment does. */
  function ShapesById(cs: seq<Collection>, acc: map<string, Structure>, cfg: Config): Result<map<string, Structure>, StoreError>
    decreases cs, 0, |cs|
  {
    if cs == [] then Ok(acc)
    else match CollectionShape(cs[0], cfg)
      case Err(e) => Err(e)
      case Ok(shape) => ShapesById(cs[1..], acc[cs[0].id := shape], cfg)
  }

  /** `describe_collection`: samples the collection, describes and merges each
      sampled document in order, and strips the empty entries. `visited` is
      the `doc_count` the source logs. */
  method DescribeCollection(c: Collection, cfg: Config) returns (r: Result<Structure, StoreError>, visited: nat)
    ensures r == CollectionShape(c, cfg)
    ensures r.Ok? ==> Sample(c, cfg).Ok? && visited == |Sample(c, cfg).value|
    ensures r.Ok? && cfg.sampleLimit > 0 ==> visited <= cfg.sampleLimit
    decreases c, 2, 0
  {
    var sample := SampleDocuments(c, cfg);
    if sample.Err? {
      return Err(sample.error), 0;
    }
    var docs := sample.value;
    SampleRank(c, cfg);
    var aggregate := Initial;
    var count := 0;
    while count < |docs|
      invariant count <= |docs|
      invariant forall d | d in docs[count..] :: d < c
      invariant FoldShapes(c, docs[count..], aggregate, cfg) == FoldShapes(c, docs, Initial, cfg)
    {
      assert docs[count] in docs;
      var shape := DescribeDocument(docs[count], cfg);
      if shape.Err? {
        return Err(shape.error), count;
      }
      assert docs[count..][1..] == docs[count + 1..];
      aggregate := MergeInto(aggregate, shape.value);
      count := count + 1;
    }
    if cfg.sampleLimit > 0 {
      SampleBounded(c, cfg);
    }
    r, visited := Ok(Strip(aggregate)), count;
  }

  /** `describe_document`: the type tag of every field, then the description
      of every sub-collection, the `subcollections` entry kept only when there
      is at least one. */
  method DescribeDocument(d: Document, cfg: Config) returns (r: Result<Structure, StoreError>)
    ensures r == DocumentShape(d, cfg)
    decreases d, 1, 0
  {
    var data := if d.data.Some? then d.data.value else map[];
    var fieldTypes := map[];
    var pending := data.Keys;
    while pending != {}
      invariant pending <= data.Keys
      invariant fieldTypes == TypeTags(data - pending)
      decreases pending
    {
      var name :| name in pending;
      fieldTypes := fieldTypes[name := data[name].typeName];
      pending := pending - {name};
    }
    assert data - {} == data;

    var subcollections := map[];
    var i := 0;
    while i < |d.subcollections|
      invariant i <= |d.subcollections|
      invariant ShapesById(d.subcollections[i..], subcollections, cfg) == ShapesById(d.subcollections, map[], cfg)
    {
      var sub, _ := DescribeCollection(d.subcollections[i], cfg);
      if sub.Err? {
        return Err(sub.error);
      }
      assert d.subcollections[i..][1..] == d.subcollections[i + 1..];
      subcollections := subcollections[d.subcollections[i].id := sub.value];
      i := i + 1;
    }
    r := Ok(Structure(Some(fieldTypes), if subcollections == map[] then Absent else Present(subcollections)));
  }

  /** A document's description records every field of its data with that
      value's type tag, and nothing else. */
  lemma DocumentShapeFields(d: Document, cfg: Config)
    requires DocumentShape(d, cfg).Ok?
    ensures DocumentShape(d, cfg).value.fields.Some?
    ensures FieldsOf(DocumentShape(d, cfg).value).Keys == DataOf(d).Keys
    ensures forall name | name in DataOf(d) ::
      FieldsOf(DocumentShape(d, cfg).value)[name] == DataOf(d)[name].typeName
  {
  }

  /** Filing descriptions by id yields exactly the ids of the collections
      described, besides what was there. */
  lemma {:induction false} ShapesByIdKeys(cs: seq<Collection>, acc: map<string, Structure>, cfg: Config)
    requires ShapesById(cs, acc, cfg).Ok?
    ensures ShapesById(cs, acc, cfg).value.Keys == acc.Keys + Ids(cs)
    decreases |cs|
  {
    if cs != [] {
      ShapesByIdKeys(cs[1..], acc[cs[0].id := CollectionShape(cs[0], cfg).value], cfg);
      assert Ids(cs) == {cs[0].id} + Ids(cs[1..]) by {
        assert forall c | c in cs :: c == cs[0] || c in cs[1..];
      }
    }
  }

  /** One failing description aborts the whole walk: filing succeeds exactly
      when every collection's description succeeds, and a failure carries the
      error of the first collection, in listing order, whose description
      fails. */
  lemma {:induction false} ShapesByIdFails(cs: seq<Collection>, acc: map<string, Structure>, cfg: Config)
    ensures ShapesById(cs, acc, cfg).Ok? <==> forall i | 0 <= i < |cs| :: CollectionShape(cs[i], cfg).Ok?
    ensures ShapesById(cs, acc, cfg).Err? ==>
      exists i | 0 <= i < |cs| ::
        && CollectionShape(cs[i], cfg) == Err(ShapesById(cs, acc, cfg).error)
        && forall j | 0 <= j < i :: CollectionShape(cs[j], cfg).Ok?
    decreases |cs|
  {
    if cs != [] {
      var first := CollectionShape(cs[0], cfg);
      if first.Ok? {
        var rest := cs[1..];
        ShapesByIdFails(rest, acc[cs[0].id := first.value], cfg);
        assert forall i | 1 <= i < |cs| :: cs[i] == rest[i - 1];
        if ShapesById(cs, acc, cfg).Err? {
          var i :| 0 <= i < |rest| &&
            CollectionShape(rest[i], cfg) == Err(ShapesById(cs, acc, cfg).error) &&
            forall j | 0 <= j < i :: CollectionShape(rest[j], cfg).Ok?;
          assert cs[i + 1] == rest[i];
          assert forall j | 0 <= j < i + 1 :: CollectionShape(cs[j], cfg).Ok? by {
            forall j | 0 <= j < i + 1 ensures CollectionShape(cs[j], cfg).Ok? {
              if j > 0 { assert cs[j] == rest[j - 1]; }
            }
          }
        }
      }
    }
  }

  /** When the ids are distinct, each collection's description is filed under
      its own id, and what was there under other ids stays. */
  lemma {:induction false} ShapesByIdEntries(cs: seq<Collection>, acc: map<string, Structure>, cfg: Config)
    requires forall i, j | 0 <= i < j < |cs| :: cs[i].id != cs[j].id
    requires ShapesById(cs, acc, cfg).Ok?
    ensures forall i | 0 <= i < |cs| ::
      && CollectionShape(cs[i], cfg).Ok?
      && cs[i].id in ShapesById(cs, acc, cfg).value
      && ShapesById(cs, acc, cfg).value[cs[i].id] == CollectionShape(cs[i], cfg).value
    ensures forall name | name in acc && name !in Ids(cs) ::
      name in ShapesById(cs, acc, cfg).value && ShapesById(cs, acc, cfg).value[name] == acc[name]
    decreases |cs|
  {
    if cs != [] {
      var first := CollectionShape(cs[0], cfg);
      var rest, next := cs[1..], acc[cs[0].id := first.value];
      ShapesByIdEntries(rest, next, cfg);
      ShapesByIdKeys(rest, next, cfg);
      assert forall i | 1 <= i < |cs| :: cs[i] == rest[i - 1];
      assert cs[0].id !in Ids(rest);
      assert forall name | name !in Ids(cs) :: name !in Ids(rest) && name != cs[0].id;
    }
  }

  /** A document's `subcollections` entry is present exactly when the document
      has a sub-collection, and holds one entry per sub-collection name. */
  lemma DocumentShapeSubcollections(d: Document, cfg: Config)
    requires DocumentShape(d, cfg).Ok?
    ensures DocumentShape(d, cfg).value.subcollections.Present? <==> |d.subcollections| > 0
    ensures SubsOf(DocumentShape(d, cfg).value).Keys == Ids(d.subcollections)
  {
    ShapesByIdKeys(d.subcollections, map[], cfg);
    if |d.subcollections| > 0 {
      assert d.subcollections[0].id in Ids(d.subcollections);
    }
  }

  /** The reference definition of the aggregate field map: for every field
      name of any document, the type it has in the earliest document of
      `docs` that has it. */
  function FirstTypes(docs: seq<Document>): map<string, TypeTag> {
    if docs == [] then map[] else FirstTypes(docs[1..]) + TypeTags(DataOf(docs[0]))
  }

  /** FirstTypes holds the union of the documents' field names, each with the
      type from the earliest document that has the field. */
  lemma {:induction false} FirstTypesEarliest(docs: seq<Document>)
    ensures forall name :: name in FirstTypes(docs) <==> exists i | 0 <= i < |docs| :: name in DataOf(docs[i])
    ensures forall i, name | 0 <= i < |docs| && name in DataOf(docs[i]) &&
        (forall j | 0 <= j < i :: name !in DataOf(docs[j])) ::
      name in FirstTypes(docs) && FirstTypes(docs)[name] == DataOf(docs[i])[name].typeName
    decreases |docs|
  {
    if docs != [] {
      var rest := docs[1..];
      FirstTypesEarliest(rest);
      assert FirstTypes(docs) == FirstTypes(rest) + TypeTags(DataOf(docs[0]));
      assert forall i | 1 <= i < |docs| :: docs[i] == rest[i - 1];
      forall name | name in FirstTypes(docs)
        ensures exists i | 0 <= i < |docs| :: name in DataOf(docs[i])
      {
        if name !in DataOf(docs[0]) {
          var k :| 0 <= k < |rest| && name in DataOf(rest[k]);
          assert name in DataOf(docs[k + 1]);
        }
      }
      forall i, name | 0 <= i < |docs| && name in DataOf(docs[i]) &&
          (forall j | 0 <= j < i :: name !in DataOf(docs[j]))
        ensures name in FirstTypes(docs) && FirstTypes(docs)[name] == DataOf(docs[i])[name].typeName
      {
        if i > 0 {
          assert rest[i - 1] == docs[i];
          assert forall j | 0 <= j < i - 1 :: rest[j] == docs[j + 1];
        }
      }
    }
  }

  /** Folding merges in exactly the first-write-wins field maps: the fields of
      the fold's result are those of `acc`, then of each document in order,
      an earlier type taking precedence. */
  lemma {:induction false} FoldShapesFields(c: Collection, docs: seq<Document>, acc: Structure, cfg: Config)
    requires forall d | d in docs :: d < c
    requires FoldShapes(c, docs, acc, cfg).Ok?
    ensures FieldsOf(FoldShapes(c, docs, acc, cfg).value) == FirstTypes(docs) + FieldsOf(acc)
    decreases |docs|
  {
    if docs != [] {
      assert docs[0] in docs;
      assert forall d | d in docs[1..] :: d in docs;
      var shape := DocumentShape(docs[0], cfg).value;
      var merged := Merge(acc, shape);
      assert FoldShapes(c, docs, acc, cfg) == FoldShapes(c, docs[1..], merged, cfg);
      FoldShapesFields(c, docs[1..], merged, cfg);
      assert FieldsOf(merged) == TypeTags(DataOf(docs[0])) + FieldsOf(acc);
      UnionAssociative(FirstTypes(docs[1..]), TypeTags(DataOf(docs[0])), FieldsOf(acc));
    }
  }

  lemma UnionAssociative<K, V>(a: map<K, V>, b: map<K, V>, c: map<K, V>)
    ensures a + (b + c) == (a + b) + c
  {
  }

  /** The aggregate `fields` of a collection is the first-write-wins fold of
      the field maps of its sampled documents, in sample order. */
  lemma CollectionShapeFields(c: Collection, cfg: Config)
    requires CollectionShape(c, cfg).Ok?
    ensures Sample(c, cfg).Ok?
    ensures FieldsOf(CollectionShape(c, cfg).value) == FirstTypes(Sample(c, cfg).value)
  {
    SampleRank(c, cfg);
    FoldShapesFields(c, Sample(c, cfg).value, Initial, cfg);
  }

  /** The sub-collection names of all documents of `docs`. */
  function SubNames(docs: seq<Document>): set<string> {
    if docs == [] then {} else Ids(docs[0].subcollections) + SubNames(docs[1..])
  }

  /** Folding collects the sub-collection names of every document. */
  lemma {:induction false} FoldShapesSubNames(c: Collection, docs: seq<Document>, acc: Structure, cfg: Config)
    requires forall d | d in docs :: d < c
    requires FoldShapes(c, docs, acc, cfg).Ok?
    ensures SubsOf(FoldShapes(c, docs, acc, cfg).value).Keys == SubNames(docs) + SubsOf(acc).Keys
    decreases |docs|
  {
    if docs != [] {
      assert docs[0] in docs;
      assert forall d | d in docs[1..] :: d in docs;
      var shape := DocumentShape(docs[0], cfg).value;
      DocumentShapeSubcollections(docs[0], cfg);
      if SubsOf(shape) != map[] {
        MergeSubcollections(acc, shape);
      } else {
        MergeWithoutSourceSubcollections(acc, shape);
      }
      FoldShapesSubNames(c, docs[1..], Merge(acc, shape), cfg);
    }
  }

  /** The aggregate's sub-collection names are the union of the sampled
      documents' sub-collection names. */
  lemma CollectionShapeSubcollectionNames(c: Collection, cfg: Config)
    requires CollectionShape(c, cfg).Ok?
    ensures Sample(c, cfg).Ok?
    ensures SubsOf(CollectionShape(c, cfg).value).Keys == SubNames(Sample(c, cfg).value)
  {
    SampleRank(c, cfg);
    FoldShapesSubNames(c, Sample(c, cfg).value, Initial, cfg);
  }

  /** A collection's description never holds an empty `fields` or
      `subcollections` entry at its top. */
  lemma CollectionShapeStripped(c: Collection, cfg: Config)
    requires CollectionShape(c, cfg).Ok?
    ensures CollectionShape(c, cfg).value.fields != Some(map[])
    ensures CollectionShape(c, cfg).value.subcollections != Present(map[])
  {
  }

  /** A collection with no sampled documents is described by the structure
      with neither key. */
  lemma CollectionShapeNoDocuments(c: Collection, cfg: Config)
    requires Sample(c, cfg) == Ok([])
    ensures CollectionShape(c, cfg) == Ok(Empty)
  {
  }

  /** No `subcollections` entry anywhere in a collection's description is
      empty. (An empty `fields` entry can occur below the top; see
      NestedEmptyFields.) */
  lemma {:induction false} CollectionShapeNoEmptySubcollections(c: Collection, cfg: Config)
    requires CollectionShape(c, cfg).Ok?
    ensures NoEmptySubcollections(CollectionShape(c, cfg).value)
    decreases c, 2, 0
  {
    SampleRank(c, cfg);
    var docs := Sample(c, cfg).value;
    FoldShapesNoEmptySubcollections(c, docs, Initial, cfg);
  }

  lemma {:induction false} FoldShapesNoEmptySubcollections(c: Collection, docs: seq<Document>, acc: Structure, cfg: Config)
    requires forall d | d in docs :: d < c
    requires NoEmptySubcollectionsBelow(acc)
    requires FoldShapes(c, docs, acc, cfg).Ok?
    ensures NoEmptySubcollectionsBelow(FoldShapes(c, docs, acc, cfg).value)
    decreases c, 1, |docs|
  {
    if docs != [] {
      assert docs[0] in docs;
      assert forall d | d in docs[1..] :: d in docs;
      var shape := DocumentShape(docs[0], cfg).value;
      DocumentShapeNoEmptySubcollections(docs[0], cfg);
      MergeKeepsNoEmptySubcollectionsBelow(acc, shape);
      FoldShapesNoEmptySubcollections(c, docs[1..], Merge(acc, shape), cfg);
    }
  }

  lemma {:induction false} DocumentShapeNoEmptySubcollections(d: Document, cfg: Config)
    requires DocumentShape(d, cfg).Ok?
    ensures NoEmptySubcollections(DocumentShape(d, cfg).value)
    decreases d, 1, 0
  {
    ShapesByIdNoEmptySubcollections(d.subcollections, map[], cfg);
  }

  lemma {:induction false} ShapesByIdNoEmptySubcollections(cs: seq<Collection>, acc: map<string, Structure>, cfg: Config)
    requires forall name | name in acc :: NoEmptySubcollections(acc[name])
    requires ShapesById(cs, acc, cfg).Ok?
    ensures forall name | name in ShapesById(cs, acc, cfg).value :: NoEmptySubcollections(ShapesById(cs, acc, cfg).value[name])
    decreases cs, 0, |cs|
  {
    if cs != [] {
      CollectionShapeNoEmptySubcollections(cs[0], cfg);
      ShapesByIdNoEmptySubcollections(cs[1..], acc[cs[0].id := CollectionShape(cs[0], cfg).value], cfg);
    }
  }
}
