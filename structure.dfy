/** The discovered shape of a collection, and the merge of two shapes.

    A Structure is the dictionary the exporter builds for a collection: an
    optional `fields` entry (field name to type tag) and an optional
    `subcollections` entry (sub-collection name to its Structure). `None` and
    `Absent` stand for an absent key; `Some(map[])` and `Present(map[])` for a
    key holding an empty dictionary. */
module Structures {
  import opened Wrappers
  import opened Store

  datatype Structure = Structure(fields: Option<map<string, TypeTag>>, subcollections: SubcollectionsEntry)

  /** The `subcollections` key of a Structure: absent, or present with a
      (possibly empty) map from sub-collection name to its Structure. */
  datatype SubcollectionsEntry = Absent | Present(byName: map<string, Structure>)

  /** The structure with neither key. */
  const Empty := Structure(None, Absent)

  /** `st.get("fields", {})`: the field map, empty when the key is absent. */
  function FieldsOf(st: Structure): map<string, TypeTag> {
    st.fields.GetOr(map[])
  }

  /** `st.get("subcollections", {})`. */
  function SubsOf(st: Structure): map<string, Structure> {
    if st.subcollections.Present? then st.subcollections.byName else map[]
  }

  /** A sub-structure is smaller than the structure that holds it. */
  lemma SubsOfRank(st: Structure, name: string)
    requires name in SubsOf(st)
    ensures SubsOf(st)[name] < st
  {
  }

  /** What `merge_collection_structures(target, source)` leaves in `target`.
      Field types already in the target stay; new ones come from the source.
      The sub-collections are left alone when the source has none; otherwise
      shared names are merged recursively and new ones are copied in. The
      target always ends up with a `fields` key. */
  function Merge(target: Structure, source: Structure): Structure
    decreases source
  {
    var fields := Some(FieldsOf(source) + FieldsOf(target));
    var sourceSubs := SubsOf(source);
    if sourceSubs == map[] then Structure(fields, target.subcollections)
    else Structure(fields, Present(MergedSubs(SubsOf(target), source)))
  }

  /** The sub-collection map after merging the sub-collections of `source`
      into `targetSubs`. */
  function MergedSubs(targetSubs: map<string, Structure>, source: Structure): map<string, Structure>
    decreases source, 0
  {
    var sourceSubs := SubsOf(source);
    map name | name in targetSubs.Keys + sourceSubs.Keys ::
      if name !in sourceSubs then targetSubs[name]
      else if name in targetSubs then Merge(targetSubs[name], sourceSubs[name])
      else sourceSubs[name]
  }

  /** The merge as the source performs it: field by field and sub-collection
      by sub-collection, recursing into shared sub-collections. The source
      mutates `target` in place and deep-copies new sub-structures; here the
      updated target is returned. */
  method MergeInto(target: Structure, source: Structure) returns (r: Structure)
    ensures r == Merge(target, source)
    decreases source
  {
    var targetFields := FieldsOf(target);
    var sourceFields := FieldsOf(source);
    var pending := sourceFields.Keys;
    while pending != {}
      invariant pending <= sourceFields.Keys
      invariant targetFields == (sourceFields - pending) + FieldsOf(target)
      decreases pending
    {
      var name :| name in pending;
      if name !in targetFields {
        targetFields := targetFields[name := sourceFields[name]];
      }
      pending := pending - {name};
    }
    assert sourceFields - {} == sourceFields;

    var sourceSubs := SubsOf(source);
    if sourceSubs == map[] {
      return Structure(Some(targetFields), target.subcollections);
    }
    var original := SubsOf(target);
    var targetSubs := original;
    var todo := sourceSubs.Keys;
    while todo != {}
      invariant todo <= sourceSubs.Keys
      invariant targetSubs.Keys == original.Keys + (sourceSubs.Keys - todo)
      invariant forall name | name in targetSubs ::
        targetSubs[name] ==
          if name !in sourceSubs || name in todo then original[name]
          else if name in original then Merge(original[name], sourceSubs[name])
          else sourceSubs[name]
      decreases todo
    {
      var name :| name in todo;
      if name in targetSubs {
        SubsOfRank(source, name);
        var merged := MergeInto(targetSubs[name], sourceSubs[name]);
        targetSubs := targetSubs[name := merged];
      } else {
        targetSubs := targetSubs[name := sourceSubs[name]];
      }
      todo := todo - {name};
    }
    assert targetSubs == MergedSubs(original, source);
    r := Structure(Some(targetFields), Present(targetSubs));
  }

  /** The structure reached from `st` by following a path of sub-collection
      names, if there is one. */
  function Lookup(st: Structure, path: seq<string>): Option<Structure>
    decreases |path|
  {
    if path == [] then Some(st)
    else if path[0] in SubsOf(st) then Lookup(SubsOf(st)[path[0]], path[1..])
    else None
  }

  /** The field map of the structure at `path`, empty when there is none. */
  function FieldsAt(st: Structure, path: seq<string>): map<string, TypeTag> {
    match Lookup(st, path)
    case None => map[]
    case Some(node) => FieldsOf(node)
  }

  /** No `subcollections` key anywhere in the tree holds an empty map. */
  ghost predicate NoEmptySubcollections(st: Structure)
    decreases st, 1
  {
    st.subcollections != Present(map[]) && NoEmptySubcollectionsBelow(st)
  }

  /** No `subcollections` key below the top of the tree holds an empty map. */
  ghost predicate NoEmptySubcollectionsBelow(st: Structure)
    decreases st, 0
  {
    forall name | name in SubsOf(st) :: NoEmptySubcollections(SubsOf(st)[name])
  }

  /** First-write-wins union of the top-level fields: the keys are those of
      both, an existing field keeps its type, and a new field carries the
      source's type. */
  lemma MergeFields(target: Structure, source: Structure)
    ensures Merge(target, source).fields.Some?
    ensures FieldsOf(Merge(target, source)).Keys == FieldsOf(target).Keys + FieldsOf(source).Keys
    ensures forall name | name in FieldsOf(target) ::
      FieldsOf(Merge(target, source))[name] == FieldsOf(target)[name]
    ensures forall name | name in FieldsOf(source) && name !in FieldsOf(target) ::
      FieldsOf(Merge(target, source))[name] == FieldsOf(source)[name]
  {
  }

  /** A source without sub-collections leaves the target's `subcollections`
      key exactly as it was, absent or present. */
  lemma MergeWithoutSourceSubcollections(target: Structure, source: Structure)
    requires SubsOf(source) == map[]
    ensures Merge(target, source).subcollections == target.subcollections
  {
  }

  /** A source with sub-collections gives the target the union of both name
      sets: names only in the target keep their structure, names only in the
      source are copied in, shared names are merged recursively. */
  lemma MergeSubcollections(target: Structure, source: Structure)
    requires SubsOf(source) != map[]
    ensures Merge(target, source).subcollections.Present?
    ensures SubsOf(Merge(target, source)).Keys == SubsOf(target).Keys + SubsOf(source).Keys
    ensures forall name | name in SubsOf(target) && name !in SubsOf(source) ::
      SubsOf(Merge(target, source))[name] == SubsOf(target)[name]
    ensures forall name | name in SubsOf(source) && name !in SubsOf(target) ::
      SubsOf(Merge(target, source))[name] == SubsOf(source)[name]
    ensures forall name | name in SubsOf(source) && name in SubsOf(target) ::
      SubsOf(Merge(target, source))[name] == Merge(SubsOf(target)[name], SubsOf(source)[name])
  {
  }

  /** The merge at every depth: a path leads somewhere in the merged tree
      exactly when it does in the target or in the source, and the fields
      found there are the first-write-wins union of the target's and the
      source's fields at that path. */
  lemma {:induction false} MergeAt(target: Structure, source: Structure, path: seq<string>)
    ensures Lookup(Merge(target, source), path).Some? <==>
      Lookup(target, path).Some? || Lookup(source, path).Some?
    ensures FieldsAt(Merge(target, source), path) == FieldsAt(source, path) + FieldsAt(target, path)
    decreases |path|
  {
    var merged := Merge(target, source);
    if path == [] {
    } else {
      var name, rest := path[0], path[1..];
      var ts, ss := SubsOf(target), SubsOf(source);
      if ss == map[] {
        assert SubsOf(merged) == ts;
        assert Lookup(source, path) == None;
      } else {
        MergeSubcollections(target, source);
        if name in ts && name in ss {
          MergeAt(ts[name], ss[name], rest);
        } else if name in ts {
          assert Lookup(merged, path) == Lookup(ts[name], rest) == Lookup(target, path);
        } else if name in ss {
          assert Lookup(merged, path) == Lookup(ss[name], rest) == Lookup(source, path);
        } else {
          assert Lookup(merged, path) == None;
        }
      }
    }
  }

  /** Merging never creates an empty `subcollections` map: it adds that key
      only when the source brings at least one sub-collection. */
  lemma {:induction false} MergeKeepsNoEmptySubcollections(target: Structure, source: Structure)
    requires NoEmptySubcollections(target) && NoEmptySubcollections(source)
    ensures NoEmptySubcollections(Merge(target, source))
    decreases source, 1
  {
    MergeKeepsNoEmptySubcollectionsBelow(target, source);
    if SubsOf(source) != map[] {
      MergeSubcollections(target, source);
    }
  }

  /** The same, below the top: the target's own `subcollections` entry may be
      empty (the aggregate a collection starts from has one). */
  lemma {:induction false} MergeKeepsNoEmptySubcollectionsBelow(target: Structure, source: Structure)
    requires NoEmptySubcollectionsBelow(target) && NoEmptySubcollectionsBelow(source)
    ensures NoEmptySubcollectionsBelow(Merge(target, source))
    decreases source, 0
  {
    var merged := Merge(target, source);
    if SubsOf(source) != map[] {
      MergeSubcollections(target, source);
      var ts, ss := SubsOf(target), SubsOf(source);
      forall name | name in SubsOf(merged) ensures NoEmptySubcollections(SubsOf(merged)[name]) {
        if name in ts && name in ss {
          MergeKeepsNoEmptySubcollections(ts[name], ss[name]);
        }
      }
    } else {
      assert SubsOf(merged) == SubsOf(target);
    }
  }

  /** With disjoint field names the merged fields do not depend on the order
      of the two structures. */
  lemma MergeDisjointFieldsCommute(a: Structure, b: Structure)
    requires FieldsOf(a).Keys !! FieldsOf(b).Keys
    ensures Merge(a, b).fields == Merge(b, a).fields
  {
    assert FieldsOf(b) + FieldsOf(a) == FieldsOf(a) + FieldsOf(b);
  }

  /** On a field both structures have with different types, the order of the
      merge decides which type is kept: always the target's. */
  lemma MergeOrderDecidesConflicts(a: Structure, b: Structure, name: string)
    requires name in FieldsOf(a) && name in FieldsOf(b) && FieldsOf(a)[name] != FieldsOf(b)[name]
    ensures FieldsOf(Merge(a, b))[name] == FieldsOf(a)[name]
    ensures FieldsOf(Merge(b, a))[name] == FieldsOf(b)[name]
  {
  }

  /** Merging into a structure without a `fields` key adds one even when
      neither side has a field, so a merge result can hold an empty `fields`
      dictionary. */
  lemma MergeAddsEmptyFields()
    ensures Merge(Empty, Empty) == Structure(Some(map[]), Absent)
  {
  }
}
