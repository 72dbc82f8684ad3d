# Firestore structure exporter: a Dafny model of structure discovery

The exporter infers the schema shape of a Firestore database and writes it as
JSON. For every root collection it samples documents and records each field's
type name. It descends into the sub-collections of each sampled document and
folds the per-document shapes into one structure per collection:

- **Sampler** (`_iter_documents_with_limit`). Limit 0 streams every document.
  Otherwise it asks for a descending ordered query on the order field, at most
  `limit` documents. A precondition-failed or invalid-argument error makes it
  fall back to the first `limit` documents of the unordered stream. Any other
  error aborts the export.
- **Document describer** (`describe_document`). A `fields` map of
  field name to type name, plus a `subcollections` map. The `subcollections`
  key is there only when the document has at least one sub-collection.
- **Collection describer** (`describe_collection`). Starts from
  `{"fields": {}, "subcollections": {}}`, merges each sampled document's
  structure in sample order, then drops whichever of the two keys is empty.
- **Merger** (`merge_collection_structures`). First-write-wins. A field
  already in the target keeps its type. Shared sub-collections are merged
  recursively. New ones are copied in.
- **Exporter** (`export_structure`). Describes every root collection and
  files the result under the collection's id.

The store is a finite tree of values (`store.dfy`). A `Collection` has an id,
its unordered stream, and the store's answer to a descending query on each
order field: either the whole descending sequence or an error. The model
applies `.limit(L)` to that answer itself. A field with no entry is treated as
a query that fails with a precondition error, as a missing index does. A
field value is reduced to its type name, `type(value).__name__`, so the tags
are Python's names (`"str"`, `"int"`, `"dict"`). The sample limit and
the order field are a `Config` value passed as a parameter. The source keeps
them as module globals.

Every operation comes in two forms:

- an imperative method that follows the source's loops:
  `MergeInto`, `SampleDocuments`, `DescribeDocument`, `DescribeCollection`
  and `ExportStructure`;
- a reference function that the method is proved equal to:
  `Merge`, `Sample`, `DocumentShape`, `CollectionShape` and `ExportShape`.

The lemmas state what those functions promise. Dictionaries become values:
`Option`/`Absent` stands for a missing key, and `Some(map[])` or
`Present(map[])` for a key holding an empty dictionary.

Empty entries are stripped only at the top of each collection's result. The
merge's `setdefault("fields", {})` then adds an empty `fields` entry to a
nested structure that had none. This happens when two documents share a
sub-collection whose documents have no fields (`Export.NestedEmptyFields`).
`Describe.CollectionShapeStripped` proves that the top of a collection's
result has no empty entry. `Describe.CollectionShapeNoEmptySubcollections`
proves that no `subcollections` entry is ever empty, at any depth.

## Model

| member | source | states |
|---|---|---|
| `Store.OrderedQuery` | export_structure.py:93-97 | on success the answer is the first `limit` documents of the store's descending answer for the field; otherwise it is that answer's error, or a precondition error for a field the store cannot order by |
| `Sampler.OrderField` | export_structure.py:93 | the order field is the configured one, or `__name__` when the configured one is empty |
| `Sampler.SampleDocuments` | export_structure.py:88-113 | the generator's output, with the fallback loop stopping once `limit` documents are taken, equals the reference sample `Sample` |
| `Sampler.SampleUnbounded` | export_structure.py:89-91 | with limit 0 every document of the stream is yielded, in stream order |
| `Sampler.SampleBounded` | export_structure.py:94-113 | with a limit, neither the ordered path nor the fallback yields more than `limit` documents |
| `Sampler.SampleOrdered` | export_structure.py:94-98 | a successful ordered query is yielded as the store answered it |
| `Sampler.SampleFallback` | export_structure.py:108-113 | on the fallback path the sample is exactly the first min(limit, n) documents of the unordered stream |
| `Sampler.SampleFails` | export_structure.py:96-99 | the sampler fails exactly when the ordered query fails with an error outside the precondition-failed / invalid-argument class, and with that error |
| `Structures.MergeInto` | export_structure.py:117-133 | merging field by field and sub-collection by sub-collection, recursing on shared names, yields `Merge(target, source)` |
| `Structures.MergeFields` | export_structure.py:118-120 | the merged field keys are the union of both; an existing field keeps its type; a new field carries the source's type; the target always gets a `fields` key |
| `Structures.MergeWithoutSourceSubcollections` | export_structure.py:122-124 | a source with no sub-collections leaves the target's `subcollections` entry exactly as it was |
| `Structures.MergeSubcollections` | export_structure.py:126-131 | otherwise the merged sub-collection names are the union; target-only entries stay, source-only entries are copied, shared ones are merged recursively |
| `Structures.MergeAt` | export_structure.py:117-133 | at every path of sub-collection names the merged tree has a node exactly when either input has one, and its fields are the first-write-wins union of the target's and source's fields at that path |
| `Structures.MergeKeepsNoEmptySubcollections` | export_structure.py:122-131 | merging never creates an empty `subcollections` map anywhere in the tree |
| `Structures.MergeKeepsNoEmptySubcollectionsBelow` | export_structure.py:122-131 | the same below the top, where the target's own entry may be empty |
| `Structures.MergeDisjointFieldsCommute` | export_structure.py:118-120 | with disjoint field names the merged fields do not depend on the order of the two structures |
| `Structures.MergeOrderDecidesConflicts` | export_structure.py:118-120 | on a field with two different types, merging A then B keeps A's type and merging B then A keeps B's |
| `Structures.MergeAddsEmptyFields` | export_structure.py:118 | merging two structures without fields leaves a `fields` key holding an empty map |
| `Describe.TypeTags` | export_structure.py:45-46 | one entry per data field, holding that value's type name |
| `Describe.Strip` | export_structure.py:79-82 | the result has no empty `fields` or `subcollections` entry, and the same field and sub-collection maps |
| `Describe.DescribeDocument` | export_structure.py:41-57 | the two loops (type tags of the data, then the description of each sub-collection) yield `DocumentShape` |
| `Describe.DescribeCollection` | export_structure.py:61-84 | sampling, then describing and merging each document in order, then stripping, yields `CollectionShape`; on success the document count equals the sample size and is at most the limit |
| `Describe.DocumentShapeFields` | export_structure.py:42-48 | a document's `fields` has exactly the keys of its data (empty for a missing snapshot), each mapped to the value's type name |
| `Describe.DocumentShapeSubcollections` | export_structure.py:50-55 | `subcollections` is present exactly when the document has a sub-collection, with one entry per sub-collection id |
| `Describe.ShapesByIdKeys` | export_structure.py:50-52 | filing descriptions by id yields exactly the ids of the described collections |
| `Describe.ShapesByIdFails` | export_structure.py:50-52 | filing succeeds exactly when every collection's description succeeds; a failure carries the error of the first failing collection in listing order |
| `Describe.ShapesByIdEntries` | export_structure.py:50-52 | with distinct ids each collection's description is filed under its own id |
| `Describe.FirstTypesEarliest` | export_structure.py:66-68 | the reference map `FirstTypes` holds the union of the documents' field names, each with the type from the earliest document that has it |
| `Describe.FoldShapesFields` | export_structure.py:66-68 | the fields of the fold are `FirstTypes` of the documents over the accumulator's fields |
| `Describe.CollectionShapeFields` | export_structure.py:62-68 | a collection's aggregate `fields` equals the first-write-wins fold `FirstTypes` of its sampled documents, in sample order |
| `Describe.FoldShapesSubNames` | export_structure.py:66-68 | the fold's sub-collection names are those of every folded document plus the accumulator's |
| `Describe.CollectionShapeSubcollectionNames` | export_structure.py:62-68 | a collection's sub-collection names are the union of those of its sampled documents |
| `Describe.CollectionShapeStripped` | export_structure.py:79-82 | a collection's description has no empty `fields` or `subcollections` entry at its top |
| `Describe.CollectionShapeNoDocuments` | export_structure.py:62-82 | a collection with no sampled documents is described by the structure with neither key |
| `Describe.CollectionShapeNoEmptySubcollections` | export_structure.py:61-84 | no `subcollections` entry anywhere in a collection's description is empty |
| `Describe.FoldShapesNoEmptySubcollections` | export_structure.py:66-68 | folding keeps every sub-structure below the aggregate free of empty `subcollections` entries |
| `Describe.DocumentShapeNoEmptySubcollections` | export_structure.py:50-55 | no `subcollections` entry anywhere in a document's description is empty |
| `Describe.ShapesByIdNoEmptySubcollections` | export_structure.py:50-52 | every filed description is free of empty `subcollections` entries |
| `Export.ExportStructure` | export_structure.py:137-148 | the loop over root collections yields `ExportShape` |
| `Export.ExportCollectionNames` | export_structure.py:144-146 | the report's `collections` names exactly the root collections |
| `Export.ExportEntries` | export_structure.py:144-146 | with distinct root ids each root collection's description is filed under its id |
| `Export.ExportAborts` | export_structure.py:144-146 | no partial report: the export fails exactly when some root collection's description fails, and with the error of the first failing root in listing order |
| `Export.UsersExample` | export_structure.py:137-148 | the worked example: "users" gets `name: str` and `age: int`; its "orders" gets `total: int` |
| `Export.NestedEmptyFields` | export_structure.py:61-84 | two users sharing a sub-collection whose document has no fields: no `fields` at the top, but an empty `fields` entry under "orders" |

## Left out

- Credential path resolution (`resolve_credentials_path`): it only checks the filesystem.
- Writing the JSON file (`write_output`): directory creation and serialisation. Key order in the output is not modelled, because maps here are unordered.
- `main`: `.env` loading, environment parsing and client construction. They are replaced by the `Config` value. A negative sample limit from the environment is therefore not modelled: the limit is a `nat`.
- Logging, including the fallback warning and the "sample limit reached" notice. It has no effect on the data.
- `project_id` and the `exported_at` timestamp of the report: an external value and a clock. `Export.Report` holds only `collections`.
- The Firestore client API: `collections()`, `stream()`, `order_by().limit()`, `to_dict()`. The model uses a finite tree of values instead. The store's ordered answer is not tied to the contents of the unordered stream, because field values, and so the sort, are not modelled.
- Store errors other than those of the ordered query: failures of the unordered stream, of sub-collection listing and of root listing. Only the ordered query can fail in the model.
- A failure of the ordered query in the middle of its stream, after some documents were yielded. The model assumes the error comes before any document is yielded.
- Laziness of the generator: the sample is a finished sequence. This changes nothing observable, because the ordered query's error comes first and the fallback stops pulling at the limit.
- In-place mutation: the merge and the describers build values and return them. The source deep-copies new sub-structures and builds a fresh dictionary per document, so no two places share a dictionary. Value semantics therefore gives the same results.
