/** The hierarchical document store, as a finite in-memory tree.

    A collection holds documents; every document holds a field map and any
    number of named sub-collections, which are collections again. Only two
    queries are asked of a collection: the unordered stream of all its
    documents, and a stream ordered by a field, descending, limited to a
    number of documents. */
module Store {
  import opened Wrappers

  /** The name of a value's runtime type, as `type(value).__name__` gives it
      ("str", "int", "dict", "list", "NoneType", "DatetimeWithNanoseconds", ...). */
  type TypeTag = string

  /** A field value; the only thing the exporter observes of it is its type. */
  datatype Value = Value(typeName: TypeTag)

  /** A document snapshot. `data` is what `to_dict()` returns (None for a
      snapshot of a document that does not exist); `subcollections` lists the
      collections attached to the document, in the order the store lists them. */
  datatype Document = Document(data: Option<map<string, Value>>, subcollections: seq<Collection>)

  /** A collection. `stream` is the unordered stream of all its documents;
      `orderings` gives, per order field, how the store answers a descending
      query on that field. */
  datatype Collection = Collection(id: string, stream: seq<Document>, orderings: map<string, Ordering>)

  /** The store's answer to "order by this field, descending": all matching
      documents in descending order, or the error the query fails with. */
  datatype Ordering = Descending(docs: seq<Document>) | Rejected(error: StoreError)

  /** The error classes of the store. */
  datatype StoreError = FailedPrecondition | InvalidArgument | OtherError(reason: string)

  /** The whole database: its root collections, in the order the store lists them. */
  datatype Database = Database(collections: seq<Collection>)

  /** The errors that mean "the store cannot satisfy the requested sort"
      (a missing index, a field on no document). */
  predicate OrderingUnsupported(e: StoreError) {
    e.FailedPrecondition? || e.InvalidArgument?
  }

  /** The first `n` elements of `s`, or all of `s` when it is shorter. */
  function Take<T>(s: seq<T>, n: nat): (r: seq<T>)
    ensures |r| == if |s| <= n then |s| else n
    ensures r == s[..|r|]
  {
    if |s| <= n then s else s[..n]
  }

  /** The answer to `order_by(orderField, DESCENDING).limit(limit).stream()`.
      A field the store has no ordering for fails as a missing index does. */
  function OrderedQuery(c: Collection, orderField: string, limit: nat): (r: Result<seq<Document>, StoreError>)
    ensures r.Ok? ==> |r.value| <= limit
    ensures r.Ok? <==> orderField in c.orderings && c.orderings[orderField].Descending?
    ensures r.Ok? ==> r.value == Take(c.orderings[orderField].docs, limit)
    ensures r.Err? ==> r.error == if orderField in c.orderings then c.orderings[orderField].error else FailedPrecondition
  {
    if orderField !in c.orderings then Err(FailedPrecondition)
    else match c.orderings[orderField]
      case Descending(docs) => Ok(Take(docs, limit))
      case Rejected(e) => Err(e)
  }
}
