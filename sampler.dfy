/** The bounded sampler: which documents of a collection are described.

    With no limit every document of the unordered stream is taken. With a
    limit the store is asked for the documents in descending order of the
    order field, at most `limit` of them; when the store cannot order by that
    field (a precondition-failed or invalid-argument error) the sampler falls
    back to the first `limit` documents of the unordered stream. Any other
    error of the ordered query is passed on. */
module Sampler {
  import opened Wrappers
  import opened Store

  /** The run's configuration: the sample limit (0 means unbounded) and the
      preferred order field ("" means the default). */
  datatype Config = Config(sampleLimit: nat, orderField: string)

  const DefaultOrderField: string := "__name__"

  /** `SAMPLE_ORDER_FIELD or "__name__"`. */
  function OrderField(cfg: Config): (field: string)
    ensures field != ""
    ensures cfg.orderField != "" ==> field == cfg.orderField
    ensures cfg.orderField == "" ==> field == DefaultOrderField
  {
    if cfg.orderField == "" then DefaultOrderField else cfg.orderField
  }

  /** The documents the sampler yields, or the store error it passes on. */
  function Sample(c: Collection, cfg: Config): Result<seq<Document>, StoreError> {
    if cfg.sampleLimit == 0 then Ok(c.stream)
    else match OrderedQuery(c, OrderField(cfg), cfg.sampleLimit)
      case Ok(docs) => Ok(docs)
      case Err(e) =>
        if OrderingUnsupported(e) then Ok(Take(c.stream, cfg.sampleLimit)) else Err(e)
  }

  /** `_iter_documents_with_limit`, with the generator's output collected into
      a sequence. The fallback loop pulls documents from the unordered stream
      and stops as soon as `limit` of them have been taken. */
  method SampleDocuments(c: Collection, cfg: Config) returns (r: Result<seq<Document>, StoreError>)
    ensures r == Sample(c, cfg)
  {
    if cfg.sampleLimit == 0 {
      return Ok(c.stream);
    }
    var ordered := OrderedQuery(c, OrderField(cfg), cfg.sampleLimit);
    if ordered.Ok? {
      return ordered;
    }
    if !OrderingUnsupported(ordered.error) {
      return Err(ordered.error);
    }
    var taken: seq<Document> := [];
    var count := 0;
    while count < |c.stream|
      invariant count <= |c.stream| && count < cfg.sampleLimit
      invariant taken == c.stream[..count]
    {
      taken := taken + [c.stream[count]];
      count := count + 1;
      if count >= cfg.sampleLimit {
        break;
      }
    }
    assert count == |c.stream| || count == cfg.sampleLimit;
    assert c.stream[..|c.stream|] == c.stream;
    assert taken == Take(c.stream, cfg.sampleLimit);
    r := Ok(taken);
  }

  /** With limit 0 every document of the stream is yielded, in stream order. */
  lemma SampleUnbounded(c: Collection, cfg: Config)
    requires cfg.sampleLimit == 0
    ensures Sample(c, cfg) == Ok(c.stream)
  {
  }

  /** With a limit, neither the ordered path nor the fallback yields more
      than `limit` documents. */
  lemma SampleBounded(c: Collection, cfg: Config)
    requires cfg.sampleLimit > 0 && Sample(c, cfg).Ok?
    ensures |Sample(c, cfg).value| <= cfg.sampleLimit
  {
  }

  /** A successful ordered query is yielded as the store answered it. */
  lemma SampleOrdered(c: Collection, cfg: Config)
    requires cfg.sampleLimit > 0 && OrderedQuery(c, OrderField(cfg), cfg.sampleLimit).Ok?
    ensures Sample(c, cfg) == OrderedQuery(c, OrderField(cfg), cfg.sampleLimit)
  {
  }

  /** On the fallback path the sample is exactly the first min(limit, n)
      documents of the unordered stream. */
  lemma SampleFallback(c: Collection, cfg: Config)
    requires cfg.sampleLimit > 0
    requires OrderedQuery(c, OrderField(cfg), cfg.sampleLimit).Err?
    requires OrderingUnsupported(OrderedQuery(c, OrderField(cfg), cfg.sampleLimit).error)
    ensures Sample(c, cfg).Ok?
    ensures |Sample(c, cfg).value| == if |c.stream| < cfg.sampleLimit then |c.stream| else cfg.sampleLimit
    ensures Sample(c, cfg).value == c.stream[..|Sample(c, cfg).value|]
  {
  }

  /** The sampler fails exactly when the ordered query fails with an error
      outside the precondition-failed / invalid-argument class, and then with
      that error. */
  lemma SampleFails(c: Collection, cfg: Config)
    ensures Sample(c, cfg).Err? <==>
      && cfg.sampleLimit > 0
      && OrderedQuery(c, OrderField(cfg), cfg.sampleLimit).Err?
      && !OrderingUnsupported(OrderedQuery(c, OrderField(cfg), cfg.sampleLimit).error)
    ensures Sample(c, cfg).Err? ==>
      Sample(c, cfg).error == OrderedQuery(c, OrderField(cfg), cfg.sampleLimit).error
  {
  }

  /** Every sampled document belongs to the collection's tree, so describing
      it recurses on a smaller value. */
  lemma SampleRank(c: Collection, cfg: Config)
    ensures Sample(c, cfg).Ok? ==> forall d | d in Sample(c, cfg).value :: d < c
  {
  }
}
