/** The ingestion handler's batch-and-upsert loop and the handler as a whole:
    provision the index, then embed every chunk and upsert the chunks batch by batch. */
module Ingestion {
  import opened ChunkIds
  import opened VectorStore
  import opened Batching
  import Provisioning

  /** `batch_size = 10`. */
  const BatchSize: nat := 10

  /** The embedding client: a fixed, total text-to-vector model, and the log of the
      texts it was asked to embed. */
  class Embedder {
    const model: string -> Vector
    ghost var queries: seq<string>

    constructor (model: string -> Vector)
      ensures this.model == model && queries == []
    {
      this.model := model;
      queries := [];
    }

    /** `embeddings.embed_query(text)`. */
    method EmbedQuery(text: string) returns (v: Vector)
      modifies this
      ensures v == model(text)
      ensures queries == old(queries) + [text]
    {
      v := model(text);
      queries := queries + [text];
    }
  }

  /** The `page_content` of each chunk, in order. */
  function Contents(docs: seq<Document>): seq<string>
  {
    seq(|docs|, j requires 0 <= j < |docs| => docs[j].pageContent)
  }

  lemma LemmaContentsConcat(a: seq<Document>, b: seq<Document>)
    ensures Contents(a + b) == Contents(a) + Contents(b)
  {
    assert |Contents(a + b)| == |Contents(a) + Contents(b)|;
    forall j | 0 <= j < |a| + |b| ensures Contents(a + b)[j] == (Contents(a) + Contents(b))[j] {
      if j < |a| {
        assert (a + b)[j] == a[j];
      } else {
        assert (a + b)[j] == b[j - |a|];
      }
    }
  }

  /** The inner loop: one embedding call per chunk, on its text, and three aligned lists
      whose zip is the batch's entries. */
  method PrepareBatch(embedder: Embedder, batch: seq<Document>, offset: nat)
    returns (ids: seq<string>, vectors: seq<Vector>, metadataList: seq<Metadata>)
    modifies embedder
    ensures |ids| == |batch| && |vectors| == |batch| && |metadataList| == |batch|
    ensures Zip(ids, vectors, metadataList) == BatchEntries(batch, offset, embedder.model)
    ensures embedder.queries == old(embedder.queries) + Contents(batch)
  {
    ids, vectors, metadataList := [], [], [];
    var idx := 0;
    while idx < |batch|
      invariant 0 <= idx <= |batch|
      invariant |ids| == idx && |vectors| == idx && |metadataList| == idx
      invariant forall t :: 0 <= t < idx ==>
        ids[t] == ChunkId(SourceOf(batch[t].metadata), offset, t)
        && vectors[t] == embedder.model(batch[t].pageContent)
        && metadataList[t] == batch[t].metadata
      invariant embedder.queries == old(embedder.queries) + Contents(batch[..idx])
    {
      var doc := batch[idx];
      var embedding := embedder.EmbedQuery(doc.pageContent);
      var docId := ChunkId(SourceOf(doc.metadata), offset, idx);
      ids := ids + [docId];
      vectors := vectors + [embedding];
      metadataList := metadataList + [doc.metadata];
      LemmaContentsConcat(batch[..idx], [doc]);
      assert batch[..idx + 1] == batch[..idx] + [doc];
      idx := idx + 1;
    }
    assert batch[..idx] == batch;
  }

  /** One turn of the outer loop: `batch = documents[i:i+batch_size]`, the inner loop,
      then one upsert call with the zipped lists. */
  method UpsertBatch(index: VectorIndex, embedder: Embedder, documents: seq<Document>, batchSize: nat, i: nat)
    modifies index, embedder
    ensures index.records == Apply(old(index.records), BatchEntries(Slice(documents, i, i + batchSize), i, embedder.model))
    ensures index.upserts == old(index.upserts) + [BatchEntries(Slice(documents, i, i + batchSize), i, embedder.model)]
    ensures embedder.queries == old(embedder.queries) + Contents(Slice(documents, i, i + batchSize))
  {
    var batch := Slice(documents, i, i + batchSize);
    var ids, vectors, metadataList := PrepareBatch(embedder, batch, i);
    index.Upsert(Zip(ids, vectors, metadataList));
  }

  /** The outer loop over `range(0, len(documents), batch_size)`: one upsert call per
      window, and the index ends as the whole plan of upserts leaves it. */
  method LoadDocuments(index: VectorIndex, embedder: Embedder, documents: seq<Document>, batchSize: nat)
    requires batchSize > 0
    modifies index, embedder
    ensures index.records == ApplyBatches(old(index.records), Plan(documents, batchSize, embedder.model))
    ensures index.upserts == old(index.upserts) + Plan(documents, batchSize, embedder.model)
    ensures embedder.queries == old(embedder.queries) + Contents(documents)
  {
    var embed := embedder.model;
    ghost var plan := Plan(documents, batchSize, embed);
    ghost var remaining := plan;
    var i := 0;
    while i < |documents|
      invariant remaining == PlanFrom(documents, batchSize, i, embed)
      invariant index.upserts + remaining == old(index.upserts) + plan
      invariant ApplyBatches(index.records, remaining) == ApplyBatches(old(index.records), plan)
      invariant embedder.queries == old(embedder.queries) + Contents(Slice(documents, 0, i))
      decreases |documents| - i
    {
      LemmaPlanStep(documents, batchSize, i, embed, index.records, index.upserts);
      LemmaLoadedPrefixStep(documents, batchSize, i, old(embedder.queries));
      UpsertBatch(index, embedder, documents, batchSize, i);
      remaining := remaining[1..];
      i := i + batchSize;
    }
    LemmaLoopExit(documents, batchSize, i, embed);
  }

  /** One turn of the outer loop: the first upsert call from `i` on, then the rest. */
  lemma LemmaPlanStep(docs: seq<Document>, b: nat, i: nat, embed: string -> Vector,
                      records: map<string, Record>, done: seq<seq<Entry>>)
    requires b > 0 && i < |docs|
    ensures PlanFrom(docs, b, i, embed)[1..] == PlanFrom(docs, b, i + b, embed)
    ensures done + PlanFrom(docs, b, i, embed)
         == (done + [BatchEntries(Slice(docs, i, i + b), i, embed)]) + PlanFrom(docs, b, i + b, embed)
    ensures ApplyBatches(records, PlanFrom(docs, b, i, embed))
         == ApplyBatches(Apply(records, BatchEntries(Slice(docs, i, i + b), i, embed)), PlanFrom(docs, b, i + b, embed))
  {
    var entries, rest := BatchEntries(Slice(docs, i, i + b), i, embed), PlanFrom(docs, b, i + b, embed);
    assert PlanFrom(docs, b, i, embed) == [entries] + rest;
    assert ([entries] + rest)[1..] == rest;
    assert done + ([entries] + rest) == (done + [entries]) + rest;
  }

  /** The chunks handed to the embedder grow by one window per turn. */
  lemma LemmaLoadedPrefixStep(docs: seq<Document>, b: nat, i: nat, before: seq<string>)
    requires b > 0 && i < |docs|
    ensures (before + Contents(Slice(docs, 0, i))) + Contents(Slice(docs, i, i + b))
         == before + Contents(Slice(docs, 0, i + b))
  {
    var front, window := Slice(docs, 0, i), Slice(docs, i, i + b);
    LemmaSliceSplit(docs, 0, i, i + b);
    LemmaContentsConcat(front, window);
    LemmaAppendAssociative(before, Contents(front), Contents(window));
  }

  lemma LemmaAppendAssociative<T>(x: seq<T>, y: seq<T>, z: seq<T>)
    ensures (x + y) + z == x + (y + z)
  {
  }

  /** Once the offset passes the end, no upsert call remains and every chunk was embedded. */
  lemma LemmaLoopExit(docs: seq<Document>, b: nat, i: nat, embed: string -> Vector)
    requires b > 0 && i >= |docs|
    ensures PlanFrom(docs, b, i, embed) == []
    ensures Slice(docs, 0, i) == docs
  {
  }

  /** The ids one run gives its chunks. */
  function RunIds(docs: seq<Document>, b: nat): set<string>
    requires b > 0
  {
    set j | 0 <= j < |docs| :: GlobalId(docs, b, j)
  }

  /** No two entries of one run share an id. */
  lemma LemmaRunIdsDistinct(docs: seq<Document>, b: nat, embed: string -> Vector)
    requires b > 0
    ensures DistinctIds(Flatten(Plan(docs, b, embed)))
    ensures IdSet(Flatten(Plan(docs, b, embed))) == RunIds(docs, b)
  {
    var flat := Flatten(Plan(docs, b, embed));
    LemmaPlanFlat(docs, b, embed);
    forall t, u | 0 <= t < u < |flat| ensures flat[t].id != flat[u].id {
      LemmaIdsDistinct(docs, b, t, u);
    }
    forall x | x in RunIds(docs, b) ensures x in IdSet(flat) {
      var j :| 0 <= j < |docs| && GlobalId(docs, b, j) == x;
      assert flat[j].id == x;
    }
  }

  /** One run writes (inserts or overwrites) exactly one record per chunk: it uses as
      many ids as there are chunks. */
  lemma LemmaRunIdsCount(docs: seq<Document>, b: nat)
    requires b > 0
    ensures |RunIds(docs, b)| == |docs|
  {
    var embed: string -> Vector := _ => [];
    LemmaRunIdsDistinct(docs, b, embed);
    LemmaPlanFlat(docs, b, embed);
    LemmaDistinctIdCount(Flatten(Plan(docs, b, embed)));
  }

  /** After the loop each chunk's id holds that chunk's own embedding and unmodified
      metadata, the only ids added are the run's ids, and every other record is kept. */
  lemma LemmaLoadedRecords(records: map<string, Record>, docs: seq<Document>, b: nat, embed: string -> Vector)
    requires b > 0
    ensures ApplyBatches(records, Plan(docs, b, embed)).Keys == records.Keys + RunIds(docs, b)
    ensures forall j :: 0 <= j < |docs| ==>
      ApplyBatches(records, Plan(docs, b, embed))[GlobalId(docs, b, j)]
        == Record(embed(docs[j].pageContent), docs[j].metadata)
    ensures forall x :: x in records && x !in RunIds(docs, b) ==>
      ApplyBatches(records, Plan(docs, b, embed))[x] == records[x]
  {
    var flat := Flatten(Plan(docs, b, embed));
    LemmaApplyBatchesFlat(records, Plan(docs, b, embed));
    LemmaRunIdsDistinct(docs, b, embed);
    LemmaApplyDistinct(records, flat);
    forall j | 0 <= j < |docs|
      ensures Apply(records, flat)[GlobalId(docs, b, j)] == Record(embed(docs[j].pageContent), docs[j].metadata)
    {
      LemmaFlatEntry(docs, b, embed, j);
    }
  }

  lemma LemmaFlatEntry(docs: seq<Document>, b: nat, embed: string -> Vector, j: nat)
    requires b > 0 && j < |docs|
    ensures j < |Flatten(Plan(docs, b, embed))|
    ensures Flatten(Plan(docs, b, embed))[j].id == GlobalId(docs, b, j)
    ensures RecordOf(Flatten(Plan(docs, b, embed))[j]) == Record(embed(docs[j].pageContent), docs[j].metadata)
  {
    LemmaPlanFlat(docs, b, embed);
  }

  /** Re-running the loop on the same chunks with the same batch size leaves the index
      as one run left it: the same ids are overwritten with the same records. */
  lemma LemmaReloadIdempotent(records: map<string, Record>, docs: seq<Document>, b: nat, embed: string -> Vector)
    requires b > 0
    ensures ApplyBatches(ApplyBatches(records, Plan(docs, b, embed)), Plan(docs, b, embed))
         == ApplyBatches(records, Plan(docs, b, embed))
  {
    var plan := Plan(docs, b, embed);
    LemmaApplyBatchesFlat(records, plan);
    LemmaApplyBatchesFlat(ApplyBatches(records, plan), plan);
    LemmaApplyIdempotent(records, Flatten(plan));
  }

  /** Loading the same chunks twice: the plan of upserts goes out twice and every text is
      embedded twice, yet the index ends as after one load. */
  method Reload(index: VectorIndex, embedder: Embedder, documents: seq<Document>, batchSize: nat)
    requires batchSize > 0
    modifies index, embedder
    ensures index.records == ApplyBatches(old(index.records), Plan(documents, batchSize, embedder.model))
    ensures index.upserts
         == old(index.upserts) + Plan(documents, batchSize, embedder.model) + Plan(documents, batchSize, embedder.model)
    ensures embedder.queries == old(embedder.queries) + Contents(documents) + Contents(documents)
  {
    LoadDocuments(index, embedder, documents, batchSize);
    LoadDocuments(index, embedder, documents, batchSize);
    LemmaReloadIdempotent(old(index.records), documents, batchSize, embedder.model);
  }

  /** The handler: ensure the design-docs index exists, then load the split chunks into it
      in batches of ten. */
  method RunIngestion(catalog: Provisioning.Catalog, index: VectorIndex, embedder: Embedder,
                      region: string, documents: seq<Document>)
    requires catalog.Valid() && index.name == Provisioning.DesignDocsIndex
    modifies catalog, index, embedder
    ensures catalog.Valid()
    ensures catalog.specs == Provisioning.Provisioned(old(catalog.specs), Provisioning.DesignDocsIndex, region)
    ensures catalog.createCalls
         == old(catalog.createCalls) + Provisioning.CreatesNeeded(old(catalog.names), Provisioning.DesignDocsIndex)
    ensures index.records == ApplyBatches(old(index.records), Plan(documents, BatchSize, embedder.model))
    ensures index.upserts == old(index.upserts) + Plan(documents, BatchSize, embedder.model)
    ensures |index.upserts| == |old(index.upserts)| + (|documents| + BatchSize - 1) / BatchSize
    ensures embedder.queries == old(embedder.queries) + Contents(documents)
    ensures index.records.Keys == old(index.records).Keys + RunIds(documents, BatchSize)
    ensures forall j :: 0 <= j < |documents| ==>
      index.records[GlobalId(documents, BatchSize, j)]
        == Record(embedder.model(documents[j].pageContent), documents[j].metadata)
  {
    catalog.EnsureIndex(Provisioning.DesignDocsIndex, region);
    LoadDocuments(index, embedder, documents, BatchSize);
    LemmaUpsertCallSizes(documents, BatchSize, embedder.model);
    LemmaLoadedRecords(old(index.records), documents, BatchSize, embedder.model);
  }
}
