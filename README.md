# Design-docs ingestion handler: provisioning and batched upsert

This project models the core of the AWS Lambda ingestion handler in Dafny: the
handler that loads design documents into the Pinecone index `design-docs-index`.
The handler runs in two steps, and both are modelled:

1. **Index provisioning.** The handler lists the existing index names. It calls
   `create_index` (1536 dimensions, cosine metric, serverless on `aws` in the
   configured region) only when `design-docs-index` is not among them.
2. **Batched embedding and upsert.** The split chunks are walked in windows of
   `batch_size = 10`. Each chunk of a window:
   - is embedded with one `embed_query` call on its text;
   - gets the id `{source}_{i}_{idx}`.

   Here `source` is the chunk's `source` metadata, or `"doc"` when it has none.
   `i` is the position where the window starts, and `idx` is the chunk's offset
   inside the window. Each window ends in one `upsert` of the zipped
   `(id, vector, metadata)` triples.

The model is imperative, as the handler is. The stateful parts are classes:

| class | fields | methods |
|---|---|---|
| `Provisioning.Catalog` | index names, their specs, a ghost count of create calls | `ListIndexNames`, `CreateIndex`, `EnsureIndex` |
| `VectorStore.VectorIndex` | records keyed by id, a ghost log of upsert calls | `Upsert` |
| `Ingestion.Embedder` | a fixed text-to-vector model, a ghost log of embedded texts | `EmbedQuery` |

The two loops are methods with `while` loops:

- `Ingestion.LoadDocuments` is the outer loop over `range(0, len(documents), batch_size)`.
- `Ingestion.PrepareBatch` is the inner `enumerate` loop.

Both are proved against specification functions:

- `Batching.Plan` lists the upsert calls the loop makes.
- `VectorStore.ApplyBatches` gives what those calls leave in the index.
- `Batching.GlobalId` gives the closed-form id of the chunk at each position.

The lemmas about these functions state what the design relies on:

- One run never gives two chunks the same id, so a run writes (inserts or overwrites) exactly one record per chunk, under pairwise distinct ids.
- Every id parses back to its source and positions.
- Upsert only inserts or overwrites.
- Re-running the load with the same chunks and batch size leaves the index as one run left it.
- 25 chunks go out in three calls of 10, 10 and 5.

Modules:
- `ChunkIds` (`chunk_ids.dfy`) covers the chunk id format, Python's `str` of a
  non-negative int, and the `source` lookup with its `"doc"` default.
- `VectorStore` (`vector_store.dfy`) covers the index records, upsert as insert-or-overwrite, and the index class.
- `Batching` (`batching.dfy`) covers:
  - Python slicing;
  - the windows of `range(0, n, b)`;
  - the entries of each window;
  - the plan of upsert calls;
  - `zip`.
- `Provisioning` (`provisioning.dfy`) covers the index specs, the catalog class and check-then-create.
- `Ingestion` (`ingestion.dfy`) covers the embedder class, the two loops and the handler as a whole.

## Model

| member | source | states |
|---|---|---|
| ChunkIds.NatToString | lambda_function/lambda_function.py:82 | `str(n)` of a non-negative int is a non-empty string of decimal digits. It is one digit long exactly when `n < 10`. It has no leading zero: it starts with `0` only when `n` is 0, and then it is the single digit. |
| ChunkIds.LemmaDecimalRoundTrip | lambda_function/lambda_function.py:82 | Reading the numeral `str(n)` back gives `n`. |
| ChunkIds.SourceOf | lambda_function/lambda_function.py:82 | `doc.metadata.get('source', 'doc')`. Its consequence for ids is stated by `ChunkIds.LemmaMissingSourceIsDoc`. |
| ChunkIds.ChunkId | lambda_function/lambda_function.py:82 | The f-string `{source}_{i}_{idx}`. Its properties are stated by `ChunkIds.LemmaParseChunkId` (round trip) and `ChunkIds.LemmaChunkIdInjective`. |
| ChunkIds.LemmaCanonicalNumeral | lambda_function/lambda_function.py:82 | Any digit string without a leading zero (other than "0" itself) that denotes `n` is `str(n)`. With the contract of `ChunkIds.NatToString`, this fixes the numeral exactly. |
| ChunkIds.LemmaParseChunkId | lambda_function/lambda_function.py:81-82 | Every chunk id parses back to the source, batch offset and in-batch offset it was built from. This holds even when the source itself contains `_`. |
| ChunkIds.LemmaChunkIdInjective | lambda_function/lambda_function.py:81-82 | Two chunk ids are equal only when their source, batch offset and in-batch offset are all equal. |
| ChunkIds.LemmaMissingSourceIsDoc | lambda_function/lambda_function.py:82 | A chunk without `source` metadata gets the same id as a chunk whose source is the literal `"doc"`. |
| Batching.Slice | lambda_function/lambda_function.py:72 | `documents[i:i+b]` clamps to the end of the list. Its length is `min(hi, n) - lo` when `lo < hi` and `lo < n`, and 0 otherwise. Its element `t` is element `lo + t` of the list. |
| Batching.WindowsFrom | lambda_function/lambda_function.py:71-72 | The batches `documents[i:i+b]` for `i` in `range(start, n, b)`. Their properties are stated by `Batching.LemmaWindowsCover`, `Batching.LemmaWindowAt`, `Batching.LemmaWindowSize` and `Batching.LemmaWindowCount`. |
| Batching.BatchStart | lambda_function/lambda_function.py:71 | The start of the window that holds position `j`: at most `j`, and less than `b` before it. `Batching.LemmaBatchStartIsFloor` shows it is `j - j % b`. |
| Batching.BatchEntries | lambda_function/lambda_function.py:77-88 | The entries the inner loop builds for one batch, one per chunk in order. `Ingestion.PrepareBatch` is proved to produce exactly these, and `Batching.LemmaPlanFlat` gives each entry in closed form. |
| Batching.PlanFrom | lambda_function/lambda_function.py:71-90 | The upsert calls the outer loop makes from a start position on. Its properties are stated by `Batching.LemmaPlanAt` and `Batching.LemmaPlanFlat`. |
| Batching.Plan | lambda_function/lambda_function.py:71-90 | The upsert calls of the whole loop. `Ingestion.LoadDocuments` is proved to make exactly these. Their number and sizes are stated by `Batching.LemmaUpsertCallSizes`. |
| Batching.Windows | lambda_function/lambda_function.py:71-72 | The batches of the whole loop, from position 0. Their number and sizes are stated by `Batching.LemmaWindowCount`, `Batching.LemmaWindowSize` and `Batching.LemmaLastWindowSize`. |
| Batching.GlobalId | lambda_function/lambda_function.py:82 | The closed-form id of the chunk at global position `j`. `Batching.LemmaGlobalIdSpelled` spells it as `{source}_{j - j % b}_{j % b}`, and `Batching.LemmaIdsDistinct` shows that distinct positions get distinct ids. |
| Batching.EntryAt | lambda_function/lambda_function.py:77-88 | The closed-form entry of the chunk at global position `j`: its id, its embedding and its metadata. `Batching.LemmaPlanFlat` shows it is entry `j` of the upsert calls laid end to end. |
| Batching.LemmaSliceSplit | lambda_function/lambda_function.py:71-72 | Two adjacent windows concatenate to the window that spans both. |
| Batching.LemmaBatchStartIsFloor | lambda_function/lambda_function.py:71 | The window containing position `j` starts at `j - j % b`. |
| Batching.LemmaWindowsCover | lambda_function/lambda_function.py:71-72 | The windows from a start position, laid end to end, give exactly the chunks from that position to the end. Nothing is lost or repeated. |
| Batching.LemmaWindowAt | lambda_function/lambda_function.py:71-72 | Window `k` is the slice `s[start + k*b : start + k*b + b]`, which stops at the end of the list as Python's slice does. |
| Batching.LemmaWindowSize | lambda_function/lambda_function.py:71-72 | Every window holds between 1 and `b` chunks. Every window but the last holds exactly `b`. |
| Batching.LemmaWindowCount | lambda_function/lambda_function.py:71 | `range(0, n, b)` yields `ceil(n / b)` windows. It yields none exactly when the chunk list is empty. |
| Batching.LemmaLastWindowSize | lambda_function/lambda_function.py:71-72 | The last window holds what the full windows leave over. |
| Batching.LemmaPlanAt | lambda_function/lambda_function.py:71-90 | Upsert call `k` carries the entries built from window `k`, which starts at `k * b`. |
| Batching.LemmaPlanSizeAt | lambda_function/lambda_function.py:71-90 | Upsert call `k` has one entry per chunk of window `k`. |
| Batching.LemmaUpsertCallSizes | lambda_function/lambda_function.py:70-90 | The loop makes `ceil(n / b)` upsert calls, and none for an empty list. Each call carries `b` entries except the last, which carries the remainder. |
| Batching.LemmaTwentyFiveChunks | lambda_function/lambda_function.py:70-90 | With a batch size of 10, 25 chunks go out in exactly three calls of 10, 10 and 5 entries. |
| Batching.LemmaGlobalIdSpelled | lambda_function/lambda_function.py:82 | The chunk at global position `j` gets the id `{source}_{j - j % b}_{j % b}`. |
| Batching.LemmaPlanFlat | lambda_function/lambda_function.py:71-90 | Laid end to end, the upsert calls carry one entry per chunk, in chunk order. Each entry has the chunk's closed-form id, the embedding of its text and its metadata. |
| Batching.LemmaIdsDistinct | lambda_function/lambda_function.py:81-82 | Two chunks at different positions of one run never get the same id, whatever their sources are. |
| Batching.Zip | lambda_function/lambda_function.py:90 | `zip(ids, vectors, metadata_list)` stops at the shortest list. Its triple `t` is built from element `t` of each list. |
| VectorStore.Apply | lambda_function/lambda_function.py:90 | The records after one upsert call. Its properties are stated by `VectorStore.LemmaApplyOverlay`, `VectorStore.LemmaApplyIdempotent` and `VectorStore.LemmaApplyDistinct`. |
| VectorStore.ApplyBatches | lambda_function/lambda_function.py:71-90 | The records after the loop's upsert calls, in order. `VectorStore.LemmaApplyBatchesFlat` shows it equals one upsert of all their entries, and `Ingestion.LoadDocuments` is proved to leave the index in this state. |
| VectorStore.LemmaApplyOverlay | lambda_function/lambda_function.py:90 | An upsert only adds or replaces. The result is the old records overlaid with the records the entries alone produce. |
| VectorStore.LemmaApplyIdempotent | lambda_function/lambda_function.py:90 | Upserting the same entries a second time changes nothing. |
| VectorStore.LemmaApplyBatchesFlat | lambda_function/lambda_function.py:71-90 | A sequence of batch upserts has the effect of one upsert of all their entries in order. |
| VectorStore.LemmaDistinctIdCount | lambda_function/lambda_function.py:90 | Entries with pairwise distinct ids name as many records as there are entries. |
| VectorStore.LemmaApplyDistinct | lambda_function/lambda_function.py:90 | With pairwise distinct ids, each entry's id holds that entry's own record afterwards. The stored ids are the old ids plus the entries' ids, and every other record is kept. |
| VectorStore.VectorIndex.Upsert | lambda_function/lambda_function.py:90 | The index's records become the old records with each entry inserted or overwritten by id. The call is appended to the upsert log. |
| Ingestion.Embedder.EmbedQuery | lambda_function/lambda_function.py:79 | Returns the model's vector for the text and logs exactly that one text. |
| Ingestion.PrepareBatch | lambda_function/lambda_function.py:73-88 | The three lists have one element per chunk of the window, and their zip is the window's entries. Each entry has id `{source}_{i}_{idx}`, the embedding and the unmodified metadata. Exactly the window's texts are embedded, in order. |
| Ingestion.UpsertBatch | lambda_function/lambda_function.py:72-90 | One turn of the outer loop makes one upsert call with the entries of `documents[i:i+b]` and embeds exactly that window's texts. |
| Ingestion.LoadDocuments | lambda_function/lambda_function.py:70-90 | The loop's upsert calls are exactly the plan, in order. The index ends as those calls leave it. Every chunk's text is embedded once, in chunk order. |
| Ingestion.LemmaRunIdsDistinct | lambda_function/lambda_function.py:81-82 | No two entries of one run share an id. The ids a run upserts are exactly the run's closed-form ids. |
| Ingestion.LemmaRunIdsCount | lambda_function/lambda_function.py:81-90 | One run uses exactly as many distinct ids as it has chunks, so it writes (inserts or overwrites) one record per chunk. |
| Ingestion.LemmaLoadedRecords | lambda_function/lambda_function.py:71-90 | After the loop, every chunk's id holds that chunk's own embedding and unmodified metadata. The only ids added are the run's ids, and every other record is kept. |
| Ingestion.LemmaReloadIdempotent | lambda_function/lambda_function.py:71-90 | Running the loop a second time on the same chunks with the same batch size leaves the index as one run left it. |
| Ingestion.Reload | lambda_function/lambda_function.py:71-90 | Loading the same chunks twice sends the plan of upserts twice and embeds every text twice, in chunk order. The index ends as a single load leaves it. |
| Ingestion.RunIngestion | lambda_function/lambda_function.py:41-90 | The handler ensures `design-docs-index` exists, then loads the chunks in batches of ten. Its upsert calls are exactly the plan, `ceil(n / 10)` of them. Its embedding calls are the chunks' texts in order. Afterwards each chunk's id holds that chunk's record, and exactly the run's ids are added. |
| Provisioning.RequestedSpec | lambda_function/lambda_function.py:47-55 | The spec passed to `create_index`: 1536 dimensions, the cosine metric, serverless on `aws` in the configured region. `Provisioning.LemmaProvisionedState` states what a new index gets. |
| Provisioning.Provisioned | lambda_function/lambda_function.py:44-55 | The index specs after ensure-exists. `Provisioning.Catalog.EnsureIndex` is proved to reach exactly this state. Its properties are stated by `Provisioning.LemmaProvisionedState` and `Provisioning.LemmaProvisionedIdempotent`. |
| Provisioning.LemmaProvisionedState | lambda_function/lambda_function.py:44-55 | After ensure-exists the index is present and every other index is untouched. An index created here has 1536 dimensions, the cosine metric and serverless placement on `aws` in the region. An index that already existed keeps its spec, which is not checked against the requested one. |
| Provisioning.LemmaProvisionedIdempotent | lambda_function/lambda_function.py:44-55 | A second ensure-exists creates nothing and changes nothing. |
| Provisioning.Catalog.ListIndexNames | lambda_function/lambda_function.py:44 | Returns exactly the names of the existing indexes. |
| Provisioning.Catalog.CreateIndex | lambda_function/lambda_function.py:47-55 | Adds the index with the given spec when the name is free; otherwise the catalog is left unchanged and the outcome is "already exists". Either way one create call is counted. |
| Provisioning.Catalog.EnsureIndex | lambda_function/lambda_function.py:44-55 | Check-then-create: afterwards the name is present and the specs are as provisioning defines them. `create_index` is called once when the name was absent and never when it was present. |
| Provisioning.EnsureIndexTwice | lambda_function/lambda_function.py:44-55 | Two ensure-exists runs in a row call `create_index` at most once and end in the state one run reaches. |

## Left out

- Reading secrets from SSM Parameter Store (`get_parameter`) and the environment lookups (lines 12-34) are configuration I/O. The region is a plain string parameter, and the `None` returned on a client error is not modelled.
- Constructing the Pinecone and OpenAI clients (lines 37-40) is foreign-library setup. `pc.Index(index_name)` (line 56) is modelled by the caller passing a `VectorIndex`. `RunIngestion` requires that index to be named `design-docs-index`.
- Loading documents from S3 (lines 59-60) is object-storage I/O. The loaded chunks are a parameter.
- The recursive character text splitter (chunk size 600, overlap 50; lines 64-65) is library code. The chunk list it produces is a parameter.
- `embed_query` is a network call. It is modelled as a fixed, total, deterministic function from text to vector. Vectors are sequences of reals; floating point is not modelled.
- Network failures, rate limits and service errors are not modelled: embedding and upsert calls never fail, and no batch is aborted.
- Concurrent invocations, and the race between listing and creating the index, are not modelled; the model is single-threaded.
- The `print` logging (lines 21, 61, 66, 69, 92) is output only.
- Rewriting `source` metadata into URLs is not part of this handler, so it is not modelled.
- `VectorStore.VectorIndex.Upsert` applies duplicate ids within one call in order, so the last one wins. The remote service's own rule is not visible here; one run never produces duplicates (`Batching.LemmaIdsDistinct`).
- `Ingestion.LoadDocuments` requires a batch size greater than 0. The handler fixes it to 10, and Python's `range` rejects a step of 0.
- `Provisioning.Catalog.CreateIndex`: `EnsureIndex` never reaches its "already exists" outcome, because it calls `create_index` only for an absent name. What the remote service does on such a conflict is not modelled beyond leaving the catalog unchanged.
- The handler has no per-event mode and does not rewrite `source` metadata into a URL, so neither is modelled.
- The handler does not catch errors from `create_index`, so the model has no error path for it.
- The batch size (10) is a literal in the handler and the constant `Ingestion.BatchSize` here. The splitter's chunk size and overlap (600, 50) belong to the splitter, which is not modelled (see the splitter line above).
- Chunk metadata is modelled as a map from strings to strings. In Python the values are arbitrary objects, and the f-string formats a non-string `source` (such as `None`) with `str()`. Only string sources are modelled.
