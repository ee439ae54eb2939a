/** The vector index as the ingestion loop sees it: a mapping from record id to
    (vector, metadata), changed only by batch upserts that insert or overwrite. */
module VectorStore {
  import opened ChunkIds

  /** An embedding; its numeric content is opaque to the pipeline. */
  type Vector = seq<real>

  /** One `(id, vector, metadata)` triple handed to `upsert`. */
  datatype Entry = Entry(id: string, vector: Vector, metadata: Metadata)

  /** What the index stores under an id. */
  datatype Record = Record(vector: Vector, metadata: Metadata)

  function RecordOf(e: Entry): Record
  {
    Record(e.vector, e.metadata)
  }

  function Flatten<T>(ss: seq<seq<T>>): seq<T>
  {
    if ss == [] then [] else ss[0] + Flatten(ss[1..])
  }

  /** The records after one upsert call: each entry in turn inserts its record
      or overwrites the record already stored under its id. */
  function Apply(records: map<string, Record>, entries: seq<Entry>): map<string, Record>
    decreases entries
  {
    if entries == [] then records
    else Apply(records[entries[0].id := RecordOf(entries[0])], entries[1..])
  }

  /** The records after a sequence of upsert calls, one per batch, in order. */
  function ApplyBatches(records: map<string, Record>, batches: seq<seq<Entry>>): map<string, Record>
    decreases batches
  {
    if batches == [] then records
    else ApplyBatches(Apply(records, batches[0]), batches[1..])
  }

  function IdSet(entries: seq<Entry>): set<string>
  {
    set t | 0 <= t < |entries| :: entries[t].id
  }

  predicate DistinctIds(entries: seq<Entry>)
  {
    forall t, u :: 0 <= t < u < |entries| ==> entries[t].id != entries[u].id
  }

  /** An upsert only adds or replaces: it is the old records overlaid with the
      records the entries alone would produce. */
  lemma {:induction false} LemmaApplyOverlay(records: map<string, Record>, entries: seq<Entry>)
    ensures Apply(records, entries) == records + Apply(map[], entries)
    decreases entries
  {
    if entries != [] {
      var e := entries[0];
      LemmaApplyOverlay(records[e.id := RecordOf(e)], entries[1..]);
      LemmaApplyOverlay(map[e.id := RecordOf(e)], entries[1..]);
      assert records[e.id := RecordOf(e)] + Apply(map[], entries[1..])
          == records + (map[e.id := RecordOf(e)] + Apply(map[], entries[1..]));
    }
  }

  /** Upserting the same entries a second time changes nothing. */
  lemma LemmaApplyIdempotent(records: map<string, Record>, entries: seq<Entry>)
    ensures Apply(Apply(records, entries), entries) == Apply(records, entries)
  {
    LemmaApplyOverlay(records, entries);
    LemmaApplyOverlay(Apply(records, entries), entries);
    var added := Apply(map[], entries);
    assert (records + added) + added == records + added;
  }

  lemma {:induction false} LemmaApplyConcat(records: map<string, Record>, a: seq<Entry>, b: seq<Entry>)
    ensures Apply(records, a + b) == Apply(Apply(records, a), b)
    decreases a
  {
    if a == [] {
      assert a + b == b;
    } else {
      assert (a + b)[1..] == a[1..] + b;
      LemmaApplyConcat(records[a[0].id := RecordOf(a[0])], a[1..], b);
    }
  }

  /** A run of batch upserts has the effect of one upsert of all their entries in order. */
  lemma {:induction false} LemmaApplyBatchesFlat(records: map<string, Record>, batches: seq<seq<Entry>>)
    ensures ApplyBatches(records, batches) == Apply(records, Flatten(batches))
    decreases batches
  {
    if batches != [] {
      LemmaApplyBatchesFlat(Apply(records, batches[0]), batches[1..]);
      LemmaApplyConcat(records, batches[0], Flatten(batches[1..]));
    }
  }

  /** The ids of a non-empty list: the first id and the ids of the rest; with distinct
      ids the first does not recur and the rest stay distinct. */
  lemma LemmaIdSetCons(entries: seq<Entry>)
    requires entries != []
    ensures IdSet(entries) == {entries[0].id} + IdSet(entries[1..])
    ensures DistinctIds(entries) ==> DistinctIds(entries[1..]) && entries[0].id !in IdSet(entries[1..])
  {
    var e, rest := entries[0], entries[1..];
    forall x | x in IdSet(entries) ensures x in {e.id} + IdSet(rest) {
      var t :| 0 <= t < |entries| && entries[t].id == x;
      if t > 0 { assert rest[t - 1] == entries[t]; }
    }
    forall x | x in IdSet(rest) ensures x in IdSet(entries) {
      var t :| 0 <= t < |rest| && rest[t].id == x;
      assert entries[t + 1] == rest[t];
    }
    if DistinctIds(entries) {
      forall t, u | 0 <= t < u < |rest| ensures rest[t].id != rest[u].id {
        assert rest[t] == entries[t + 1] && rest[u] == entries[u + 1];
      }
      forall t | 0 <= t < |rest| ensures rest[t].id != e.id {
        assert rest[t] == entries[t + 1];
      }
    }
  }

  /** Pairwise distinct ids name as many records as there are entries. */
  lemma {:induction false} LemmaDistinctIdCount(entries: seq<Entry>)
    requires DistinctIds(entries)
    ensures |IdSet(entries)| == |entries|
    decreases entries
  {
    if entries == [] {
      assert IdSet(entries) == {};
    } else {
      LemmaIdSetCons(entries);
      LemmaDistinctIdCount(entries[1..]);
    }
  }

  /** With pairwise distinct ids no entry overwrites another: afterwards every entry's
      id holds that entry's own record and every other id keeps its old record. */
  lemma {:induction false} LemmaApplyDistinct(records: map<string, Record>, entries: seq<Entry>)
    requires DistinctIds(entries)
    ensures Apply(records, entries).Keys == records.Keys + IdSet(entries)
    ensures forall t :: 0 <= t < |entries| ==> Apply(records, entries)[entries[t].id] == RecordOf(entries[t])
    ensures forall x :: x in records && x !in IdSet(entries) ==> Apply(records, entries)[x] == records[x]
    decreases entries
  {
    if entries != [] {
      var e, rest := entries[0], entries[1..];
      LemmaIdSetCons(entries);
      LemmaApplyDistinct(records[e.id := RecordOf(e)], rest);
      forall t | 0 <= t < |entries|
        ensures Apply(records, entries)[entries[t].id] == RecordOf(entries[t])
      {
        if t > 0 { assert entries[t] == rest[t - 1]; }
      }
    }
  }

  /** One named index of the vector store: its records and the log of upsert calls. */
  class VectorIndex {
    const name: string
    var records: map<string, Record>
    ghost var upserts: seq<seq<Entry>>

    constructor (name: string)
      ensures this.name == name && records == map[] && upserts == []
    {
      this.name := name;
      records := map[];
      upserts := [];
    }

    /** `index.upsert(vectors=...)`: insert or overwrite each entry by id. */
    method Upsert(vectors: seq<Entry>)
      modifies this
      ensures records == Apply(old(records), vectors)
      ensures upserts == old(upserts) + [vectors]
    {
      records := Apply(records, vectors);
      upserts := upserts + [vectors];
    }
  }
}
