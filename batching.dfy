/** What the batch loop of the ingestion handler sends to the index, as functions
    of the chunk list: the windows `documents[i:i+batch_size]`, the entries built
    for each window, and the closed form of the entry at each global position. */
module Batching {
  import opened ChunkIds
  import opened VectorStore

  /** A chunk produced by the text splitter: its text and a copy of its document's metadata. */
  datatype Document = Document(pageContent: string, metadata: Metadata)

  function Min(a: nat, b: nat): nat
  {
    if a <= b then a else b
  }

  /** Python's `s[lo:hi]` for non-negative bounds: clipped to the sequence, empty when `hi <= lo`. */
  function Slice<T>(s: seq<T>, lo: nat, hi: nat): (r: seq<T>)
    ensures |r| == if lo < hi && lo < |s| then Min(hi, |s|) - lo else 0
    ensures forall t :: 0 <= t < |r| ==> r[t] == s[lo + t]
    decreases hi - lo
  {
    if lo < hi && lo < |s| then [s[lo]] + Slice(s, lo + 1, hi) else []
  }

  /** Adjacent slices concatenate: `s[lo:mid] + s[mid:hi] == s[lo:hi]`. */
  lemma LemmaSliceSplit<T>(s: seq<T>, lo: nat, mid: nat, hi: nat)
    requires lo <= mid <= hi && mid <= |s|
    ensures Slice(s, lo, mid) + Slice(s, mid, hi) == Slice(s, lo, hi)
  {
    if mid < hi {
      assert s[lo..mid] + s[mid..Min(hi, |s|)] == s[lo..Min(hi, |s|)];
    }
  }

  /** The windows `s[i:i+b]` for `i` in `range(start, len(s), b)`. */
  function WindowsFrom<T>(s: seq<T>, b: nat, start: nat): seq<seq<T>>
    requires b > 0
    decreases |s| - start
  {
    if start >= |s| then [] else [Slice(s, start, start + b)] + WindowsFrom(s, b, start + b)
  }

  function Windows<T>(s: seq<T>, b: nat): seq<seq<T>>
    requires b > 0
  {
    WindowsFrom(s, b, 0)
  }

  /** Division facts by uniqueness of quotient and remainder. */
  lemma LemmaDivModUnique(x: int, b: int, q: int, r: int)
    requires b > 0 && 0 <= r < b && x == q * b + r
    ensures x / b == q && x % b == r
  {
    var q', r' := x / b, x % b;
    assert x == q' * b + r';
    if q' < q {
      LemmaMulAtLeast(q - q', b);
      LemmaMulSub(q, q', b);
    } else if q' > q {
      LemmaMulAtLeast(q' - q, b);
      LemmaMulSub(q', q, b);
    }
  }

  lemma LemmaMulAtLeast(k: int, b: int)
    requires k >= 1 && b > 0
    ensures k * b >= b
  {
  }

  lemma LemmaMulSub(p: int, q: int, b: int)
    ensures (p - q) * b == p * b - q * b
  {
  }

  /** One more window moves the start by `b`. */
  lemma LemmaMulStep(k: int, b: int)
    ensures (k - 1) * b + b == k * b
  {
  }

  /** The start of the batch that holds global position `j`: the largest multiple of
      `b` not above `j`, counted out window by window. */
  function BatchStart(j: nat, b: nat): (r: nat)
    requires b > 0
    ensures r <= j < r + b
    decreases j
  {
    if j < b then 0 else b + BatchStart(j - b, b)
  }

  /** The batch start is `j` rounded down to a multiple of `b`. */
  lemma {:induction false} LemmaBatchStartIsFloor(j: nat, b: nat)
    requires b > 0
    ensures BatchStart(j, b) == j - j % b
    decreases j
  {
    if j < b {
      LemmaDivModUnique(j, b, 0, j);
    } else {
      LemmaBatchStartIsFloor(j - b, b);
      var q, r := (j - b) / b, (j - b) % b;
      LemmaMulStep(q + 1, b);
      LemmaDivModUnique(j, b, q + 1, r);
    }
  }

  /** A slice that reaches the end is the suffix. */
  lemma LemmaSliceToEnd<T>(s: seq<T>, lo: nat, hi: nat)
    requires lo <= |s| <= hi
    ensures Slice(s, lo, hi) == s[lo..]
  {
  }

  /** A suffix is a slice followed by the suffix after it. */
  lemma LemmaSuffixSplit<T>(s: seq<T>, lo: nat, hi: nat)
    requires lo <= hi <= |s|
    ensures s[lo..] == Slice(s, lo, hi) + s[hi..]
  {
  }

  /** The windows cover the list exactly once, in order. */
  lemma {:induction false} LemmaWindowsCover<T>(s: seq<T>, b: nat, start: nat)
    requires b > 0
    ensures Flatten(WindowsFrom(s, b, start)) == if start < |s| then s[start..] else []
    decreases |s| - start
  {
    if start < |s| {
      var next := start + b;
      LemmaWindowsCover(s, b, next);
      LemmaWindowsCoverStep(s, b, start, next);
    }
  }

  /** One window, then the windows after it, cover the suffix from `start`. */
  lemma LemmaWindowsCoverStep<T>(s: seq<T>, b: nat, start: nat, next: nat)
    requires b > 0 && start < |s| && next == start + b
    requires Flatten(WindowsFrom(s, b, next)) == if next < |s| then s[next..] else []
    ensures Flatten(WindowsFrom(s, b, start)) == s[start..]
  {
    var w, rest := Slice(s, start, next), WindowsFrom(s, b, next);
    assert WindowsFrom(s, b, start) == [w] + rest;
    assert ([w] + rest)[1..] == rest;
    assert Flatten(WindowsFrom(s, b, start)) == w + Flatten(rest);
    if next < |s| {
      LemmaSuffixSplit(s, start, next);
    } else {
      LemmaSliceToEnd(s, start, next);
      assert w + [] == w;
    }
  }

  /** Window k is `s[lo : lo + b]` where `lo == start + k*b`. */
  lemma {:induction false} LemmaWindowAt<T>(s: seq<T>, b: nat, start: nat, k: nat, lo: nat)
    requires b > 0 && k < |WindowsFrom(s, b, start)| && lo == start + k * b
    ensures WindowsFrom(s, b, start)[k] == Slice(s, lo, lo + b)
    decreases k
  {
    var next := start + b;
    var all, rest := WindowsFrom(s, b, start), WindowsFrom(s, b, next);
    assert all == [Slice(s, start, start + b)] + rest;
    if k > 0 {
      var k1 := k - 1;
      LemmaMulStep(k, b);
      LemmaWindowAt(s, b, next, k1, lo);
      assert all[k] == rest[k1];
    }
  }

  /** Every window is non-empty, and it holds exactly `b` elements unless it is the last. */
  lemma {:induction false} LemmaWindowSize<T>(s: seq<T>, b: nat, start: nat, k: nat)
    requires b > 0 && k < |WindowsFrom(s, b, start)|
    ensures 0 < |WindowsFrom(s, b, start)[k]| <= b
    ensures k + 1 < |WindowsFrom(s, b, start)| ==> |WindowsFrom(s, b, start)[k]| == b
    decreases k
  {
    var next := start + b;
    var all, rest := WindowsFrom(s, b, start), WindowsFrom(s, b, next);
    assert all == [Slice(s, start, start + b)] + rest;
    if k == 0 {
      if |all| > 1 {
        assert start + b < |s|;
      }
    } else {
      var k1 := k - 1;
      LemmaWindowSize(s, b, next, k1);
      assert all[k] == rest[k1];
    }
  }

  /** There are ceil((|s| - start) / b) windows, stated without division. */
  lemma {:induction false} LemmaWindowBounds<T>(s: seq<T>, b: nat, start: nat)
    requires b > 0
    ensures start >= |s| <==> WindowsFrom(s, b, start) == []
    ensures start < |s| ==>
      (|WindowsFrom(s, b, start)| - 1) * b < |s| - start <= |WindowsFrom(s, b, start)| * b
    decreases |s| - start
  {
    var next := start + b;
    if start < |s| {
      var c := |WindowsFrom(s, b, next)|;
      assert |WindowsFrom(s, b, start)| == c + 1;
      LemmaWindowBounds(s, b, next);
      LemmaMulStep(c + 1, b);
      if start + b < |s| {
        LemmaMulStep(c, b);
      }
    }
  }

  /** Python issues `range(0, n, b)`'s ceil(n / b) iterations. */
  lemma LemmaWindowCount<T>(s: seq<T>, b: nat)
    requires b > 0
    ensures |Windows(s, b)| == (|s| + b - 1) / b
    ensures |Windows(s, b)| == 0 <==> |s| == 0
  {
    var w := |Windows(s, b)|;
    LemmaWindowBounds(s, b, 0);
    if |s| == 0 {
      LemmaDivModUnique(b - 1, b, 0, b - 1);
    } else {
      LemmaMulStep(w, b);
      LemmaDivModUnique(|s| + b - 1, b, w, |s| + b - 1 - w * b);
    }
  }

  /** The `(id, vector, metadata)` entries the inner loop assembles for the batch that
      starts at element `offset`: one per chunk, in order. */
  function BatchEntries(batch: seq<Document>, offset: nat, embed: string -> Vector): seq<Entry>
  {
    seq(|batch|, t requires 0 <= t < |batch| =>
      Entry(ChunkId(SourceOf(batch[t].metadata), offset, t), embed(batch[t].pageContent), batch[t].metadata))
  }

  /** The upsert calls the loop makes from `start` on, one batch each. */
  function PlanFrom(docs: seq<Document>, b: nat, start: nat, embed: string -> Vector): seq<seq<Entry>>
    requires b > 0
    decreases |docs| - start
  {
    if start >= |docs| then []
    else [BatchEntries(Slice(docs, start, start + b), start, embed)] + PlanFrom(docs, b, start + b, embed)
  }

  /** The upsert calls of the whole loop. */
  function Plan(docs: seq<Document>, b: nat, embed: string -> Vector): seq<seq<Entry>>
    requires b > 0
  {
    PlanFrom(docs, b, 0, embed)
  }

  /** The id the loop gives the chunk at global position `j`: its batch starts at
      `BatchStart(j, b)` (that is, `j - j % b`) and it sits at offset `j % b` inside it. */
  function GlobalId(docs: seq<Document>, b: nat, j: nat): string
    requires b > 0 && j < |docs|
  {
    ChunkId(SourceOf(docs[j].metadata), BatchStart(j, b), j - BatchStart(j, b))
  }

  /** The id of the chunk at global position `j` is `{source}_{j - j % b}_{j % b}`, with
      "doc" standing in for a missing source. */
  lemma LemmaGlobalIdSpelled(docs: seq<Document>, b: nat, j: nat)
    requires b > 0 && j < |docs|
    ensures GlobalId(docs, b, j)
         == SourceOf(docs[j].metadata) + "_" + NatToString(j - j % b) + "_" + NatToString(j % b)
  {
    LemmaBatchStartIsFloor(j, b);
  }

  /** The entry for the chunk at global position `j`: its id, its own embedding and its
      metadata unchanged. */
  function EntryAt(docs: seq<Document>, b: nat, j: nat, embed: string -> Vector): Entry
    requires b > 0 && j < |docs|
  {
    Entry(GlobalId(docs, b, j), embed(docs[j].pageContent), docs[j].metadata)
  }

  lemma {:induction false} LemmaPlanLength(docs: seq<Document>, b: nat, start: nat, embed: string -> Vector)
    requires b > 0
    ensures |PlanFrom(docs, b, start, embed)| == |WindowsFrom(docs, b, start)|
    decreases |docs| - start
  {
    if start < |docs| {
      var next := start + b;
      LemmaPlanLength(docs, b, next, embed);
      assert |PlanFrom(docs, b, start, embed)| == 1 + |PlanFrom(docs, b, next, embed)|;
      assert |WindowsFrom(docs, b, start)| == 1 + |WindowsFrom(docs, b, next)|;
    }
  }

  /** Upsert call k carries exactly the entries of window k, with ids built from the
      window's start `lo == start + k * b`. */
  lemma {:induction false} LemmaPlanAt(docs: seq<Document>, b: nat, start: nat, embed: string -> Vector, k: nat, lo: nat)
    requires b > 0 && k < |WindowsFrom(docs, b, start)| && lo == start + k * b
    ensures k < |PlanFrom(docs, b, start, embed)|
    ensures PlanFrom(docs, b, start, embed)[k] == BatchEntries(WindowsFrom(docs, b, start)[k], lo, embed)
    decreases k
  {
    var next := start + b;
    LemmaPlanLength(docs, b, start, embed);
    var plan, windows := PlanFrom(docs, b, start, embed), WindowsFrom(docs, b, start);
    assert plan == [BatchEntries(Slice(docs, start, start + b), start, embed)] + PlanFrom(docs, b, next, embed);
    assert windows == [Slice(docs, start, start + b)] + WindowsFrom(docs, b, next);
    if k > 0 {
      var k1 := k - 1;
      LemmaMulStep(k, b);
      LemmaPlanAt(docs, b, next, embed, k1, lo);
      assert plan[k] == PlanFrom(docs, b, next, embed)[k1];
      assert windows[k] == WindowsFrom(docs, b, next)[k1];
    }
  }

  /** The last window holds what is left after the full ones. */
  lemma LemmaLastWindowSize<T>(s: seq<T>, b: nat)
    requires b > 0 && |s| > 0
    ensures |Windows(s, b)| > 0
    ensures |Windows(s, b)[|Windows(s, b)| - 1]| == |s| - (|Windows(s, b)| - 1) * b
  {
    var windows := Windows(s, b);
    LemmaWindowBounds(s, b, 0);
    var last := |windows| - 1;
    var lo := last * b;
    LemmaWindowAt(s, b, 0, last, lo);
    LemmaMulStep(|windows|, b);
    assert lo < |s| <= lo + b;
  }

  /** Upsert call k has one entry per chunk of window k. */
  lemma LemmaPlanSizeAt(docs: seq<Document>, b: nat, embed: string -> Vector, k: nat)
    requires b > 0 && k < |Windows(docs, b)|
    ensures k < |Plan(docs, b, embed)| && |Plan(docs, b, embed)[k]| == |Windows(docs, b)[k]|
  {
    LemmaPlanAt(docs, b, 0, embed, k, k * b);
  }

  /** The number and sizes of the upsert calls: ceil(n / b) calls, none for an empty
      list, each of `b` entries except the last, which holds the remainder. */
  lemma LemmaUpsertCallSizes(docs: seq<Document>, b: nat, embed: string -> Vector)
    requires b > 0
    ensures |Plan(docs, b, embed)| == (|docs| + b - 1) / b
    ensures |Plan(docs, b, embed)| == 0 <==> |docs| == 0
    ensures forall k :: 0 <= k < |Plan(docs, b, embed)| - 1 ==> |Plan(docs, b, embed)[k]| == b
    ensures |docs| > 0 ==>
      |Plan(docs, b, embed)[|Plan(docs, b, embed)| - 1]| == |docs| - (|Plan(docs, b, embed)| - 1) * b
  {
    LemmaPlanLength(docs, b, 0, embed);
    LemmaWindowCount(docs, b);
    var plan := Plan(docs, b, embed);
    forall k | 0 <= k < |plan| - 1 ensures |plan[k]| == b {
      LemmaPlanSizeAt(docs, b, embed, k);
      LemmaWindowSize(docs, b, 0, k);
    }
    if |docs| > 0 {
      LemmaLastWindowSize(docs, b);
      LemmaPlanSizeAt(docs, b, embed, |plan| - 1);
    }
  }

  /** With a batch size of 10, 25 chunks are upserted in three calls of 10, 10 and 5. */
  lemma LemmaTwentyFiveChunks(docs: seq<Document>, embed: string -> Vector)
    requires |docs| == 25
    ensures |Plan(docs, 10, embed)| == 3
    ensures |Plan(docs, 10, embed)[0]| == 10 && |Plan(docs, 10, embed)[1]| == 10
    ensures |Plan(docs, 10, embed)[2]| == 5
  {
    LemmaUpsertCallSizes(docs, 10, embed);
  }

  /** `EntryAt` counted from `start`: the entry for the chunk at position `start + t`,
      with its batch start written as `start + BatchStart(t, b)`. This is the form the
      induction over `PlanFrom` needs; `LemmaPlanFlat` takes `start = 0`, where it
      coincides with `EntryAt`. */
  function EntryFrom(docs: seq<Document>, b: nat, start: nat, t: nat, embed: string -> Vector): Entry
    requires b > 0 && start + t < |docs|
  {
    var doc := docs[start + t];
    Entry(ChunkId(SourceOf(doc.metadata), start + BatchStart(t, b), t - BatchStart(t, b)),
          embed(doc.pageContent), doc.metadata)
  }

  /** Entry t of the first batch from `start` on. */
  lemma LemmaBatchEntryAt(docs: seq<Document>, b: nat, start: nat, t: nat, embed: string -> Vector)
    requires b > 0 && t < b && start + t < |docs|
    ensures t < |BatchEntries(Slice(docs, start, start + b), start, embed)|
    ensures BatchEntries(Slice(docs, start, start + b), start, embed)[t] == EntryFrom(docs, b, start, t, embed)
  {
    var doc := docs[start + t];
    assert BatchStart(t, b) == 0;
    assert EntryFrom(docs, b, start, t, embed)
        == Entry(ChunkId(SourceOf(doc.metadata), start, t), embed(doc.pageContent), doc.metadata);
    assert Slice(docs, start, start + b)[t] == doc;
  }

  lemma {:induction false} LemmaPlanFlatLength(docs: seq<Document>, b: nat, start: nat, embed: string -> Vector)
    requires b > 0 && start <= |docs|
    ensures |Flatten(PlanFrom(docs, b, start, embed))| == |docs| - start
    decreases |docs| - start
  {
    var next := start + b;
    if start < |docs| {
      var batch := BatchEntries(Slice(docs, start, start + b), start, embed);
      var rest := PlanFrom(docs, b, next, embed);
      assert PlanFrom(docs, b, start, embed) == [batch] + rest;
      assert ([batch] + rest)[1..] == rest;
      if start + b <= |docs| {
        LemmaPlanFlatLength(docs, b, next, embed);
      }
    }
  }

  /** The upserts from `start` on, laid end to end: the first batch, then the rest. */
  lemma LemmaPlanFromFlat(docs: seq<Document>, b: nat, start: nat, embed: string -> Vector, next: nat)
    requires b > 0 && start < |docs| && next == start + b
    ensures Flatten(PlanFrom(docs, b, start, embed))
         == BatchEntries(Slice(docs, start, start + b), start, embed) + Flatten(PlanFrom(docs, b, next, embed))
  {
    var batch := BatchEntries(Slice(docs, start, start + b), start, embed);
    var rest := PlanFrom(docs, b, next, embed);
    assert PlanFrom(docs, b, start, embed) == [batch] + rest;
    assert ([batch] + rest)[1..] == rest;
  }

  /** Element t of the upserts from `start` on, laid end to end, is the entry of the
      chunk at `start + t`. */
  lemma {:induction false} LemmaPlanFlatAt(docs: seq<Document>, b: nat, start: nat, embed: string -> Vector, t: nat)
    requires b > 0 && start + t < |docs|
    ensures t < |Flatten(PlanFrom(docs, b, start, embed))|
    ensures Flatten(PlanFrom(docs, b, start, embed))[t] == EntryFrom(docs, b, start, t, embed)
    decreases t
  {
    if t < b {
      LemmaPlanFlatHead(docs, b, start, embed, t);
    } else {
      var next, u := start + b, t - b;
      LemmaPlanFlatAt(docs, b, next, embed, u);
      LemmaPlanFlatStep(docs, b, start, embed, t, next, u);
    }
  }

  /** The first batch from `start` on supplies the first entries. */
  lemma LemmaPlanFlatHead(docs: seq<Document>, b: nat, start: nat, embed: string -> Vector, t: nat)
    requires b > 0 && t < b && start + t < |docs|
    ensures t < |Flatten(PlanFrom(docs, b, start, embed))|
    ensures Flatten(PlanFrom(docs, b, start, embed))[t] == EntryFrom(docs, b, start, t, embed)
  {
    var next := start + b;
    LemmaPlanFlatLength(docs, b, start, embed);
    LemmaPlanFromFlat(docs, b, start, embed, next);
    var batch := BatchEntries(Slice(docs, start, start + b), start, embed);
    var tail := Flatten(PlanFrom(docs, b, next, embed));
    LemmaBatchEntryAt(docs, b, start, t, embed);
    LemmaIndexAppendFront(batch, tail, t);
  }

  /** Past the first batch, the entries are those from the next batch on. */
  lemma LemmaPlanFlatStep(docs: seq<Document>, b: nat, start: nat, embed: string -> Vector, t: nat, next: nat, u: nat)
    requires b > 0 && b <= t && start + t < |docs| && next == start + b && u == t - b
    requires u < |Flatten(PlanFrom(docs, b, next, embed))|
    requires Flatten(PlanFrom(docs, b, next, embed))[u] == EntryFrom(docs, b, next, u, embed)
    ensures t < |Flatten(PlanFrom(docs, b, start, embed))|
    ensures Flatten(PlanFrom(docs, b, start, embed))[t] == EntryFrom(docs, b, start, t, embed)
  {
    LemmaPlanFlatLength(docs, b, start, embed);
    LemmaPlanFromFlat(docs, b, start, embed, next);
    var batch := BatchEntries(Slice(docs, start, start + b), start, embed);
    var tail := Flatten(PlanFrom(docs, b, next, embed));
    LemmaBatchSize(docs, b, start, embed);
    LemmaIndexAppend(batch, tail, t, u);
    LemmaEntryFromShift(docs, b, start, t, embed, next, u);
  }

  /** A batch that is not the last holds `b` entries. */
  lemma LemmaBatchSize(docs: seq<Document>, b: nat, start: nat, embed: string -> Vector)
    requires b > 0 && start + b <= |docs|
    ensures |BatchEntries(Slice(docs, start, start + b), start, embed)| == b
  {
  }

  lemma LemmaIndexAppendFront<T>(x: seq<T>, y: seq<T>, i: nat)
    requires i < |x|
    ensures (x + y)[i] == x[i]
  {
  }

  lemma LemmaIndexAppend<T>(x: seq<T>, y: seq<T>, i: nat, j: nat)
    requires |x| <= i < |x| + |y| && j == i - |x|
    ensures (x + y)[i] == y[j]
  {
  }

  /** Counting from the next batch names the same entry. */
  lemma LemmaEntryFromShift(docs: seq<Document>, b: nat, start: nat, t: nat, embed: string -> Vector, next: nat, u: nat)
    requires b > 0 && b <= t && start + t < |docs| && next == start + b && u == t - b
    ensures EntryFrom(docs, b, next, u, embed) == EntryFrom(docs, b, start, t, embed)
  {
    var inner := BatchStart(u, b);
    assert BatchStart(t, b) == b + inner;
    var doc := docs[start + t];
    assert docs[next + u] == doc;
    var source := SourceOf(doc.metadata);
    var offset, idx := start + BatchStart(t, b), t - BatchStart(t, b);
    assert next + inner == offset && u - inner == idx;
    assert ChunkId(source, next + inner, u - inner) == ChunkId(source, offset, idx);
  }

  /** Laid end to end, the upsert calls carry one entry per chunk, in chunk order, each
      with the chunk's closed-form id, its own embedding and its metadata. */
  lemma LemmaPlanFlat(docs: seq<Document>, b: nat, embed: string -> Vector)
    requires b > 0
    ensures |Flatten(Plan(docs, b, embed))| == |docs|
    ensures forall j :: 0 <= j < |docs| ==> Flatten(Plan(docs, b, embed))[j] == EntryAt(docs, b, j, embed)
  {
    LemmaPlanFlatLength(docs, b, 0, embed);
    forall j | 0 <= j < |docs| ensures Flatten(Plan(docs, b, embed))[j] == EntryAt(docs, b, j, embed) {
      LemmaPlanFlatAt(docs, b, 0, embed, j);
    }
  }

  /** Two chunks at different positions of one run never get the same id, whatever
      their sources are. */
  lemma LemmaIdsDistinct(docs: seq<Document>, b: nat, j1: nat, j2: nat)
    requires b > 0 && j1 < |docs| && j2 < |docs| && j1 != j2
    ensures GlobalId(docs, b, j1) != GlobalId(docs, b, j2)
  {
    if GlobalId(docs, b, j1) == GlobalId(docs, b, j2) {
      var o1, o2 := BatchStart(j1, b), BatchStart(j2, b);
      LemmaChunkIdInjective(SourceOf(docs[j1].metadata), o1, j1 - o1, SourceOf(docs[j2].metadata), o2, j2 - o2);
    }
  }

  /** Python's `zip(ids, vectors, metadata_list)`: the k-th triple of the three lists,
      stopping at the shortest list. */
  function Zip(ids: seq<string>, vectors: seq<Vector>, metas: seq<Metadata>): (r: seq<Entry>)
    ensures |r| == Min(|ids|, Min(|vectors|, |metas|))
    ensures forall t :: 0 <= t < |r| ==> r[t] == Entry(ids[t], vectors[t], metas[t])
  {
    if ids == [] || vectors == [] || metas == [] then []
    else [Entry(ids[0], vectors[0], metas[0])] + Zip(ids[1..], vectors[1..], metas[1..])
  }
}
