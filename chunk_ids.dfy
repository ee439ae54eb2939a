/** Chunk identifiers of the ingestion loop: `f"{source}_{i}_{idx}"`, where
    `source` is the chunk's `source` metadata (or "doc"), `i` the element
    offset at which its batch starts and `idx` its offset inside the batch. */
module ChunkIds {

  datatype Option<T> = None | Some(value: T)

  /** Chunk metadata: string keys to string values (Python's `doc.metadata`). */
  type Metadata = map<string, string>

  const SourceKey: string := "source"
  const DefaultSource: string := "doc"
  const Separator: char := '_'

  /** `doc.metadata.get('source', 'doc')`. */
  function SourceOf(metadata: Metadata): string
  {
    if SourceKey in metadata then metadata[SourceKey] else DefaultSource
  }

  predicate IsDigit(c: char)
  {
    '0' <= c <= '9'
  }

  predicate IsDigits(s: string)
  {
    forall k :: 0 <= k < |s| ==> IsDigit(s[k])
  }

  function DigitChar(d: nat): (c: char)
    requires d < 10
    ensures IsDigit(c) && DigitValue(c) == d
  {
    ('0' as int + d) as char
  }

  function DigitValue(c: char): nat
    requires IsDigit(c)
  {
    c as int - '0' as int
  }

  /** Python's `str(n)` for a non-negative int: its decimal numeral. */
  function NatToString(n: nat): (s: string)
    ensures |s| > 0 && IsDigits(s)
    ensures n < 10 <==> |s| == 1
    ensures |s| == 1 || s[0] != '0'
    ensures s[0] == '0' <==> n == 0
  {
    if n < 10 then [DigitChar(n)] else NatToString(n / 10) + [DigitChar(n % 10)]
  }

  /** The number a string of decimal digits denotes. */
  function DecimalValue(s: string): nat
    requires IsDigits(s)
  {
    if s == [] then 0 else DecimalValue(s[..|s| - 1]) * 10 + DigitValue(s[|s| - 1])
  }

  /** Reading back a numeral gives the number it was written from. */
  lemma {:induction false} LemmaDecimalRoundTrip(n: nat)
    ensures DecimalValue(NatToString(n)) == n
  {
    var s := NatToString(n);
    if n >= 10 {
      assert s[..|s| - 1] == NatToString(n / 10);
      LemmaDecimalRoundTrip(n / 10);
    }
  }

  /** A numeral whose first digit is not zero denotes a positive number. */
  lemma {:induction false} LemmaLeadingDigitPositive(s: string)
    requires IsDigits(s) && |s| > 0 && s[0] != '0'
    ensures DecimalValue(s) > 0
  {
    if |s| > 1 {
      var front := s[..|s| - 1];
      assert front[0] == s[0];
      LemmaLeadingDigitPositive(front);
    }
  }

  /** The numeral is the only digit string without a leading zero (other than "0" itself)
      that denotes `n`, so it is exactly the one Python's `str` writes. */
  lemma {:induction false} LemmaCanonicalNumeral(s: string, n: nat)
    requires IsDigits(s) && |s| > 0 && (|s| == 1 || s[0] != '0') && DecimalValue(s) == n
    ensures s == NatToString(n)
  {
    var front, last := s[..|s| - 1], s[|s| - 1];
    var d := DigitValue(last);
    assert DigitChar(d) == last;
    if |s| == 1 {
      assert front == [];
      assert s == [last];
    } else {
      assert front[0] == s[0];
      LemmaLeadingDigitPositive(front);
      var v := DecimalValue(front);
      assert n == v * 10 + d;
      assert n / 10 == v && n % 10 == d;
      LemmaCanonicalNumeral(front, v);
      assert s == front + [last];
    }
  }

  /** A numeral contains no separator character. */
  lemma LemmaNumeralHasNoSeparator(n: nat)
    ensures Separator !in NatToString(n)
  {
  }

  /** Splits `s` at the last occurrence of `sep` into the text before it and
      the text after it; None when `sep` does not occur. */
  function SplitAtLast(s: string, sep: char): (r: Option<(string, string)>)
    ensures r.Some? ==> r.value.0 + [sep] + r.value.1 == s && sep !in r.value.1
    ensures r.None? <==> sep !in s
  {
    if s == [] then None
    else if s[|s| - 1] == sep then Some((s[..|s| - 1], []))
    else match SplitAtLast(s[..|s| - 1], sep)
      case None => None
      case Some(parts) => Some((parts.0, parts.1 + [s[|s| - 1]]))
  }

  /** Splitting a string whose tail after `sep` is free of `sep` finds exactly that tail. */
  lemma {:induction false} LemmaSplitAtLastOf(before: string, sep: char, after: string)
    requires sep !in after
    ensures SplitAtLast(before + [sep] + after, sep) == Some((before, after))
  {
    var s := before + [sep] + after;
    if after == [] {
      assert s[..|s| - 1] == before;
    } else {
      var shorter := after[..|after| - 1];
      assert s[..|s| - 1] == before + [sep] + shorter;
      assert s[|s| - 1] == after[|after| - 1];
      assert sep !in shorter by {
        forall k | 0 <= k < |shorter| ensures shorter[k] != sep {
          assert shorter[k] == after[k];
        }
      }
      LemmaSplitAtLastOf(before, sep, shorter);
      assert shorter + [after[|after| - 1]] == after;
    }
  }

  /** The id of the chunk at offset `idx` of the batch that starts at element `offset`:
      the f-string `{source}_{offset}_{idx}`. */
  function ChunkId(source: string, offset: nat, idx: nat): string
  {
    source + [Separator] + NatToString(offset) + [Separator] + NatToString(idx)
  }

  /** Recovers (source, offset, idx) from an id: the last two separators delimit the numerals. */
  function ParseChunkId(id: string): Option<(string, nat, nat)>
  {
    match SplitAtLast(id, Separator)
    case None => None
    case Some(outer) =>
      match SplitAtLast(outer.0, Separator)
      case None => None
      case Some(inner) =>
        if inner.1 != [] && IsDigits(inner.1) && outer.1 != [] && IsDigits(outer.1) then
          Some((inner.0, DecimalValue(inner.1), DecimalValue(outer.1)))
        else
          None
  }

  /** Every id the loop builds parses back to the source and positions it was built from,
      whatever the source contains (separators included). */
  lemma LemmaParseChunkId(source: string, offset: nat, idx: nat)
    ensures ParseChunkId(ChunkId(source, offset, idx)) == Some((source, offset, idx))
  {
    var front := source + [Separator] + NatToString(offset);
    assert ChunkId(source, offset, idx) == front + [Separator] + NatToString(idx);
    LemmaNumeralHasNoSeparator(offset);
    LemmaNumeralHasNoSeparator(idx);
    LemmaSplitAtLastOf(front, Separator, NatToString(idx));
    LemmaSplitAtLastOf(source, Separator, NatToString(offset));
    LemmaDecimalRoundTrip(offset);
    LemmaDecimalRoundTrip(idx);
  }

  /** Distinct (source, offset, idx) triples never share an id. */
  lemma LemmaChunkIdInjective(s1: string, o1: nat, k1: nat, s2: string, o2: nat, k2: nat)
    requires ChunkId(s1, o1, k1) == ChunkId(s2, o2, k2)
    ensures s1 == s2 && o1 == o2 && k1 == k2
  {
    LemmaParseChunkId(s1, o1, k1);
    LemmaParseChunkId(s2, o2, k2);
  }

  /** A chunk without `source` metadata is named as if its source were "doc": the two
      are indistinguishable in the index. */
  lemma LemmaMissingSourceIsDoc(metadata: Metadata, offset: nat, idx: nat)
    requires SourceKey !in metadata
    ensures ChunkId(SourceOf(metadata), offset, idx)
         == ChunkId(SourceOf(map[SourceKey := DefaultSource]), offset, idx)
  {
  }
}
