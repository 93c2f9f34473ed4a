/** The suggestion filter of the annotation tool: the OCR strings offered to the
    user are those whose length is strictly greater than the configured minimum
    text length, in the order the extractor produced them. */
module Suggestions {

  /** What the text extractor gives back for one image: the recognised strings,
      or an exception (unreadable file, OCR failure). */
  datatype Extraction = Extracted(results: seq<string>) | Raised(message: string)

  /** `r` is obtained from `s` by deleting elements, keeping the order of the rest. */
  ghost predicate IsSubsequence(r: seq<string>, s: seq<string>)
    decreases |s|
  {
    if r == [] then true
    else if s == [] then false
    else if r[0] == s[0] then IsSubsequence(r[1..], s[1..])
    else IsSubsequence(r, s[1..])
  }

  /** The list comprehension of `process_image`: keep every result longer than
      `minTextLength`. */
  function Filter(results: seq<string>, minTextLength: int): (kept: seq<string>)
    ensures |kept| <= |results|
    ensures forall t :: t in kept ==> t in results && |t| > minTextLength
    ensures forall t :: t in results && |t| > minTextLength ==> t in kept
  {
    if results == [] then []
    else
      var rest := Filter(results[1..], minTextLength);
      if |results[0]| > minTextLength then [results[0]] + rest else rest
  }

  /** A result whose length equals the minimum is dropped: the comparison is strict. */
  lemma BoundaryExcluded(results: seq<string>, minTextLength: int, t: string)
    requires t in results && |t| == minTextLength
    ensures t !in Filter(results, minTextLength)
  {
  }

  /** The filter keeps the order of the extractor's output. */
  lemma {:induction false} FilterIsSubsequence(results: seq<string>, minTextLength: int)
    ensures IsSubsequence(Filter(results, minTextLength), results)
  {
    if results != [] {
      FilterIsSubsequence(results[1..], minTextLength);
      var rest := Filter(results[1..], minTextLength);
      if |results[0]| <= minTextLength {
        SkipHead(rest, results);
      }
    }
  }

  /** Dropping the head of `s` keeps every subsequence of its tail a subsequence of `s`. */
  lemma {:induction false} SkipHead(r: seq<string>, s: seq<string>)
    requires s != [] && IsSubsequence(r, s[1..])
    ensures IsSubsequence(r, s)
    decreases |s|, 0
  {
    if r != [] && r[0] == s[0] {
      // r matched somewhere in s[1..]; matching its head at s[0] instead needs r[1..] in s[1..]
      SubsequenceOfTail(r, s[1..]);
    }
  }

  /** A non-empty subsequence of `s` without its head is still a subsequence of `s`. */
  lemma {:induction false} SubsequenceOfTail(r: seq<string>, s: seq<string>)
    requires r != [] && IsSubsequence(r, s)
    ensures IsSubsequence(r[1..], s)
    decreases |s|, 1
  {
    if r[0] == s[0] {
      if r[1..] != [] {
        SkipHead(r[1..], s);
      }
    } else {
      SubsequenceOfTail(r, s[1..]);
      if r[1..] != [] {
        SkipHead(r[1..], s);
      }
    }
  }

  /** Exactly the long results are kept, each with its multiplicity: no others,
      none lost, duplicates preserved. */
  lemma {:induction false} FilterCount(results: seq<string>, minTextLength: int)
    ensures forall t :: multiset(Filter(results, minTextLength))[t] ==
                        if |t| > minTextLength then multiset(results)[t] else 0
  {
    if results != [] {
      FilterCount(results[1..], minTextLength);
      assert results == [results[0]] + results[1..];
    }
  }

  /** `process_image`: the filtered suggestions, or none when the extractor raised. */
  function ProcessImage(extraction: Extraction, minTextLength: int): (suggestions: seq<string>)
    ensures extraction.Raised? ==> suggestions == []
    ensures extraction.Extracted? ==>
              IsSubsequence(suggestions, extraction.results) &&
              forall t :: multiset(suggestions)[t] ==
                          if |t| > minTextLength then multiset(extraction.results)[t] else 0
  {
    match extraction
    case Raised(_) => []
    case Extracted(results) =>
      FilterIsSubsequence(results, minTextLength);
      FilterCount(results, minTextLength);
      Filter(results, minTextLength)
  }
}
