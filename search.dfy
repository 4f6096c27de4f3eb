// Client-side search over the cached catalogue: an entry matches a query when
// its lower-cased title starts with the lower-cased query. Lower-casing is the
// ASCII subset of Kotlin's `lowercase()`.

module Text {

  predicate IsUpperAscii(c: char) {
    'A' <= c <= 'Z'
  }

  /** ASCII lower-casing of one character. */
  function LowerChar(c: char): (r: char)
    ensures !IsUpperAscii(r)
    ensures IsUpperAscii(c) ==> r as int == c as int + 32
    ensures !IsUpperAscii(c) ==> r == c
  {
    if IsUpperAscii(c) then (c as int + 32) as char else c
  }

  /** ASCII `s.lowercase()`: same length, each character lowered in place. */
  function Lower(s: string): (r: string)
    ensures |r| == |s|
    ensures forall i :: 0 <= i < |s| ==> r[i] == LowerChar(s[i])
  {
    if s == [] then [] else [LowerChar(s[0])] + Lower(s[1..])
  }

  /** Lower-casing twice is lower-casing once. */
  lemma LowerIdempotent(s: string)
    ensures Lower(Lower(s)) == Lower(s)
  {
  }

  /** Kotlin `s.startsWith(prefix)`. */
  predicate StartsWith(s: string, prefix: string) {
    |prefix| <= |s| && s[..|prefix|] == prefix
  }

  lemma StartsWithTransitive(s: string, p: string, q: string)
    requires StartsWith(s, p) && StartsWith(p, q)
    ensures StartsWith(s, q)
  {
  }
}

module ProductSearch {
  import opened Models
  import opened Text

  /** The filter predicate of the search-text handler. */
  predicate Matches(e: ProductListEntry, query: string) {
    StartsWith(Lower(e.title), Lower(query))
  }

  /** `a` is `b` with some elements dropped, the rest kept in order. */
  predicate IsSubsequence<T(==)>(a: seq<T>, b: seq<T>)
    decreases |b|
  {
    a == [] || (b != [] && ((a[0] == b[0] && IsSubsequence(a[1..], b[1..])) || IsSubsequence(a, b[1..])))
  }

  /** Kotlin `entries.filter { Matches(it, query) }`, front to back. */
  function Filter(entries: seq<ProductListEntry>, query: string): (r: seq<ProductListEntry>)
    ensures |r| <= |entries|
    ensures forall x :: x in r ==> x in entries && Matches(x, query)
  {
    if entries == [] then []
    else (if Matches(entries[0], query) then [entries[0]] else []) + Filter(entries[1..], query)
  }

  /** Every matching entry of the input is kept. */
  lemma {:induction false} FilterKeepsMatches(entries: seq<ProductListEntry>, query: string, x: ProductListEntry)
    ensures x in Filter(entries, query) <==> x in entries && Matches(x, query)
  {
    if entries != [] {
      FilterKeepsMatches(entries[1..], query, x);
      assert entries == [entries[0]] + entries[1..];
    }
  }

  /** Each entry occurs in the result exactly as often as in the input when it
      matches, and not at all otherwise. */
  lemma {:induction false} FilterCount(entries: seq<ProductListEntry>, query: string, x: ProductListEntry)
    ensures multiset(Filter(entries, query))[x] == if Matches(x, query) then multiset(entries)[x] else 0
  {
    if entries != [] {
      FilterCount(entries[1..], query, x);
      assert entries == [entries[0]] + entries[1..];
      assert multiset(entries) == multiset([entries[0]]) + multiset(entries[1..]);
    }
  }

  /** The result keeps the input's order. */
  lemma {:induction false} FilterIsSubsequence(entries: seq<ProductListEntry>, query: string)
    ensures IsSubsequence(Filter(entries, query), entries)
  {
    if entries != [] {
      var rest := Filter(entries[1..], query);
      FilterIsSubsequence(entries[1..], query);
      if Matches(entries[0], query) {
        var r := [entries[0]] + rest;
        assert r[0] == entries[0] && r[1..] == rest;
      } else {
        assert Filter(entries, query) == rest;
      }
    }
  }

  /** When every entry matches, nothing is dropped. */
  lemma {:induction false} FilterAllMatch(entries: seq<ProductListEntry>, query: string)
    requires forall i :: 0 <= i < |entries| ==> Matches(entries[i], query)
    ensures Filter(entries, query) == entries
  {
    if entries != [] {
      FilterAllMatch(entries[1..], query);
      assert entries == [entries[0]] + entries[1..];
    }
  }

  /** An empty query keeps the whole list. */
  lemma FilterEmptyQuery(entries: seq<ProductListEntry>)
    ensures Filter(entries, "") == entries
  {
    FilterAllMatch(entries, "");
  }

  /** Filtering distributes over concatenation. */
  lemma {:induction false} FilterAppend(a: seq<ProductListEntry>, b: seq<ProductListEntry>, query: string)
    ensures Filter(a + b, query) == Filter(a, query) + Filter(b, query)
  {
    if a != [] {
      FilterAppend(a[1..], b, query);
      assert (a + b)[0] == a[0] && (a + b)[1..] == a[1..] + b;
    } else {
      assert a + b == b;
    }
  }

  /** Filtering the filtered list again changes nothing. */
  lemma FilterIdempotent(entries: seq<ProductListEntry>, query: string)
    ensures Filter(Filter(entries, query), query) == Filter(entries, query)
  {
    var r := Filter(entries, query);
    assert forall i :: 0 <= i < |r| ==> r[i] in r;
    FilterAllMatch(r, query);
  }

  /** A query whose lower-cased form extends that of another selects a subset:
      typing further into the box can be answered from the previous result. */
  lemma {:induction false} FilterNarrowing(entries: seq<ProductListEntry>, shorter: string, longer: string)
    requires StartsWith(Lower(longer), Lower(shorter))
    ensures Filter(Filter(entries, shorter), longer) == Filter(entries, longer)
  {
    if entries != [] {
      var e := entries[0];
      FilterNarrowing(entries[1..], shorter, longer);
      assert [e][1..] == [];
      if Matches(e, longer) {
        StartsWithTransitive(Lower(e.title), Lower(longer), Lower(shorter));
        assert Filter(entries, shorter) == [e] + Filter(entries[1..], shorter);
        FilterAppend([e], Filter(entries[1..], shorter), longer);
      } else if Matches(e, shorter) {
        assert Filter(entries, shorter) == [e] + Filter(entries[1..], shorter);
        FilterAppend([e], Filter(entries[1..], shorter), longer);
        assert Filter([e], longer) == [] + Filter([], longer) == [];
        assert Filter(entries, longer) == Filter(entries[1..], longer);
      } else {
        assert Filter(entries, shorter) == Filter(entries[1..], shorter);
        assert Filter(entries, longer) == Filter(entries[1..], longer);
      }
    }
  }

  /** The query's case does not matter. */
  lemma {:induction false} FilterCaseInsensitive(entries: seq<ProductListEntry>, query: string)
    ensures Filter(entries, Lower(query)) == Filter(entries, query)
  {
    LowerIdempotent(query);
    if entries != [] {
      FilterCaseInsensitive(entries[1..], query);
    }
  }
}
