/** Sequences without repeats. */
module Sequences {
  predicate Distinct<T(==)>(s: seq<T>) {
    forall i, j :: 0 <= i < j < |s| ==> s[i] != s[j]
  }

  lemma AppendKeepsDistinct<T>(s: seq<T>, x: T)
    requires Distinct(s) && x !in s
    ensures Distinct(s + [x])
  {
  }

  /** The sequence with only the first occurrence of each element left. */
  function FirstOccurrences<T(==)>(s: seq<T>): seq<T> {
    if s == [] then []
    else
      var earlier, last := FirstOccurrences(s[..|s| - 1]), s[|s| - 1];
      if last in earlier then earlier else earlier + [last]
  }

  /** The same elements, each once. */
  lemma {:induction false} FirstOccurrencesOnce<T>(s: seq<T>)
    ensures Distinct(FirstOccurrences(s))
    ensures forall x :: x in FirstOccurrences(s) <==> x in s
  {
    if s != [] {
      var earlier, last := FirstOccurrences(s[..|s| - 1]), s[|s| - 1];
      FirstOccurrencesOnce(s[..|s| - 1]);
      assert s == s[..|s| - 1] + [last];
      if last !in earlier {
        AppendKeepsDistinct(earlier, last);
      }
    }
  }

  /** In the order in which they first occur: what a part of the sequence has comes before the rest. */
  lemma {:induction false} FirstOccurrencesInOrder<T>(s: seq<T>, n: nat)
    requires n <= |s|
    ensures FirstOccurrences(s[..n]) <= FirstOccurrences(s)
  {
    if n == |s| {
      assert s[..n] == s;
    } else {
      assert s[..|s| - 1][..n] == s[..n];
      FirstOccurrencesInOrder(s[..|s| - 1], n);
    }
  }

  /** Dropping repeats of the second part first makes no difference. */
  lemma {:induction false} FirstOccurrencesTwice<T>(a: seq<T>, b: seq<T>)
    ensures FirstOccurrences(a + FirstOccurrences(b)) == FirstOccurrences(a + b)
  {
    if b != [] {
      var g, x := b[..|b| - 1], b[|b| - 1];
      FirstOccurrencesTwice(a, g);
      FirstOccurrencesOnce(a + g);
      FirstOccurrencesOnce(g);
      assert (a + b)[..|a + b| - 1] == a + g;
      if x !in FirstOccurrences(g) {
        assert (a + (FirstOccurrences(g) + [x]))[..|a| + |FirstOccurrences(g)|] == a + FirstOccurrences(g);
      }
    }
  }
}
