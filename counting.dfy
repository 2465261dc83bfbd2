/**
 * Counting over sequences of labels: de-duplication in first-seen order (what
 * `[...new Set(xs)]` yields in JavaScript), occurrence counts, and the
 * `{label, count}` tallies built from them.
 */
module Counting {
  import opened Records

  predicate NoDuplicates(s: seq<Label>) {
    forall i, j :: 0 <= i < j < |s| ==> s[i] != s[j]
  }

  function ToSet(s: seq<Label>): set<Label> {
    set x | x in s
  }

  /**
   * The distinct elements of `s`, each at the place of its first occurrence.
   * Built by appending, as a JavaScript `Set` keeps insertion order.
   */
  function Distinct(s: seq<Label>): (r: seq<Label>)
    ensures forall x :: x in r <==> x in s
    ensures NoDuplicates(r)
  {
    if s == [] then []
    else
      var d := Distinct(s[..|s| - 1]);
      if s[|s| - 1] in d then d else d + [s[|s| - 1]]
  }

  /** Taking one more element of a sequence appends that element. */
  lemma PrefixSnoc<T>(s: seq<T>, i: int)
    requires 0 <= i < |s|
    ensures s[..i + 1] == s[..i] + [s[i]]
  {
  }

  /** Appending a value keeps the list when the value was seen, and adds it at the end otherwise. */
  lemma DistinctSnoc(s: seq<Label>, x: Label)
    ensures Distinct(s + [x]) == if x in s then Distinct(s) else Distinct(s) + [x]
  {
    assert (s + [x])[..|s + [x]| - 1] == s;
  }

  lemma OccurrencesSnoc(s: seq<Label>, y: Label, x: Label)
    ensures Occurrences(s + [y], x) == Occurrences(s, x) + (if y == x then 1 else 0)
  {
    assert (s + [y])[..|s + [y]| - 1] == s;
  }

  /** First-seen order: every occurrence of a later label comes after some occurrence of each earlier one. */
  predicate FirstSeenOrder(r: seq<Label>, s: seq<Label>) {
    forall i, j, k :: 0 <= i < j < |r| && 0 <= k < |s| && s[k] == r[j] ==> r[i] in s[..k]
  }

  lemma {:induction false} DistinctOrder(s: seq<Label>)
    ensures FirstSeenOrder(Distinct(s), s)
  {
    if s != [] {
      var p, x := s[..|s| - 1], s[|s| - 1];
      assert s == p + [x];
      DistinctOrder(p);
      var d := Distinct(p);
      var r := Distinct(s);
      forall i, j, k | 0 <= i < j < |r| && 0 <= k < |s| && s[k] == r[j]
        ensures r[i] in s[..k]
      {
        if k < |p| {
          assert s[..k] == p[..k];
        } else {
          assert s[..k] == p;
          assert r[i] == d[i] && d[i] in d;
        }
      }
    }
  }

  /** The output of `Distinct` has one element per distinct value of the input. */
  lemma {:induction false} DistinctLength(s: seq<Label>)
    ensures |Distinct(s)| == |ToSet(s)|
  {
    if s != [] {
      var p, x := s[..|s| - 1], s[|s| - 1];
      assert s == p + [x];
      DistinctLength(p);
      if x in Distinct(p) {
        assert ToSet(s) == ToSet(p);
      } else {
        assert ToSet(s) == ToSet(p) + {x};
        assert x !in ToSet(p);
      }
    }
  }

  /** A sequence without duplicates is its own de-duplication. */
  lemma {:induction false} DistinctOfDistinct(s: seq<Label>)
    requires NoDuplicates(s)
    ensures Distinct(s) == s
  {
    if s != [] {
      var p, x := s[..|s| - 1], s[|s| - 1];
      assert s == p + [x];
      DistinctOfDistinct(p);
      assert x !in p;
    }
  }

  /** How many times `x` occurs in `s`. */
  function Occurrences(s: seq<Label>, x: Label): (n: nat)
    ensures n <= |s|
    ensures n > 0 <==> x in s
  {
    if s == [] then 0
    else Occurrences(s[..|s| - 1], x) + (if s[|s| - 1] == x then 1 else 0)
  }

  /** How many elements of `s` are one of `labels`. */
  function CountIn(s: seq<Label>, labels: seq<Label>): (n: nat)
    ensures n <= |s|
  {
    if s == [] then 0
    else CountIn(s[..|s| - 1], labels) + (if s[|s| - 1] in labels then 1 else 0)
  }

  /** One group per label, counting that label's occurrences in `values`. */
  function Tally(labels: seq<Label>, values: seq<Label>): (groups: seq<Group>)
    ensures Labels(groups) == labels
  {
    seq(|labels|, i requires 0 <= i < |labels| => Group(labels[i], Occurrences(values, labels[i])))
  }

  /** The sum of the counts of a list of groups. */
  function TotalCount(groups: seq<Group>): nat {
    if groups == [] then 0 else TotalCount(groups[..|groups| - 1]) + groups[|groups| - 1].count
  }

  lemma {:induction false} CountInExtend(s: seq<Label>, labels: seq<Label>, y: Label)
    requires y !in labels
    ensures CountIn(s, labels + [y]) == CountIn(s, labels) + Occurrences(s, y)
  {
    if s != [] {
      CountInExtend(s[..|s| - 1], labels, y);
    }
  }

  /** The counts of a tally over distinct labels add up to the values that are one of those labels. */
  lemma {:induction false} TallyTotal(labels: seq<Label>, values: seq<Label>)
    requires NoDuplicates(labels)
    ensures TotalCount(Tally(labels, values)) == CountIn(values, labels)
  {
    if labels == [] {
      CountInNone(values);
    } else {
      var p, y := labels[..|labels| - 1], labels[|labels| - 1];
      assert labels == p + [y];
      assert y !in p;
      var t := Tally(labels, values);
      assert t[..|t| - 1] == Tally(p, values);
      TallyTotal(p, values);
      CountInExtend(values, p, y);
    }
  }

  lemma {:induction false} CountInNone(s: seq<Label>)
    ensures CountIn(s, []) == 0
  {
    if s != [] {
      CountInNone(s[..|s| - 1]);
    }
  }

  /** When every value is one of the labels, every value is counted. */
  lemma {:induction false} CountInAll(s: seq<Label>, labels: seq<Label>)
    requires forall x :: x in s ==> x in labels
    ensures CountIn(s, labels) == |s|
  {
    if s != [] {
      assert s[|s| - 1] in s;
      CountInAll(s[..|s| - 1], labels);
    }
  }
}
