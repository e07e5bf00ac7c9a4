/**
 * The measurement-count bar chart (frontend/src/components/Histogram.tsx):
 * the keys of the counts record sorted in descending string order with the
 * comparator `(a, b) => (a > b ? -1 : 1)`, and the count of each key.
 */
module Histogram {
  import opened Text

  /** Strictly descending: each label is greater than every later one. */
  predicate Descending(s: seq<string>) {
    forall i, j :: 0 <= i < j < |s| ==> StrLess(s[j], s[i])
  }

  /** Puts `x` before the first element smaller than it. */
  function InsertDescending(s: seq<string>, x: string): (r: seq<string>)
    ensures multiset(r) == multiset(s) + multiset{x}
  {
    if s == [] || StrLess(s[0], x) then [x] + s
    else
      assert s == [s[0]] + s[1..];
      [s[0]] + InsertDescending(s[1..], x)
  }

  /** The keys after `.sort((a, b) => (a > b ? -1 : 1))`. */
  function SortDescending(keys: seq<string>): (r: seq<string>)
    ensures multiset(r) == multiset(keys)
  {
    if keys == [] then []
    else
      assert keys == [keys[0]] + keys[1..];
      InsertDescending(SortDescending(keys[1..]), keys[0])
  }

  predicate Distinct(s: seq<string>) {
    forall i, j :: 0 <= i < j < |s| ==> s[i] != s[j]
  }

  lemma {:induction false} InsertDescendingSorted(s: seq<string>, x: string)
    requires Descending(s) && x !in s
    ensures Descending(InsertDescending(s, x))
  {
    if s != [] && !StrLess(s[0], x) {
      StrLessTotal(s[0], x);
      assert StrLess(x, s[0]);
      InsertDescendingSorted(s[1..], x);
      var r := InsertDescending(s[1..], x);
      assert multiset(r) == multiset(s[1..]) + multiset{x};
      forall y | y in r ensures StrLess(y, s[0]) {
        assert y in multiset(r);
        if y != x {
          assert y in multiset(s[1..]);
          var k :| 0 <= k < |s[1..]| && s[1..][k] == y;
          assert s[k + 1] == y;
        }
      }
    } else if s != [] {
      forall j | 0 <= j < |s| ensures StrLess(s[j], x) {
        if j > 0 {
          StrLessTransitive(s[j], s[0], x);
        }
      }
    }
  }

  lemma {:induction false} SortDescendingSorted(keys: seq<string>)
    requires Distinct(keys)
    ensures Descending(SortDescending(keys))
  {
    if keys != [] {
      var rest := keys[1..];
      assert Distinct(rest) by {
        forall i, j | 0 <= i < j < |rest| ensures rest[i] != rest[j] {
          assert rest[i] == keys[i + 1] && rest[j] == keys[j + 1];
        }
      }
      SortDescendingSorted(rest);
      assert keys[0] !in multiset(rest);
      assert keys[0] !in SortDescending(rest) by {
        assert multiset(SortDescending(rest)) == multiset(rest);
      }
      InsertDescendingSorted(SortDescending(rest), keys[0]);
    }
  }

  /** Two strictly descending sequences with the same elements are equal. */
  lemma {:induction false} DescendingUnique(a: seq<string>, b: seq<string>)
    requires Descending(a) && Descending(b)
    requires multiset(a) == multiset(b)
    ensures a == b
  {
    if a == [] || b == [] {
      assert |a| == |multiset(a)| == |multiset(b)| == |b|;
    } else {
      SameHead(a, b);
      SameTails(a, b);
      DescendingTail(a);
      DescendingTail(b);
      DescendingUnique(a[1..], b[1..]);
      assert a == [a[0]] + a[1..] && b == [b[0]] + b[1..];
    }
  }

  /** Dropping the same first element from two sequences with the same elements. */
  lemma SameTails(a: seq<string>, b: seq<string>)
    requires a != [] && b != [] && a[0] == b[0]
    requires multiset(a) == multiset(b)
    ensures multiset(a[1..]) == multiset(b[1..])
  {
    var x := a[0];
    assert a == [x] + a[1..] && b == [x] + b[1..];
    assert multiset(a[1..]) == multiset(a) - multiset{x};
    assert multiset(b[1..]) == multiset(b) - multiset{x};
  }

  /** Two non-empty descending sequences with the same elements start alike. */
  lemma SameHead(a: seq<string>, b: seq<string>)
    requires Descending(a) && Descending(b) && a != [] && b != []
    requires multiset(a) == multiset(b)
    ensures a[0] == b[0]
  {
    assert b[0] in multiset(b) && a[0] in multiset(a);
    HeadIsLargest(a, b[0]);
    HeadIsLargest(b, a[0]);
    if a[0] != b[0] {
      StrLessAsymmetric(a[0], b[0]);
    }
  }

  lemma DescendingTail(s: seq<string>)
    requires Descending(s) && s != []
    ensures Descending(s[1..])
  {
    forall i, j | 0 <= i < j < |s[1..]| ensures StrLess(s[1..][j], s[1..][i]) {
      assert s[1..][j] == s[j + 1] && s[1..][i] == s[i + 1];
    }
  }

  /** In a descending sequence every other element is smaller than the first. */
  lemma HeadIsLargest(s: seq<string>, x: string)
    requires Descending(s) && x in multiset(s)
    ensures x == s[0] || StrLess(x, s[0])
  {
    var i :| 0 <= i < |s| && s[i] == x;
  }

  /** The chart's data: the x labels and the bar heights. */
  datatype Bars = Bars(labels: seq<string>, values: seq<int>)

  /**
   * `labels` and `values` for a counts record whose `Object.keys` are `keys`:
   * the labels are the keys in strictly descending order, each exactly once,
   * and each value is the count of the label at the same position.
   */
  function HistogramBars(counts: map<string, int>, keys: seq<string>): (b: Bars)
    requires Distinct(keys) && forall k :: k in keys <==> k in counts
    ensures multiset(b.labels) == multiset(keys)
    ensures Descending(b.labels)
    ensures |b.values| == |b.labels|
    ensures forall i :: 0 <= i < |b.labels| ==> b.labels[i] in counts && b.values[i] == counts[b.labels[i]]
  {
    var labels := SortDescending(keys);
    SortDescendingSorted(keys);
    assert forall i :: 0 <= i < |labels| ==> labels[i] in counts by {
      forall i | 0 <= i < |labels| ensures labels[i] in counts {
        assert labels[i] in multiset(keys);
      }
    }
    Bars(labels, seq(|labels|, i requires 0 <= i < |labels| => counts[labels[i]]))
  }

  /** The chart does not depend on the order `Object.keys` lists the keys in. */
  lemma KeyOrderIrrelevant(counts: map<string, int>, keys1: seq<string>, keys2: seq<string>)
    requires Distinct(keys1) && forall k :: k in keys1 <==> k in counts
    requires Distinct(keys2) && forall k :: k in keys2 <==> k in counts
    ensures HistogramBars(counts, keys1) == HistogramBars(counts, keys2)
  {
    var b1, b2 := HistogramBars(counts, keys1), HistogramBars(counts, keys2);
    DistinctSameSet(keys1, keys2);
    DescendingUnique(b1.labels, b2.labels);
  }

  lemma {:induction false} DistinctSameSet(a: seq<string>, b: seq<string>)
    requires Distinct(a) && Distinct(b)
    requires forall k :: k in a <==> k in b
    ensures multiset(a) == multiset(b)
  {
    forall k ensures multiset(a)[k] == multiset(b)[k] {
      DistinctCount(a, k);
      DistinctCount(b, k);
    }
  }

  lemma {:induction false} DistinctCount(s: seq<string>, k: string)
    requires Distinct(s)
    ensures multiset(s)[k] == if k in s then 1 else 0
  {
    if s != [] {
      var init := s[..|s| - 1];
      assert s == init + [s[|s| - 1]];
      assert Distinct(init) by {
        forall i, j | 0 <= i < j < |init| ensures init[i] != init[j] {
          assert init[i] == s[i] && init[j] == s[j];
        }
      }
      DistinctCount(init, k);
    }
  }
}
