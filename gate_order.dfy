/**
 * The order in which every component visits the gates: a stable sort
 * ascending by step, a missing step counting as 0
 * (`[...gates].sort((a, b) => (a.step || 0) - (b.step || 0))` in the
 * frontend, `sorted(gates, key=lambda g: g.get('step', 0))` in the backend;
 * both sorts are stable).
 */
module GateOrder {
  import opened CircuitStore

  predicate SortedByStep(gs: seq<Gate>) {
    forall i, j :: 0 <= i < j < |gs| ==> StepKey(gs[i]) <= StepKey(gs[j])
  }

  /** The gates whose step key is `k`, in their order in `gs`. */
  function WithStep(gs: seq<Gate>, k: int): seq<Gate> {
    if gs == [] then []
    else WithStep(gs[..|gs| - 1], k) + (if StepKey(gs[|gs| - 1]) == k then [gs[|gs| - 1]] else [])
  }

  lemma {:induction false} WithStepAppend(a: seq<Gate>, b: seq<Gate>, k: int)
    ensures WithStep(a + b, k) == WithStep(a, k) + WithStep(b, k)
  {
    if b == [] {
      assert a + b == a;
    } else {
      WithStepAppend(a, b[..|b| - 1], k);
      assert (a + b)[..|a + b| - 1] == a + b[..|b| - 1];
    }
  }

  lemma {:induction false} WithStepMembers(gs: seq<Gate>, k: int, x: Gate)
    ensures x in WithStep(gs, k) <==> x in gs && StepKey(x) == k
  {
    if gs != [] {
      WithStepMembers(gs[..|gs| - 1], k, x);
      assert gs == gs[..|gs| - 1] + [gs[|gs| - 1]];
    }
  }

  /** Puts `g` after every gate of the sorted `s` whose step is not larger. */
  function Insert(s: seq<Gate>, g: Gate): (r: seq<Gate>)
    ensures multiset(r) == multiset(s) + multiset{g}
  {
    if s == [] || StepKey(s[|s| - 1]) <= StepKey(g) then s + [g]
    else
      assert s == s[..|s| - 1] + [s[|s| - 1]];
      Insert(s[..|s| - 1], g) + [s[|s| - 1]]
  }

  /** A gate no earlier than every gate of a sorted sequence can go after them. */
  lemma SortedSnoc(s: seq<Gate>, g: Gate)
    requires SortedByStep(s)
    requires forall i :: 0 <= i < |s| ==> StepKey(s[i]) <= StepKey(g)
    ensures SortedByStep(s + [g])
  {
    var r := s + [g];
    forall i, j | 0 <= i < j < |r|
      ensures StepKey(r[i]) <= StepKey(r[j])
    {
      assert r[i] == s[i];
      if j < |s| {
        assert r[j] == s[j];
      }
    }
  }

  lemma {:induction false} InsertSorted(s: seq<Gate>, g: Gate)
    requires SortedByStep(s)
    ensures SortedByStep(Insert(s, g))
  {
    if s == [] || StepKey(s[|s| - 1]) <= StepKey(g) {
      SortedSnoc(s, g);
    } else {
      var init, last := s[..|s| - 1], s[|s| - 1];
      assert SortedByStep(init) by {
        forall i, j | 0 <= i < j < |init|
          ensures StepKey(init[i]) <= StepKey(init[j])
        {
          assert init[i] == s[i] && init[j] == s[j];
        }
      }
      InsertSorted(init, g);
      var r := Insert(init, g);
      assert Insert(s, g) == r + [last];
      forall i | 0 <= i < |r|
        ensures StepKey(r[i]) <= StepKey(last)
      {
        var x := r[i];
        assert x in multiset(r);
        assert x in multiset(init) || x == g;
        if x != g {
          var n :| 0 <= n < |init| && init[n] == x;
          assert s[n] == x;
        }
      }
      SortedSnoc(r, last);
    }
  }

  lemma {:induction false} InsertStable(s: seq<Gate>, g: Gate, k: int)
    ensures WithStep(Insert(s, g), k) == WithStep(s, k) + (if StepKey(g) == k then [g] else [])
  {
    if s == [] || StepKey(s[|s| - 1]) <= StepKey(g) {
      assert Insert(s, g) == s + [g];
      WithStepAppend(s, [g], k);
      WithStepSingle(g, k);
    } else {
      var init, last := s[..|s| - 1], s[|s| - 1];
      var r := Insert(init, g);
      assert Insert(s, g) == r + [last];
      var w, gk, lk := WithStep(init, k), (if StepKey(g) == k then [g] else []), (if StepKey(last) == k then [last] else []);
      InsertStable(init, g, k);
      WithStepAppend(r, [last], k);
      WithStepSingle(last, k);
      assert WithStep(Insert(s, g), k) == (w + gk) + lk;
      assert WithStep(s, k) == w + lk;
      // `g` and `last` have different steps, so at most one of them is kept.
      if gk == [] {
        assert w + gk == w && (w + lk) + gk == w + lk;
      } else {
        assert lk == [];
        assert (w + gk) + lk == w + gk && w + lk == w;
      }
    }
  }

  lemma WithStepSingle(x: Gate, k: int)
    ensures WithStep([x], k) == if StepKey(x) == k then [x] else []
  {
    assert [x][..0] == [];
  }

  /**
   * The stable sort by step. That it is sorted and keeps the input order
   * among gates with equal steps is `SortByStepSorted` and `SortByStepStable`.
   */
  function SortByStep(gs: seq<Gate>): (r: seq<Gate>)
    ensures multiset(r) == multiset(gs)
  {
    if gs == [] then []
    else
      var init, last := gs[..|gs| - 1], gs[|gs| - 1];
      assert gs == init + [last];
      Insert(SortByStep(init), last)
  }

  /** The sorted gates are in ascending step order. */
  lemma {:induction false} SortByStepSorted(gs: seq<Gate>)
    ensures SortedByStep(SortByStep(gs))
  {
    if gs != [] {
      SortByStepSorted(gs[..|gs| - 1]);
      InsertSorted(SortByStep(gs[..|gs| - 1]), gs[|gs| - 1]);
    }
  }

  /** Among gates with the same step the input order is kept. */
  lemma {:induction false} SortByStepStable(gs: seq<Gate>, k: int)
    ensures WithStep(SortByStep(gs), k) == WithStep(gs, k)
  {
    if gs != [] {
      var init, last := gs[..|gs| - 1], gs[|gs| - 1];
      SortByStepSorted(init);
      SortByStepStable(init, k);
      InsertStable(SortByStep(init), last, k);
    }
  }

  /** Sorting neither adds nor drops gates. */
  lemma SortByStepMembers(gs: seq<Gate>)
    ensures forall g :: g in SortByStep(gs) <==> g in gs
  {
    var r := SortByStep(gs);
    forall g ensures g in r <==> g in gs {
      assert g in r <==> g in multiset(r);
      assert g in gs <==> g in multiset(gs);
    }
  }

  /** Two gates: the later step goes second; equal steps keep their order. */
  lemma SortTwo(a: Gate, b: Gate)
    ensures SortByStep([a, b]) == if StepKey(b) < StepKey(a) then [b, a] else [a, b]
  {
    assert [a, b][..1] == [a] && [a][..0] == [];
    assert SortByStep([a]) == [a];
    if StepKey(b) < StepKey(a) {
      assert [a][..0] == [];
      assert Insert([a], b) == Insert([], b) + [a];
    }
  }

  /**
   * Sorted and order-preserving among equal steps determine the order
   * completely: any stable sort by step yields exactly `SortByStep(gs)`.
   */
  lemma StableSortUnique(r: seq<Gate>, gs: seq<Gate>)
    requires SortedByStep(r)
    requires forall k :: WithStep(r, k) == WithStep(gs, k)
    ensures r == SortByStep(gs)
  {
    SortByStepSorted(gs);
    forall k ensures WithStep(r, k) == WithStep(SortByStep(gs), k) {
      SortByStepStable(gs, k);
    }
    SameFiltersSame(r, SortByStep(gs));
  }

  /**
   * Gate lists that agree step by step (same gates of each step, in the same
   * list order) sort to the same sequence and hold the same gates.
   */
  lemma SameStepOrderSameSort(a: seq<Gate>, b: seq<Gate>)
    requires forall k :: WithStep(a, k) == WithStep(b, k)
    ensures SortByStep(a) == SortByStep(b)
    ensures forall g :: g in a <==> g in b
  {
    SortByStepSorted(a);
    forall k ensures WithStep(SortByStep(a), k) == WithStep(b, k) {
      SortByStepStable(a, k);
    }
    StableSortUnique(SortByStep(a), b);
    forall g ensures g in a <==> g in b {
      WithStepMembers(a, StepKey(g), g);
      WithStepMembers(b, StepKey(g), g);
    }
  }

  /** Only the empty sequence has no gate of any step. */
  lemma NoGateOfAnyStep(a: seq<Gate>)
    requires forall k :: WithStep(a, k) == []
    ensures a == []
  {
    if a != [] {
      WithStepMembers(a, StepKey(a[0]), a[0]);
    }
  }

  /** In a sorted sequence the last gate has the largest step. */
  lemma LastHasLargestStep(s: seq<Gate>, k: int)
    requires SortedByStep(s) && s != []
    requires WithStep(s, k) != []
    ensures k <= StepKey(s[|s| - 1])
  {
    var x := WithStep(s, k)[0];
    WithStepMembers(s, k, x);
    var i :| 0 <= i < |s| && s[i] == x;
  }

  lemma {:induction false} SameFiltersSame(a: seq<Gate>, b: seq<Gate>)
    requires SortedByStep(a) && SortedByStep(b)
    requires forall k :: WithStep(a, k) == WithStep(b, k)
    ensures a == b
    decreases |a| + |b|
  {
    if a == [] {
      NoGateOfAnyStep(b);
    } else if b == [] {
      NoGateOfAnyStep(a);
    } else {
      var la, lb := a[|a| - 1], b[|b| - 1];
      var ka, kb := StepKey(la), StepKey(lb);
      var ia, ib := a[..|a| - 1], b[..|b| - 1];
      assert WithStep(a, ka) == WithStep(ia, ka) + [la];
      assert WithStep(b, kb) == WithStep(ib, kb) + [lb];
      // The largest steps agree: each last key occurs in the other sequence.
      LastHasLargestStep(b, ka);
      LastHasLargestStep(a, kb);
      assert ka == kb;
      var fa := WithStep(a, ka);
      assert fa[|fa| - 1] == la && fa[|fa| - 1] == lb;
      forall k ensures WithStep(ia, k) == WithStep(ib, k) {
        var f := WithStep(a, k);
        assert f == WithStep(ia, k) + (if ka == k then [la] else []);
        assert f == WithStep(ib, k) + (if kb == k then [lb] else []);
        if k == ka {
          assert WithStep(ia, k) == f[..|f| - 1] == WithStep(ib, k);
        } else {
          assert WithStep(ia, k) + [] == WithStep(ia, k);
          assert WithStep(ib, k) + [] == WithStep(ib, k);
        }
      }
      SameFiltersSame(ia, ib);
      assert a == ia + [la] && b == ib + [lb];
    }
  }

  /** The gates that have targets, in order. */
  function WithTargets(gs: seq<Gate>): (r: seq<Gate>)
    ensures forall g :: g in r <==> g in gs && |g.targets| > 0
  {
    if gs == [] then []
    else WithTargets(gs[..|gs| - 1]) + (if |gs[|gs| - 1].targets| > 0 then [gs[|gs| - 1]] else [])
  }
}
