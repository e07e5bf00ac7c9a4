/**
 * The statevector bar chart (frontend/src/components/Amplitudes.tsx): one
 * bar per basis state, labelled with the index in binary, zero-padded to
 * `Math.max(1, Math.log2(N))` characters for N probabilities.
 */
module Amplitudes {
  import opened Text

  /** `floor(log2 n)` for n >= 1. */
  function ILog2(n: nat): (k: nat)
    requires n >= 1
    ensures Pow2(k) <= n < 2 * Pow2(k)
  {
    if n < 2 then 0 else 1 + ILog2(n / 2)
  }

  /**
   * The pad width `Math.max(1, Math.log2(n))`; `padStart` truncates a
   * fractional length, so the width is the floor of the logarithm, and at
   * least 1 (also for n = 0, where `Math.log2` is minus infinity).
   */
  function Width(n: nat): (w: nat)
    ensures w >= 1
  {
    if n < 2 then 1 else ILog2(n)
  }

  /** The chart's data: the x labels and the bar heights. */
  datatype Chart = Chart(labels: seq<string>, heights: seq<real>)

  /** `Array.from({ length: N }, (_, i) => i.toString(2).padStart(width, '0'))` */
  function BasisLabels(n: nat): (labels: seq<string>)
    ensures |labels| == n
  {
    seq(n, i requires 0 <= i < n => PaddedBinary(i, Width(n)))
  }

  /**
   * One label per probability: label i is a string of binary digits that
   * reads back as i, as long as `Width` or as i's shortest numeral if that is
   * longer; the bar heights are the probabilities themselves.
   */
  function AmplitudeChart(probabilities: seq<real>): (c: Chart)
    ensures |c.labels| == |probabilities|
    ensures forall i :: 0 <= i < |c.labels| ==> IsBits(c.labels[i]) && BinaryValue(c.labels[i]) == i
    ensures forall i :: 0 <= i < |c.labels| ==>
      |c.labels[i]| == if |Binary(i)| >= Width(|probabilities|) then |Binary(i)| else Width(|probabilities|)
    ensures c.heights == probabilities
  {
    var labels := BasisLabels(|probabilities|);
    LabelsReadBack(|probabilities|);
    Chart(labels, probabilities)
  }

  lemma LabelsReadBack(n: nat)
    ensures forall i :: 0 <= i < n ==> IsBits(BasisLabels(n)[i]) && BinaryValue(BasisLabels(n)[i]) == i
    ensures forall i :: 0 <= i < n ==>
      |BasisLabels(n)[i]| == if |Binary(i)| >= Width(n) then |Binary(i)| else Width(n)
  {
    forall i | 0 <= i < n
      ensures IsBits(BasisLabels(n)[i]) && BinaryValue(BasisLabels(n)[i]) == i
      ensures |BasisLabels(n)[i]| == if |Binary(i)| >= Width(n) then |Binary(i)| else Width(n)
    {
      PaddedBinaryValue(i, Width(n));
      PaddedBinaryDigits(i, Width(n));
    }
  }

  /** A single probability is labelled "0". */
  lemma SingleStateLabel()
    ensures BasisLabels(1) == ["0"]
  {
    assert BasisLabels(1)[0] == PadStart(Binary(0), 1, '0');
  }

  lemma {:induction false} ILog2OfPow2(k: nat)
    ensures ILog2(Pow2(k)) == k
  {
    if k > 0 {
      ILog2OfPow2(k - 1);
      assert Pow2(k) / 2 == Pow2(k - 1);
    }
  }

  /** For 2^k probabilities (k >= 1) every label has exactly k characters and the labels are pairwise distinct. */
  lemma PowerOfTwoLabels(k: nat)
    requires k >= 1
    ensures forall i :: 0 <= i < Pow2(k) ==> |BasisLabels(Pow2(k))[i]| == k
    ensures forall i, j :: 0 <= i < j < Pow2(k) ==> BasisLabels(Pow2(k))[i] != BasisLabels(Pow2(k))[j]
  {
    var n := Pow2(k);
    assert n >= 2 by {
      assert Pow2(k) == 2 * Pow2(k - 1);
    }
    ILog2OfPow2(k);
    assert Width(n) == k;
    forall i, j | 0 <= i < j < n ensures |BasisLabels(n)[i]| == k && BasisLabels(n)[i] != BasisLabels(n)[j] {
      PaddedBinaryDistinct(i, j, k);
    }
    forall i | 0 <= i < n ensures |BasisLabels(n)[i]| == k {
      if i + 1 < n {
        PaddedBinaryDistinct(i, i + 1, k);
      } else {
        PaddedBinaryDistinct(i, 0, k);
      }
    }
  }
}
