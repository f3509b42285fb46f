/**
 * The three-tier classification of a score, written in the source as a
 * pandas `cut` with right-closed bins -1, 49, 79, 100 and labels Cold, Warm, Hot.
 */
module Tiers {
  import opened Wrappers

  datatype Tier = Cold | Warm | Hot

  /** Position of a tier in the order Cold < Warm < Hot. */
  function Level(t: Tier): nat {
    match t
    case Cold => 0
    case Warm => 1
    case Hot => 2
  }

  /** Bin edges are strictly increasing, as pandas demands of `cut`. */
  predicate Increasing(bins: seq<int>) {
    forall i, j :: 0 <= i < j < |bins| ==> bins[i] < bins[j]
  }

  /**
   * pandas `cut` with `right=True`: the label of the interval
   * (bins[i], bins[i + 1]] that holds `x`, or nothing when `x` lies outside
   * (bins[0], bins[last]].
   */
  function Cut<L>(x: int, bins: seq<int>, labels: seq<L>): (r: Option<L>)
    requires |bins| == |labels| + 1
    requires Increasing(bins)
    ensures r.Some? <==> bins[0] < x <= bins[|bins| - 1]
    ensures forall i :: 0 <= i < |labels| && bins[i] < x <= bins[i + 1] ==> r == Some(labels[i])
  {
    if |labels| == 0 then None
    else if bins[0] < x <= bins[1] then Some(labels[0])
    else
      var r := Cut(x, bins[1..], labels[1..]);
      assert forall i :: 1 <= i < |labels| ==> bins[1..][i - 1] == bins[i] && labels[1..][i - 1] == labels[i];
      r
  }

  const Bins: seq<int> := [-1, 49, 79, 100]
  const Labels: seq<Tier> := [Cold, Warm, Hot]

  /**
   * The tier of a score: 0..49 Cold, 50..79 Warm, 80..100 Hot, and no tier
   * outside 0..100 (pandas yields a missing value there).
   */
  function Classify(score: int): (r: Option<Tier>)
    ensures r == Some(Cold) <==> 0 <= score <= 49
    ensures r == Some(Warm) <==> 50 <= score <= 79
    ensures r == Some(Hot) <==> 80 <= score <= 100
    ensures r == None <==> score < 0 || score > 100
  {
    assert Increasing(Bins);
    var r := Cut(score, Bins, Labels);
    assert Bins[0] == -1 && Bins[1] == 49 && Bins[2] == 79 && Bins[3] == 100;
    assert Labels[0] == Cold && Labels[1] == Warm && Labels[2] == Hot;
    assert 0 <= score <= 49 ==> r == Some(Labels[0]);
    assert 50 <= score <= 79 ==> r == Some(Labels[1]);
    assert 80 <= score <= 100 ==> r == Some(Labels[2]);
    r
  }

  /** A higher score never lands in a lower tier. */
  lemma ClassifyMonotone(a: int, b: int)
    requires 0 <= a <= b <= 100
    ensures Classify(a).Some? && Classify(b).Some?
    ensures Level(Classify(a).value) <= Level(Classify(b).value)
  {
  }
}
