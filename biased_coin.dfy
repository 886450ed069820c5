/** The biased coin of the local-biased strategy.  The source compares a
    uniform draw in [0, 1) with the floating-point value 2^-diff; here the
    threshold is the exact real 1 - 1/2^diff and the draw is a parameter. */
module Coin {
  import opened Tally

  function Pow2(k: nat): (p: nat)
    ensures p >= 1
    ensures k >= 1 ==> p >= 2
    ensures p == 2 <==> k == 1
    decreases k
  {
    if k == 0 then 1 else 2 * Pow2(k - 1)
  }

  /** The share of [0, 1) won by the participant who has driven less when the tallies
      are diff - 1 apart: at least a half, exactly a half only on a tie, and
      below 1. */
  function Threshold(diff: nat): (t: real)
    requires diff >= 1
    ensures 0.5 <= t < 1.0
    ensures t == 0.5 <==> diff == 1
  {
    var p := Pow2(diff) as real;
    assert p >= 2.0;
    assert 1.0 / p <= 0.5 by {
      assert (1.0 / p) * p == 1.0;
    }
    assert p == 2.0 <==> 1.0 / p == 0.5 by {
      assert (1.0 / p) * p == 1.0;
    }
    1.0 - 1.0 / p
  }

  /** biased_coin1: the participant whose tally is not greater (A on a tie)
      wins exactly when the draw falls within the threshold for their gap;
      on the other side of the comparison the draw is read from the top. */
  function BiasedCoin(nodes: map<int, int>, a: int, b: int, draw: real): (s: Side)
    requires a in nodes && b in nodes
    ensures nodes[a] <= nodes[b] ==> (s == A <==> draw <= Threshold(nodes[b] - nodes[a] + 1))
    ensures nodes[b] < nodes[a] ==> (s == B <==> 1.0 - draw <= Threshold(nodes[a] - nodes[b] + 1))
  {
    if nodes[a] <= nodes[b] then
      var diff := nodes[b] - nodes[a] + 1;
      if draw <= 1.0 - 1.0 / (Pow2(diff) as real) then A else B
    else
      var diff := nodes[a] - nodes[b] + 1;
      if draw >= 1.0 / (Pow2(diff) as real) then B else A
  }

  /** On equal tallies the coin is fair: A wins on the lower half of the draws. */
  lemma TieIsFair(nodes: map<int, int>, a: int, b: int, draw: real)
    requires a in nodes && b in nodes && nodes[a] == nodes[b]
    ensures BiasedCoin(nodes, a, b, draw) == A <==> draw <= 0.5
  {
    assert Threshold(1) == 0.5;
  }

  /** A wider gap gives the participant who has driven less a strictly larger share. */
  lemma {:induction false} ThresholdGrows(diff: nat)
    requires diff >= 1
    ensures Threshold(diff) < Threshold(diff + 1)
  {
    var p := Pow2(diff) as real;
    assert Pow2(diff + 1) as real == 2.0 * p;
    assert 1.0 / (2.0 * p) < 1.0 / p by {
      assert (1.0 / (2.0 * p)) * (2.0 * p) == 1.0;
      assert (1.0 / p) * p == 1.0;
    }
  }
}
