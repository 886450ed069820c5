/** The four strategies.  Each owns a ledger, a tally per participant and the
    running extremes of the current run (the last element of its max_* and
    min_* lists).  Every random outcome is a parameter. */
module Strategies {
  import opened PairKeys
  import opened Tally
  import opened Ledger
  import opened Coin
  import opened DaySteps

  /** State of the random-deterministic strategy: a tagged ledger and
      tallies that are updated incrementally. */
  class TaggedBook {
    const n: nat
    var edges: map<int, Entry>
    var nodes: map<int, int>
    var hi: int
    var lo: int

    /** Every pair has a slot that keeps the slot invariant, the tallies sum
        to zero, and, when no two pairs share a slot, the incremental
        tallies agree with a full recomputation. */
    ghost predicate Valid()
      reads this
    {
      && Complete(edges, n)
      && Exactly(nodes, n)
      && (forall k :: k in edges ==> SlotOk(edges[k]))
      && NodeSum(nodes, n) == 0
      && (KeysInjective(n) ==> nodes == Recomputed(Balances(edges), n))
    }

    /** The object's state as a value. */
    function St(): TaggedState
      reads this
    {
      TaggedState(edges, nodes, hi, lo)
    }

    /** init2, together with the 0 appended to both extreme lists. */
    constructor Init2(n0: nat)
      ensures Valid() && n == n0
      ensures nodes == Zeros(n0)
      ensures forall k :: k in edges ==> edges[k] == Entry(Unset, 0)
      ensures hi == 0 && lo == 0
      ensures St() == InitTagged(n0)
    {
      ghost var target := InitSlots(map[], 1, n0, Entry(Unset, 0));
      var e: map<int, Entry> := map[];
      var m: map<int, int> := map[];
      for i := 1 to n0 + 1
        invariant m == Zeros(i - 1)
        invariant InitSlots(e, i, n0, Entry(Unset, 0)) == target
      {
        m := m[i := 0];
        for j := i + 1 to n0 + 1
          invariant InitSlots(FillRow(e, i, j, n0, Entry(Unset, 0)), i + 1, n0, Entry(Unset, 0)) == target
        {
          e := e[Key(i, j) := Entry(Unset, 0)];
        }
      }
      RecomputedOfZeros(Balances(e), n0);
      RecomputedZeroSum(Balances(e), n0);
      n, edges, nodes, hi, lo := n0, e, m, 0, 0;
    }

    /** calc_unf2: overwrite every tally with its recomputation from the
        balances. */
    method CalcUnf2()
      requires Valid()
      modifies this
      ensures Valid()
      ensures edges == old(edges) && hi == old(hi) && lo == old(lo)
      ensures nodes == Recomputed(Balances(edges), n)
    {
      ghost var bal := Balances(edges);
      for i := 1 to n + 1
        invariant edges == old(edges) && hi == old(hi) && lo == old(lo)
        invariant Exactly(nodes, n)
        invariant forall x :: 1 <= x < i ==> nodes[x] == Unf(bal, n, x)
      {
        var total := 0;
        for j := 1 to i
          invariant total == -LowerSum(bal, i, j)
        {
          total := total - edges[Key(j, i)].balance;
        }
        for j := i + 1 to n + 1
          invariant total == UpperSum(bal, i, j) - LowerSum(bal, i, i)
        {
          total := total + edges[Key(i, j)].balance;
        }
        nodes := nodes[i := total];
      }
      RecomputedZeroSum(bal, n);
      SameTallies(nodes, Recomputed(bal, n), n);
    }

    /** The last lines of every day: fold today's tallies into the running
        extremes, which then bracket every tally and have only widened. */
    method FoldExtremes()
      requires Valid() && n >= 1
      modifies this`hi, this`lo
      ensures Valid()
      ensures hi == Max(old(hi), MaxNode(nodes, n)) && lo == Min(old(lo), MinNode(nodes, n))
      ensures Brackets(nodes, n, lo, hi) && lo <= old(lo) && old(hi) <= hi
    {
      hi := Max(hi, MaxNode(nodes, n));
      lo := Min(lo, MinNode(nodes, n));
    }

    /** The branches of day_rand_def: the first visit of a pair's slot
        follows the coin, every later visit hands the wheel to the other
        side; the driver's tally goes up by one and the passenger's down
        by one. */
    method Drive(a: int, b: int, coin: Side)
      requires Valid() && 1 <= a < b <= n
      modifies this`edges, this`nodes
      ensures edges == old(edges)[Key(a, b) := Revisit(old(edges)[Key(a, b)], coin)]
      ensures nodes == Transfer(old(nodes), a, b, edges[Key(a, b)].tag.driver)
    {
      ghost var before := nodes;
      var k := Key(a, b);
      if edges[k].tag == Unset {
        var driver := coin;
        if driver == A {
          edges := edges[k := Entry(Last(A), 1)];
          nodes := nodes[a := nodes[a] + 1];
          nodes := nodes[b := nodes[b] - 1];
          assert nodes == Transfer(before, a, b, A);
        } else {
          edges := edges[k := Entry(Last(B), -1)];
          nodes := nodes[a := nodes[a] - 1];
          nodes := nodes[b := nodes[b] + 1];
          assert nodes == Transfer(before, a, b, B);
        }
      } else if edges[k].tag == Last(A) {
        edges := edges[k := Entry(Last(B), edges[k].balance - 1)];
        nodes := nodes[a := nodes[a] - 1];
        nodes := nodes[b := nodes[b] + 1];
        assert nodes == Transfer(before, a, b, B);
      } else {
        edges := edges[k := Entry(Last(A), edges[k].balance + 1)];
        nodes := nodes[a := nodes[a] + 1];
        nodes := nodes[b := nodes[b] - 1];
        assert nodes == Transfer(before, a, b, A);
      }
    }

    /** day_rand_def: the branches, then the day's max and min folded into
        the extremes.  The slot invariant and the zero sum are kept, and
        with one slot per pair the tallies still equal their recomputation. */
    method DayRandDet(a: int, b: int, coin: Side)
      requires Valid() && 1 <= a < b <= n
      modifies this
      ensures Valid()
      ensures edges == old(edges)[Key(a, b) := Revisit(old(edges)[Key(a, b)], coin)]
      ensures nodes == Transfer(old(nodes), a, b, edges[Key(a, b)].tag.driver)
      ensures hi == Max(old(hi), MaxNode(nodes, n)) && lo == Min(old(lo), MinNode(nodes, n))
      ensures Brackets(nodes, n, lo, hi) && lo <= old(lo) && old(hi) <= hi
      ensures KeysInjective(n) ==> Brackets(nodes, n, -(n - 1), n - 1)
      ensures St() == RandDetDay(old(St()), n, a, b, coin)
    {
      ghost var before, ledger := nodes, edges;
      Drive(a, b, coin);
      TransferKeepsSum(before, n, a, b, edges[Key(a, b)].tag.driver);
      if KeysInjective(n) {
        TallyFollowsLedger(ledger, before, n, a, b, coin);
      }
      FoldExtremes();
    }
  }

  /** State of the three strategies built by init1: a scalar ledger (never
      read by global greedy), tallies, and running extremes. */
  class ScalarBook {
    const n: nat
    var edges: map<int, int>
    var nodes: map<int, int>
    var hi: int
    var lo: int

    /** Every pair has a slot, every balance is 0 or 1, and the tallies sum
        to zero. */
    ghost predicate Valid()
      reads this
    {
      && Complete(edges, n)
      && Exactly(nodes, n)
      && Binary(edges)
      && NodeSum(nodes, n) == 0
    }

    /** The object's state as a value. */
    function St(): ScalarState
      reads this
    {
      ScalarState(edges, nodes, hi, lo)
    }

    /** init1, together with the 0 appended to both extreme lists. */
    constructor Init1(n0: nat)
      ensures Valid() && n == n0
      ensures nodes == Zeros(n0)
      ensures forall k :: k in edges ==> edges[k] == 0
      ensures hi == 0 && lo == 0
      ensures St() == InitScalar(n0)
    {
      ghost var target := InitSlots(map[], 1, n0, 0);
      var e: map<int, int> := map[];
      var m: map<int, int> := map[];
      for i := 1 to n0 + 1
        invariant m == Zeros(i - 1)
        invariant InitSlots(e, i, n0, 0) == target
      {
        m := m[i := 0];
        for j := i + 1 to n0 + 1
          invariant InitSlots(FillRow(e, i, j, n0, 0), i + 1, n0, 0) == target
        {
          e := e[Key(i, j) := 0];
        }
      }
      RecomputedOfZeros(e, n0);
      RecomputedZeroSum(e, n0);
      n, edges, nodes, hi, lo := n0, e, m, 0, 0;
    }

    /** calc_unf: overwrite every tally with its recomputation from the ledger. */
    method CalcUnf()
      requires Valid()
      modifies this
      ensures Valid()
      ensures edges == old(edges) && hi == old(hi) && lo == old(lo)
      ensures nodes == Recomputed(edges, n)
    {
      for i := 1 to n + 1
        invariant edges == old(edges) && hi == old(hi) && lo == old(lo)
        invariant Exactly(nodes, n)
        invariant forall x :: 1 <= x < i ==> nodes[x] == Unf(edges, n, x)
      {
        var total := 0;
        for j := 1 to i
          invariant total == -LowerSum(edges, i, j)
        {
          total := total - edges[Key(j, i)];
        }
        for j := i + 1 to n + 1
          invariant total == UpperSum(edges, i, j) - LowerSum(edges, i, i)
        {
          total := total + edges[Key(i, j)];
        }
        nodes := nodes[i := total];
      }
      RecomputedZeroSum(edges, n);
      SameTallies(nodes, Recomputed(edges, n), n);
    }

    /** The last lines of every day: fold today's tallies into the running
        extremes, which then bracket every tally and have only widened. */
    method FoldExtremes()
      requires Valid() && n >= 1
      modifies this`hi, this`lo
      ensures Valid()
      ensures hi == Max(old(hi), MaxNode(nodes, n)) && lo == Min(old(lo), MinNode(nodes, n))
      ensures Brackets(nodes, n, lo, hi) && lo <= old(lo) && old(hi) <= hi
    {
      hi := Max(hi, MaxNode(nodes, n));
      lo := Min(lo, MinNode(nodes, n));
    }

    /** day_local_greedy.  A positive slot makes b drive, a zero slot follows
        the coin; only "a drives" writes the ledger, because the source's
        "b drives" statement `edges[...] -+ 1` computes a value and drops it.
        So a slot only ever moves from 0 to 1, and the tallies are then
        recomputed from the ledger. */
    method DayLocalGreedy(a: int, b: int, coin: Side)
      requires Valid() && 1 <= a < b <= n
      modifies this
      ensures Valid()
      ensures St() == LocalGreedyDay(old(St()), n, a, b, coin)
      ensures edges == if old(edges)[Key(a, b)] == 0 && coin == A
                       then old(edges)[Key(a, b) := 1] else old(edges)
      ensures nodes == Recomputed(edges, n)
      ensures forall i :: 1 <= i <= n ==> -(i - 1) <= nodes[i] <= n - i
      ensures hi == Max(old(hi), MaxNode(nodes, n)) && lo == Min(old(lo), MinNode(nodes, n))
      ensures Brackets(nodes, n, lo, hi) && lo <= old(lo) && old(hi) <= hi
    {
      var k := Key(a, b);
      var driver: Side;
      if edges[k] > 0 {
        driver := B;
      } else if edges[k] < 0 {
        driver := A;
      } else {
        driver := coin;
      }
      if driver == A {
        edges := edges[k := edges[k] + 1];
      }
      CalcUnf();
      RecomputedBounds(edges, n);
      FoldExtremes();
    }

    /** day_global_greedy.  The ledger is not used: the participant with the
        smaller tally drives, a tie follows the coin, and the two tallies
        move by one each, so their gap moves by exactly two. */
    method DayGlobalGreedy(a: int, b: int, coin: Side)
      requires Valid() && 1 <= a < b <= n
      modifies this
      ensures Valid()
      ensures St() == GlobalGreedyDay(old(St()), n, a, b, coin)
      ensures edges == old(edges)
      ensures old(nodes)[a] != old(nodes)[b] ==>
        nodes == Transfer(old(nodes), a, b, if old(nodes)[a] < old(nodes)[b] then A else B)
      ensures old(nodes)[a] == old(nodes)[b] ==> nodes == Transfer(old(nodes), a, b, coin)
      ensures old(nodes)[a] > old(nodes)[b] ==> nodes[a] - nodes[b] == old(nodes)[a] - old(nodes)[b] - 2
      ensures old(nodes)[a] < old(nodes)[b] ==> nodes[a] - nodes[b] == old(nodes)[a] - old(nodes)[b] + 2
      ensures hi == Max(old(hi), MaxNode(nodes, n)) && lo == Min(old(lo), MinNode(nodes, n))
      ensures Brackets(nodes, n, lo, hi) && lo <= old(lo) && old(hi) <= hi
    {
      ghost var before := nodes;
      var driver := Steer(a, b, coin);
      TransferKeepsSum(before, n, a, b, driver);
      FoldExtremes();
    }

    /** The branches of day_global_greedy: the smaller tally drives, a tie
        follows the coin; the driver's tally goes up by one and the
        passenger's down by one. */
    method Steer(a: int, b: int, coin: Side) returns (driver: Side)
      requires Valid() && 1 <= a < b <= n
      modifies this`nodes
      ensures driver == if old(nodes)[a] > old(nodes)[b] then B
                        else if old(nodes)[a] < old(nodes)[b] then A else coin
      ensures nodes == Transfer(old(nodes), a, b, driver)
    {
      if nodes[a] > nodes[b] {
        driver := B;
      } else if nodes[a] < nodes[b] {
        driver := A;
      } else {
        driver := coin;
      }
      ghost var before := nodes;
      if driver == A {
        nodes := nodes[a := nodes[a] + 1];
        nodes := nodes[b := nodes[b] - 1];
        assert nodes == Transfer(before, a, b, A);
      } else {
        nodes := nodes[a := nodes[a] - 1];
        nodes := nodes[b := nodes[b] + 1];
        assert nodes == Transfer(before, a, b, B);
      }
    }

    /** day_local_biased: as local greedy, except that a zero slot is decided
        by the biased coin on the tallies before today. */
    method DayLocalBiased(a: int, b: int, draw: real)
      requires Valid() && 1 <= a < b <= n
      modifies this
      ensures Valid()
      ensures St() == LocalBiasedDay(old(St()), n, a, b, draw)
      ensures edges == if old(edges)[Key(a, b)] == 0 && BiasedCoin(old(nodes), a, b, draw) == A
                       then old(edges)[Key(a, b) := 1] else old(edges)
      ensures nodes == Recomputed(edges, n)
      ensures forall i :: 1 <= i <= n ==> -(i - 1) <= nodes[i] <= n - i
      ensures hi == Max(old(hi), MaxNode(nodes, n)) && lo == Min(old(lo), MinNode(nodes, n))
      ensures Brackets(nodes, n, lo, hi) && lo <= old(lo) && old(hi) <= hi
    {
      var k := Key(a, b);
      var driver: Side;
      if edges[k] > 0 {
        driver := B;
      } else if edges[k] < 0 {
        driver := A;
      } else {
        driver := BiasedCoin(nodes, a, b, draw);
      }
      if driver == A {
        edges := edges[k := edges[k] + 1];
      }
      CalcUnf();
      RecomputedBounds(edges, n);
      FoldExtremes();
    }
  }
}
