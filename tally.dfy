/** Per-person unfairness tallies: a map from participant 1..n to an
    integer.  For the random-deterministic and global greedy strategies it
    is the participant's drives minus rides; the local strategies never
    record a drive by the upper member of a pair, so theirs counts the
    slots of pairs (i, j), j > i, that went from 0 to 1, minus those of
    pairs (j, i), j < i. */
module Tally {

  /** Which member of a pair (a, b), a < b, drives: A is the lower identifier. */
  datatype Side = A | B

  /** The other member of the pair. */
  function Other(s: Side): (o: Side)
    ensures o != s
  {
    if s == A then B else A
  }

  /** The sign convention of every ledger: +1 when the lower participant drives. */
  function Credit(s: Side): (c: int)
    ensures c == 1 || c == -1
    ensures c > 0 <==> s == A
  {
    if s == A then 1 else -1
  }

  function Max(x: int, y: int): int { if x < y then y else x }

  function Min(x: int, y: int): int { if x < y then x else y }

  /** The tallies are those of participants 1..n and nobody else. */
  ghost predicate Exactly(m: map<int, int>, n: int) {
    forall i :: i in m <==> 1 <= i <= n
  }

  /** Two tally maps over exactly 1..n that agree on every participant are equal. */
  lemma SameTallies(m: map<int, int>, m': map<int, int>, n: int)
    requires Exactly(m, n) && Exactly(m', n)
    requires forall i :: 1 <= i <= n ==> m[i] == m'[i]
    ensures m == m'
  {
    forall i
      ensures i in m <==> i in m'
    {
      assert i in m <==> 1 <= i <= n;
    }
    assert m.Keys == m'.Keys;
    forall i | i in m
      ensures m[i] == m'[i]
    {
    }
  }

  /** Every participant 1..n has a tally. */
  ghost predicate Covers(m: map<int, int>, n: int) {
    forall i :: 1 <= i <= n ==> i in m
  }

  /** The tally of a fresh run: everybody at 0. */
  function Zeros(n: int): (m: map<int, int>)
    ensures Exactly(m, n)
    ensures forall i :: i in m ==> m[i] == 0
    decreases n
  {
    if n <= 0 then map[] else Zeros(n - 1)[n := 0]
  }

  /** Sum of the tallies of participants 1..k. */
  function NodeSum(m: map<int, int>, k: int): int
    requires Covers(m, k)
    decreases k
  {
    if k <= 0 then 0 else NodeSum(m, k - 1) + m[k]
  }

  /** Overwriting one tally moves the sum by the difference, and only when
      that participant is counted. */
  lemma {:induction false} NodeSumUpdate(m: map<int, int>, k: int, x: int, v: int)
    requires Covers(m, k) && x in m
    ensures NodeSum(m[x := v], k) == NodeSum(m, k) + (if 1 <= x <= k then v - m[x] else 0)
    decreases k
  {
    if k > 0 {
      NodeSumUpdate(m, k - 1, x, v);
    }
  }

  /** A day's outcome on the tallies: the driver goes up by one, the
      passenger down by one. */
  function Transfer(m: map<int, int>, a: int, b: int, driver: Side): (r: map<int, int>)
    requires a in m && b in m
    ensures r.Keys == m.Keys
    ensures a != b ==> r[a] - m[a] == m[b] - r[b] == Credit(driver)
    ensures forall i :: i in m && i != a && i != b ==> r[i] == m[i]
  {
    m[a := m[a] + Credit(driver)][b := m[b] - Credit(driver)]
  }

  /** A transfer between two distinct participants keeps the sum of all
      tallies. */
  lemma TransferKeepsSum(m: map<int, int>, n: int, a: int, b: int, driver: Side)
    requires Covers(m, n) && 1 <= a <= n && 1 <= b <= n && a != b
    ensures NodeSum(Transfer(m, a, b, driver), n) == NodeSum(m, n)
  {
    var m1 := m[a := m[a] + Credit(driver)];
    NodeSumUpdate(m, n, a, m[a] + Credit(driver));
    NodeSumUpdate(m1, n, b, m[b] - Credit(driver));
  }

  /** Largest tally among participants 1..n (the source's max over the list
      of tallies). */
  function MaxNode(m: map<int, int>, n: int): (r: int)
    requires n >= 1 && Covers(m, n)
    ensures forall i :: 1 <= i <= n ==> m[i] <= r
    ensures exists i :: 1 <= i <= n && m[i] == r
    decreases n
  {
    if n == 1 then m[1] else Max(MaxNode(m, n - 1), m[n])
  }

  /** Smallest tally among participants 1..n. */
  function MinNode(m: map<int, int>, n: int): (r: int)
    requires n >= 1 && Covers(m, n)
    ensures forall i :: 1 <= i <= n ==> r <= m[i]
    ensures exists i :: 1 <= i <= n && m[i] == r
    decreases n
  {
    if n == 1 then m[1] else Min(MinNode(m, n - 1), m[n])
  }

  /** Every tally of 1..n lies within [lo, hi]. */
  ghost predicate Brackets(m: map<int, int>, n: int, lo: int, hi: int) {
    forall i :: 1 <= i <= n ==> i in m && lo <= m[i] <= hi
  }
}
