/** The state of each strategy as a value, and what one day does to it.
    These pure functions specify the methods of the strategy classes: every
    constructor produces the initial state given here, and every day method
    moves its object's state by the step given here. */
module DaySteps {
  import opened PairKeys
  import opened Tally
  import opened Ledger
  import opened Coin

  /** The state of the random-deterministic strategy: tagged ledger, tallies,
      and the running extremes of the current run. */
  datatype TaggedState = TaggedState(edges: map<int, Entry>, nodes: map<int, int>, hi: int, lo: int)

  /** The state of a strategy built by init1. */
  datatype ScalarState = ScalarState(edges: map<int, int>, nodes: map<int, int>, hi: int, lo: int)

  /** Every pair has a slot and every participant a tally. */
  ghost predicate TaggedShaped(s: TaggedState, n: int) {
    Complete(s.edges, n) && Covers(s.nodes, n)
  }

  ghost predicate ScalarShaped(s: ScalarState, n: int) {
    Complete(s.edges, n) && Covers(s.nodes, n)
  }

  /** The inner loop of init1/init2 from j on: the slots of (i, j..n) set to v. */
  function FillRow<V>(e: map<int, V>, i: int, j: int, n: int, v: V): (r: map<int, V>)
    ensures forall k :: k in e ==> k in r
    ensures forall y :: j <= y <= n ==> Key(i, y) in r
    ensures (forall k :: k in e ==> e[k] == v) ==> forall k :: k in r ==> r[k] == v
    decreases n - j
  {
    if j > n then e else FillRow(e[Key(i, j) := v], i, j + 1, n, v)
  }

  /** The outer loop of init1/init2 from i on: the slots of every pair whose
      lower member is i or above set to v, row by row. */
  function InitSlots<V>(e: map<int, V>, i: int, n: int, v: V): (r: map<int, V>)
    ensures forall k :: k in e ==> k in r
    ensures forall x, y :: i <= x < y <= n ==> Key(x, y) in r
    ensures (forall k :: k in e ==> e[k] == v) ==> forall k :: k in r ==> r[k] == v
    decreases n - i
  {
    if i > n then e else InitSlots(FillRow(e, i, i + 1, n, v), i + 1, n, v)
  }

  /** init2 with both extremes at 0. */
  function InitTagged(n: int): (s: TaggedState)
    ensures TaggedShaped(s, n)
    ensures forall k :: k in s.edges ==> s.edges[k] == Entry(Unset, 0)
  {
    TaggedState(InitSlots(map[], 1, n, Entry(Unset, 0)), Zeros(n), 0, 0)
  }

  /** init1 with both extremes at 0. */
  function InitScalar(n: int): (s: ScalarState)
    ensures ScalarShaped(s, n)
    ensures forall k :: k in s.edges ==> s.edges[k] == 0
  {
    ScalarState(InitSlots(map[], 1, n, 0), Zeros(n), 0, 0)
  }

  /** day_rand_def on a state: the pair's slot is revisited with the coin, the
      new driver's tally goes up and the passenger's down, and the extremes
      take in the new tallies, which they then bracket. */
  function RandDetDay(s: TaggedState, n: int, a: int, b: int, coin: Side): (t: TaggedState)
    requires TaggedShaped(s, n) && 1 <= a < b <= n
    ensures TaggedShaped(t, n)
    ensures Brackets(t.nodes, n, t.lo, t.hi) && t.lo <= s.lo && s.hi <= t.hi
  {
    var x := Revisit(s.edges[Key(a, b)], coin);
    var m := Transfer(s.nodes, a, b, x.tag.driver);
    TaggedState(s.edges[Key(a, b) := x], m, Max(s.hi, MaxNode(m, n)), Min(s.lo, MinNode(m, n)))
  }

  /** The ledger after one day_rand_def: only the day's slot changes,
      and it is revisited. */
  lemma RandDetDayLedger(s: TaggedState, n: int, a: int, b: int, coin: Side)
    requires TaggedShaped(s, n) && 1 <= a < b <= n
    ensures RandDetDay(s, n, a, b, coin).edges == s.edges[Key(a, b) := Revisit(s.edges[Key(a, b)], coin)]
  {
  }

  /** What one day_rand_def does to the slot of a pair (x, y): revisits it
      when the day's pair has the same key, shared slots included, and
      leaves it alone otherwise. */
  lemma RandDetDaySlot(s: TaggedState, n: int, a: int, b: int, x: int, y: int, coin: Side)
    requires TaggedShaped(s, n) && 1 <= a < b <= n && 1 <= x < y <= n
    ensures RandDetDay(s, n, a, b, coin).edges[Key(x, y)]
         == if Key(a, b) == Key(x, y) then Revisit(s.edges[Key(x, y)], coin) else s.edges[Key(x, y)]
  {
  }

  /** day_local_greedy on a state.  Only "a drives" writes the ledger; the
      tallies are recomputed from it. */
  function LocalGreedyDay(s: ScalarState, n: int, a: int, b: int, coin: Side): (t: ScalarState)
    requires ScalarShaped(s, n) && 1 <= a < b <= n
    ensures ScalarShaped(t, n)
    ensures Brackets(t.nodes, n, t.lo, t.hi) && t.lo <= s.lo && s.hi <= t.hi
  {
    var k := Key(a, b);
    var driver := if s.edges[k] > 0 then B else if s.edges[k] < 0 then A else coin;
    var e := if driver == A then s.edges[k := s.edges[k] + 1] else s.edges;
    var m := Recomputed(e, n);
    ScalarState(e, m, Max(s.hi, MaxNode(m, n)), Min(s.lo, MinNode(m, n)))
  }

  /** day_global_greedy on a state: the smaller tally drives, a tie follows
      the coin; the ledger is left alone. */
  function GlobalGreedyDay(s: ScalarState, n: int, a: int, b: int, coin: Side): (t: ScalarState)
    requires ScalarShaped(s, n) && 1 <= a < b <= n
    ensures ScalarShaped(t, n) && t.edges == s.edges
    ensures Brackets(t.nodes, n, t.lo, t.hi) && t.lo <= s.lo && s.hi <= t.hi
  {
    var driver := if s.nodes[a] > s.nodes[b] then B else if s.nodes[a] < s.nodes[b] then A else coin;
    var m := Transfer(s.nodes, a, b, driver);
    ScalarState(s.edges, m, Max(s.hi, MaxNode(m, n)), Min(s.lo, MinNode(m, n)))
  }

  /** day_local_biased on a state: a zero slot is decided by the biased coin
      on the tallies before the day. */
  function LocalBiasedDay(s: ScalarState, n: int, a: int, b: int, draw: real): (t: ScalarState)
    requires ScalarShaped(s, n) && 1 <= a < b <= n
    ensures ScalarShaped(t, n)
    ensures Brackets(t.nodes, n, t.lo, t.hi) && t.lo <= s.lo && s.hi <= t.hi
  {
    var k := Key(a, b);
    var driver := if s.edges[k] > 0 then B else if s.edges[k] < 0 then A else BiasedCoin(s.nodes, a, b, draw);
    var e := if driver == A then s.edges[k := s.edges[k] + 1] else s.edges;
    var m := Recomputed(e, n);
    ScalarState(e, m, Max(s.hi, MaxNode(m, n)), Min(s.lo, MinNode(m, n)))
  }
}
