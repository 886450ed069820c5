/** The per-pair ledgers and the recomputation of every tally from them.

    A scalar ledger maps Key(a, b) to a balance: positive means the lower
    participant a has driven more.  A tagged ledger maps it to an Entry that
    also records who drove last.  A participant's recomputed tally is the sum
    of the balances of the pairs where they are the lower identifier, minus
    those where they are the higher one. */
module Ledger {
  import opened PairKeys
  import opened Tally

  /** Who drove last in a pair: Unset is the "." written at initialisation. */
  datatype Tag = Unset | Last(driver: Side)

  /** A tagged ledger entry, the source's [tag, balance] list. */
  datatype Entry = Entry(tag: Tag, balance: int)

  /** Every pair over [1, n] has a slot. */
  ghost predicate Complete<V>(e: map<int, V>, n: int) {
    forall a, b :: 1 <= a < b <= n ==> Key(a, b) in e
  }

  /** The balance column of a tagged ledger. */
  function Balances(e: map<int, Entry>): (r: map<int, int>)
    ensures r.Keys == e.Keys
    ensures forall k :: k in e ==> r[k] == e[k].balance
  {
    map k | k in e :: e[k].balance
  }

  /** All balances are 0 or 1: the scalar ledgers of the local strategies. */
  ghost predicate Binary(e: map<int, int>) {
    forall k :: k in e ==> 0 <= e[k] <= 1
  }

  /** All balances lie in [-1, 1]. */
  ghost predicate Unit(e: map<int, int>) {
    forall k :: k in e ==> -1 <= e[k] <= 1
  }

  /** Sum of e[Key(i, k)] over i < k < j: the pairs where i is the lower identifier. */
  function UpperSum(e: map<int, int>, i: int, j: int): int
    requires i < j
    requires forall k :: i < k < j ==> Key(i, k) in e
    decreases j - i
  {
    if j == i + 1 then 0 else UpperSum(e, i, j - 1) + e[Key(i, j - 1)]
  }

  /** Sum of e[Key(k, i)] over 1 <= k < j: the pairs where i is the higher identifier. */
  function LowerSum(e: map<int, int>, i: int, j: int): int
    requires 1 <= j
    requires forall k :: 1 <= k < j ==> Key(k, i) in e
    decreases j
  {
    if j == 1 then 0 else LowerSum(e, i, j - 1) + e[Key(j - 1, i)]
  }

  /** The recomputed tally of participant i. */
  function Unf(e: map<int, int>, n: int, i: int): int
    requires Complete(e, n) && 1 <= i <= n
  {
    UpperSum(e, i, n + 1) - LowerSum(e, i, i)
  }

  /** The tallies of participants 1..k, recomputed from the ledger. */
  function Fill(e: map<int, int>, n: int, k: int): (m: map<int, int>)
    requires Complete(e, n) && k <= n
    ensures Exactly(m, k)
    ensures forall i :: 1 <= i <= k ==> m[i] == Unf(e, n, i)
    decreases k
  {
    if k <= 0 then map[] else Fill(e, n, k - 1)[k := Unf(e, n, k)]
  }

  /** Every tally recomputed from the ledger (calc_unf / calc_unf2). */
  function Recomputed(e: map<int, int>, n: int): (m: map<int, int>)
    requires Complete(e, n)
    ensures Exactly(m, n)
    ensures forall i :: 1 <= i <= n ==> m[i] == Unf(e, n, i)
  {
    Fill(e, n, n)
  }

  // ---------------------------------------------------------------------
  // Zero sum of a recomputation

  ghost function UnfSum(e: map<int, int>, n: int, m: int): int
    requires Complete(e, n) && m <= n
    decreases m
  {
    if m <= 0 then 0 else UnfSum(e, n, m - 1) + Unf(e, n, m)
  }

  /** Adding participant n + 1 adds its pair with each of 1..m to their tallies. */
  lemma {:induction false} UnfSumGrow(e: map<int, int>, n: int, m: int)
    requires Complete(e, n + 1) && 0 <= m <= n
    ensures UnfSum(e, n + 1, m) == UnfSum(e, n, m) + LowerSum(e, n + 1, m + 1)
    decreases m
  {
    if m > 0 {
      UnfSumGrow(e, n, m - 1);
      assert UpperSum(e, m, n + 2) == UpperSum(e, m, n + 1) + e[Key(m, n + 1)];
    }
  }

  lemma {:induction false} UnfSumZero(e: map<int, int>, n: int)
    requires Complete(e, n) && n >= 0
    ensures UnfSum(e, n, n) == 0
    decreases n
  {
    if n > 0 {
      UnfSumZero(e, n - 1);
      UnfSumGrow(e, n - 1, n - 1);
    }
  }

  lemma {:induction false} NodeSumOfFill(e: map<int, int>, n: int, k: int)
    requires Complete(e, n) && k <= n
    ensures NodeSum(Fill(e, n, k), k) == UnfSum(e, n, k)
    decreases k
  {
    if k > 0 {
      var m := Fill(e, n, k);
      NodeSumOfFill(e, n, k - 1);
      NodeSumFrame(m, Fill(e, n, k - 1), k - 1);
    }
  }

  /** NodeSum only looks at participants 1..k. */
  lemma {:induction false} NodeSumFrame(m: map<int, int>, m': map<int, int>, k: int)
    requires Covers(m, k) && Covers(m', k)
    requires forall i :: 1 <= i <= k ==> m[i] == m'[i]
    ensures NodeSum(m, k) == NodeSum(m', k)
    decreases k
  {
    if k > 0 {
      NodeSumFrame(m, m', k - 1);
    }
  }

  /** Zero sum: however the slots alias, the recomputed tallies of 1..n add
      up to 0, since each balance is added to one participant and subtracted
      from another. */
  lemma RecomputedZeroSum(e: map<int, int>, n: int)
    requires Complete(e, n)
    ensures NodeSum(Recomputed(e, n), n) == 0
  {
    if n >= 0 {
      NodeSumOfFill(e, n, n);
      UnfSumZero(e, n);
    }
  }

  // ---------------------------------------------------------------------
  // Changing one slot

  lemma {:induction false} UpperSumBump(e: map<int, int>, n: int, a: int, b: int, d: int, i: int, j: int)
    requires Complete(e, n) && KeysInjective(n) && 1 <= a < b <= n
    requires 1 <= i < j <= n + 1
    ensures UpperSum(e[Key(a, b) := e[Key(a, b)] + d], i, j)
         == UpperSum(e, i, j) + (if i == a && b < j then d else 0)
    decreases j
  {
    if j > i + 1 {
      UpperSumBump(e, n, a, b, d, i, j - 1);
      assert Key(i, j - 1) == Key(a, b) ==> i == a && j - 1 == b;
    }
  }

  lemma {:induction false} LowerSumBump(e: map<int, int>, n: int, a: int, b: int, d: int, i: int, j: int)
    requires Complete(e, n) && KeysInjective(n) && 1 <= a < b <= n
    requires 1 <= j <= i <= n
    ensures LowerSum(e[Key(a, b) := e[Key(a, b)] + d], i, j)
         == LowerSum(e, i, j) + (if i == b && a < j then d else 0)
    decreases j
  {
    if j > 1 {
      LowerSumBump(e, n, a, b, d, i, j - 1);
      assert Key(j - 1, i) == Key(a, b) ==> j - 1 == a && i == b;
    }
  }

  lemma UnfBump(e: map<int, int>, n: int, a: int, b: int, d: int, i: int)
    requires Complete(e, n) && KeysInjective(n) && 1 <= a < b <= n && 1 <= i <= n
    ensures Complete(e[Key(a, b) := e[Key(a, b)] + d], n)
    ensures Unf(e[Key(a, b) := e[Key(a, b)] + d], n, i)
         == Unf(e, n, i) + (if i == a then d else 0) - (if i == b then d else 0)
  {
    UpperSumBump(e, n, a, b, d, i, n + 1);
    LowerSumBump(e, n, a, b, d, i, i);
  }

  /** Provided no two pairs share a slot, moving the balance of (a, b) by d
      moves a's recomputed tally by d, b's by -d, and nobody else's. */
  lemma RecomputedBump(e: map<int, int>, n: int, a: int, b: int, d: int)
    requires Complete(e, n) && KeysInjective(n) && 1 <= a < b <= n
    ensures Complete(e[Key(a, b) := e[Key(a, b)] + d], n)
    ensures Recomputed(e[Key(a, b) := e[Key(a, b)] + d], n)
         == Recomputed(e, n)[a := Recomputed(e, n)[a] + d][b := Recomputed(e, n)[b] - d]
  {
    var e' := e[Key(a, b) := e[Key(a, b)] + d];
    UnfBump(e, n, a, b, d, a);
    var r, r' := Recomputed(e, n), Recomputed(e', n);
    var t := r[a := r[a] + d][b := r[b] - d];
    forall i | 1 <= i <= n
      ensures r'[i] == t[i]
    {
      UnfBump(e, n, a, b, d, i);
    }
    SameTallies(r', t, n);
  }

  // ---------------------------------------------------------------------
  // Bounds

  lemma {:induction false} UpperSumBounds(e: map<int, int>, i: int, j: int)
    requires i < j && Unit(e)
    requires forall k :: i < k < j ==> Key(i, k) in e
    ensures -(j - i - 1) <= UpperSum(e, i, j) <= j - i - 1
    ensures Binary(e) ==> 0 <= UpperSum(e, i, j)
    decreases j - i
  {
    if j > i + 1 {
      UpperSumBounds(e, i, j - 1);
    }
  }

  lemma {:induction false} LowerSumBounds(e: map<int, int>, i: int, j: int)
    requires 1 <= j && Unit(e)
    requires forall k :: 1 <= k < j ==> Key(k, i) in e
    ensures -(j - 1) <= LowerSum(e, i, j) <= j - 1
    ensures Binary(e) ==> 0 <= LowerSum(e, i, j)
    decreases j
  {
    if j > 1 {
      LowerSumBounds(e, i, j - 1);
    }
  }

  /** With every balance in [-1, 1] each recomputed tally lies in
      [-(n-1), n-1]; with every balance 0 or 1, participant i's lies in
      [-(i-1), n-i]. */
  lemma RecomputedBounds(e: map<int, int>, n: int)
    requires Complete(e, n) && Unit(e)
    ensures Brackets(Recomputed(e, n), n, -(n - 1), n - 1)
    ensures Binary(e) ==> forall i :: 1 <= i <= n ==> -(i - 1) <= Recomputed(e, n)[i] <= n - i
  {
    forall i | 1 <= i <= n
      ensures -(n - 1) <= Unf(e, n, i) <= n - 1
      ensures Binary(e) ==> -(i - 1) <= Unf(e, n, i) <= n - i
    {
      UpperSumBounds(e, i, n + 1);
      LowerSumBounds(e, i, i);
    }
  }

  lemma {:induction false} UpperSumOfZeros(e: map<int, int>, i: int, j: int)
    requires i < j && forall k :: k in e ==> e[k] == 0
    requires forall k :: i < k < j ==> Key(i, k) in e
    ensures UpperSum(e, i, j) == 0
    decreases j - i
  {
    if j > i + 1 {
      UpperSumOfZeros(e, i, j - 1);
    }
  }

  lemma {:induction false} LowerSumOfZeros(e: map<int, int>, i: int, j: int)
    requires 1 <= j && forall k :: k in e ==> e[k] == 0
    requires forall k :: 1 <= k < j ==> Key(k, i) in e
    ensures LowerSum(e, i, j) == 0
    decreases j
  {
    if j > 1 {
      LowerSumOfZeros(e, i, j - 1);
    }
  }

  /** A freshly initialised ledger recomputes to all-zero tallies. */
  lemma RecomputedOfZeros(e: map<int, int>, n: int)
    requires Complete(e, n) && forall k :: k in e ==> e[k] == 0
    ensures Recomputed(e, n) == Zeros(n)
  {
    forall i | 1 <= i <= n
      ensures Recomputed(e, n)[i] == 0
    {
      UpperSumOfZeros(e, i, n + 1);
      LowerSumOfZeros(e, i, i);
    }
    SameTallies(Recomputed(e, n), Zeros(n), n);
  }

  // ---------------------------------------------------------------------
  // The tagged slot of the random-deterministic strategy

  /** Slot invariant: an untagged slot is balanced; after "a" drove the
      balance is 0 or 1, after "b" drove it is -1 or 0. */
  predicate SlotOk(x: Entry) {
    match x.tag
    case Unset => x.balance == 0
    case Last(A) => 0 <= x.balance <= 1
    case Last(B) => -1 <= x.balance <= 0
  }

  /** One day's visit of a tagged slot; the coin only decides the first visit. */
  function Revisit(x: Entry, coin: Side): (r: Entry)
    ensures r.tag.Last?
    ensures x.tag == Unset ==> r.tag == Last(coin)
    ensures x.tag.Last? ==> r.tag.driver == Other(x.tag.driver)
    ensures SlotOk(x) ==> SlotOk(r) && r.balance == x.balance + Credit(r.tag.driver)
  {
    match x.tag
    case Unset => (match coin case A => Entry(Last(A), 1) case B => Entry(Last(B), -1))
    case Last(A) => Entry(Last(B), x.balance - 1)
    case Last(B) => Entry(Last(A), x.balance + 1)
  }

  /** The entries a slot goes through when it is visited once per coin. */
  function Replay(x: Entry, coins: seq<Side>): (r: seq<Entry>)
    ensures |r| == |coins|
    ensures forall i :: 0 <= i < |r| ==> r[i].tag.Last?
    decreases |coins|
  {
    if coins == [] then [] else [Revisit(x, coins[0])] + Replay(Revisit(x, coins[0]), coins[1..])
  }

  /** The slot after one visit per coin. */
  function Settle(x: Entry, coins: seq<Side>): (r: Entry)
    ensures SlotOk(x) ==> SlotOk(r)
    ensures coins != [] ==> r.tag.Last?
    decreases |coins|
  {
    if coins == [] then x else Settle(Revisit(x, coins[0]), coins[1..])
  }

  /** One more visit at the end moves the settled slot by one Revisit. */
  lemma {:induction false} SettleSnoc(x: Entry, c: seq<Side>, d: Side)
    ensures Settle(x, c + [d]) == Revisit(Settle(x, c), d)
    decreases |c|
  {
    if c == [] {
      assert c + [d] == [d];
    } else {
      assert (c + [d])[0] == c[0] && (c + [d])[1..] == c[1..] + [d];
      SettleSnoc(Revisit(x, c[0]), c[1..], d);
    }
  }

  /** One more visit at the end appends the revisit of the settled slot. */
  lemma {:induction false} ReplaySnoc(x: Entry, c: seq<Side>, d: Side)
    ensures Replay(x, c + [d]) == Replay(x, c) + [Revisit(Settle(x, c), d)]
    decreases |c|
  {
    if c == [] {
      assert c + [d] == [d];
    } else {
      assert (c + [d])[0] == c[0] && (c + [d])[1..] == c[1..] + [d];
      ReplaySnoc(Revisit(x, c[0]), c[1..], d);
    }
  }

  /** Strict alternation: after the first visit the slot stays tagged and
      keeps its invariant, and the drivers alternate, starting from the
      first coin when the slot was untagged and from the other of the last
      driver otherwise; later coins are never consulted. */
  lemma {:induction false} ReplayAlternates(x: Entry, coins: seq<Side>)
    requires SlotOk(x) && |coins| > 0
    ensures forall i :: 0 <= i < |coins| ==> Replay(x, coins)[i].tag.Last? && SlotOk(Replay(x, coins)[i])
    ensures Replay(x, coins)[0].tag.driver == (if x.tag == Unset then coins[0] else Other(x.tag.driver))
    ensures forall i :: 0 <= i < |coins| ==>
      Replay(x, coins)[i].tag.driver
      == (if i % 2 == 0 then Replay(x, coins)[0].tag.driver else Other(Replay(x, coins)[0].tag.driver))
    decreases |coins|
  {
    var y := Revisit(x, coins[0]);
    var r := Replay(x, coins);
    assert r == [y] + Replay(y, coins[1..]);
    if |coins| > 1 {
      ReplayAlternates(y, coins[1..]);
      var first := y.tag.driver;
      assert Replay(y, coins[1..])[0].tag.driver == Other(first);
      forall i | 0 <= i < |coins|
        ensures r[i].tag.Last? && SlotOk(r[i])
        ensures r[i].tag.driver == (if i % 2 == 0 then first else Other(first))
      {
        if i > 0 {
          assert r[i] == Replay(y, coins[1..])[i - 1];
          assert Other(Other(first)) == first;
        }
      }
    }
  }

  /** With one slot per pair, the tallies kept incrementally by the
      random-deterministic strategy agree, after a day, with recomputing them
      from the balances, and stay within [-(n-1), n-1]. */
  lemma TallyFollowsLedger(e: map<int, Entry>, m: map<int, int>, n: int, a: int, b: int, coin: Side)
    requires Complete(e, n) && KeysInjective(n) && 1 <= a < b <= n
    requires forall x :: x in e ==> SlotOk(e[x])
    requires m == Recomputed(Balances(e), n)
    ensures Complete(e[Key(a, b) := Revisit(e[Key(a, b)], coin)], n)
    ensures Transfer(m, a, b, Revisit(e[Key(a, b)], coin).tag.driver)
         == Recomputed(Balances(e[Key(a, b) := Revisit(e[Key(a, b)], coin)]), n)
    ensures Brackets(Transfer(m, a, b, Revisit(e[Key(a, b)], coin).tag.driver), n, -(n - 1), n - 1)
  {
    var k := Key(a, b);
    var r := Revisit(e[k], coin);
    var e' := e[k := r];
    var bal := Balances(e);
    assert Balances(e') == bal[k := bal[k] + Credit(r.tag.driver)];
    RecomputedBump(bal, n, a, b, Credit(r.tag.driver));
    RecomputedBounds(Balances(e'), n);
  }
}
