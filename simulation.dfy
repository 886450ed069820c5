/** One run of main's day loop: four fresh strategies, then for every day a
    pair drawn at random and fed to all four.  The random source is replaced
    by the sequence of its outcomes, one Draw per day. */
module Simulation {
  import opened PairKeys
  import opened Tally
  import opened Ledger
  import opened Coin
  import opened DaySteps
  import opened Strategies

  /** The random outcomes of one day: `first` indexes range(1, n + 1) (the
      first person), `second` indexes the list of everybody else (the second
      person), then the coin of each strategy that may need one, and the
      value of random() for the biased coin. */
  datatype Draw = Draw(first: int, second: int,
                       randDetCoin: Side, localCoin: Side, globalCoin: Side,
                       biasedDraw: real)

  /** The last element of a strategy's max_* and min_* lists. */
  datatype Extremes = Extremes(hi: int, lo: int)

  datatype Report = Report(randDet: Extremes, localGreedy: Extremes,
                           globalGreedy: Extremes, localBiased: Extremes)

  /** range(lo, hi) as a list. */
  function Range(lo: int, hi: int): seq<int> {
    seq(if lo < hi then hi - lo else 0, i => lo + i)
  }

  /** The list the second person is chosen from: everybody but a. */
  function Others(a: int, n: int): (r: seq<int>)
    requires 1 <= a <= n
    ensures |r| == n - 1
    ensures forall i :: 0 <= i < |r| ==> 1 <= r[i] <= n && r[i] != a
    ensures forall c :: 1 <= c <= n && c != a ==> c in r
  {
    var r := Range(1, a) + Range(a + 1, n + 1);
    OthersCover(a, n, r);
    r
  }

  lemma OthersCover(a: int, n: int, r: seq<int>)
    requires 1 <= a <= n && r == Range(1, a) + Range(a + 1, n + 1)
    ensures forall c :: 1 <= c <= n && c != a ==> c in r
  {
    forall c | 1 <= c <= n && c != a
      ensures c in r
    {
      if c < a {
        assert r[c - 1] == c;
      } else {
        assert r[c - 2] == c;
      }
    }
  }

  /** What a random source can return for a population of n. */
  predicate DrawOk(d: Draw, n: int): (ok: bool)
    ensures ok ==> n >= 2
  {
    0 <= d.first < n && 0 <= d.second < n - 1 && 0.0 <= d.biasedDraw < 1.0
  }

  /** The pair main hands to the strategies: two different people, put in
      increasing order.  The first is the entry `first` of range(1, n + 1),
      the second the entry `second` of the list of everybody else, as
      DrawPairChooses states. */
  function DrawPair(d: Draw, n: int): (p: (int, int))
    requires DrawOk(d, n)
    ensures 1 <= p.0 < p.1 <= n
  {
    var a := d.first + 1;
    var b := if d.second < a - 1 then d.second + 1 else d.second + 2;
    if a > b then (b, a) else (a, b)
  }

  /** The pair is the two choices of testing.py, sorted. */
  lemma DrawPairChooses(d: Draw, n: int)
    requires DrawOk(d, n)
    ensures var a := Range(1, n + 1)[d.first];
            var p := DrawPair(d, n);
            (p.0 == a || p.1 == a) && p.0 + p.1 == a + Others(a, n)[d.second]
  {
    var a := Range(1, n + 1)[d.first];
    assert a == d.first + 1;
    var r := Others(a, n);
    assert r == Range(1, a) + Range(a + 1, n + 1);
    if d.second < a - 1 {
      assert r[d.second] == Range(1, a)[d.second];
    } else {
      assert r[d.second] == Range(a + 1, n + 1)[d.second - (a - 1)];
    }
  }

  /** Every pair of participants can come up on a day. */
  lemma EveryPairDrawable(n: int, x: int, y: int)
    requires 1 <= x < y <= n
    ensures exists d :: DrawOk(d, n) && DrawPair(d, n) == (x, y)
  {
    var d := Draw(x - 1, y - 2, A, A, A, 0.0);
    assert DrawOk(d, n) && DrawPair(d, n) == (x, y);
  }

  /** The four strategies' states side by side. */
  datatype World = World(randDet: TaggedState, localGreedy: ScalarState,
                         globalGreedy: ScalarState, localBiased: ScalarState)

  ghost predicate Shaped(w: World, n: int) {
    TaggedShaped(w.randDet, n) && ScalarShaped(w.localGreedy, n)
    && ScalarShaped(w.globalGreedy, n) && ScalarShaped(w.localBiased, n)
  }

  /** The states built at the top of every span: init2 once, init1 three
      times, every extreme at 0. */
  function Start(n: int): (w: World)
    ensures Shaped(w, n)
  {
    World(InitTagged(n), InitScalar(n), InitScalar(n), InitScalar(n))
  }

  /** One iteration of main's day loop: the drawn pair goes to all four
      strategies, each with its own random outcome.  Every extreme only
      widens. */
  function Today(w: World, n: int, d: Draw): (w': World)
    requires Shaped(w, n) && DrawOk(d, n)
    ensures Shaped(w', n)
    ensures w'.randDet.lo <= w.randDet.lo && w.randDet.hi <= w'.randDet.hi
    ensures w'.localGreedy.lo <= w.localGreedy.lo && w.localGreedy.hi <= w'.localGreedy.hi
    ensures w'.globalGreedy.lo <= w.globalGreedy.lo && w.globalGreedy.hi <= w'.globalGreedy.hi
    ensures w'.localBiased.lo <= w.localBiased.lo && w.localBiased.hi <= w'.localBiased.hi
  {
    var (a, b) := DrawPair(d, n);
    World(RandDetDay(w.randDet, n, a, b, d.randDetCoin),
          LocalGreedyDay(w.localGreedy, n, a, b, d.localCoin),
          GlobalGreedyDay(w.globalGreedy, n, a, b, d.globalCoin),
          LocalBiasedDay(w.localBiased, n, a, b, d.biasedDraw))
  }

  /** Every maximum is at least 0 and every minimum at most 0. */
  predicate Straddles(r: Report) {
    && r.randDet.lo <= 0 <= r.randDet.hi && r.localGreedy.lo <= 0 <= r.localGreedy.hi
    && r.globalGreedy.lo <= 0 <= r.globalGreedy.hi && r.localBiased.lo <= 0 <= r.localBiased.hi
  }

  /** The states after the first k of the given days, starting from Start(n);
      whatever the days, every reported maximum is at least 0 and every
      minimum at most 0. */
  function Run(n: int, days: seq<Draw>, k: int): (w: World)
    requires forall i :: 0 <= i < |days| ==> DrawOk(days[i], n)
    requires 0 <= k <= |days|
    ensures Shaped(w, n)
    ensures Straddles(ReportOf(w))
    decreases k
  {
    if k == 0 then Start(n) else Today(Run(n, days, k - 1), n, days[k - 1])
  }

  /** The last element of each strategy's max_* and min_* lists. */
  function ReportOf(w: World): (r: Report)
    ensures Straddles(r) <==>
      && w.randDet.lo <= 0 <= w.randDet.hi && w.localGreedy.lo <= 0 <= w.localGreedy.hi
      && w.globalGreedy.lo <= 0 <= w.globalGreedy.hi && w.localBiased.lo <= 0 <= w.localBiased.hi
  {
    Report(Extremes(w.randDet.hi, w.randDet.lo), Extremes(w.localGreedy.hi, w.localGreedy.lo),
           Extremes(w.globalGreedy.hi, w.globalGreedy.lo), Extremes(w.localBiased.hi, w.localBiased.lo))
  }

  /** A span of zero days reports 0 for every maximum and minimum. */
  lemma NoDays(n: int)
    ensures ReportOf(Run(n, [], 0)) == Report(Extremes(0, 0), Extremes(0, 0), Extremes(0, 0), Extremes(0, 0))
  {
  }

  /** Up to four people (so one slot per pair), one day, the pair (1, 2) and
      every coin on the lower identifier: every strategy ends with
      participant 1 at +1, participant 2 at -1 and everybody else at 0, so
      every report is max 1, min -1. */
  lemma OneDay(n: int)
    requires 2 <= n <= 4
    ensures DrawOk(Draw(0, 0, A, A, A, 0.0), n)
    ensures ReportOf(Run(n, [Draw(0, 0, A, A, A, 0.0)], 1))
         == Report(Extremes(1, -1), Extremes(1, -1), Extremes(1, -1), Extremes(1, -1))
  {
    var d := Draw(0, 0, A, A, A, 0.0);
    assert DrawPair(d, n) == (1, 2);
    SmallPopulationInjective(n);
    FirstDayRandDet(n);
    FirstDayLocalGreedy(n);
    FirstDayGlobalGreedy(n);
    FirstDayLocalBiased(n);
  }

  /** The tallies after participant 1 drove participant 2 once. */
  lemma FirstTransfer(n: int)
    requires n >= 2
    ensures Covers(Transfer(Zeros(n), 1, 2, A), n)
    ensures MaxNode(Transfer(Zeros(n), 1, 2, A), n) == 1
    ensures MinNode(Transfer(Zeros(n), 1, 2, A), n) == -1
  {
    var t := Transfer(Zeros(n), 1, 2, A);
    assert t[1] == 1 && t[2] == -1;
    assert forall i :: 1 <= i <= n ==> -1 <= t[i] <= 1;
  }

  /** With one slot per pair, an all-zero ledger with the slot of (1, 2) set
      to 1 recomputes to those tallies. */
  lemma FirstLedger(e: map<int, int>, n: int)
    requires n >= 2 && KeysInjective(n)
    requires Complete(e, n) && forall k :: k in e ==> e[k] == 0
    ensures Complete(e[Key(1, 2) := 1], n)
    ensures Recomputed(e[Key(1, 2) := 1], n) == Transfer(Zeros(n), 1, 2, A)
  {
    var z := Zeros(n);
    assert e[Key(1, 2)] == 0;
    RecomputedOfZeros(e, n);
    RecomputedBump(e, n, 1, 2, 1);
    assert e[Key(1, 2) := e[Key(1, 2)] + 1] == e[Key(1, 2) := 1];
    assert Transfer(z, 1, 2, A) == z[1 := z[1] + 1][2 := z[2] - 1];
  }

  lemma FirstDayRandDet(n: int)
    requires n >= 2
    ensures var s := RandDetDay(InitTagged(n), n, 1, 2, A); s.hi == 1 && s.lo == -1
  {
    var s0 := InitTagged(n);
    assert s0.edges[Key(1, 2)] == Entry(Unset, 0);
    assert Revisit(s0.edges[Key(1, 2)], A).tag.driver == A;
    FirstTransfer(n);
  }

  lemma FirstDayLocalGreedy(n: int)
    requires n >= 2 && KeysInjective(n)
    ensures var s := LocalGreedyDay(InitScalar(n), n, 1, 2, A); s.hi == 1 && s.lo == -1
  {
    assert InitScalar(n).edges[Key(1, 2)] == 0;
    FirstLedger(InitScalar(n).edges, n);
    FirstTransfer(n);
  }

  lemma FirstDayGlobalGreedy(n: int)
    requires n >= 2
    ensures var s := GlobalGreedyDay(InitScalar(n), n, 1, 2, A); s.hi == 1 && s.lo == -1
  {
    assert InitScalar(n).nodes[1] == InitScalar(n).nodes[2] == 0;
    FirstTransfer(n);
  }

  lemma FirstDayLocalBiased(n: int)
    requires n >= 2 && KeysInjective(n)
    ensures var s := LocalBiasedDay(InitScalar(n), n, 1, 2, 0.0); s.hi == 1 && s.lo == -1
  {
    var s0 := InitScalar(n);
    assert s0.edges[Key(1, 2)] == 0;
    TieIsFair(s0.nodes, 1, 2, 0.0);
    FirstLedger(InitScalar(n).edges, n);
    FirstTransfer(n);
  }

  // Alternation per pair.  The random-deterministic strategy alternates the
  // drivers of a slot; a pair alternates only while no other pair shares
  // its slot.

  /** A ledger with the slot of the day's pair revisited with the day's
      coin. */
  function Revisited(e: map<int, Entry>, n: int, d: Draw): (e': map<int, Entry>)
    requires Complete(e, n) && DrawOk(d, n)
    ensures Complete(e', n)
  {
    var (a, b) := DrawPair(d, n);
    e[Key(a, b) := Revisit(e[Key(a, b)], d.randDetCoin)]
  }

  /** The ledger of the random-deterministic strategy over the first k
      days, starting as e0: each day revisits the slot of its pair. */
  function EdgesRun(e0: map<int, Entry>, n: int, days: seq<Draw>, k: int): (e: map<int, Entry>)
    requires Complete(e0, n)
    requires forall i :: 0 <= i < |days| ==> DrawOk(days[i], n)
    requires 0 <= k <= |days|
    ensures Complete(e, n)
    decreases k
  {
    if k == 0 then e0 else Revisited(EdgesRun(e0, n, days, k - 1), n, days[k - 1])
  }

  /** Started from init2's ledger it is the ledger of the
      random-deterministic strategy in the whole run. */
  lemma RunEdges(n: int, days: seq<Draw>, k: int)
    requires forall i :: 0 <= i < |days| ==> DrawOk(days[i], n)
    requires 0 <= k <= |days|
    ensures Run(n, days, k).randDet.edges == EdgesRun(InitTagged(n).edges, n, days, k)
  {
    var es := seq(k + 1, i requires 0 <= i < k + 1 => Run(n, days, i).randDet.edges);
    RunLedgers(n, days, k);
    LedgerChain(es, n, days, k);
  }

  /** Day after day, the run revisits the random-deterministic slot of each
      day's pair. */
  lemma RunLedgers(n: int, days: seq<Draw>, k: int)
    requires forall i :: 0 <= i < |days| ==> DrawOk(days[i], n)
    requires 0 <= k <= |days|
    ensures forall i :: 0 <= i < k ==>
      Run(n, days, i + 1).randDet.edges == Revisited(Run(n, days, i).randDet.edges, n, days[i])
  {
    forall i | 0 <= i < k
      ensures Run(n, days, i + 1).randDet.edges == Revisited(Run(n, days, i).randDet.edges, n, days[i])
    {
      RunEdgesStep(n, days, i);
    }
  }

  /** Any series of ledgers in which each day revisits the slot of its
      pair is the one EdgesRun gives. */
  lemma {:induction false} LedgerChain(es: seq<map<int, Entry>>, n: int, days: seq<Draw>, k: int)
    requires forall i :: 0 <= i < |days| ==> DrawOk(days[i], n)
    requires 0 <= k <= |days| && k < |es| && Complete(es[0], n)
    requires forall i :: 0 <= i < k ==> Complete(es[i], n) && es[i + 1] == Revisited(es[i], n, days[i])
    ensures es[k] == EdgesRun(es[0], n, days, k)
    decreases k
  {
    if k > 0 {
      LedgerChain(es, n, days, k - 1);
    }
  }

  /** One day of the run revisits the random-deterministic slot of the
      day's pair. */
  lemma RunEdgesStep(n: int, days: seq<Draw>, i: int)
    requires forall j :: 0 <= j < |days| ==> DrawOk(days[j], n)
    requires 0 <= i < |days|
    ensures Run(n, days, i + 1).randDet.edges == Revisited(Run(n, days, i).randDet.edges, n, days[i])
  {
    var (a, b) := DrawPair(days[i], n);
    RunRandDetStep(n, days, i);
    RandDetDayLedger(Run(n, days, i).randDet, n, a, b, days[i].randDetCoin);
  }

  /** One day of the run, seen from the random-deterministic strategy. */
  lemma RunRandDetStep(n: int, days: seq<Draw>, i: int)
    requires forall j :: 0 <= j < |days| ==> DrawOk(days[j], n)
    requires 0 <= i < |days|
    ensures Run(n, days, i + 1).randDet
         == RandDetDay(Run(n, days, i).randDet, n, DrawPair(days[i], n).0,
                       DrawPair(days[i], n).1, days[i].randDetCoin)
  {
  }

  /** The coins of the random-deterministic strategy on the days, among
      the first k, whose pair is (x, y). */
  function PairCoins(n: int, days: seq<Draw>, k: int, x: int, y: int): (c: seq<Side>)
    requires forall i :: 0 <= i < |days| ==> DrawOk(days[i], n)
    requires 0 <= k <= |days|
    ensures |c| <= k
    decreases k
  {
    if k == 0 then []
    else PairCoins(n, days, k - 1, x, y)
         + (if DrawPair(days[k - 1], n) == (x, y) then [days[k - 1].randDetCoin] else [])
  }

  /** Who drove, in the random-deterministic strategy with its ledger
      starting as e0, on each of the days among the first k whose pair is
      (x, y): the driver day_rand_def reads off the revisited slot. */
  function PairDrivers(e0: map<int, Entry>, n: int, days: seq<Draw>, k: int, x: int, y: int): (r: seq<Side>)
    requires Complete(e0, n)
    requires forall i :: 0 <= i < |days| ==> DrawOk(days[i], n)
    requires 0 <= k <= |days| && 1 <= x < y <= n
    ensures |r| == |PairCoins(n, days, k, x, y)|
    decreases k
  {
    if k == 0 then []
    else PairDrivers(e0, n, days, k - 1, x, y)
         + (if DrawPair(days[k - 1], n) == (x, y)
            then [Revisit(EdgesRun(e0, n, days, k - 1)[Key(x, y)], days[k - 1].randDetCoin).tag.driver]
            else [])
  }

  /** With one slot per pair, the slot of (x, y) only moves on that pair's
      own days: after k days it is its starting value revisited once per
      coin of those days, and the drivers of those days are the ones the
      replay of those coins goes through. */
  lemma {:induction false} PairSlotReplays(e0: map<int, Entry>, n: int, days: seq<Draw>, k: int, x: int, y: int)
    requires Complete(e0, n)
    requires forall i :: 0 <= i < |days| ==> DrawOk(days[i], n)
    requires 0 <= k <= |days| && 1 <= x < y <= n && KeysInjective(n)
    ensures EdgesRun(e0, n, days, k)[Key(x, y)] == Settle(e0[Key(x, y)], PairCoins(n, days, k, x, y))
    ensures forall i :: 0 <= i < |PairCoins(n, days, k, x, y)| ==>
      PairDrivers(e0, n, days, k, x, y)[i] == Replay(e0[Key(x, y)], PairCoins(n, days, k, x, y))[i].tag.driver
    decreases k
  {
    var u := e0[Key(x, y)];
    if k > 0 {
      PairSlotReplays(e0, n, days, k - 1, x, y);
      var d := days[k - 1];
      var (a, b) := DrawPair(d, n);
      var e := EdgesRun(e0, n, days, k - 1);
      var c, r := PairCoins(n, days, k - 1, x, y), PairDrivers(e0, n, days, k - 1, x, y);
      if (a, b) == (x, y) {
        var v := Revisit(e[Key(x, y)], d.randDetCoin);
        assert PairCoins(n, days, k, x, y) == c + [d.randDetCoin];
        assert PairDrivers(e0, n, days, k, x, y) == r + [v.tag.driver];
        SettleSnoc(u, c, d.randDetCoin);
        ReplaySnoc(u, c, d.randDetCoin);
        forall i | 0 <= i < |c| + 1
          ensures (r + [v.tag.driver])[i] == Replay(u, c + [d.randDetCoin])[i].tag.driver
        {
          if i < |c| {
            assert (r + [v.tag.driver])[i] == r[i];
            assert Replay(u, c + [d.randDetCoin])[i] == Replay(u, c)[i];
          }
        }
      } else {
        assert Key(a, b) != Key(x, y);
        assert PairCoins(n, days, k, x, y) == c;
        assert PairDrivers(e0, n, days, k, x, y) == r;
      }
    } else {
      assert PairCoins(n, days, 0, x, y) == [];
    }
  }

  /** With one slot per pair, every pair strictly alternates from init2's
      ledger: its first day follows the coin, and from then on the drivers
      take turns. */
  lemma PairAlternates(n: int, days: seq<Draw>, x: int, y: int)
    requires forall i :: 0 <= i < |days| ==> DrawOk(days[i], n)
    requires 1 <= x < y <= n && KeysInjective(n)
    ensures var r := PairDrivers(InitTagged(n).edges, n, days, |days|, x, y);
      && (r != [] ==> r[0] == PairCoins(n, days, |days|, x, y)[0])
      && forall i :: 0 <= i < |r| ==> r[i] == (if i % 2 == 0 then r[0] else Other(r[0]))
  {
    var e0 := InitTagged(n).edges;
    var c := PairCoins(n, days, |days|, x, y);
    assert e0[Key(x, y)] == Entry(Unset, 0);
    PairSlotReplays(e0, n, days, |days|, x, y);
    if c != [] {
      ReplayAlternates(Entry(Unset, 0), c);
    }
  }

  /** From 36 people on, (8, 9) and (1, 36) share a slot, so a day on
      (1, 36) between two days on (8, 9) flips the slot a second time:
      participant 8 drives (8, 9) on both of its days. */
  lemma SharedSlotRepeatsDriver(n: int)
    requires n >= 36
    ensures var days := [Draw(7, 7, A, A, A, 0.0), Draw(0, 34, A, A, A, 0.0), Draw(7, 7, A, A, A, 0.0)];
      && (forall i :: 0 <= i < |days| ==> DrawOk(days[i], n))
      && PairDrivers(InitTagged(n).edges, n, days, 3, 8, 9) == [A, A]
  {
    var d, f := Draw(7, 7, A, A, A, 0.0), Draw(0, 34, A, A, A, 0.0);
    var days := [d, f, d];
    var e0 := InitTagged(n).edges;
    assert DrawPair(d, n) == (8, 9) && DrawPair(f, n) == (1, 36);
    assert Key(8, 9) == Key(1, 36) == 46656;
    assert e0[Key(8, 9)] == Entry(Unset, 0);
    assert EdgesRun(e0, n, days, 1)[Key(8, 9)] == Entry(Last(A), 1);
    assert EdgesRun(e0, n, days, 2)[Key(8, 9)] == Entry(Last(B), 0);
  }

  // What the day loop relies on from each strategy's day: the state stays
  // valid, it moves by that strategy's step, its extremes only widen, and
  // a bound on every tally carries over.

  method RandDetStep(book: TaggedBook, a: int, b: int, coin: Side)
    requires book.Valid() && 1 <= a < b <= book.n
    modifies book
    ensures book.Valid() && book.lo <= old(book.lo) && old(book.hi) <= book.hi
    ensures book.St() == RandDetDay(old(book.St()), book.n, a, b, coin)
    ensures KeysInjective(book.n) && 1 - book.n <= old(book.lo) ==> 1 - book.n <= book.lo
    ensures KeysInjective(book.n) && old(book.hi) <= book.n - 1 ==> book.hi <= book.n - 1
  {
    book.DayRandDet(a, b, coin);
  }

  method LocalGreedyStep(book: ScalarBook, a: int, b: int, coin: Side)
    requires book.Valid() && 1 <= a < b <= book.n
    modifies book
    ensures book.Valid() && book.lo <= old(book.lo) && old(book.hi) <= book.hi
    ensures book.St() == LocalGreedyDay(old(book.St()), book.n, a, b, coin)
    ensures 1 - book.n <= old(book.lo) ==> 1 - book.n <= book.lo
    ensures old(book.hi) <= book.n - 1 ==> book.hi <= book.n - 1
  {
    book.DayLocalGreedy(a, b, coin);
  }

  method GlobalGreedyStep(book: ScalarBook, a: int, b: int, coin: Side)
    requires book.Valid() && 1 <= a < b <= book.n
    modifies book
    ensures book.Valid() && book.lo <= old(book.lo) && old(book.hi) <= book.hi
    ensures book.St() == GlobalGreedyDay(old(book.St()), book.n, a, b, coin)
  {
    book.DayGlobalGreedy(a, b, coin);
  }

  method LocalBiasedStep(book: ScalarBook, a: int, b: int, draw: real)
    requires book.Valid() && 1 <= a < b <= book.n
    modifies book
    ensures book.Valid() && book.lo <= old(book.lo) && old(book.hi) <= book.hi
    ensures book.St() == LocalBiasedDay(old(book.St()), book.n, a, b, draw)
    ensures 1 - book.n <= old(book.lo) ==> 1 - book.n <= book.lo
    ensures old(book.hi) <= book.n - 1 ==> book.hi <= book.n - 1
  {
    book.DayLocalBiased(a, b, draw);
  }

  /** One day of main's loop on the four objects: together they move by
      Today. */
  method Day(randDet: TaggedBook, localGreedy: ScalarBook, globalGreedy: ScalarBook,
             localBiased: ScalarBook, d: Draw)
    requires randDet.Valid() && localGreedy.Valid() && globalGreedy.Valid() && localBiased.Valid()
    requires localGreedy != globalGreedy && localGreedy != localBiased && globalGreedy != localBiased
    requires randDet.n == localGreedy.n == globalGreedy.n == localBiased.n
    requires DrawOk(d, randDet.n)
    modifies randDet, localGreedy, globalGreedy, localBiased
    ensures randDet.Valid() && localGreedy.Valid() && globalGreedy.Valid() && localBiased.Valid()
    ensures World(randDet.St(), localGreedy.St(), globalGreedy.St(), localBiased.St())
         == Today(old(World(randDet.St(), localGreedy.St(), globalGreedy.St(), localBiased.St())),
                  randDet.n, d)
    ensures 1 - randDet.n <= old(localGreedy.lo) ==> 1 - randDet.n <= localGreedy.lo
    ensures old(localGreedy.hi) <= randDet.n - 1 ==> localGreedy.hi <= randDet.n - 1
    ensures 1 - randDet.n <= old(localBiased.lo) ==> 1 - randDet.n <= localBiased.lo
    ensures old(localBiased.hi) <= randDet.n - 1 ==> localBiased.hi <= randDet.n - 1
    ensures KeysInjective(randDet.n) && 1 - randDet.n <= old(randDet.lo) ==> 1 - randDet.n <= randDet.lo
    ensures KeysInjective(randDet.n) && old(randDet.hi) <= randDet.n - 1 ==> randDet.hi <= randDet.n - 1
  {
    var (a, b) := DrawPair(d, randDet.n);
    RandDetStep(randDet, a, b, d.randDetCoin);
    LocalGreedyStep(localGreedy, a, b, d.localCoin);
    GlobalGreedyStep(globalGreedy, a, b, d.globalCoin);
    LocalBiasedStep(localBiased, a, b, d.biasedDraw);
  }

  /** main's day loop over four books that start a span: afterwards they
      hold the states Run gives for all the days, and the tallies keep
      their bounds. */
  method Days(randDet: TaggedBook, localGreedy: ScalarBook, globalGreedy: ScalarBook,
              localBiased: ScalarBook, days: seq<Draw>)
    requires randDet.Valid() && localGreedy.Valid() && globalGreedy.Valid() && localBiased.Valid()
    requires localGreedy != globalGreedy && localGreedy != localBiased && globalGreedy != localBiased
    requires randDet.n == localGreedy.n == globalGreedy.n == localBiased.n
    requires forall i :: 0 <= i < |days| ==> DrawOk(days[i], randDet.n)
    requires World(randDet.St(), localGreedy.St(), globalGreedy.St(), localBiased.St()) == Start(randDet.n)
    modifies randDet, localGreedy, globalGreedy, localBiased
    ensures randDet.Valid() && localGreedy.Valid() && globalGreedy.Valid() && localBiased.Valid()
    ensures World(randDet.St(), localGreedy.St(), globalGreedy.St(), localBiased.St())
         == Run(randDet.n, days, |days|)
    ensures randDet.n >= 1 ==> 1 - randDet.n <= localGreedy.lo && localGreedy.hi <= randDet.n - 1
    ensures randDet.n >= 1 ==> 1 - randDet.n <= localBiased.lo && localBiased.hi <= randDet.n - 1
    ensures randDet.n >= 1 && KeysInjective(randDet.n) ==>
              1 - randDet.n <= randDet.lo && randDet.hi <= randDet.n - 1
  {
    var n := randDet.n;
    for day := 0 to |days|
      invariant randDet.Valid() && localGreedy.Valid() && globalGreedy.Valid() && localBiased.Valid()
      invariant World(randDet.St(), localGreedy.St(), globalGreedy.St(), localBiased.St()) == Run(n, days, day)
      invariant n >= 1 ==> 1 - n <= localGreedy.lo && localGreedy.hi <= n - 1
      invariant n >= 1 ==> 1 - n <= localBiased.lo && localBiased.hi <= n - 1
      invariant n >= 1 && KeysInjective(n) ==> 1 - n <= randDet.lo && randDet.hi <= n - 1
    {
      Day(randDet, localGreedy, globalGreedy, localBiased, days[day]);
    }
  }

  /** One span of main: four fresh strategies, then the days one by one.  The
      report is the one Run gives: every maximum is at least 0 and every
      minimum at most 0; the two local strategies, whose slots never leave
      {0, 1}, keep every tally, and so their extremes, within [-(n-1), n-1],
      and so does the random-deterministic strategy when no two pairs share
      a slot. */
  method RunOnce(n: nat, days: seq<Draw>) returns (r: Report)
    requires forall i :: 0 <= i < |days| ==> DrawOk(days[i], n)
    ensures r == ReportOf(Run(n, days, |days|))
    ensures r.randDet.lo <= 0 <= r.randDet.hi
    ensures r.localGreedy.lo <= 0 <= r.localGreedy.hi
    ensures r.globalGreedy.lo <= 0 <= r.globalGreedy.hi
    ensures r.localBiased.lo <= 0 <= r.localBiased.hi
    ensures n >= 1 ==> 1 - n <= r.localGreedy.lo && r.localGreedy.hi <= n - 1
    ensures n >= 1 ==> 1 - n <= r.localBiased.lo && r.localBiased.hi <= n - 1
    ensures n >= 1 && KeysInjective(n) ==> 1 - n <= r.randDet.lo && r.randDet.hi <= n - 1
  {
    var randDet := new TaggedBook.Init2(n);
    var localGreedy := new ScalarBook.Init1(n);
    var globalGreedy := new ScalarBook.Init1(n);
    var localBiased := new ScalarBook.Init1(n);
    Days(randDet, localGreedy, globalGreedy, localBiased, days);
    r := Report(Extremes(randDet.hi, randDet.lo), Extremes(localGreedy.hi, localGreedy.lo),
                Extremes(globalGreedy.hi, globalGreedy.lo), Extremes(localBiased.hi, localBiased.lo));
  }
}
