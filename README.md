# Carpool fairness simulation, modelled in Dafny

`testing.py` simulates a carpool of `n` people (50 by default). Each day, two
people are chosen at random. Four strategies each pick who drives. Every
strategy keeps an unfairness tally per person and the largest and the
smallest tally seen so far in the current run. For the random-deterministic
and the global greedy strategies the tally is the person's net drive count:
drives minus rides. The two local strategies never record a drive by the
upper member of a pair (see "Local greedy" below). Their tally for person `i`
counts the slots of pairs `(i, j)` with `j > i` that went from 0 to 1, minus
those of pairs `(j, i)` with `j < i`. This project models one run of that
simulation and proves properties about it.

- **Pair ledgers.** A pair `(a, b)` with `a < b` is stored under the key
  `a²·b³` (`PairKeys.Key`). The key is kept exactly as written, collisions
  included. Different pairs can get the same key. The first such collision
  is between `(8, 9)` and `(1, 36)`, so a population of 36 or more shares
  slots. Every property that needs one slot per pair takes
  `PairKeys.KeysInjective(n)` as a hypothesis. That hypothesis is proved only
  for `n <= 4` (`PairKeys.SmallPopulationInjective`).
- **Tallies** (`Tally`).
  - A tally is a map from participants `1..n` to integers.
  - When the lower identifier drives, the tally moves by `+1` for them and by
    `-1` for their partner.
  - The running extremes are the maximum and minimum over `1..n`.
- **Recomputation** (`Ledger`). `calc_unf` and `calc_unf2` rebuild each tally
  from the ledger. Person `i` gets the balances of the pairs where `i` is the
  lower member, minus the balances of the pairs where `i` is the upper member.
  The pure function `Ledger.Recomputed` states this. Three facts are proved
  about it:
  - the recomputed tallies always sum to zero;
  - with one slot per pair, bumping one slot moves exactly the two tallies of
    that pair;
  - with balances in `{-1, 0, 1}`, every tally lies within `±(n-1)`.
- **Strategies** (`Strategies`). There are two classes.
  - `TaggedBook` holds the random-deterministic strategy. Its ledger is
    tagged, and its tallies are updated incrementally.
  - `ScalarBook` holds the three strategies that `init1` sets up: local
    greedy, global greedy and local biased.
  - Each `day_*` function is a method. Its contract gives the new ledger, the
    new tallies and the new extremes in terms of the old state.
  - `St()` reads an object's state as a value. The pure functions of
    `DaySteps` give the state `init1`/`init2` build and the state each
    `day_*` function leaves, and every constructor and day method is proved
    to produce exactly that value.
- **Local greedy.** The statement `edges[...] -+ 1` evaluates an expression
  and throws it away. The model keeps that behaviour: when `b` drives, the
  ledger does not change. So a slot only ever goes from 0 to 1, and the local
  strategies' tallies stay within `[-(i-1), n-i]` for person `i`.
- **Global greedy.** The participant with the smaller tally drives: that is
  the one in debt, who has driven less so far. A tie follows the coin.
  - When the two tallies differ, the gap between them moves by 2 toward the
    other side. It does not always shrink: a gap of 1 becomes a gap of 1 the
    other way.
- **Biased coin** (`Coin`).
  - `biased_coin1` compares a uniform draw with `1 - 2^-diff`. Here that is an
    exact real, and the draw is a parameter.
  - The threshold is at least one half, exactly one half only on a tie, below
    1, and strictly increasing in the gap.
- **The day loop** (`Simulation`).
  - One run of `main`'s inner loop is `Simulation.RunOnce`.
  - The random outcomes of each day are passed in, one `Draw` per day: the
    two indices for `choice`, one coin per strategy and the biased draw.
  - `Simulation.Run` folds `Simulation.Today` over the days. `RunOnce` runs
    the four objects and is proved to report exactly what `Run` gives.
  - All four extremes start at 0 and only widen.
  - The two local strategies keep their extremes within `±(n-1)` for every
    `n`.
  - The random-deterministic strategy does too when no two pairs share a slot.
  - The random-deterministic strategy alternates the drivers of a slot
    (`Ledger.ReplayAlternates`). A pair alternates only while no other pair
    shares its slot: with `KeysInjective(n)`, a day on another pair leaves the
    slot alone, and the pair's own drivers strictly alternate from the first
    coin (`Simulation.PairAlternates`). From 36 people on this fails:
    `(8, 9)`, then `(1, 36)`, then `(8, 9)` again, and participant 8 drives
    both days on `(8, 9)` (`Simulation.SharedSlotRepeatsDriver`).
  - With up to four people, one day on the pair `(1, 2)` with every coin on
    the lower identifier reports max 1 and min -1 for every strategy
    (`Simulation.OneDay`).

## Model

| member | source | states |
|---|---|---|
| PairKeys.Key | testing.py:89-94 | the slot of a pair of positive identifiers is a positive key |
| PairKeys.KeysCollide | testing.py:89-99 | pairs (8, 9) and (1, 36) share the key 46656, so for any population of 36 or more the key is not injective on pairs |
| PairKeys.DefaultPopulationShares | testing.py:33 | the default population of 50 has pairs that share a slot |
| PairKeys.MoreCollisions | testing.py:89-99 | (8, 10)/(1, 40), (8, 11)/(1, 44) and (8, 12)/(1, 48) collide as well, all within the default population of 50 |
| PairKeys.SmallPopulationInjective | testing.py:89-99 | for at most four people every pair has its own slot |
| Tally.Credit | testing.py:89-94 | the sign convention: +1 exactly when the lower identifier drives, and -1 otherwise |
| Tally.Zeros | testing.py:96-97 | the initial tallies cover exactly participants 1..n, each at 0 |
| Tally.Transfer | testing.py:157-162 | a day's tally update keeps the set of participants. The lower identifier gains exactly what the upper one loses, namely the driver's credit, and nobody else changes |
| Tally.TransferKeepsSum | testing.py:157-162 | one day's transfer keeps the sum of all tallies |
| Tally.MaxNode | testing.py:124-125 | max(node_list) bounds every tally of 1..n from above and is one of them |
| Tally.MinNode | testing.py:124-126 | min(node_list) bounds every tally of 1..n from below and is one of them |
| Ledger.Recomputed | testing.py:64-71 | the recomputed tallies cover exactly participants 1..n, and person i gets the sum of the slots of the pairs (i, j) with j > i minus the sum of the slots of the pairs (j, i) with j < i |
| Ledger.RecomputedZeroSum | testing.py:64-71 | the tallies recomputed from any complete ledger sum to zero |
| Ledger.RecomputedBump | testing.py:64-71 | with one slot per pair, adding d to the slot of (a, b) adds d to a's recomputed tally, takes d from b's, and leaves every other tally alone |
| Ledger.RecomputedBounds | testing.py:64-71 | with balances in {-1, 0, 1}, every recomputed tally lies in [-(n-1), n-1]. With balances in {0, 1}, person i's tally lies in [-(i-1), n-i] |
| Ledger.RecomputedOfZeros | testing.py:64-71 | an all-zero ledger recomputes to all-zero tallies |
| Ledger.Revisit | testing.py:101-122 | a visited slot is always tagged. The first visit follows the coin, and every later visit hands the wheel to the other side. The slot invariant (tag and balance sign agree, and the balance lies in {-1, 0, 1}) is kept, and the balance moves by the new driver's credit |
| Ledger.ReplayAlternates | testing.py:101-122 | over any sequence of visits to one slot, every step keeps the slot invariant. The drivers strictly alternate from the first one, which is the coin on an untouched slot |
| Ledger.Settle | testing.py:101-122 | the slot after a series of visits: the slot invariant is kept, and after at least one visit the slot is tagged |
| Ledger.SettleSnoc | testing.py:101-122 | one more visit revisits the settled slot |
| Ledger.ReplaySnoc | testing.py:101-122 | one more visit appends its revisit of the settled slot to the replay |
| Ledger.TallyFollowsLedger | testing.py:101-122 | with one slot per pair, the incremental update of day_rand_def equals recomputing the tallies from the updated ledger, and keeps every tally within [-(n-1), n-1] |
| Coin.Threshold | testing.py:170 | 1 - 2^-diff lies in [1/2, 1) and equals 1/2 exactly when diff is 1 |
| Coin.BiasedCoin | testing.py:167-179 | when a's tally is not above b's, a wins exactly when the draw is within the threshold for their gap. Otherwise b wins exactly when 1 - draw is within the threshold |
| Coin.TieIsFair | testing.py:167-173 | on equal tallies a wins exactly on draws up to 1/2 |
| Coin.ThresholdGrows | testing.py:167-179 | a wider gap gives the participant who has driven less a strictly larger share of the draws |
| DaySteps.FillRow | testing.py:98-99 | the inner initialisation loop from j on: every key kept, a slot for each (i, y) with j <= y <= n, and no value other than v |
| DaySteps.InitSlots | testing.py:96-99 | the outer initialisation loop from i on: every key kept, a slot for each pair x < y from i up, and no value other than v |
| DaySteps.InitTagged | testing.py:95-99 | the state init2 builds: every pair has a slot, each untagged with balance 0, and every participant a tally |
| DaySteps.InitScalar | testing.py:128-132 | the state init1 builds: every pair has a slot, each 0, and every participant a tally |
| DaySteps.RandDetDay | testing.py:101-126 | one day_rand_def as a value: every pair keeps its slot and everyone a tally, the new extremes bracket every new tally, and they only widen |
| DaySteps.RandDetDayLedger | testing.py:101-122 | proof helper, unfolding RandDetDay: after one day_rand_def the ledger differs from the old one only at the day's slot, which is revisited with the coin |
| DaySteps.RandDetDaySlot | testing.py:101-122 | one day_rand_def revisits the slot of any pair (x, y) whose key equals the day's pair key, shared slots included, and leaves every other slot alone |
| DaySteps.LocalGreedyDay | testing.py:134-148 | one day_local_greedy as a value, with the same shape, bracketing and widening |
| DaySteps.GlobalGreedyDay | testing.py:150-165 | one day_global_greedy as a value: the ledger is unchanged, and the same shape, bracketing and widening hold |
| DaySteps.LocalBiasedDay | testing.py:181-195 | one day_local_biased as a value, with the same shape, bracketing and widening |
| Strategies.TaggedBook.Init2 | testing.py:95-99 | every pair's slot is untagged with balance 0; the tallies are the zeros of 1..n; the extremes start at 0; the state is InitTagged |
| Strategies.TaggedBook.CalcUnf2 | testing.py:55-62 | the ledger and extremes are unchanged; the tallies become the recomputation from the balance column |
| Strategies.TaggedBook.FoldExtremes | testing.py:124-126 | the extremes fold in today's max and min, then bracket every tally, and only widen |
| Strategies.TaggedBook.Drive | testing.py:102-122 | the branches of day_rand_def: the pair's slot becomes its revisit with the coin, and the tallies get the transfer for the slot's new driver |
| Strategies.TaggedBook.DayRandDet | testing.py:101-126 | the state moves by RandDetDay: the pair's slot is revisited with the coin; the tallies get the transfer for the slot's new driver; the extremes fold in today's tallies. The book stays valid: tallies sum to zero and, with one slot per pair, equal the recomputation and stay within ±(n-1) |
| Strategies.ScalarBook.Init1 | testing.py:128-132 | every pair's slot is 0; the tallies are the zeros of 1..n; the extremes start at 0; the state is InitScalar |
| Strategies.ScalarBook.CalcUnf | testing.py:64-71 | the ledger and extremes are unchanged; the tallies become the recomputation from the ledger |
| Strategies.ScalarBook.FoldExtremes | testing.py:146-148 | the extremes fold in today's max and min, then bracket every tally, and only widen |
| Strategies.ScalarBook.DayLocalGreedy | testing.py:134-148 | the state moves by LocalGreedyDay. The slot goes from 0 to 1 exactly when it was 0 and the coin picks a; otherwise the ledger is unchanged. The tallies are the recomputation, person i's within [-(i-1), n-i]. The extremes fold in today's tallies |
| Strategies.ScalarBook.Steer | testing.py:151-162 | the branches of day_global_greedy: the smaller tally drives, a tie follows the coin, and the tallies get the transfer for that driver |
| Strategies.ScalarBook.DayGlobalGreedy | testing.py:150-165 | the state moves by GlobalGreedyDay. The ledger is untouched. The participant with the smaller tally drives, and a tie follows the coin. The gap moves by 2 toward the other side, and the tallies keep summing to zero |
| Strategies.ScalarBook.DayLocalBiased | testing.py:181-195 | the state moves by LocalBiasedDay: as local greedy, with the zero slot decided by the biased coin on the tallies before the day |
| Simulation.Others | testing.py:225 | the second choice list holds n-1 entries, all among 1..n, none equal to a, and covers everybody else |
| Simulation.DrawOk | testing.py:224-225 | what the random source can return for n people: the index of the first choice in [0, n), that of the second in [0, n-1), and the draw of random() (testing.py:170, 176) in [0, 1). A valid draw needs at least two people, since the second choice is from everybody else |
| Simulation.DrawPair | testing.py:224-227 | the day's pair satisfies 1 <= a < b <= n |
| Simulation.DrawPairChooses | testing.py:224-227 | the day's pair is the first choice from 1..n and the second choice from the list of everybody else, ordered so that the smaller comes first |
| Simulation.EveryPairDrawable | testing.py:224-227 | every pair 1 <= x < y <= n comes out of some valid draw |
| Simulation.Start | testing.py:199-221 | the states at the top of a span: init2 once and init1 three times, every extreme at 0; all four states are shaped for n |
| Simulation.Today | testing.py:223-231 | one iteration of the day loop as a value: the drawn pair goes to all four steps, each with its own random outcome; all four states keep their shape and every extreme only widens |
| Simulation.Run | testing.py:198-231 | the states after the first k days of a span, starting from init1/init2: every reported maximum is at least 0 and every minimum at most 0 |
| Simulation.ReportOf | testing.py:124-126 | the report of a span: for each strategy, the values left in max_*[-1] and min_*[-1] (also testing.py:147-148, 164-165, 194-195). It has every maximum at least 0 and every minimum at most 0 exactly when each state's extremes do |
| Simulation.NoDays | testing.py:199-221 | a span of zero days reports 0 for all eight extremes |
| Simulation.OneDay | testing.py:197-231 | with up to four people, one day on the pair (1, 2) with every coin on participant 1 reports max 1 and min -1 for all four strategies |
| Simulation.Revisited | testing.py:101-122 | a day of day_rand_def on the ledger alone: every pair keeps its slot |
| Simulation.EdgesRun | testing.py:101-122 | the random-deterministic ledger after k days: every pair keeps its slot |
| Simulation.RunEdges | testing.py:198-231 | started from init2's ledger, EdgesRun is the ledger of the random-deterministic strategy in the whole run |
| Simulation.RunLedgers | testing.py:223-228 | on every day of the run, the random-deterministic ledger is the previous one with the day's pair slot revisited |
| Simulation.LedgerChain | testing.py:223-228 | any series of ledgers in which each day revisits the slot of that day's pair is the one EdgesRun gives |
| Simulation.RunEdgesStep | testing.py:223-228 | one day of the run revisits the random-deterministic slot of the day's pair |
| Simulation.RunRandDetStep | testing.py:223-228 | proof helper, unfolding Run: one day of the run moves the random-deterministic state by RandDetDay on the drawn pair |
| Simulation.PairCoins | testing.py:223-228 | the coins of the days on a given pair, at most one per day |
| Simulation.PairDrivers | testing.py:101-122 | the drivers on the days of a given pair, one per such day |
| Simulation.PairSlotReplays | testing.py:14-16 | with one slot per pair, the slot of (x, y) is its start settled by exactly the coins of that pair's days, and its drivers are those of the replay of those coins |
| Simulation.PairAlternates | testing.py:14-16 | with one slot per pair, the drivers of every pair from init2's ledger start with the first coin and strictly alternate from then on |
| Simulation.SharedSlotRepeatsDriver | testing.py:14-16 | with 36 people or more, the days (8, 9), (1, 36), (8, 9) with every coin on the lower identifier give (8, 9) the same driver twice |
| Simulation.RandDetStep | testing.py:228 | the book moves by RandDetDay, stays valid, and with one slot per pair the bound ±(n-1) on its extremes carries over |
| Simulation.LocalGreedyStep | testing.py:229 | the book moves by LocalGreedyDay, stays valid, and the bound ±(n-1) on its extremes carries over |
| Simulation.GlobalGreedyStep | testing.py:230 | the book moves by GlobalGreedyDay and stays valid |
| Simulation.LocalBiasedStep | testing.py:231 | the book moves by LocalBiasedDay, stays valid, and the bound ±(n-1) on its extremes carries over |
| Simulation.Day | testing.py:223-231 | one iteration of main's day loop: the four books together move by Today on the drawn pair and stay valid, and the ±(n-1) bounds carry over |
| Simulation.Days | testing.py:223-231 | the whole day loop: books that start as init1/init2 left them stay valid and end in the states Run gives for all the days, with the ±(n-1) bounds |
| Simulation.RunOnce | testing.py:197-231 | one span: the report is exactly the one Run gives, so every final max is at least 0 and every final min at most 0. Both local strategies end within ±(n-1), and the random-deterministic one too when no two pairs share a slot |

## Left out

- Plotting (`plot_unfairness`) and the final `print`s are output only.
- The sweep over span lengths (`start`, `end`, `step`, `x_val`) is left out, along with the growing `max_*`/`min_*` lists. `Simulation.RunOnce` models one iteration of the sweep. Its report is the last element of each of the eight lists.
- The module-global `n = 50` is a parameter `n` in the model, and `PairKeys.DEFAULT_POPULATION` records the default.
- The `random` module is not modelled. Every `choice` and `random()` outcome is a field of `Simulation.Draw`, and `Simulation.DrawOk` states the range such a source returns.
- Coin.BiasedCoin: compares the draw with the exact real `1 - 1/2^diff` rather than its floating-point rounding. `random()` returns multiples of 2^-53 below 1. For gaps up to 1073 (diff up to 1074) the double comparison gives the same outcome as the exact one on every such draw. From diff 1075 on, `pow(2, -diff)` underflows to 0.0, so on the draw 0.0 the second branch (testing.py:176) gives b while the model gives a. Such a gap needs a population of roughly 540 or more.
- Simulation.RunOnce: proves the ±(n-1) bound for the random-deterministic strategy only when no two pairs share a slot. With the default population of 50, slots are shared (`PairKeys.KeysCollide`), and the model does not bound that strategy's tallies.
- Strategies.ScalarBook.DayGlobalGreedy: states that the gap moves by 2 toward the other side, not that its absolute value shrinks by 2. A gap of 1 flips to -1.
- PairKeys.SmallPopulationInjective: proves one slot per pair only for `n <= 4`. The key is injective up to `n = 35`, which the model does not prove, so the hypothesis `KeysInjective(n)` is discharged only for `n <= 4`.
- Simulation.PairAlternates: proves strict alternation per pair only when no two pairs share a slot. The docstring (testing.py:14-16) promises it for every pair, but with 36 people or more a shared slot breaks it (`Simulation.SharedSlotRepeatsDriver`). Alternation always holds per slot.
- Simulation.DrawOk: requires that the second `choice` has someone to pick, so `n >= 2` whenever there is a day. With `n < 2` and at least one day, `choice` on an empty list raises `IndexError` (testing.py:224-225). The model does not represent that failure.
- Global greedy's ledger is built by `init1` and never read. The model carries it unchanged.
