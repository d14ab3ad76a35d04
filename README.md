# Transaction scenario resampling, modelled in Dafny

This project models the scenario engine of a small C++ prototype. The prototype
takes a simulated daily price path and turns it into a base sequence of daily
transactions. It then builds one resampled scenario per seed, in one of two ways:

- **without replacement**: each scenario is a shuffled copy of the base;
- **with replacement**: each scenario is built from positions drawn uniformly
  from the base.

Files:

- `daily_transaction.dfy` (module `DailyTransactions`): the `DailyTransaction`
  value, i.e. a start price and an end price. Also its simple return,
  `(end - start) / start`, which needs a nonzero start price.
- `random_engine.dfy` (module `RandomEngine`): a seeded engine, seen as the
  stream of raw values it yields for a seed. Also the uniform integer
  distribution over a closed range, of which only the range is modelled.
- `shuffling.dfy` (module `Shuffling`): the in-place shuffle as a forward
  Fisher–Yates pass over an array. It comes with a functional specification,
  `Shuffled`, and the proof that a shuffle is a permutation.
- `simulated_path.dfy` (module `SimulatedPath`): the pairing loop of
  `generateSimulatedPath`. The price generator is not modelled: its output
  is the input sequence of prices.
- `scenarios.dfy` (module `Scenarios`): the seed list built with `std::iota`.
  Also `generateRandIndices`, `generateScenario`, the two scenario loops, and
  the two test drivers up to the point where they print their report.

The pairing loop reads a price, steps the iterator forward to read the next
price, and then steps it back. The `for` header then advances it by one. So
the transactions are overlapping neighbour pairs, `(p[i], p[i+1])`. A path of
`k` prices gives `k - 1` transactions, and every interior price is used by two
transactions. The pairs overlap; they are not the disjoint pairs
`(p[0], p[1]), (p[2], p[3]), ...` (`AdjacentPairsAt`, `AdjacentPairsOverlap`).

Randomness enters only through an `Engine` parameter. `Engine(seed, k)` is the
k-th raw output of an engine constructed from `seed`. Each scenario gets a fresh
engine built from its own seed. So every scenario is a function of the base
sequence and its seed alone, which is what the contracts state (`Shuffled(txns,
engine, seeds[k])`, `Resampled(txns, engine, seeds[k])`).

Undefined or throwing paths of the source are handled as follows:

- An empty price vector: the loop bound `end() - 1` is undefined, so it is a
  precondition.
- A with-replacement draw over no transactions: the source builds the
  distribution over `[0, -1]`, which is undefined. The model returns
  `Err(EmptyIndexRange)` and the scenario loop fails as a whole.
- An index rejected by `.at()`: the model returns `Err(OutOfRange(position,
  index))` at the first such index.
- A zero start price in the return: the division is unguarded, so it is a
  precondition.

## Model

| member | source | states |
|---|---|---|
| DailyTransactions.SimpleReturn | SourceCode/DailyTransaction.h:11-14 | defined for a nonzero start price; the return r satisfies start * r == end - start |
| DailyTransactions.ReturnIsGrowthRate | SourceCode/DailyTransaction.h:13 | r is the return iff start * (1 + r) == end, so the return is the unique growth rate of the day |
| DailyTransactions.ReturnZeroIffFlat | SourceCode/DailyTransaction.h:13 | the return is zero exactly when the end price equals the start price |
| DailyTransactions.ReturnSignFollowsMove | SourceCode/DailyTransaction.h:13 | with a positive start price, the return is positive iff the price rose and negative iff it fell |
| DailyTransactions.ReturnExamples | SourceCode/DailyTransaction.h:11-14 | 100 to 110 gives 0.1 and 100 to 90 gives -0.1 |
| RandomEngine.UniformDraw | SourceCode/Main.cpp:97-103 | a draw of the uniform distribution over [lo, hi] lies in [lo, hi] |
| Shuffling.Swap | SourceCode/Main.cpp:66 | exchanging two positions keeps the length and the multiset and leaves every other position alone |
| Shuffling.SwapPartner | SourceCode/Main.cpp:66 | step i of the shuffle swaps with a position in [0, i] |
| Shuffling.ShuffleFromIsPermutation | SourceCode/Main.cpp:66 | any tail of the Fisher–Yates pass keeps the length and the multiset |
| Shuffling.ShuffledIsPermutation | SourceCode/Main.cpp:65-67 | a shuffle, for any engine and seed, is a permutation of its input |
| Shuffling.ShuffleInPlace | SourceCode/Main.cpp:66 | the array afterwards holds the shuffle of its old contents, a permutation of them |
| SimulatedPath.AdjacentPairsAt | SourceCode/Main.cpp:37-44 | k >= 1 prices give k - 1 transactions, transaction i running from price i to price i + 1 |
| SimulatedPath.AdjacentPairsOverlap | SourceCode/Main.cpp:37-44 | neighbouring transactions overlap: transaction i - 1 ends and transaction i starts at price i |
| SimulatedPath.GenerateSimulatedPath | SourceCode/Main.cpp:35-46 | the forward-and-back iterator loop yields exactly the overlapping neighbour pairs of the path, one fewer than the prices |
| SimulatedPath.SevenDayPath | SourceCode/Main.cpp:23-24 | a seven-day path (eight prices) gives seven transactions, the last from price 6 to price 7 |
| Scenarios.Iota | SourceCode/Main.cpp:56-58 | fills count slots with initSeed, initSeed + 1, ... in order |
| Scenarios.SeedList | SourceCode/Main.cpp:85-87 | the seed list has numScenarios entries, seeds[i] == i, all distinct |
| Scenarios.WithoutReplacementScenarios | SourceCode/Main.cpp:61-68 | one scenario per seed in seed order; scenario k is the shuffle for seed k of a copy of the base, with the base's length and multiset |
| Scenarios.ResampledDrawsFromBase | SourceCode/Main.cpp:109-117 | a with-replacement scenario has the base's length; position k holds the base transaction at the k-th drawn index, which is valid, so every element is a base transaction |
| Scenarios.GenerateRandIndices | SourceCode/Main.cpp:95-107 | fails iff there are no transactions; otherwise exactly n indices, each in [0, n - 1], the k-th being the k-th draw for the seed |
| Scenarios.GenerateScenario | SourceCode/Main.cpp:109-117 | succeeds iff every index is in range, then out[i] == txns[indices[i]] and out is as long as indices; otherwise reports the first out-of-range position |
| Scenarios.WithReplacementScenarios | SourceCode/Main.cpp:121-127 | fails iff the base is empty and there is a seed; otherwise one scenario per seed in seed order, scenario k being the resample for seed k |
| Scenarios.WithoutReplacementTests | SourceCode/Main.cpp:49-68 | numScenarios scenarios; scenario k is the shuffle for seed k of the path's transactions, with one transaction fewer than the prices, and the base's multiset |
| Scenarios.WithReplacementTests | SourceCode/Main.cpp:77-127 | fails iff the path has one price and a scenario is requested; otherwise scenario k is the resample for seed k, with one transaction fewer than the prices |
| Scenarios.SevenDayFifteenScenarios | SourceCode/Main.cpp:24-25 | eight prices and seeds 0..14: every shuffled scenario has seven transactions and is a permutation of the base, and every resampled one has seven transactions, all from the base |

## Left out

- `EquityPriceGenerator`: EquityPriceGenerator.h is not part of this model. It is a stochastic floating-point price model; its output is the `prices` input of `GenerateSimulatedPath`.
- `checkResults` and the unused `scenarios.at(0)`: `checkResults` only prints the report to the console, and `scenarios.at(0)` copies scenario 0 into a variable that is never used. With zero scenarios, `scenarios.at(0)` throws, and the model does not reproduce that throw.
- `main` and its hard-coded parameters: not modelled, except as the shape lemma `SevenDayFifteenScenarios`.
- The internals of the Mersenne Twister engine, of `uniform_int_distribution` and of the library shuffle are not modelled. An engine is an arbitrary function from (seed, draw number) to a raw value.
- RandomEngine.UniformDraw: only its range is stated. The library's mapping from raw values to the range, which may reject and consume several raw values per draw, is replaced by a remainder.
- Shuffling.ShuffleInPlace: models the forward Fisher–Yates schedule, with step i swapping i with a draw from [0, i]. The library's exact schedule, which can pair up steps, may differ. The permutation property does not depend on it.
- Floating point: prices and returns are `real`, so there is no IEEE-754 rounding.
- Integer width: `numScenarios` is a `nat` (a negative count makes the vector constructor throw in the source) and the `int` cast of the transaction count is not bounded.
