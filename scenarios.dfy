/** The scenario engine: one resampled copy of the base transaction sequence
    per seed, either as a permutation (without replacement) or as independent
    draws of positions (with replacement). The seeds are 0, 1, ...,
    numScenarios - 1 and the scenarios are appended in seed order. */
module Scenarios {
  import opened DailyTransactions
  import opened RandomEngine
  import opened Shuffling
  import opened SimulatedPath

  /** One resampled path. */
  type Scenario = seq<DailyTransaction>

  /** The failures of the with-replacement sampler: an empty base sequence
      leaves the index distribution over [0, -1], and an index outside the
      base sequence makes the checked element access throw. */
  datatype SamplingError = EmptyIndexRange | OutOfRange(position: nat, index: int)

  datatype Result<T> = Ok(value: T) | Err(error: SamplingError)

  /** Fills a fresh vector of count integers with initSeed, initSeed + 1, ... */
  method Iota(count: nat, initSeed: int) returns (seeds: seq<int>)
    ensures |seeds| == count
    ensures forall i :: 0 <= i < count ==> seeds[i] == initSeed + i
  {
    var a := new int[count];
    var value := initSeed;
    for i := 0 to count
      invariant value == initSeed + i
      invariant forall k :: 0 <= k < i ==> a[k] == initSeed + k
    {
      a[i] := value;
      value := value + 1;
    }
    seeds := a[..];
  }

  /** The seed list of both test drivers: 0, 1, ..., numScenarios - 1, so no
      two scenarios share a seed. */
  method SeedList(numScenarios: nat) returns (seeds: seq<int>)
    ensures |seeds| == numScenarios
    ensures forall i :: 0 <= i < numScenarios ==> seeds[i] == i
    ensures forall i, j :: 0 <= i < j < numScenarios ==> seeds[i] != seeds[j]
  {
    seeds := Iota(numScenarios, 0);
  }

  /** The scenario loop of withoutReplacementTests: for each seed, copy the
      base transactions into a fresh array, shuffle the copy in place with an
      engine built from that seed, and append it. Scenario k is the shuffle of
      the base for seed k alone, and a permutation of the base. */
  method WithoutReplacementScenarios(txns: seq<DailyTransaction>, seeds: seq<int>, engine: Engine)
    returns (scenarios: seq<Scenario>)
    ensures |scenarios| == |seeds|
    ensures forall k :: 0 <= k < |seeds| ==> scenarios[k] == Shuffled(txns, engine, seeds[k])
    ensures forall k :: 0 <= k < |seeds| ==>
              |scenarios[k]| == |txns| && multiset(scenarios[k]) == multiset(txns)
  {
    scenarios := [];
    for k := 0 to |seeds|
      invariant |scenarios| == k
      invariant forall m :: 0 <= m < k ==> scenarios[m] == Shuffled(txns, engine, seeds[m])
    {
      var txnsCopy := new DailyTransaction[|txns|](i requires 0 <= i < |txns| => txns[i]);
      assert txnsCopy[..] == txns;
      ShuffleInPlace(txnsCopy, engine, seeds[k]);
      scenarios := scenarios + [txnsCopy[..]];
    }
    forall k | 0 <= k < |seeds|
      ensures |scenarios[k]| == |txns| && multiset(scenarios[k]) == multiset(txns)
    {
      ShuffledIsPermutation(txns, engine, seeds[k]);
    }
  }

  /** The n indices the with-replacement sampler draws for seed: the k-th
      draw of a uniform distribution over [0, n - 1]. */
  function DrawnIndices(engine: Engine, seed: int, n: nat): seq<int>
  {
    seq(n, k requires 0 <= k < n => UniformDraw(engine, seed, k, 0, n - 1))
  }

  /** The with-replacement scenario for seed: position k holds the base
      transaction at the k-th drawn index. */
  function Resampled(txns: seq<DailyTransaction>, engine: Engine, seed: int): Scenario
  {
    seq(|txns|, k requires 0 <= k < |txns| => txns[UniformDraw(engine, seed, k, 0, |txns| - 1)])
  }

  /** A with-replacement scenario has the length of the base and every one of
      its transactions is a base transaction at a drawn, valid index. */
  lemma ResampledDrawsFromBase(txns: seq<DailyTransaction>, engine: Engine, seed: int)
    ensures |Resampled(txns, engine, seed)| == |txns|
    ensures forall k :: 0 <= k < |txns| ==>
              0 <= DrawnIndices(engine, seed, |txns|)[k] < |txns| &&
              Resampled(txns, engine, seed)[k] == txns[DrawnIndices(engine, seed, |txns|)[k]]
    ensures forall k :: 0 <= k < |txns| ==> Resampled(txns, engine, seed)[k] in txns
  {
  }

  /** generateRandIndices: an engine built from seed feeds a uniform
      distribution over [0, n - 1], n being the number of base transactions,
      and n draws are collected in order. With no transactions the range is
      empty and the sampler fails. */
  method GenerateRandIndices(txns: seq<DailyTransaction>, engine: Engine, seed: int)
    returns (r: Result<seq<int>>)
    ensures r.Err? <==> |txns| == 0
    ensures r.Err? ==> r.error == EmptyIndexRange
    ensures r.Ok? ==> |r.value| == |txns|
    ensures r.Ok? ==> forall i :: 0 <= i < |txns| ==> 0 <= r.value[i] < |txns|
    ensures r.Ok? ==> r.value == DrawnIndices(engine, seed, |txns|)
  {
    var numTransactions := |txns|;
    if numTransactions - 1 < 0 {
      return Err(EmptyIndexRange);
    }
    var indices := [];
    for i := 0 to numTransactions
      invariant |indices| == i
      invariant forall m :: 0 <= m < i ==> indices[m] == UniformDraw(engine, seed, m, 0, numTransactions - 1)
    {
      indices := indices + [UniformDraw(engine, seed, i, 0, numTransactions - 1)];
    }
    r := Ok(indices);
  }

  /** generateScenario: the base transaction at each index, in index order.
      The element access is checked, so the first index outside the base
      makes the whole scenario fail. */
  method GenerateScenario(txns: seq<DailyTransaction>, indices: seq<int>) returns (r: Result<Scenario>)
    ensures r.Ok? <==> forall i :: 0 <= i < |indices| ==> 0 <= indices[i] < |txns|
    ensures r.Ok? ==> |r.value| == |indices|
    ensures r.Ok? ==> forall i :: 0 <= i < |indices| ==> r.value[i] == txns[indices[i]]
    ensures r.Err? ==> r.error.OutOfRange? && r.error.position < |indices| &&
                       r.error.index == indices[r.error.position] &&
                       !(0 <= r.error.index < |txns|) &&
                       forall i :: 0 <= i < r.error.position ==> 0 <= indices[i] < |txns|
  {
    var withReplTransactions := [];
    for i := 0 to |indices|
      invariant |withReplTransactions| == i
      invariant forall m :: 0 <= m < i ==> 0 <= indices[m] < |txns|
      invariant forall m :: 0 <= m < i ==> withReplTransactions[m] == txns[indices[m]]
    {
      if !(0 <= indices[i] < |txns|) {
        return Err(OutOfRange(i, indices[i]));
      }
      withReplTransactions := withReplTransactions + [txns[indices[i]]];
    }
    r := Ok(withReplTransactions);
  }

  /** The scenario loop of withReplacementTests: for each seed, draw the
      indices and build the scenario from them, then append it. Scenario k
      depends only on the base and seed k. The loop fails, as a whole, exactly
      when there is at least one seed and no base transaction to draw. */
  method WithReplacementScenarios(txns: seq<DailyTransaction>, seeds: seq<int>, engine: Engine)
    returns (r: Result<seq<Scenario>>)
    ensures r.Err? <==> |txns| == 0 && |seeds| > 0
    ensures r.Err? ==> r.error == EmptyIndexRange
    ensures r.Ok? ==> |r.value| == |seeds|
    ensures r.Ok? ==> forall k :: 0 <= k < |seeds| ==> r.value[k] == Resampled(txns, engine, seeds[k])
  {
    var scenarios: seq<Scenario> := [];
    for k := 0 to |seeds|
      invariant |scenarios| == k
      invariant forall m :: 0 <= m < k ==> scenarios[m] == Resampled(txns, engine, seeds[m])
      invariant k > 0 ==> |txns| > 0
    {
      var indices := GenerateRandIndices(txns, engine, seeds[k]);
      if indices.Err? {
        return Err(indices.error);
      }
      var txnsWithRepl := GenerateScenario(txns, indices.value);
      assert txnsWithRepl.Ok?;
      ResampledDrawsFromBase(txns, engine, seeds[k]);
      assert txnsWithRepl.value == Resampled(txns, engine, seeds[k]);
      scenarios := scenarios + [txnsWithRepl.value];
    }
    r := Ok(scenarios);
  }

  /** withoutReplacementTests up to its report: the base transactions of the
      price path, the seeds 0 .. numScenarios - 1, and one shuffled copy of the
      base per seed, scenario k being the shuffle for seed k. */
  method WithoutReplacementTests(prices: seq<real>, numScenarios: nat, engine: Engine)
    returns (scenarios: seq<Scenario>)
    requires |prices| >= 1
    ensures |scenarios| == numScenarios
    ensures forall k :: 0 <= k < numScenarios ==> scenarios[k] == Shuffled(AdjacentPairs(prices), engine, k)
    ensures forall k :: 0 <= k < numScenarios ==>
              |scenarios[k]| == |prices| - 1 &&
              multiset(scenarios[k]) == multiset(AdjacentPairs(prices))
  {
    var txns := GenerateSimulatedPath(prices);
    var seeds := SeedList(numScenarios);
    scenarios := WithoutReplacementScenarios(txns, seeds, engine);
  }

  /** withReplacementTests up to its report: the same base and seeds, and one
      with-replacement scenario per seed. A single-price path leaves no
      transaction to draw, which fails as soon as there is a scenario to build. */
  method WithReplacementTests(prices: seq<real>, numScenarios: nat, engine: Engine)
    returns (r: Result<seq<Scenario>>)
    requires |prices| >= 1
    ensures r.Err? <==> |prices| == 1 && numScenarios > 0
    ensures r.Ok? ==> |r.value| == numScenarios
    ensures r.Ok? ==> forall k :: 0 <= k < numScenarios ==>
              r.value[k] == Resampled(AdjacentPairs(prices), engine, k) &&
              |r.value[k]| == |prices| - 1
  {
    var txns := GenerateSimulatedPath(prices);
    var seeds := SeedList(numScenarios);
    r := WithReplacementScenarios(txns, seeds, engine);
  }

  /** The shape the entry point asks for: a seven-day path (eight prices) and
      fifteen seeds give, in both modes, scenarios of seven transactions; the
      shuffled ones reorder the base and the resampled ones are made of base
      transactions. */
  lemma SevenDayFifteenScenarios(prices: seq<real>, engine: Engine)
    requires |prices| == 8
    ensures forall seed :: 0 <= seed < 15 ==>
              |Shuffled(AdjacentPairs(prices), engine, seed)| == 7 &&
              multiset(Shuffled(AdjacentPairs(prices), engine, seed)) == multiset(AdjacentPairs(prices))
    ensures forall seed, k :: 0 <= seed < 15 && 0 <= k < 7 ==>
              |Resampled(AdjacentPairs(prices), engine, seed)| == 7 &&
              Resampled(AdjacentPairs(prices), engine, seed)[k] in AdjacentPairs(prices)
  {
    SevenDayPath(prices);
    forall seed | 0 <= seed < 15
      ensures |Shuffled(AdjacentPairs(prices), engine, seed)| == 7
      ensures multiset(Shuffled(AdjacentPairs(prices), engine, seed)) == multiset(AdjacentPairs(prices))
      ensures |Resampled(AdjacentPairs(prices), engine, seed)| == 7
      ensures forall k :: 0 <= k < 7 ==> Resampled(AdjacentPairs(prices), engine, seed)[k] in AdjacentPairs(prices)
    {
      ShuffledIsPermutation(AdjacentPairs(prices), engine, seed);
      ResampledDrawsFromBase(AdjacentPairs(prices), engine, seed);
    }
  }
}
