/** Turning the simulated price path into the base sequence of daily
    transactions. The price generator itself is an outside collaborator: its
    output arrives here as the price sequence. */
module SimulatedPath {
  import opened DailyTransactions

  /** The transactions of a price path, one per pair of neighbouring prices:
      the first pair, then the pairs of the path with its first price dropped. */
  function AdjacentPairs(prices: seq<real>): seq<DailyTransaction>
    decreases |prices|
  {
    if |prices| <= 1 then []
    else [DailyTransaction(prices[0], prices[1])] + AdjacentPairs(prices[1..])
  }

  /** A path of k >= 1 prices gives k - 1 transactions, and transaction i runs
      from price i to price i + 1. */
  lemma {:induction false} AdjacentPairsAt(prices: seq<real>)
    requires |prices| >= 1
    ensures |AdjacentPairs(prices)| == |prices| - 1
    ensures forall i :: 0 <= i < |prices| - 1 ==>
              AdjacentPairs(prices)[i] == DailyTransaction(prices[i], prices[i + 1])
    decreases |prices|
  {
    if |prices| > 1 {
      var rest := prices[1..];
      AdjacentPairsAt(rest);
      forall i | 0 < i < |prices| - 1
        ensures AdjacentPairs(prices)[i] == DailyTransaction(prices[i], prices[i + 1])
      {
        assert AdjacentPairs(prices)[i] == AdjacentPairs(rest)[i - 1];
        assert rest[i - 1] == prices[i] && rest[i] == prices[i + 1];
      }
    }
  }

  /** Neighbouring transactions overlap: each one starts at the price where the
      previous one ended, so every interior price is used twice. */
  lemma AdjacentPairsOverlap(prices: seq<real>, i: nat)
    requires 0 < i < |prices| - 1
    ensures |AdjacentPairs(prices)| == |prices| - 1
    ensures AdjacentPairs(prices)[i - 1].endPrice == prices[i]
    ensures AdjacentPairs(prices)[i].startPrice == prices[i]
  {
    AdjacentPairsAt(prices);
    assert AdjacentPairs(prices)[i - 1] == DailyTransaction(prices[i - 1], prices[i]);
    assert AdjacentPairs(prices)[i] == DailyTransaction(prices[i], prices[i + 1]);
  }

  /** The pairing loop of generateSimulatedPath: the iterator reads a price,
      steps forward to read the next one, steps back, and the loop header
      advances it by one. The path must hold at least one price (the loop
      stops one before the end). */
  method GenerateSimulatedPath(prices: seq<real>) returns (txns: seq<DailyTransaction>)
    requires |prices| >= 1
    ensures txns == AdjacentPairs(prices)
    ensures |txns| == |prices| - 1
    ensures forall i :: 0 <= i < |txns| ==> txns[i] == DailyTransaction(prices[i], prices[i + 1])
  {
    txns := [];
    var iter := 0;
    while iter != |prices| - 1
      invariant 0 <= iter <= |prices| - 1
      invariant |txns| == iter
      invariant forall i :: 0 <= i < iter ==> txns[i] == DailyTransaction(prices[i], prices[i + 1])
    {
      var startPrice := prices[iter];
      iter := iter + 1;
      var endPrice := prices[iter];
      var dailyTxn := DailyTransaction(startPrice, endPrice);
      iter := iter - 1;
      txns := txns + [dailyTxn];
      iter := iter + 1;
    }
    AdjacentPairsAt(prices);
    forall i | 0 <= i < |txns| ensures txns[i] == AdjacentPairs(prices)[i] {
      assert txns[i] == DailyTransaction(prices[i], prices[i + 1]);
    }
  }

  /** Seven days after the start day: eight prices, seven transactions. */
  lemma SevenDayPath(prices: seq<real>)
    requires |prices| == 8
    ensures |AdjacentPairs(prices)| == 7
    ensures AdjacentPairs(prices)[6] == DailyTransaction(prices[6], prices[7])
  {
    AdjacentPairsAt(prices);
  }
}
