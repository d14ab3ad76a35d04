/** One daily observation of the asset: the price at the start and at the end of
    the day, and the simple return derived from them. */
module DailyTransactions {

  /** The value type built once from two consecutive prices and never changed.
      Its constructor stores both prices exactly as given. */
  datatype DailyTransaction = DailyTransaction(startPrice: real, endPrice: real)

  /** The simple daily return, (end - start) / start. The division is unguarded
      in the C++ prototype, so a zero start price is the caller's problem: here it
      is a precondition. The contract pins the return down as the unique value
      that scales the start price by the price move. */
  function SimpleReturn(t: DailyTransaction): (r: real)
    requires t.startPrice != 0.0
    ensures t.startPrice * r == t.endPrice - t.startPrice
  {
    (t.endPrice - t.startPrice) / t.startPrice
  }

  /** The return is exactly the growth rate: start * (1 + r) == end holds for
      the return and for no other r. */
  lemma ReturnIsGrowthRate(t: DailyTransaction, r: real)
    requires t.startPrice != 0.0
    ensures SimpleReturn(t) == r <==> t.startPrice * (1.0 + r) == t.endPrice
  {
  }

  /** An unchanged price gives a zero return, and only an unchanged price does. */
  lemma ReturnZeroIffFlat(t: DailyTransaction)
    requires t.startPrice != 0.0
    ensures SimpleReturn(t) == 0.0 <==> t.endPrice == t.startPrice
  {
  }

  /** With a positive start price the sign of the return is the sign of the
      price move. */
  lemma ReturnSignFollowsMove(t: DailyTransaction)
    requires t.startPrice > 0.0
    ensures SimpleReturn(t) > 0.0 <==> t.endPrice > t.startPrice
    ensures SimpleReturn(t) < 0.0 <==> t.endPrice < t.startPrice
  {
  }

  /** A ten percent rise and a ten percent fall from 100. */
  lemma ReturnExamples()
    ensures SimpleReturn(DailyTransaction(100.0, 110.0)) == 0.1
    ensures SimpleReturn(DailyTransaction(100.0, 90.0)) == -0.1
  {
  }
}
