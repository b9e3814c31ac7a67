/**
 * The bucketing streamer of huge_trades.py: every second, each bucket of
 * more than $500,000 prints one bold line in millions of USD, blinking when
 * the bucket is above $3,000,000.
 */
module HugeTrades {

  import opened Trades
  import Aggregation

  /** The tiers of the bucket classifier, both compared with `>`. */
  const TIERS: seq<Threshold> := [Above(500000.0), Above(3000000.0)]

  const MILLION: real := 1000000.0

  /** The classification of one bucket total inside `check_and_print_trades`;
      the amount shown is the total rescaled to millions, bound to the loop
      variable only. */
  function Classify(usdSize: real, isBuyerMaker: bool): (r: Option<Alert>)
  {
    if usdSize > 500000.0 then
      var backColor := if !isBuyerMaker then "on_blue" else "on_magenta";
      var tradeType := if !isBuyerMaker then "BUY" else "SELL";
      if usdSize > 3000000.0 then
        Some(Alert(tradeType, Stars(0), backColor, true, true, 1, usdSize / MILLION))
      else
        Some(Alert(tradeType, Stars(0), backColor, true, false, 1, usdSize / MILLION))
    else
      None
  }

  /** A bucket alerts exactly when its total is strictly above $500,000. */
  lemma AlertIffAboveMinimum(usdSize: real, isBuyerMaker: bool)
    ensures Classify(usdSize, isBuyerMaker).Some? <==> usdSize > 500000.0
  {
  }

  /** A bucket of exactly $500,000 prints nothing. */
  lemma MinimumItselfSuppressed(isBuyerMaker: bool)
    ensures Classify(500000.0, isBuyerMaker) == None
  {
  }

  /** Every alert is bold, without stars, printed once; BUY is blue, SELL
      magenta; the blink escape is used exactly above $3,000,000; and the
      amount shown, times a million, is the bucket's total. */
  lemma Emphasis(usdSize: real, isBuyerMaker: bool)
    requires usdSize > 500000.0
    ensures Classify(usdSize, isBuyerMaker).value.tradeType == if isBuyerMaker then "SELL" else "BUY"
    ensures Classify(usdSize, isBuyerMaker).value.backColor == if isBuyerMaker then "on_magenta" else "on_blue"
    ensures Classify(usdSize, isBuyerMaker).value.bold
    ensures Classify(usdSize, isBuyerMaker).value.stars == []
    ensures Classify(usdSize, isBuyerMaker).value.repeatCount == 1
    ensures Classify(usdSize, isBuyerMaker).value.blink <==> usdSize > 3000000.0
    ensures Classify(usdSize, isBuyerMaker).value.amount * MILLION == usdSize
  {
  }

  /** Each tier of TIERS is at least as hard to meet as the one before, so
      the Level of a total is the highest tier it meets. */
  lemma TiersAreOrdered()
    ensures Ordered(TIERS)
  {
    forall i, j, total | 0 <= i < j < |TIERS| && Meets(TIERS[j], total)
      ensures Meets(TIERS[i], total)
    {
      assert TIERS[i].bound <= TIERS[j].bound;
    }
  }

  /** The classifier is the tier table read off: it alerts from tier 1 and
      blinks at tier 2. */
  lemma MatchesTierTable(usdSize: real, isBuyerMaker: bool)
    ensures forall i :: 0 <= i < |TIERS| ==> (Meets(TIERS[i], usdSize) <==> i < Level(TIERS, usdSize))
    ensures Level(TIERS, usdSize) == 0 <==> Classify(usdSize, isBuyerMaker).None?
    ensures Classify(usdSize, isBuyerMaker).Some? ==>
              (Classify(usdSize, isBuyerMaker).value.blink <==> Level(TIERS, usdSize) == 2)
  {
    TiersAreOrdered();
    LevelIsHighestTier(TIERS, usdSize);
    assert TIERS[1..][1..] == [];
  }

  /** A total that alerts still alerts when larger, and a blinking one keeps
      blinking. */
  lemma EmphasisMonotone(lo: real, hi: real, isBuyerMaker: bool)
    requires lo <= hi
    requires Classify(lo, isBuyerMaker).Some?
    ensures Classify(hi, isBuyerMaker).Some?
    ensures Classify(lo, isBuyerMaker).value.blink ==> Classify(hi, isBuyerMaker).value.blink
  {
    MatchesTierTable(lo, isBuyerMaker);
    MatchesTierTable(hi, isBuyerMaker);
    LevelMonotone(TIERS, lo, hi);
  }

  /** One drain of huge_trades.py: the table ends empty whether or not any
      bucket alerted, every printed line is a bucket above $500,000 with its
      classification, and each such bucket is printed exactly once. */
  method CheckAndPrintTrades(aggregator: Aggregation.TradeAggregator) returns (lines: seq<Line>)
    modifies aggregator
    ensures aggregator.buckets == map[]
    ensures forall i :: 0 <= i < |lines| ==>
              var k := lines[i].key;
              k in old(aggregator.buckets) && old(aggregator.buckets)[k] > 500000.0
              && Classify(old(aggregator.buckets)[k], k.isBuyerMaker) == Some(lines[i].alert)
    ensures forall k :: k in old(aggregator.buckets) && old(aggregator.buckets)[k] > 500000.0 ==>
              multiset(lines)[Line(k, Classify(old(aggregator.buckets)[k], k.isBuyerMaker).value)] == 1
    ensures (forall k :: k in old(aggregator.buckets) ==> old(aggregator.buckets)[k] <= 500000.0) ==> lines == []
  {
    ghost var m := aggregator.buckets;
    lines := aggregator.CheckAndPrintTrades(Classify);
    forall k | k in m
      ensures k in Aggregation.Alerts(m, Classify) <==> m[k] > 500000.0
    {
      AlertIffAboveMinimum(m[k], k.isBuyerMaker);
    }
  }
}
