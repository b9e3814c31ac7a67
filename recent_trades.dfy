/**
 * The bucketing streamer of recent_trades.py: every second, each bucket of
 * at least $15,000 prints one line, tiered at $50,000 (bold), $100,000 (one
 * star) and $500,000 (two stars, magenta or blue instead of red or green).
 */
module RecentTrades {

  import opened Trades
  import Aggregation

  /** The tiers of the bucket classifier, all compared with `>=`. */
  const TIERS: seq<Threshold> := [AtLeast(15000.0), AtLeast(50000.0), AtLeast(100000.0), AtLeast(500000.0)]

  /** The classification of one bucket total inside `check_and_print_trades`. */
  function Classify(usdSize: real, isBuyerMaker: bool): (r: Option<Alert>)
  {
    if usdSize >= 15000.0 then
      var tradeType := if isBuyerMaker then "SELL" else "BUY";
      var backColor := if tradeType == "SELL" then "on_red" else "on_green";
      var bold := usdSize >= 50000.0;
      if usdSize >= 500000.0 then
        var topColor := if tradeType == "SELL" then "on_magenta" else "on_blue";
        Some(Alert(tradeType, Stars(2), topColor, bold, false, 1, usdSize))
      else if usdSize >= 100000.0 then
        Some(Alert(tradeType, Stars(1), backColor, bold, false, 1, usdSize))
      else
        Some(Alert(tradeType, Stars(0), backColor, bold, false, 1, usdSize))
    else
      None
  }

  /** A bucket alerts exactly when its total is at least $15,000. */
  lemma AlertIffAtLeastMinimum(usdSize: real, isBuyerMaker: bool)
    ensures Classify(usdSize, isBuyerMaker).Some? <==> usdSize >= 15000.0
  {
  }

  /** The side label follows the maker flag; the background is red or green,
      and magenta or blue from $500,000 on. */
  lemma SideAndColor(usdSize: real, isBuyerMaker: bool)
    requires usdSize >= 15000.0
    ensures Classify(usdSize, isBuyerMaker).value.tradeType == if isBuyerMaker then "SELL" else "BUY"
    ensures Classify(usdSize, isBuyerMaker).value.backColor ==
              if usdSize >= 500000.0 then (if isBuyerMaker then "on_magenta" else "on_blue")
              else (if isBuyerMaker then "on_red" else "on_green")
  {
  }

  /** Two stars from $500,000, one from $100,000, none below; bold from
      $50,000; no blink; one line showing the bucket's own total. */
  lemma Emphasis(usdSize: real, isBuyerMaker: bool)
    requires usdSize >= 15000.0
    ensures Classify(usdSize, isBuyerMaker).value.stars ==
              Stars(if usdSize >= 500000.0 then 2 else if usdSize >= 100000.0 then 1 else 0)
    ensures Classify(usdSize, isBuyerMaker).value.bold <==> usdSize >= 50000.0
    ensures !Classify(usdSize, isBuyerMaker).value.blink
    ensures Classify(usdSize, isBuyerMaker).value.repeatCount == 1
    ensures Classify(usdSize, isBuyerMaker).value.amount == usdSize
  {
  }

  /** Each tier of TIERS is at least as hard to meet as the one before, so
      the Level of a total is the highest tier it meets. */
  lemma TiersAreOrdered()
    ensures Ordered(TIERS)
  {
    forall i, j, total | 0 <= i < j < |TIERS| && Meets(TIERS[j], total)
      ensures Meets(TIERS[i], total)
    {
      assert TIERS[i].minimum <= TIERS[j].minimum;
    }
  }

  /** The classifier is the tier table read off: it alerts from tier 1, is
      bold from tier 2, shows one star per tier above 2, and switches to the
      top colours at tier 4. */
  lemma MatchesTierTable(usdSize: real, isBuyerMaker: bool)
    ensures forall i :: 0 <= i < |TIERS| ==> (Meets(TIERS[i], usdSize) <==> i < Level(TIERS, usdSize))
    ensures Level(TIERS, usdSize) == 0 <==> Classify(usdSize, isBuyerMaker).None?
    ensures Classify(usdSize, isBuyerMaker).Some? ==>
              var a := Classify(usdSize, isBuyerMaker).value;
              var n := Level(TIERS, usdSize);
              && (a.bold <==> n >= 2)
              && |a.stars| == (if n >= 3 then n - 2 else 0)
              && (a.backColor in {"on_magenta", "on_blue"} <==> n == 4)
  {
    TiersAreOrdered();
    LevelIsHighestTier(TIERS, usdSize);
    LevelOfTiers(usdSize);
  }

  /** The tier of a total in TIERS, written out. */
  lemma LevelOfTiers(usdSize: real)
    ensures Level(TIERS, usdSize) ==
              (if usdSize >= 15000.0 then 1 else 0) + (if usdSize >= 50000.0 then 1 else 0)
              + (if usdSize >= 100000.0 then 1 else 0) + (if usdSize >= 500000.0 then 1 else 0)
  {
    var top := if usdSize >= 500000.0 then 1 else 0;
    assert TIERS[3..][1..] == [];
    assert Level(TIERS[3..], usdSize) == top;
    assert TIERS[2..][1..] == TIERS[3..];
    assert Level(TIERS[2..], usdSize) == (if usdSize >= 100000.0 then 1 else 0) + top;
    assert TIERS[1..][1..] == TIERS[2..];
    assert Level(TIERS[1..], usdSize) ==
             (if usdSize >= 50000.0 then 1 else 0) + (if usdSize >= 100000.0 then 1 else 0) + top;
  }

  /** Raising a bucket's total never lowers its alert: a total that alerts
      still alerts when larger, with at least as many stars and bold kept. */
  lemma EmphasisMonotone(lo: real, hi: real, isBuyerMaker: bool)
    requires lo <= hi
    requires Classify(lo, isBuyerMaker).Some?
    ensures Classify(hi, isBuyerMaker).Some?
    ensures |Classify(lo, isBuyerMaker).value.stars| <= |Classify(hi, isBuyerMaker).value.stars|
    ensures Classify(lo, isBuyerMaker).value.bold ==> Classify(hi, isBuyerMaker).value.bold
  {
    MatchesTierTable(lo, isBuyerMaker);
    MatchesTierTable(hi, isBuyerMaker);
    LevelMonotone(TIERS, lo, hi);
  }

  /** One drain of recent_trades.py: the table ends empty, every printed line
      is a bucket of at least $15,000 with its classification, and each such
      bucket is printed exactly once. */
  method CheckAndPrintTrades(aggregator: Aggregation.TradeAggregator) returns (lines: seq<Line>)
    modifies aggregator
    ensures aggregator.buckets == map[]
    ensures forall i :: 0 <= i < |lines| ==>
              var k := lines[i].key;
              k in old(aggregator.buckets) && old(aggregator.buckets)[k] >= 15000.0
              && Classify(old(aggregator.buckets)[k], k.isBuyerMaker) == Some(lines[i].alert)
    ensures forall k :: k in old(aggregator.buckets) && old(aggregator.buckets)[k] >= 15000.0 ==>
              multiset(lines)[Line(k, Classify(old(aggregator.buckets)[k], k.isBuyerMaker).value)] == 1
    ensures (forall k :: k in old(aggregator.buckets) ==> old(aggregator.buckets)[k] < 15000.0) ==> lines == []
  {
    ghost var m := aggregator.buckets;
    lines := aggregator.CheckAndPrintTrades(Classify);
    forall k | k in m
      ensures k in Aggregation.Alerts(m, Classify) <==> m[k] >= 15000.0
    {
      AlertIffAtLeastMinimum(m[k], k.isBuyerMaker);
    }
  }
}
