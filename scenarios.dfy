/**
 * Clients of the aggregator that use nothing but its contracts: concrete
 * sequences of trades and drains and the lines they are bound to print.
 */
module Scenarios {

  import opened Trades
  import Aggregation
  import RecentTrades
  import HugeTrades

  /** In a drain output made of one line only, that line's count is the length. */
  lemma {:induction false} CountOfConstant(lines: seq<Line>, line: Line)
    requires forall i :: 0 <= i < |lines| ==> lines[i] == line
    ensures multiset(lines)[line] == |lines|
  {
    if lines != [] {
      CountOfConstant(lines[1..], line);
      assert lines == [lines[0]] + lines[1..];
    }
  }

  /** Two trades of $8,000 and $9,000 on one BUY bucket drain as a single
      unstarred, non-bold line of $17,000 on green; a second drain with no
      trade in between prints nothing. */
  method TwoTradesOneBucket() returns (first: seq<Line>, second: seq<Line>)
    ensures first == [Line(Key("BTC", "12:00:01", false), Alert("BUY", "", "on_green", false, false, 1, 17000.0))]
    ensures second == []
  {
    var aggregator := new Aggregation.TradeAggregator();
    aggregator.AddTrade("BTC", "12:00:01", 8000.0, false);
    aggregator.AddTrade("BTC", "12:00:01", 9000.0, false);
    var k := Key("BTC", "12:00:01", false);
    assert aggregator.buckets == map[k := 17000.0];
    first := RecentTrades.CheckAndPrintTrades(aggregator);
    var line := Line(k, Alert("BUY", "", "on_green", false, false, 1, 17000.0));
    CountOfConstant(first, line);
    assert |first| == 1;
    second := RecentTrades.CheckAndPrintTrades(aggregator);
  }

  /** A $600,000 BUY bucket reaches the top tier: two stars, bold, on blue. */
  method TopTierBucket() returns (lines: seq<Line>)
    ensures lines == [Line(Key("BTC", "12:00:01", false), Alert("BUY", "**", "on_blue", true, false, 1, 600000.0))]
  {
    var aggregator := new Aggregation.TradeAggregator();
    aggregator.AddTrade("BTC", "12:00:01", 600000.0, false);
    var k := Key("BTC", "12:00:01", false);
    lines := RecentTrades.CheckAndPrintTrades(aggregator);
    var line := Line(k, Alert("BUY", "**", "on_blue", true, false, 1, 600000.0));
    assert Stars(2) == "**";
    CountOfConstant(lines, line);
  }

  /** Buckets on the same symbol and second but opposite sides stay apart: a
      $10,000 SELL bucket is dropped silently while the $20,000 BUY bucket
      beside it prints; the table is empty afterwards either way. */
  method SidesAreSeparateBuckets() returns (lines: seq<Line>)
    ensures lines == [Line(Key("SOL", "08:15:42", false), Alert("BUY", "", "on_green", false, false, 1, 20000.0))]
  {
    var aggregator := new Aggregation.TradeAggregator();
    aggregator.AddTrade("SOL", "08:15:42", 10000.0, true);
    aggregator.AddTrade("SOL", "08:15:42", 20000.0, false);
    var sell := Key("SOL", "08:15:42", true);
    var buy := Key("SOL", "08:15:42", false);
    assert aggregator.buckets == map[sell := 10000.0, buy := 20000.0];
    lines := RecentTrades.CheckAndPrintTrades(aggregator);
    var line := Line(buy, Alert("BUY", "", "on_green", false, false, 1, 20000.0));
    CountOfConstant(lines, line);
  }

  /** In huge_trades.py a bucket of exactly $500,000 is suppressed, and a
      $3,500,000 SELL bucket prints one bold, blinking magenta line of 3.5m. */
  method HugeBuckets() returns (lines: seq<Line>)
    ensures lines == [Line(Key("ETH", "09:30:00", true), Alert("SELL", "", "on_magenta", true, true, 1, 3.5))]
  {
    var aggregator := new Aggregation.TradeAggregator();
    aggregator.AddTrade("ETH", "09:30:00", 500000.0, false);
    aggregator.AddTrade("ETH", "09:30:00", 3000000.0, true);
    aggregator.AddTrade("ETH", "09:30:00", 500000.0, true);
    var buy := Key("ETH", "09:30:00", false);
    var sell := Key("ETH", "09:30:00", true);
    assert aggregator.buckets == map[buy := 500000.0, sell := 3500000.0];
    lines := HugeTrades.CheckAndPrintTrades(aggregator);
    var line := Line(sell, Alert("SELL", "", "on_magenta", true, true, 1, 3.5));
    CountOfConstant(lines, line);
  }
}
