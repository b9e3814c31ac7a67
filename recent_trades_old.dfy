/**
 * The earlier, unbucketed streamer of recent_trades_old.py: each decoded
 * trade of at least $15,000 is printed on its own, with the same tiers as
 * the bucket classifier of recent_trades.py, and only such trades are
 * appended to the CSV log.
 */
module RecentTradesOld {

  import opened Trades
  import Symbols
  import RecentTrades

  /** What the per-trade block prints: side label, star prefix, colour name
      (handed to termcolor as "on_" + colour), bold, repeat count, amount. */
  datatype TradeAlert = TradeAlert(
    tradeType: string,
    stars: string,
    color: string,
    bold: bool,
    repeatCount: nat,
    amount: real)

  /** The effect of one decoded trade: its notional, its display symbol,
      the line printed for it if any, and whether a CSV record is appended. */
  datatype TradeOutcome = TradeOutcome(
    usdSize: real,
    displaySymbol: string,
    alert: Option<TradeAlert>,
    logged: bool)

  /** The background colour termcolor is given for an alert. */
  function BackColor(a: TradeAlert): (c: string)
  {
    "on_" + a.color
  }

  /** The tiering of one trade's notional. */
  function ClassifyTrade(usdSize: real, isBuyerMaker: bool): (a: Option<TradeAlert>)
  {
    if usdSize >= 15000.0 then
      var tradeType := if isBuyerMaker then "SELL" else "BUY";
      var color := if tradeType == "SELL" then "red" else "green";
      var bold := usdSize >= 50000.0;
      if usdSize >= 500000.0 then
        var topColor := if tradeType == "SELL" then "magenta" else "blue";
        Some(TradeAlert(tradeType, Stars(2), topColor, bold, 1, usdSize))
      else if usdSize >= 100000.0 then
        Some(TradeAlert(tradeType, Stars(1), color, bold, 1, usdSize))
      else
        Some(TradeAlert(tradeType, Stars(0), color, bold, 1, usdSize))
    else
      None
  }

  /** The block run for each decoded trade: compute the notional and the
      display symbol, and, only when the trade passes the $15,000 filter,
      print its alert and append its CSV record. */
  function ProcessTrade(symbol: string, price: real, quantity: real, isBuyerMaker: bool): (o: TradeOutcome)
  {
    var usdSize := price * quantity;
    var displaySymbol := Symbols.DisplaySymbol(symbol);
    if usdSize >= 15000.0 then
      TradeOutcome(usdSize, displaySymbol, ClassifyTrade(usdSize, isBuyerMaker), true)
    else
      TradeOutcome(usdSize, displaySymbol, None, false)
  }

  /** A trade's notional is its price times its quantity, and it is shown
      under the stream's display symbol. */
  lemma Notional(symbol: string, price: real, quantity: real, isBuyerMaker: bool)
    ensures ProcessTrade(symbol, price, quantity, isBuyerMaker).usdSize == price * quantity
    ensures ProcessTrade(symbol, price, quantity, isBuyerMaker).displaySymbol == Symbols.DisplaySymbol(symbol)
  {
  }

  /** A trade prints a line exactly when its notional is at least $15,000,
      and its CSV record is written exactly when it prints. */
  lemma OutputAndLogGated(symbol: string, price: real, quantity: real, isBuyerMaker: bool)
    ensures ProcessTrade(symbol, price, quantity, isBuyerMaker).alert.Some? <==> price * quantity >= 15000.0
    ensures ProcessTrade(symbol, price, quantity, isBuyerMaker).logged <==>
              ProcessTrade(symbol, price, quantity, isBuyerMaker).alert.Some?
  {
  }

  /** Red for SELL and green for BUY, magenta and blue from $500,000 on. */
  lemma Colors(usdSize: real, isBuyerMaker: bool)
    requires usdSize >= 15000.0
    ensures ClassifyTrade(usdSize, isBuyerMaker).value.color ==
              if usdSize >= 500000.0 then (if isBuyerMaker then "magenta" else "blue")
              else (if isBuyerMaker then "red" else "green")
  {
  }

  /** The per-trade classifier and the bucket classifier of recent_trades.py
      agree on every total and side: both alert or neither does, and then
      they give the same side, stars, bold, repeat count and amount, and the
      "on_"-prefixed colour is the bucket classifier's background. */
  lemma SameAsBucketClassifier(usdSize: real, isBuyerMaker: bool)
    ensures ClassifyTrade(usdSize, isBuyerMaker).Some? <==> RecentTrades.Classify(usdSize, isBuyerMaker).Some?
    ensures ClassifyTrade(usdSize, isBuyerMaker).Some? ==>
              var a := ClassifyTrade(usdSize, isBuyerMaker).value;
              var b := RecentTrades.Classify(usdSize, isBuyerMaker).value;
              && a.tradeType == b.tradeType
              && a.stars == b.stars
              && BackColor(a) == b.backColor
              && a.bold == b.bold
              && a.repeatCount == b.repeatCount
              && a.amount == b.amount
  {
  }

  /** A larger trade of the same side is flagged at least as strongly:
      it still prints, with at least as many stars, and stays bold. */
  lemma EmphasisMonotone(lo: real, hi: real, isBuyerMaker: bool)
    requires lo <= hi
    requires ClassifyTrade(lo, isBuyerMaker).Some?
    ensures ClassifyTrade(hi, isBuyerMaker).Some?
    ensures |ClassifyTrade(lo, isBuyerMaker).value.stars| <= |ClassifyTrade(hi, isBuyerMaker).value.stars|
    ensures ClassifyTrade(lo, isBuyerMaker).value.bold ==> ClassifyTrade(hi, isBuyerMaker).value.bold
  {
    SameAsBucketClassifier(lo, isBuyerMaker);
    SameAsBucketClassifier(hi, isBuyerMaker);
    RecentTrades.EmphasisMonotone(lo, hi, isBuyerMaker);
  }
}
