/**
 * The trade-bucket table shared by the bucketing streamers: a dictionary
 * from (symbol, second, is-buyer-maker) to the USD total of the trades seen
 * for that key since the last drain. Both streamers use the same table and
 * drain loop and differ only in the classifier applied to each bucket, so
 * the drain takes its classifier as a parameter.
 */
module Aggregation {

  import opened Trades

  /** `dict.get(key, 0)`: the stored total, or 0 for a key never seen. */
  function Get(m: map<Key, real>, k: Key): (v: real)
  {
    if k in m then m[k] else 0.0
  }

  /** The table after one trade of `usdSize` on `k`: that bucket grows by
      the amount (starting from 0 when absent), every other bucket keeps its
      presence and its total. */
  function Added(m: map<Key, real>, k: Key, usdSize: real): (r: map<Key, real>)
    ensures r.Keys == m.Keys + {k}
    ensures r[k] == Get(m, k) + usdSize
    ensures forall j :: j in m && j != k ==> r[j] == m[j]
  {
    m[k := Get(m, k) + usdSize]
  }

  /** The table after trades of `amounts`, in order, all on `k`. */
  function AddedAll(m: map<Key, real>, k: Key, amounts: seq<real>): (r: map<Key, real>)
    decreases |amounts|
  {
    if amounts == [] then m else AddedAll(Added(m, k, amounts[0]), k, amounts[1..])
  }

  function Sum(amounts: seq<real>): (total: real)
    decreases |amounts|
  {
    if amounts == [] then 0.0 else amounts[0] + Sum(amounts[1..])
  }

  /** n trades on one key with no drain between them leave that bucket at
      its old total plus a1 + ... + an, and every other key as it was. */
  lemma {:induction false} AddedAllSums(m: map<Key, real>, k: Key, amounts: seq<real>)
    ensures Get(AddedAll(m, k, amounts), k) == Get(m, k) + Sum(amounts)
    ensures amounts != [] ==> k in AddedAll(m, k, amounts)
    ensures forall j :: j != k ==> (j in AddedAll(m, k, amounts) <==> j in m)
    ensures forall j :: j != k && j in m ==> AddedAll(m, k, amounts)[j] == m[j]
    decreases |amounts|
  {
    if amounts != [] {
      AddedAllSums(Added(m, k, amounts[0]), k, amounts[1..]);
    }
  }

  /** The alert each bucket of `m` raises under `classify`, for the buckets
      that raise one. */
  ghost function Alerts(m: map<Key, real>, classify: (real, bool) -> Option<Alert>): map<Key, Alert>
  {
    map k | k in m && classify(m[k], k.isBuyerMaker).Some? :: classify(m[k], k.isBuyerMaker).value
  }

  /** The result of one drain of `m`: each printed line reports a bucket of
      `m` with the alert its total raises, and each alerting bucket is
      printed exactly as many times as its alert's repeat count; when no
      bucket alerts, nothing is printed. */
  ghost predicate IsDrainOutput(m: map<Key, real>, classify: (real, bool) -> Option<Alert>, lines: seq<Line>)
  {
    && (forall i :: 0 <= i < |lines| ==> lines[i].key in Alerts(m, classify)
                                          && lines[i].alert == Alerts(m, classify)[lines[i].key])
    && (forall k :: k in Alerts(m, classify) ==>
                     multiset(lines)[Line(k, Alerts(m, classify)[k])] == Alerts(m, classify)[k].repeatCount)
    && (Alerts(m, classify) == map[] ==> lines == [])
  }

  /** The `for _ in range(repeat_count)` loop: print one line `count` times. */
  method PrintRepeated(line: Line, count: nat) returns (printed: seq<Line>)
    ensures forall i :: 0 <= i < |printed| ==> printed[i] == line
    ensures multiset(printed)[line] == count
  {
    printed := [];
    var n := 0;
    while n < count
      invariant 0 <= n <= count
      invariant forall i :: 0 <= i < |printed| ==> printed[i] == line
      invariant multiset(printed)[line] == n
    {
      printed := printed + [line];
      n := n + 1;
    }
  }

  /** The first loop of `check_and_print_trades` over a snapshot `m` of the
      table: visit every key once, in no particular order, print the lines
      its bucket raises, and append the key to the deletion list whatever
      its total. The table itself is not touched by this loop. */
  method PrintBuckets(m: map<Key, real>, classify: (real, bool) -> Option<Alert>)
    returns (lines: seq<Line>, deletions: seq<Key>)
    ensures IsDrainOutput(m, classify, lines)
    ensures forall k :: k in m <==> k in deletions
    ensures forall i, j :: 0 <= i < j < |deletions| ==> deletions[i] != deletions[j]
  {
    ghost var alerts := Alerts(m, classify);
    var pending := m.Keys;
    deletions := [];
    lines := [];
    while pending != {}
      invariant pending <= m.Keys
      invariant forall k :: k in m ==> (k in pending <==> k !in deletions)
      invariant forall i :: 0 <= i < |deletions| ==> deletions[i] in m
      invariant forall i, j :: 0 <= i < j < |deletions| ==> deletions[i] != deletions[j]
      invariant forall i :: 0 <= i < |lines| ==> lines[i].key in alerts && lines[i].key in deletions
                                                  && lines[i].alert == alerts[lines[i].key]
      invariant forall k :: k in alerts && k in deletions ==>
                              multiset(lines)[Line(k, alerts[k])] == alerts[k].repeatCount
      invariant alerts == map[] ==> lines == []
      decreases pending
    {
      var tradeKey :| tradeKey in pending;
      var usdSize := m[tradeKey];
      var alert := classify(usdSize, tradeKey.isBuyerMaker);
      if alert.Some? {
        assert tradeKey in alerts;
        var printed := PrintRepeated(Line(tradeKey, alert.value), alert.value.repeatCount);
        AppendKeepsCounts(lines, printed, Line(tradeKey, alert.value));
        lines := lines + printed;
      }
      deletions := deletions + [tradeKey];
      pending := pending - {tradeKey};
    }
  }

  /** Appending copies of `line` changes the count of no other line. */
  lemma AppendKeepsCounts(lines: seq<Line>, printed: seq<Line>, line: Line)
    requires forall i :: 0 <= i < |printed| ==> printed[i] == line
    ensures forall x :: x != line ==> multiset(lines + printed)[x] == multiset(lines)[x]
    ensures multiset(lines + printed)[line] == multiset(lines)[line] + multiset(printed)[line]
  {
    assert multiset(lines + printed) == multiset(lines) + multiset(printed);
    forall x | x != line
      ensures multiset(printed)[x] == 0
    {
      assert forall i :: 0 <= i < |printed| ==> printed[i] != x;
    }
  }

  class TradeAggregator {
    var buckets: map<Key, real>

    constructor ()
      ensures buckets == map[]
    {
      buckets := map[];
    }

    /** `add_trade`: accumulate `usdSize` on the key, creating it on first use. */
    method AddTrade(symbol: string, second: string, usdSize: real, isBuyerMaker: bool)
      modifies this
      ensures buckets == Added(old(buckets), Key(symbol, second, isBuyerMaker), usdSize)
    {
      var tradeKey := Key(symbol, second, isBuyerMaker);
      buckets := buckets[tradeKey := Get(buckets, tradeKey) + usdSize];
    }

    /** `check_and_print_trades`: print the alerts of every bucket, then
        delete every collected key, so that the table ends empty whether or
        not any bucket alerted. */
    method CheckAndPrintTrades(classify: (real, bool) -> Option<Alert>) returns (lines: seq<Line>)
      modifies this
      ensures buckets == map[]
      ensures IsDrainOutput(old(buckets), classify, lines)
    {
      var deletions;
      lines, deletions := PrintBuckets(buckets, classify);
      var i := 0;
      while i < |deletions|
        invariant 0 <= i <= |deletions|
        invariant forall k :: k in buckets <==> k in old(buckets) && k !in deletions[..i]
        invariant forall k :: k in buckets ==> buckets[k] == old(buckets)[k]
      {
        // The list holds each key once, so `del` never meets a missing key.
        assert deletions[i] in buckets by {
          assert deletions[i] !in deletions[..i];
        }
        buckets := buckets - {deletions[i]};
        i := i + 1;
      }
      assert deletions[..i] == deletions;
      assert buckets.Keys == {};
    }
  }
}
