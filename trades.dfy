/**
 * Values shared by the three trade streamers: the bucket key, the alert
 * record a classifier produces, the printed line, and a reference
 * definition of "the highest tier of a threshold table that a total meets".
 */
module Trades {

  datatype Option<+T> = None | Some(value: T)

  /** A bucket key: display symbol, trade-time second label (an opaque
      "HH:MM:SS" string), and the feed's buyer-is-maker flag. */
  datatype Key = Key(symbol: string, second: string, isBuyerMaker: bool)

  /** What one classified bucket (or trade) prints: the side label, the star
      prefix, the termcolor background, the bold attribute, whether the line
      is wrapped in the blink escape, how many times it is printed, and the
      amount shown (in USD, or in millions of USD). */
  datatype Alert = Alert(
    tradeType: string,
    stars: string,
    backColor: string,
    bold: bool,
    blink: bool,
    repeatCount: nat,
    amount: real)

  /** `'*' * n`: a run of n stars. */
  function Stars(n: nat): (s: string)
    ensures |s| == n
    ensures forall i :: 0 <= i < n ==> s[i] == '*'
  {
    seq(n, _ => '*')
  }

  /** One printed line of a drain: the bucket it reports and its alert. */
  datatype Line = Line(key: Key, alert: Alert)

  /** One row of a threshold table: a total meets `AtLeast(m)` when it is
      `>= m` and `Above(m)` when it is `> m`. */
  datatype Threshold = AtLeast(minimum: real) | Above(bound: real)

  predicate Meets(t: Threshold, total: real)
  {
    match t
    case AtLeast(m) => total >= m
    case Above(m) => total > m
  }

  /** A table is ordered when every row is at least as hard to meet as the
      one before it. */
  ghost predicate Ordered(table: seq<Threshold>)
  {
    forall i, j, total :: 0 <= i < j < |table| && Meets(table[j], total) ==> Meets(table[i], total)
  }

  /** The number of rows of `table` that `total` meets. For an ordered table
      this is the (1-based) index of the highest tier met, 0 for "suppressed". */
  function Level(table: seq<Threshold>, total: real): (n: nat)
    ensures n <= |table|
  {
    if table == [] then 0
    else (if Meets(table[0], total) then 1 else 0) + Level(table[1..], total)
  }

  /** On an ordered table, Level picks out exactly the prefix of rows met:
      every row below the level is met and no row from it on is. */
  lemma {:induction false} LevelIsHighestTier(table: seq<Threshold>, total: real)
    requires Ordered(table)
    ensures forall i :: 0 <= i < Level(table, total) ==> Meets(table[i], total)
    ensures forall i :: Level(table, total) <= i < |table| ==> !Meets(table[i], total)
  {
    if table != [] {
      var rest := table[1..];
      assert Ordered(rest) by {
        forall i, j, t | 0 <= i < j < |rest| && Meets(rest[j], t)
          ensures Meets(rest[i], t)
        {
          assert rest[i] == table[i + 1] && rest[j] == table[j + 1];
        }
      }
      LevelIsHighestTier(rest, total);
      if !Meets(table[0], total) {
        forall i | 0 < i < |table|
          ensures !Meets(table[i], total)
        {
          assert table[i] == rest[i - 1];
        }
      } else {
        forall i | 1 <= i < |table|
          ensures Meets(table[i], total) <==> i - 1 < Level(rest, total)
        {
          assert table[i] == rest[i - 1];
        }
      }
    }
  }

  /** The tier reached never decreases as the total grows (whatever the table). */
  lemma {:induction false} LevelMonotone(table: seq<Threshold>, lo: real, hi: real)
    requires lo <= hi
    ensures Level(table, lo) <= Level(table, hi)
  {
    if table != [] {
      LevelMonotone(table[1..], lo, hi);
      assert Meets(table[0], lo) ==> Meets(table[0], hi);
    }
  }
}
