/**
 * The display symbol of a stream, `symbol.upper().replace('USDT', '')`:
 * the lower-case stream symbol upper-cased, with every left-to-right,
 * non-overlapping occurrence of "USDT" removed.
 */
module Symbols {

  const QUOTE: string := "USDT"

  /** The six streams the programs subscribe to. */
  const TRACKED: seq<string> := ["btcusdt", "ethusdt", "solusdt", "bnbusdt", "dogeusdt", "wifusdt"]

  /** Upper-casing of one character, for the ASCII letters. */
  function UpperChar(c: char): (u: char)
    ensures 'a' <= c <= 'z' ==> 'A' <= u <= 'Z' && u as int == c as int - 32
    ensures !('a' <= c <= 'z') ==> u == c
  {
    if 'a' <= c <= 'z' then (c as int - 32) as char else c
  }

  /** `str.upper()` on ASCII text. */
  function Upper(s: string): (u: string)
    ensures |u| == |s|
    ensures forall i :: 0 <= i < |s| ==> u[i] == UpperChar(s[i])
  {
    seq(|s|, i requires 0 <= i < |s| => UpperChar(s[i]))
  }

  predicate QuoteAt(s: string, i: nat)
  {
    i + |QUOTE| <= |s| && s[i..i + |QUOTE|] == QUOTE
  }

  predicate HasQuote(s: string)
  {
    exists i: nat :: i < |s| && QuoteAt(s, i)
  }

  /** `str.replace('USDT', '')`: scan from the left; at an occurrence of the
      quote, drop it and continue after it, otherwise keep the character. */
  function RemoveQuote(s: string): (r: string)
    ensures |r| <= |s|
    ensures !HasQuote(s) ==> r == s
    decreases |s|
  {
    if s == [] then []
    else if QuoteAt(s, 0) then RemoveQuote(s[|QUOTE|..])
    else
      assert !HasQuote(s) ==> !HasQuote(s[1..]) by {
        forall i: nat | QuoteAt(s[1..], i)
          ensures QuoteAt(s, i + 1)
        {
          assert s[i + 1..i + 1 + |QUOTE|] == s[1..][i..i + |QUOTE|];
        }
      }
      [s[0]] + RemoveQuote(s[1..])
  }

  /** The display symbol of a stream. */
  function DisplaySymbol(symbol: string): (shown: string)
  {
    RemoveQuote(Upper(symbol))
  }

  /** Every occurrence met by the left-to-right scan is removed and the text
      on both sides of it kept: an occurrence of "USDT" right after `a` is
      dropped whatever `a` ends with, because no proper prefix of "USDT" is
      also a suffix of it, so no earlier occurrence can overlap it. */
  lemma {:induction false} RemoveAroundQuote(a: string, b: string)
    ensures RemoveQuote(a + QUOTE + b) == RemoveQuote(a) + RemoveQuote(b)
    decreases |a|
  {
    var t := a + QUOTE + b;
    if a == [] {
      assert t[..|QUOTE|] == QUOTE;
      assert t[|QUOTE|..] == b;
    } else if QuoteAt(a, 0) {
      assert t[..|QUOTE|] == a[..|QUOTE|];
      ShiftPastPrefix(a, b, |QUOTE|);
      RemoveAroundQuote(a[|QUOTE|..], b);
    } else {
      QuoteNotAtStart(a, b);
      ShiftPastPrefix(a, b, 1);
      RemoveAroundQuote(a[1..], b);
      assert RemoveQuote(t) == [a[0]] + RemoveQuote(a[1..]) + RemoveQuote(b);
    }
  }

  /** Dropping part of the left text before a quote. */
  lemma ShiftPastPrefix(a: string, b: string, k: nat)
    requires k <= |a|
    ensures (a + QUOTE + b)[k..] == a[k..] + QUOTE + b
  {
  }

  /** A quote placed after text that does not itself start with one does
      not start the result: if that text is shorter than the quote, the
      quote's 'U' would have to match a later letter of "USDT". */
  lemma QuoteNotAtStart(a: string, b: string)
    requires a != [] && !QuoteAt(a, 0)
    ensures !QuoteAt(a + QUOTE + b, 0)
  {
    var t := a + QUOTE + b;
    if |a| >= |QUOTE| {
      assert t[..|QUOTE|] == a[..|QUOTE|];
    } else {
      assert t[..|QUOTE|][|a|] == QUOTE[0];
      assert QUOTE[|a|] != QUOTE[0];
    }
  }

  /** A trailing quote is removed whatever precedes it. */
  lemma RemoveTrailingQuote(s: string)
    ensures RemoveQuote(s + QUOTE) == RemoveQuote(s)
  {
    RemoveAroundQuote(s, []);
    assert s + QUOTE + [] == s + QUOTE;
  }

  /** A stream symbol `base + "usdt"` whose upper-cased base holds no
      quote displays as that upper-cased base. */
  lemma DisplayOfQuotedPair(base: string)
    requires !HasQuote(Upper(base))
    ensures DisplaySymbol(base + "usdt") == Upper(base)
  {
    assert Upper(base + "usdt") == Upper(base) + QUOTE;
    RemoveTrailingQuote(Upper(base));
  }

  /** Text without a 'U' holds no quote. */
  lemma NoLeadLetterNoQuote(s: string)
    requires forall i :: 0 <= i < |s| ==> s[i] != QUOTE[0]
    ensures !HasQuote(s)
  {
    forall i: nat | i < |s|
      ensures !QuoteAt(s, i)
    {
      if i + |QUOTE| <= |s| {
        assert s[i..i + |QUOTE|][0] == s[i];
      }
    }
  }

  /** The tracked streams display as BTC, ETH, SOL, BNB, DOGE and WIF. */
  lemma TrackedDisplaySymbols()
    ensures DisplaySymbol(TRACKED[0]) == "BTC"
    ensures DisplaySymbol(TRACKED[1]) == "ETH"
    ensures DisplaySymbol(TRACKED[2]) == "SOL"
    ensures DisplaySymbol(TRACKED[3]) == "BNB"
    ensures DisplaySymbol(TRACKED[4]) == "DOGE"
    ensures DisplaySymbol(TRACKED[5]) == "WIF"
  {
    var bases := ["btc", "eth", "sol", "bnb", "doge", "wif"];
    var shown := ["BTC", "ETH", "SOL", "BNB", "DOGE", "WIF"];
    forall n | 0 <= n < 6
      ensures DisplaySymbol(TRACKED[n]) == shown[n]
    {
      assert TRACKED[n] == bases[n] + "usdt";
      assert Upper(bases[n]) == shown[n];
      NoLeadLetterNoQuote(shown[n]);
      DisplayOfQuotedPair(bases[n]);
    }
  }

  /** The removal is a single pass: removing one occurrence can bring two
      pieces together into a new one, which is then kept. */
  lemma RemovalIsSinglePass()
    ensures DisplaySymbol("uusdtsdt") == "USDT"
  {
    var u := Upper("uusdtsdt");
    assert u == "UUSDTSDT";
    assert u[1] != QUOTE[1];
    assert !QuoteAt(u, 0);
    assert u[1..] == "USDTSDT" && QuoteAt(u[1..], 0);
    var rest := u[1..][|QUOTE|..];
    assert rest == "SDT";
    assert !HasQuote(rest);
  }
}
