/** The fixed market configuration of a session and the pure checks made on
    the arguments of its operations. */
module Market {

  /** `available_symbols`: the only instruments the broker knows. */
  const Symbols: seq<string> := ["EURUSD", "USDJPY", "GBPUSD"]

  /** The two accepted order directions. */
  const Directions: set<string> := {"buy", "sell"}

  /** The payout estimate, 0.80, as an exact rational. */
  const PayoutRate: real := 0.8

  /** Starting balance of a demo account. */
  const DemoBalance: real := 1000.0

  /** Time stamps are integer microseconds, the resolution of a `datetime`;
      one candle spans one minute. */
  const Minute: int := 60_000_000

  /** ASCII upper-casing of one character. */
  function UpperChar(c: char): char {
    if 'a' <= c <= 'z' then (c as int - 32) as char else c
  }

  /** `str.upper()` restricted to ASCII letters: every character is upper-cased in place. */
  function Upper(s: string): (u: string)
    ensures |u| == |s|
    ensures forall i :: 0 <= i < |s| ==> u[i] == UpperChar(s[i])
  {
    if s == [] then [] else [UpperChar(s[0])] + Upper(s[1..])
  }

  /** `account_type.upper() == "DEMO"`. */
  predicate IsDemo(accountType: string) {
    Upper(accountType) == "DEMO"
  }

  /** A demo account is exactly one spelled "demo" in any mix of cases. */
  lemma DemoSpelling(accountType: string)
    ensures IsDemo(accountType) <==>
      && |accountType| == 4
      && accountType[0] in {'D', 'd'}
      && accountType[1] in {'E', 'e'}
      && accountType[2] in {'M', 'm'}
      && accountType[3] in {'O', 'o'}
  {
    var u := Upper(accountType);
    if u == "DEMO" {
      assert u[0] == 'D' && u[1] == 'E' && u[2] == 'M' && u[3] == 'O';
    }
    if |accountType| == 4 && accountType[0] in {'D', 'd'} && accountType[1] in {'E', 'e'}
       && accountType[2] in {'M', 'm'} && accountType[3] in {'O', 'o'} {
      assert u == "DEMO";
    }
  }

  /** The candle times `get_history` emits: one per minute from `start` while
      the time does not pass `stop`. */
  function MinuteRange(start: int, stop: int): (ts: seq<int>)
    ensures |ts| == if start <= stop then (stop - start) / Minute + 1 else 0
    ensures forall i :: 0 <= i < |ts| ==> ts[i] == start + i * Minute && ts[i] <= stop
    decreases stop - start
  {
    if start > stop then [] else [start] + MinuteRange(start + Minute, stop)
  }
}
