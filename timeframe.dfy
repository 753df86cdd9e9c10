/** The timeframe string of the configuration ("5m") read as a number: the
    last character is dropped and the rest is parsed as a decimal integer. */
module Timeframe {
  import opened Common

  predicate IsDigit(c: char)
  {
    '0' <= c <= '9'
  }

  predicate AllDigits(s: string)
  {
    forall i :: 0 <= i < |s| ==> IsDigit(s[i])
  }

  /** The value of a string of decimal digits. */
  function DigitsValue(s: string): nat
    requires AllDigits(s)
  {
    if s == [] then 0
    else DigitsValue(s[..|s| - 1]) * 10 + (s[|s| - 1] as int - '0' as int)
  }

  /** A sign followed by at least one decimal digit. */
  predicate Signed(s: string)
  {
    |s| > 1 && (s[0] == '-' || s[0] == '+') && AllDigits(s[1..])
  }

  /** The strings `int` accepts here: digits, or a sign and digits. */
  predicate IntLiteral(s: string)
  {
    (s != [] && AllDigits(s)) || Signed(s)
  }

  /** `int(s)` on a decimal literal with an optional sign; anything else
      raises ValueError, modelled as `None`. */
  function ParseInt(s: string): (r: Option<int>)
    ensures r.Some? <==> IntLiteral(s)
    ensures AllDigits(s) && s != [] ==> r == Some(DigitsValue(s))
    ensures Signed(s) && s[0] == '+' ==> r == Some(DigitsValue(s[1..]))
    ensures Signed(s) && s[0] == '-' ==> r == Some(0 - DigitsValue(s[1..]) as int)
  {
    if |s| > 0 && (s[0] == '-' || s[0] == '+') then
      var digits := s[1..];
      if digits != [] && AllDigits(digits) then
        var magnitude: int := DigitsValue(digits);
        Some(if s[0] == '-' then -magnitude else magnitude)
      else None
    else if s != [] && AllDigits(s) then Some(DigitsValue(s))
    else None
  }

  /** `s[:-1]`: everything but the last character (empty stays empty). */
  function DropLast(s: string): string
  {
    if s == [] then [] else s[..|s| - 1]
  }

  /** `int(timeframe[:-1])`, the candle length in minutes used to sleep. The
      unit character is not inspected. */
  function TimeframeMinutes(timeframe: string): (r: Option<int>)
    ensures r.Some? <==> |timeframe| > 1 && IntLiteral(timeframe[..|timeframe| - 1])
    ensures |timeframe| > 1 ==> r == ParseInt(timeframe[..|timeframe| - 1])
    ensures |timeframe| > 1 && AllDigits(timeframe[..|timeframe| - 1]) ==>
      r == Some(DigitsValue(timeframe[..|timeframe| - 1]))
  {
    ParseInt(DropLast(timeframe))
  }

  /** `int(timeframe[:-1]) * 60`, the candle length in seconds requested from
      the feed. */
  function TimeframeSeconds(timeframe: string): (r: Option<int>)
    ensures r.Some? <==> TimeframeMinutes(timeframe).Some?
    ensures r.Some? ==> r.value == TimeframeMinutes(timeframe).value * 60
  {
    match TimeframeMinutes(timeframe)
    case None => None
    case Some(m) => Some(m * 60)
  }

  /** Decimal notation of a natural number, without leading zeros. */
  function ShowNat(n: nat): (s: string)
    ensures s != [] && AllDigits(s)
  {
    var last := ['0' + (n % 10) as char];
    if n < 10 then last else ShowNat(n / 10) + last
  }

  lemma {:induction false} ShowNatValue(n: nat)
    ensures DigitsValue(ShowNat(n)) == n
  {
    var s := ShowNat(n);
    if n >= 10 {
      ShowNatValue(n / 10);
      assert s[..|s| - 1] == ShowNat(n / 10);
    }
  }

  /** "Nm" gives N minutes and N * 60 seconds, whatever the unit character. */
  lemma TimeframeRoundTrip(n: nat, unit: char)
    ensures TimeframeMinutes(ShowNat(n) + [unit]) == Some(n)
    ensures TimeframeSeconds(ShowNat(n) + [unit]) == Some(n * 60)
  {
    var tf := ShowNat(n) + [unit];
    assert DropLast(tf) == ShowNat(n);
    ShowNatValue(n);
  }

  /** The configured "5m": 300 seconds to fetch, 5 minutes to sleep. The
      suffix is not checked, so "1h" means one minute, not an hour. */
  lemma DefaultTimeframe()
    ensures TimeframeSeconds("5m") == Some(300) && TimeframeMinutes("5m") == Some(5)
    ensures TimeframeMinutes("1h") == Some(1)
    ensures TimeframeMinutes("xm") == None && TimeframeMinutes("m") == None
    ensures TimeframeMinutes("-5m") == Some(-5)
  {
    TimeframeRoundTrip(5, 'm');
    assert ShowNat(5) == "5";
    TimeframeRoundTrip(1, 'h');
    assert ShowNat(1) == "1";
    assert !IsDigit('x');
    assert "-5m"[..2][1..] == "5";
  }
}
