/** `format_game_duration`: milliseconds to `M:SS`, with a parser for the format and a
    proof that the text gives back the whole seconds. Python's `//` and `%` by a
    positive divisor agree with Dafny's, also for negative durations. */
module DurationFormat {
  import opened Wrappers

  function DigitChar(d: nat): (c: char)
    requires d < 10
    ensures '0' <= c <= '9'
  {
    ('0' as int + d) as char
  }

  function DigitValue(c: char): (d: nat)
    requires '0' <= c <= '9'
    ensures d < 10 && DigitChar(d) == c
  {
    c as int - '0' as int
  }

  predicate AllDigits(s: string) {
    forall i :: 0 <= i < |s| ==> '0' <= s[i] <= '9'
  }

  /** `str(n)` for a natural number: no leading zero except for 0 itself. */
  function NatText(n: nat): (r: string)
    ensures |r| >= 1 && AllDigits(r)
    ensures r[0] == '0' ==> n == 0
    decreases n
  {
    if n < 10 then [DigitChar(n)] else NatText(n / 10) + [DigitChar(n % 10)]
  }

  /** `f"{i}"` for any integer. */
  function IntText(i: int): (r: string)
    ensures |r| >= 1
  {
    if i < 0 then "-" + NatText(-i) else NatText(i)
  }

  /** `f"{n:02d}"` for 0 <= n < 100. */
  function TwoDigits(n: nat): (r: string)
    requires n < 100
    ensures |r| == 2 && AllDigits(r)
  {
    [DigitChar(n / 10), DigitChar(n % 10)]
  }

  /** `format_game_duration`. */
  function FormatGameDuration(ms: int): (r: string)
    ensures |r| >= 4 && r[|r| - 3] == ':' && AllDigits(r[|r| - 2..])
    ensures ':' !in r[..|r| - 3]
  {
    var totalSeconds := ms / 1000;
    var minutes := totalSeconds / 60;
    var seconds := totalSeconds % 60;
    IntText(minutes) + ":" + TwoDigits(seconds)
  }

  // ---------------------------------------------------------------------------
  // Reading the text back

  function ParseNat(s: string): (n: nat)
    requires AllDigits(s)
    decreases |s|
  {
    if s == [] then 0 else ParseNat(s[..|s| - 1]) * 10 + DigitValue(s[|s| - 1])
  }

  function ParseInt(s: string): Option<int> {
    if |s| >= 2 && s[0] == '-' && AllDigits(s[1..]) then Some(-(ParseNat(s[1..]) as int))
    else if |s| >= 1 && AllDigits(s) then Some(ParseNat(s))
    else None
  }

  /** The whole seconds an `M:SS` text stands for; `None` for anything else. */
  function ParseClock(s: string): (r: Option<int>)
    ensures r.Some? ==> |s| >= 4 && s[|s| - 3] == ':'
  {
    if |s| < 4 || s[|s| - 3] != ':' || !AllDigits(s[|s| - 2..]) then None
    else
      var seconds := ParseNat(s[|s| - 2..]);
      if seconds >= 60 then None
      else
        match ParseInt(s[..|s| - 3])
        case None => None
        case Some(minutes) => Some(minutes * 60 + seconds)
  }

  lemma {:induction false} ParseNatText(n: nat)
    ensures ParseNat(NatText(n)) == n
    decreases n
  {
    if n >= 10 {
      var s := NatText(n);
      assert s[..|s| - 1] == NatText(n / 10);
      ParseNatText(n / 10);
    }
  }

  lemma ParseIntText(i: int)
    ensures ParseInt(IntText(i)) == Some(i)
  {
    if i < 0 {
      ParseNegative(-i);
    } else {
      var t := NatText(i);
      assert t[0] != '-';
      ParseNatText(i);
    }
  }

  lemma ParseNegative(n: nat)
    requires n > 0
    ensures ParseInt("-" + NatText(n)) == Some(-(n as int))
  {
    var t := NatText(n);
    var s := "-" + t;
    assert s[1..] == t;
    assert |s| >= 2 && s[0] == '-' && AllDigits(s[1..]);
    ParseNatText(n);
  }

  lemma ParseTwoDigits(n: nat)
    requires n < 100
    ensures ParseNat(TwoDigits(n)) == n
  {
    var s := TwoDigits(n);
    assert s[..1][..0] == [];
    assert ParseNat(s[..1]) == n / 10;
  }

  /** The text gives back `ms // 1000`: minutes * 60 + seconds is the whole seconds, and
      sub-second remainders are the only thing lost. */
  lemma FormatRoundTrip(ms: int)
    ensures ParseClock(FormatGameDuration(ms)) == Some(ms / 1000)
  {
    var totalSeconds := ms / 1000;
    var minutes, seconds := totalSeconds / 60, totalSeconds % 60;
    var r := FormatGameDuration(ms);
    var head := IntText(minutes);
    assert r == head + ":" + TwoDigits(seconds);
    assert r[|r| - 2..] == TwoDigits(seconds);
    assert r[..|r| - 3] == head;
    ParseTwoDigits(seconds);
    ParseIntText(minutes);
  }

  /** Two durations print alike exactly when they have the same whole seconds. */
  lemma FormatDistinguishesSeconds(a: int, b: int)
    ensures FormatGameDuration(a) == FormatGameDuration(b) <==> a / 1000 == b / 1000
  {
    FormatRoundTrip(a);
    FormatRoundTrip(b);
  }

  /** Minutes are not padded and not wrapped into hours. */
  lemma HourPrintsAsSixtyMinutes()
    ensures FormatGameDuration(3600000) == "60:00"
  {
    assert NatText(60) == "60" by {
      assert NatText(6) == "6";
    }
  }

  /** Sub-second remainders are dropped, not rounded. */
  lemma SubSecondsDropped()
    ensures FormatGameDuration(61999) == "1:01"
    ensures FormatGameDuration(999) == "0:00"
  {
  }
}
