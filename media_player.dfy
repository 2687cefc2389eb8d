/**
 * The two computations of MediaPlayer.jsx: `formatTime`, which renders a
 * playback position in seconds as `M:SS`, and the width of the progress bar.
 * Times are nonnegative reals; JavaScript's NaN is not modelled.
 */
module MediaPlayer {
  import opened Wrappers

  predicate IsDigit(c: char)
  {
    '0' <= c <= '9'
  }

  predicate AllDigits(s: string)
  {
    forall i :: 0 <= i < |s| ==> IsDigit(s[i])
  }

  function DigitChar(d: nat): (c: char)
    requires d < 10
    ensures IsDigit(c) && c as int - '0' as int == d
  {
    ('0' as int + d) as char
  }

  /** `${n}` for a whole number: its decimal digits, most significant first. */
  function Decimal(n: nat): (s: string)
    ensures |s| >= 1 && AllDigits(s)
    ensures (|s| == 1) == (n < 10)
    ensures n < 100 ==> |s| <= 2
    ensures s[0] == '0' ==> n == 0
    decreases n
  {
    if n < 10 then [DigitChar(n)] else Decimal(n / 10) + [DigitChar(n % 10)]
  }

  /** The value of a string of decimal digits. */
  function ParseDecimal(s: string): nat
    requires AllDigits(s)
  {
    if s == [] then 0 else ParseDecimal(s[..|s| - 1]) * 10 + (s[|s| - 1] as int - '0' as int)
  }

  /** Reading the digits of `n` gives back `n`. */
  lemma {:induction false} ParseDecimalOfDecimal(n: nat)
    ensures ParseDecimal(Decimal(n)) == n
    decreases n
  {
    if n >= 10 {
      var s := Decimal(n);
      assert s[..|s| - 1] == Decimal(n / 10);
      ParseDecimalOfDecimal(n / 10);
    }
  }

  /**
   * `${seconds < 10 ? '0' : ''}${seconds}`: always two digits, with a leading
   * '0' exactly when the value is below 10.
   */
  function SecondsField(seconds: nat): (s: string)
    requires seconds < 60
    ensures |s| == 2 && AllDigits(s)
    ensures (s[0] == '0') == (seconds < 10)
    ensures ParseDecimal(s) == seconds
  {
    ParseDecimalOfDecimal(seconds);
    if seconds < 10 then
      var s := "0" + Decimal(seconds);
      assert s[..1] == "0" && s[..1][..0] == [];
      s
    else
      Decimal(seconds)
  }

  /** The `M:SS` layout of a whole number of seconds. */
  function Clock(wholeSeconds: nat): string
  {
    Decimal(wholeSeconds / 60) + ":" + SecondsField(wholeSeconds % 60)
  }

  /** `Math.floor(time / 60)` */
  function Minutes(time: real): nat
    requires time >= 0.0
  {
    (time / 60.0).Floor
  }

  /** `Math.floor(time % 60)`, where for nonnegative `time` `%` is `time - 60 * floor(time / 60)`. */
  function Seconds(time: real): int
    requires time >= 0.0
  {
    (time - 60.0 * Minutes(time) as real).Floor
  }

  lemma FloorIs(x: real, k: int)
    requires k as real <= x < k as real + 1.0
    ensures x.Floor == k
  {
  }

  /**
   * The minutes and seconds fields split the whole seconds of `time`:
   * seconds in 0..59 and minutes * 60 + seconds == floor(time).
   */
  lemma SplitSeconds(time: real)
    requires time >= 0.0
    ensures Minutes(time) == time.Floor / 60 && Seconds(time) == time.Floor % 60
    ensures 0 <= Seconds(time) < 60 && Minutes(time) * 60 + Seconds(time) == time.Floor
  {
    var t := time.Floor;
    var q, r := t / 60, t % 60;
    assert t == 60 * q + r && 0 <= r < 60;
    assert t as real <= time < t as real + 1.0;
    FloorIs(time / 60.0, q);
    FloorIs(time - 60.0 * q as real, r);
  }

  /** `formatTime`: `"0:00"` for 0, otherwise minutes, a colon and two seconds digits. */
  function FormatTime(time: real): (s: string)
    requires time >= 0.0
    ensures time == 0.0 ==> s == "0:00"
    ensures |s| >= 4 && s[|s| - 3] == ':'
    ensures s == Clock(time.Floor)
  {
    SplitSeconds(time);
    if time == 0.0 then
      assert Decimal(0) == "0";
      assert SecondsField(0) == "00";
      "0:00"
    else
      Decimal(Minutes(time)) + ":" + SecondsField(Seconds(time))
  }

  /** The first position of `c` in `s`, if any. */
  function IndexOf(s: string, c: char): (r: Option<nat>)
    ensures r.Some? ==> r.value < |s| && s[r.value] == c && c !in s[..r.value]
    ensures r.None? ==> c !in s
  {
    if s == [] then None
    else if s[0] == c then Some(0)
    else
      match IndexOf(s[1..], c)
      case None => None
      case Some(k) =>
        assert s[..k + 1] == [s[0]] + s[1..][..k];
        Some(k + 1)
  }

  /** Reads an `M:SS` string back as its minutes and seconds. */
  function Unformat(s: string): Option<(nat, nat)>
  {
    match IndexOf(s, ':')
    case None => None
    case Some(k) =>
      var minutes, seconds := s[..k], s[k + 1..];
      if minutes != [] && |seconds| == 2 && AllDigits(minutes) && AllDigits(seconds)
      then Some((ParseDecimal(minutes), ParseDecimal(seconds)))
      else None
  }

  /** Splitting a clock string at its colon gives back its two fields. */
  lemma ClockRoundTrip(wholeSeconds: nat)
    ensures Unformat(Clock(wholeSeconds)) == Some((wholeSeconds / 60, wholeSeconds % 60))
  {
    var m := Decimal(wholeSeconds / 60);
    var sec := SecondsField(wholeSeconds % 60);
    var s := Clock(wholeSeconds);
    assert s == m + ":" + sec;
    assert ':' !in m by {
      forall i | 0 <= i < |m| ensures m[i] != ':' { assert IsDigit(m[i]); }
    }
    assert s[..|m|] == m;
    assert IndexOf(s, ':') == Some(|m|);
    assert s[|m| + 1..] == sec;
    ParseDecimalOfDecimal(wholeSeconds / 60);
  }

  /** `formatTime`'s output parses back to `(floor(time / 60), floor(time % 60))`. */
  lemma FormatRoundTrip(time: real)
    requires time >= 0.0
    ensures Unformat(FormatTime(time)) == Some((Minutes(time), Seconds(time) as nat))
  {
    SplitSeconds(time);
    ClockRoundTrip(time.Floor);
  }

  /** Two times format alike exactly when they have the same whole seconds. */
  lemma FormatSameIffSameSecond(a: real, b: real)
    requires a >= 0.0 && b >= 0.0
    ensures FormatTime(a) == FormatTime(b) <==> a.Floor == b.Floor
  {
    if FormatTime(a) == FormatTime(b) {
      ClockRoundTrip(a.Floor);
      ClockRoundTrip(b.Floor);
      var ma, sa := a.Floor / 60, a.Floor % 60;
      var mb, sb := b.Floor / 60, b.Floor % 60;
      assert ma == mb && sa == sb;
    }
  }

  /** `duration ? (currentTime / duration) * 100 : 0`, the filled width in percent. */
  function ProgressPercent(currentTime: real, duration: real): (p: real)
    ensures duration == 0.0 ==> p == 0.0
    ensures duration != 0.0 ==> p * duration == currentTime * 100.0
    ensures 0.0 <= currentTime <= duration && duration != 0.0 ==> 0.0 <= p <= 100.0
  {
    if duration == 0.0 then 0.0 else (currentTime / duration) * 100.0
  }
}
