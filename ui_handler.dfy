/** The on-screen controls' state: the total duration, the playback position
    and the frame count the player reports, and the "mm:ss" text the labels
    show for a time given in milliseconds. */
module Ui {
  import opened Lang

  predicate IsDigit(c: char) {
    '0' <= c <= '9'
  }

  predicate AllDigits(s: string) {
    forall i :: 0 <= i < |s| ==> IsDigit(s[i])
  }

  function DigitChar(d: nat): (c: char)
    requires d < 10
    ensures IsDigit(c) && c as int - '0' as int == d
  {
    "0123456789"[d]
  }

  /** The decimal digits of a natural number, most significant first, with no leading zero. */
  function Decimal(n: nat): (s: string)
    ensures 1 <= |s| && AllDigits(s)
    ensures |s| == 1 <==> n < 10
    ensures |s| > 1 ==> s[0] != '0'
    ensures n < 100 ==> |s| <= 2
    decreases n
  {
    if n < 10 then [DigitChar(n)] else Decimal(n / 10) + [DigitChar(n % 10)]
  }

  /** The number a string of decimal digits denotes. */
  function DigitsValue(s: string): int
    decreases |s|
  {
    if s == [] then 0 else DigitsValue(s[..|s| - 1]) * 10 + (s[|s| - 1] as int - '0' as int)
  }

  /** The number an optionally signed decimal string denotes. */
  function SignedValue(s: string): int {
    if |s| > 0 && s[0] == '-' then -DigitsValue(s[1..]) else DigitsValue(s)
  }

  /** Java's `String.valueOf(long)`: a minus sign for negatives, then the digits. */
  function SignedDecimal(n: int): (s: string)
    ensures 1 <= |s|
    ensures AllDigits(s) <==> n >= 0
    ensures n >= 0 ==> s == Decimal(n)
    ensures n < 0 ==> s[0] == '-' && s[1..] == Decimal(-n)
  {
    if n < 0 then var s := "-" + Decimal(-n); assert !IsDigit(s[0]); s else Decimal(n)
  }

  /** Reading the digits back gives the number. */
  lemma {:induction false} DecimalRoundTrip(n: nat)
    ensures DigitsValue(Decimal(n)) == n
    decreases n
  {
    if n >= 10 {
      var s := Decimal(n);
      DecimalRoundTrip(n / 10);
      assert s[..|s| - 1] == Decimal(n / 10);
    }
  }

  /** Leading zeros do not change the value of a digit string. */
  lemma {:induction false} LeadingZero(s: string)
    ensures DigitsValue("0" + s) == DigitsValue(s)
    decreases |s|
  {
    if s != [] {
      var t := "0" + s;
      assert t[..|t| - 1] == "0" + s[..|s| - 1];
      LeadingZero(s[..|s| - 1]);
    }
  }

  /** The frame-count label reads back as the count. */
  lemma SignedDecimalRoundTrip(n: int)
    ensures SignedValue(SignedDecimal(n)) == n
    ensures AllDigits(SignedDecimal(n)) <==> n >= 0
  {
    if n < 0 {
      DecimalRoundTrip(-n);
      assert SignedDecimal(n)[1..] == Decimal(-n);
      assert !IsDigit(SignedDecimal(n)[0]);
    } else {
      DecimalRoundTrip(n);
    }
  }

  /** Java's `String.format("%02d", n)`: the decimal text of `n` padded with
      zeros on the left to at least two characters. */
  function Pad2(n: int): (s: string)
    ensures |s| >= 2
    ensures 0 <= n < 100 ==> |s| == 2
    ensures AllDigits(s) <==> n >= 0
  {
    if 0 <= n < 10 then "0" + Decimal(n) else SignedDecimal(n)
  }

  /** The padded text reads back as the number, is never shorter than two
      characters and is longer only when the number needs more; it is pure
      digits exactly when the number is not negative. */
  lemma Pad2RoundTrip(n: int)
    ensures SignedValue(Pad2(n)) == n
    ensures |Pad2(n)| >= 2
    ensures |Pad2(n)| == 2 <==> -10 < n < 100
    ensures AllDigits(Pad2(n)) <==> n >= 0
  {
    var s := Pad2(n);
    if 0 <= n < 10 {
      DecimalRoundTrip(n);
      LeadingZero(Decimal(n));
    } else if n >= 10 {
      DecimalRoundTrip(n);
      assert 10 <= n < 100 ==> |Decimal(n / 10)| == 1;
      assert n >= 100 ==> |Decimal(n / 10)| > 1;
    } else {
      DecimalRoundTrip(-n);
      assert s[1..] == Decimal(-n);
      assert -n < 10 ==> |Decimal(-n)| == 1;
      assert !IsDigit(s[0]);
    }
  }

  /** The clock fields of a time in milliseconds: whole seconds rounded
      toward zero, then minutes and the remaining seconds. */
  function Minutes(ms: int): int {
    Quot(Quot(ms, 1000), 60)
  }

  function Seconds(ms: int): int {
    Rem(Quot(ms, 1000), 60)
  }

  /** formatTime: "%02d:%02d" of the minutes and the seconds. */
  function FormatTime(ms: int): (s: string)
    ensures |s| >= 5
    ensures ms >= 0 ==> s[|s| - 3] == ':'
  {
    Pad2(Minutes(ms)) + ":" + Pad2(Seconds(ms))
  }

  /** Minute and second texts that read back as the time in whole seconds
      rounded toward zero: seconds below a minute, both fields of the
      time's sign. */
  predicate ClockFields(minutes: string, seconds: string, ms: int) {
    var m, sec := SignedValue(minutes), SignedValue(seconds);
    m * 60 + sec == Quot(ms, 1000) && -60 < sec < 60 &&
    (ms >= 0 ==> m >= 0 && sec >= 0) &&
    (ms < 0 ==> m <= 0 && sec <= 0)
  }

  /** For any time, the text splits at a colon into two signed fields that
      read back as whole minutes and seconds of the same sign, with the
      seconds below a minute and the two together making up the time in
      whole seconds, rounded toward zero. */
  lemma FormatTimeReadsBack(ms: int)
    ensures exists i :: 0 < i < |FormatTime(ms)| && FormatTime(ms)[i] == ':' && ClockFields(FormatTime(ms)[..i], FormatTime(ms)[i + 1..], ms)
  {
    var m, sec := Minutes(ms), Seconds(ms);
    var s := FormatTime(ms);
    var i := |Pad2(m)|;
    Pad2RoundTrip(m);
    Pad2RoundTrip(sec);
    assert s[..i] == Pad2(m);
    assert s[i + 1..] == Pad2(sec);
    assert s[i] == ':';
  }

  /** A time of zero up to a hundred minutes shows as exactly "mm:ss" in
      digits; a longer one keeps the two-digit seconds and a wider minute field. */
  lemma FormatTimeWidth(ms: int)
    requires ms >= 0
    ensures |FormatTime(ms)| >= 5
    ensures FormatTime(ms)[|FormatTime(ms)| - 3] == ':'
    ensures AllDigits(FormatTime(ms)[..|FormatTime(ms)| - 3]) && AllDigits(FormatTime(ms)[|FormatTime(ms)| - 2..])
    ensures |FormatTime(ms)| == 5 <==> ms < 6_000_000
    ensures DigitsValue(FormatTime(ms)[|FormatTime(ms)| - 2..]) == ms / 1000 % 60
    ensures DigitsValue(FormatTime(ms)[..|FormatTime(ms)| - 3]) == ms / 1000 / 60
  {
    var m, sec := Minutes(ms), Seconds(ms);
    var s := FormatTime(ms);
    Pad2RoundTrip(m);
    Pad2RoundTrip(sec);
    assert |Pad2(sec)| == 2;
    var i := |Pad2(m)|;
    assert s[..i] == Pad2(m);
    assert s[i + 1..] == Pad2(sec);
    assert m == ms / 1000 / 60 && sec == ms / 1000 % 60;
    assert m < 100 <==> ms < 6_000_000;
  }

  /** What the refresh task writes into the three labels. */
  datatype Labels = Labels(total: string, current: string, frames: string)

  class UIHandler {
    var totalDurationMs: int
    var progress: int
    var frameCount: int

    constructor ()
      ensures totalDurationMs == 0 && progress == 0 && frameCount == 0
    {
      totalDurationMs, progress, frameCount := 0, 0, 0;
    }

    /** The label texts for the current state. */
    function Display(): (r: Labels)
      reads this
      ensures |r.total| >= 5 && |r.current| >= 5 && |r.frames| >= 1
      ensures totalDurationMs >= 0 ==> r.total[|r.total| - 3] == ':'
      ensures progress >= 0 ==> r.current[|r.current| - 3] == ':'
    {
      Labels(FormatTime(totalDurationMs), FormatTime(progress), SignedDecimal(frameCount))
    }

    /** Keep the reported position; the seek bar percentage is not modelled. */
    method UpdateSeekBarProgress(p: int)
      modifies this`progress
      ensures progress == p
    {
      progress := p;
    }

    method SetMaxDuration(duration: int)
      modifies this`totalDurationMs
      ensures totalDurationMs == duration
    {
      totalDurationMs := duration;
    }

    method UpdateFrameCount(count: int)
      modifies this`frameCount
      ensures frameCount == count
    {
      frameCount := count;
    }
  }
}
