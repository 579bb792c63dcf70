/** The elapsed-time display `MM:SS` of the recording panel. */
module TimeFormat {
  import opened Digits

  /** `n.toString().padStart(2, '0')` */
  function Pad2(n: nat): (r: string)
    ensures AllDigits(r) && |r| >= 2
    ensures n < 100 ==> |r| == 2
    ensures Value(r) == n
  {
    NatToStringLength(n, 2);
    ValueOfPadded(n, 2);
    PadStart(NatToString(n), 2, '0')
  }

  /** Minutes and seconds of `seconds`, each zero-padded to two digits and
      joined by a colon. The minutes field is never truncated. */
  function FormatTime(seconds: nat): (r: string)
    ensures |r| >= 5 && IsClock(r)
  {
    var mins := Pad2(seconds / 60);
    var secs := Pad2(seconds % 60);
    ParseJoined(mins, secs);
    mins + ":" + secs
  }

  /** A string of the shape the display uses: digits, a colon, two digits. */
  predicate IsClock(t: string) {
    && |t| >= 4
    && t[|t| - 3] == ':'
    && AllDigits(t[..|t| - 3])
    && AllDigits(t[|t| - 2..])
  }

  /** Reads a displayed time back into seconds. */
  function ParseClock(t: string): nat
    requires IsClock(t)
  {
    Value(t[..|t| - 3]) * 60 + Value(t[|t| - 2..])
  }

  /** A minutes field, a colon and a two-digit seconds field form a clock
      whose reading combines the two fields. */
  lemma ParseJoined(mins: string, secs: string)
    requires AllDigits(mins) && AllDigits(secs) && |secs| == 2 && |mins| >= 1
    ensures IsClock(mins + ":" + secs)
    ensures ParseClock(mins + ":" + secs) == Value(mins) * 60 + Value(secs)
  {
    var r := mins + ":" + secs;
    assert r[..|r| - 3] == mins;
    assert r[|r| - 2..] == secs;
  }

  /** Reading the display back gives the elapsed seconds, for every input. */
  lemma FormatParseRoundTrip(seconds: nat)
    ensures IsClock(FormatTime(seconds))
    ensures ParseClock(FormatTime(seconds)) == seconds
  {
    var mins := Pad2(seconds / 60);
    var secs := Pad2(seconds % 60);
    ParseJoined(mins, secs);
    assert FormatTime(seconds) == mins + ":" + secs;
  }

  /** Distinct elapsed times are displayed differently. */
  lemma FormatTimeInjective(a: nat, b: nat)
    ensures FormatTime(a) == FormatTime(b) ==> a == b
  {
    FormatParseRoundTrip(a);
    FormatParseRoundTrip(b);
  }

  /** Below 100 minutes the display is exactly `MM:SS`: five characters with
      the colon at index 2, a seconds field below 60, and 60*MM + SS equal to
      the input. */
  lemma FormatTimeShortShape(seconds: nat)
    requires seconds < 6000
    ensures |FormatTime(seconds)| == 5 && FormatTime(seconds)[2] == ':'
    ensures AllDigits(FormatTime(seconds)[..2]) && AllDigits(FormatTime(seconds)[3..])
    ensures Value(FormatTime(seconds)[3..]) < 60
    ensures Value(FormatTime(seconds)[..2]) * 60 + Value(FormatTime(seconds)[3..]) == seconds
  {
    FormatParseRoundTrip(seconds);
    var r := FormatTime(seconds);
    assert |Pad2(seconds / 60)| == 2 && |Pad2(seconds % 60)| == 2;
    assert |r| == 5;
    assert r[3..] == Pad2(seconds % 60);
  }

  /** From 100 minutes on, the minutes field is the full decimal rendering of
      the minutes, three or more digits wide. */
  lemma FormatTimeLongShape(seconds: nat)
    requires seconds >= 6000
    ensures |FormatTime(seconds)| >= 6
    ensures FormatTime(seconds)[..|FormatTime(seconds)| - 3] == NatToString(seconds / 60)
  {
    var mins := seconds / 60;
    NatToStringLength(mins, 2);
    var r := FormatTime(seconds);
    assert r == Pad2(mins) + ":" + Pad2(seconds % 60);
    NatToStringLength(seconds % 60, 2);
    assert r[..|r| - 3] == Pad2(mins);
  }
}
