/** The session clock of the trading dashboard
    (src/components/TradingDashboard.js): the whole seconds since the
    session started and their `HH:MM:SS` rendering.
 */
module DashboardClock {
  import opened Common
  import opened Text

  /** `Math.floor((now - start) / 1000)` for a clock that has not gone
      backwards since the session started. */
  function ActiveSeconds(nowMs: int, startMs: int): (s: nat)
    requires startMs <= nowMs
    ensures s * 1000 <= nowMs - startMs < (s + 1) * 1000
  {
    (nowMs - startMs) / 1000
  }

  /** `n.toString().padStart(2, '0')`. */
  function Pad2(n: nat): (s: string)
    ensures AllDigits(s)
    ensures ParseDecimal(s) == n
    ensures n < 100 ==> |s| == 2
    ensures n >= 100 ==> |s| > 2
  {
    ParseNatToString(n);
    PadZeroValue(NatToString(n), 2);
    PadStart(NatToString(n), 2, '0')
  }

  /** `formatTime`: hours, minutes and seconds of a duration, each at least
      two zero-padded digits, joined by colons. */
  function FormatTime(seconds: nat): (r: string)
    ensures |r| >= 8
    ensures |r| == 8 <==> seconds < 100 * 3600
  {
    var hours := seconds / 3600;
    var minutes := (seconds % 3600) / 60;
    var secs := seconds % 60;
    Pad2(hours) + ":" + Pad2(minutes) + ":" + Pad2(secs)
  }

  /** The duration of a number of hours, minutes and seconds. */
  function Seconds(hours: nat, minutes: nat, secs: nat): nat
  {
    hours * 3600 + minutes * 60 + secs
  }

  /** Reads an `HH:MM:SS` text back as seconds: three colon-separated digit
      fields, hours of at least two digits, minutes and seconds of exactly
      two digits and below 60. */
  function ParseTime(t: string): Option<nat>
  {
    ParseFieldList(Split(t, ':'))
  }

  /** The seconds denoted by the fields of an `HH:MM:SS` text, if well formed. */
  function ParseFieldList(parts: seq<string>): Option<nat>
  {
    if |parts| == 3 && AllDigits(parts[0]) && AllDigits(parts[1]) && AllDigits(parts[2])
       && |parts[0]| >= 2 && |parts[1]| == 2 && |parts[2]| == 2
       && ParseDecimal(parts[1]) < 60 && ParseDecimal(parts[2]) < 60
    then Some(Seconds(ParseDecimal(parts[0]), ParseDecimal(parts[1]), ParseDecimal(parts[2])))
    else None
  }

  /** Every rendering is a well-formed `HH:MM:SS` text that reads back as
      the duration it was rendered from. */
  lemma {:induction false} FormatTimeRoundTrip(seconds: nat)
    ensures ParseTime(FormatTime(seconds)) == Some(seconds)
  {
    var hours, minutes, secs := seconds / 3600, (seconds % 3600) / 60, seconds % 60;
    TimeDecomposition(seconds);
    assert FormatTime(seconds) == Pad2(hours) + ":" + Pad2(minutes) + ":" + Pad2(secs);
    ParseFields(hours, minutes, secs);
  }

  /** Reading back three rendered fields gives their weighted sum. */
  lemma {:induction false} ParseFields(hours: nat, minutes: nat, secs: nat)
    requires minutes < 60 && secs < 60
    ensures ParseTime(Pad2(hours) + ":" + Pad2(minutes) + ":" + Pad2(secs)) == Some(Seconds(hours, minutes, secs))
  {
    var h, m, s := Pad2(hours), Pad2(minutes), Pad2(secs);
    var t := h + ":" + m + ":" + s;
    assert Split(t, ':') == [h, m, s] by {
      FieldsRoundTrip(hours, minutes, secs);
    }
    assert ParseFieldList([h, m, s]) == Some(Seconds(hours, minutes, secs)) by {
      assert AllDigits(h) && AllDigits(m) && AllDigits(s);
      assert ParseDecimal(h) == hours && ParseDecimal(m) == minutes && ParseDecimal(s) == secs;
      assert |h| >= 2 && |m| == 2 && |s| == 2;
      FieldListValue(h, m, s);
    }
  }

  lemma FieldListValue(h: string, m: string, s: string)
    requires AllDigits(h) && AllDigits(m) && AllDigits(s)
    requires |h| >= 2 && |m| == 2 && |s| == 2
    requires ParseDecimal(m) < 60 && ParseDecimal(s) < 60
    ensures ParseFieldList([h, m, s]) == Some(Seconds(ParseDecimal(h), ParseDecimal(m), ParseDecimal(s)))
  {
  }

  /** The three rendered fields split back into digit strings of the
      original values. */
  lemma {:induction false} FieldsRoundTrip(hours: nat, minutes: nat, secs: nat)
    requires minutes < 60 && secs < 60
    ensures Split(Pad2(hours) + ":" + Pad2(minutes) + ":" + Pad2(secs), ':') == [Pad2(hours), Pad2(minutes), Pad2(secs)]
    ensures ParseDecimal(Pad2(hours)) == hours && |Pad2(hours)| >= 2
    ensures ParseDecimal(Pad2(minutes)) == minutes && |Pad2(minutes)| == 2
    ensures ParseDecimal(Pad2(secs)) == secs && |Pad2(secs)| == 2
  {
    FieldsSplit(Pad2(hours), Pad2(minutes), Pad2(secs));
  }

  /** Digit strings contain no colon. */
  lemma DigitsHaveNoColon(s: string)
    requires AllDigits(s)
    ensures ':' !in s
  {
  }

  /** Three digit fields joined by colons split back into those fields. */
  lemma FieldsSplit(h: string, m: string, s: string)
    requires AllDigits(h) && AllDigits(m) && AllDigits(s)
    ensures Split(h + ":" + m + ":" + s, ':') == [h, m, s]
  {
    var fields := [h, m, s];
    DigitsHaveNoColon(h);
    DigitsHaveNoColon(m);
    DigitsHaveNoColon(s);
    assert Join(fields, ":") == h + ":" + m + ":" + s by {
      assert Join(fields[2..], ":") == s;
      assert fields[1..][1..] == fields[2..];
      assert Join(fields[1..], ":") == m + ":" + s;
    }
    SplitJoinChar(fields, ':');
  }

  /** Hours, minutes and seconds rebuild the duration. */
  lemma {:induction false} TimeDecomposition(seconds: nat)
    ensures (seconds % 3600) / 60 < 60 && seconds % 60 < 60
    ensures Seconds(seconds / 3600, (seconds % 3600) / 60, seconds % 60) == seconds
  {
    var r := seconds % 3600;
    assert (seconds / 3600) * 3600 + r == seconds;
    assert (r / 60) * 60 + r % 60 == r;
    assert r % 60 == seconds % 60;
  }
}
