/** The control page's game timer display, `formatTime`: whole minutes and seconds as "MM:SS". */
module GameTimer {
  import opened Text

  /** `formatTime(seconds)`: minutes and remaining seconds, each padded to two digits. */
  function FormatTime(seconds: nat): string {
    PadStart(NatToString(seconds / 60), 2, '0') + ":" + PadStart(NatToString(seconds % 60), 2, '0')
  }

  /** A one- or two-digit number padded to two digits keeps its value. */
  lemma PadTwo(n: nat)
    ensures |PadStart(NatToString(n), 2, '0')| == (if n < 100 then 2 else |NatToString(n)|)
    ensures |PadStart(NatToString(n), 2, '0')| >= 2
    ensures forall i :: 0 <= i < |PadStart(NatToString(n), 2, '0')| ==> IsDigit(PadStart(NatToString(n), 2, '0')[i])
    ensures DigitsValue(PadStart(NatToString(n), 2, '0')) == n
  {
    NatToStringRoundTrip(n);
    NatToStringLength(n);
    var s := NatToString(n);
    if |s| == 1 {
      assert PadStart(s, 2, '0') == PadStart("0" + s, 2, '0') == "0" + s;
      LeadingZero(s);
    } else if n < 100 {
      assert |s| == 2 by {
        assert s == NatToString(n / 10) + [DigitChar(n % 10)];
        NatToStringLength(n / 10);
      }
    } else {
      assert |s| >= 2 by { assert s == NatToString(n / 10) + [DigitChar(n % 10)]; NatToStringRoundTrip(n / 10); }
    }
  }

  /** Reads a timer display back: the digits before the colon are minutes, the last two are seconds. */
  function ParseTime(t: string): int
    requires |t| >= 3
    requires forall i :: 0 <= i < |t| && i != |t| - 3 ==> IsDigit(t[i])
  {
    DigitsValue(t[..|t| - 3]) * 60 + DigitsValue(t[|t| - 2..])
  }

  /**
   * The display is "MM:SS" with the seconds always two digits and the minutes at least two,
   * and it determines the elapsed time: reading it back gives the seconds it was made from.
   */
  lemma FormatTimeRoundTrip(seconds: nat)
    ensures |FormatTime(seconds)| >= 5
    ensures FormatTime(seconds)[|FormatTime(seconds)| - 3] == ':'
    ensures seconds < 6000 ==> |FormatTime(seconds)| == 5
    ensures forall i :: 0 <= i < |FormatTime(seconds)| && i != |FormatTime(seconds)| - 3 ==> IsDigit(FormatTime(seconds)[i])
    ensures ParseTime(FormatTime(seconds)) == seconds
  {
    var m, s := PadStart(NatToString(seconds / 60), 2, '0'), PadStart(NatToString(seconds % 60), 2, '0');
    PadTwo(seconds / 60);
    PadTwo(seconds % 60);
    var t := FormatTime(seconds);
    assert t == m + ":" + s;
    assert t[..|t| - 3] == m;
    assert t[|t| - 2..] == s;
    forall i | 0 <= i < |t| && i != |t| - 3 ensures IsDigit(t[i]) {
      if i < |m| { assert t[i] == m[i]; } else { assert t[i] == s[i - |m| - 1]; }
    }
  }
}
