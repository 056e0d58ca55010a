/** The `m:ss` clock text of the recording modal and of the recording cards. */
module TimeFormat {
  import opened Wrappers
  import opened Text

  /** Minutes, a colon, and the seconds padded to two digits. */
  function FormatTime(seconds: nat): string {
    NatToString(seconds / 60) + ":" + PadStart2(NatToString(seconds % 60))
  }

  /** Reads `m:ss` text back into a number of seconds; `None` for anything else. */
  function ParseTime(t: string): Option<nat> {
    if |t| >= 4 && t[|t| - 3] == ':' && AllDigits(t[..|t| - 3]) && AllDigits(t[|t| - 2..]) then
      var secs := DecimalValue(t[|t| - 2..]);
      if secs < 60 then Some(60 * DecimalValue(t[..|t| - 3]) + secs) else None
    else None
  }

  /** The two-digit seconds field denotes the seconds. */
  lemma PaddedSecondsValue(secs: nat)
    requires secs < 60
    ensures |PadStart2(NatToString(secs))| == 2
    ensures AllDigits(PadStart2(NatToString(secs)))
    ensures DecimalValue(PadStart2(NatToString(secs))) == secs
  {
    var p := PadStart2(NatToString(secs));
    DecimalRoundTrip(secs);
    if secs < 10 {
      assert p == ['0', DigitChar(secs)];
      assert p[..1] == ['0'] && p[..1][..0] == [];
    } else {
      assert p == NatToString(secs);
    }
  }

  /** The clock text reads back as the seconds it was printed from, and always ends in a
      colon followed by two digits. */
  lemma FormatTimeRoundTrip(seconds: nat)
    ensures ParseTime(FormatTime(seconds)) == Some(seconds)
  {
    var m := NatToString(seconds / 60);
    var p := PadStart2(NatToString(seconds % 60));
    var t := FormatTime(seconds);
    PaddedSecondsValue(seconds % 60);
    DecimalRoundTrip(seconds / 60);
    assert t == m + ":" + p;
    assert |t| == |m| + 3;
    assert t[..|m|] == m;
    assert t[|m| + 1..] == p;
  }

  /** The clock text of a recording card: the media position is a non-negative real, the
      minutes are `floor(s / 60)` and the seconds `floor(s % 60)`. */
  function CardFormatTime(s: real): (t: string)
    requires s >= 0.0
    ensures t == FormatTime(s.Floor)
  {
    var mins := (s / 60.0).Floor;
    var rem := s - 60.0 * (mins as real);
    var secs := rem.Floor;
    var n := s.Floor;
    assert mins == n / 60 && secs == n % 60 by {
      var q := n / 60;
      assert 60 * q <= n < 60 * q + 60;
      assert (60 * q) as real <= s < (60 * q + 60) as real;
      assert (q as real) <= s / 60.0 < (q + 1) as real;
      assert mins == q;
      assert n as real <= s < (n + 1) as real;
      assert secs == n - 60 * q;
    }
    NatToString(mins) + ":" + PadStart2(NatToString(secs))
  }
}
