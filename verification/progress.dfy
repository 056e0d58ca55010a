/** The recording progress bar and timer text, both in the modal and in the stand-alone
    progress bar component. Widths are percentages. */
module Progress {
  import opened Wrappers
  import opened TimeFormat
  import Capture

  /** The elapsed value the bar and the timer show: the frozen final time once recorded,
      the running clock otherwise. */
  function ShownTime(phase: Capture.Phase, time: nat, finalTime: nat): (t: nat)
    ensures t == finalTime <== phase == Capture.Recorded
    ensures t == time <== phase != Capture.Recorded
  {
    if phase == Capture.Recorded then finalTime else time
  }

  function Min(a: real, b: real): real {
    if a <= b then a else b
  }

  /** The shown time as a percentage of the maximum, before capping. */
  function Share(t: nat, maxTime: nat): (p: real)
    requires maxTime > 0
    ensures 0.0 <= p
    ensures p >= 100.0 <==> t >= maxTime
    ensures p * (maxTime as real) == 100.0 * (t as real)
  {
    var m := maxTime as real;
    var q := (t as real) / m;
    assert q * m == t as real;
    assert q >= 1.0 <==> t as real >= m by {
      if q >= 1.0 { assert q * m >= 1.0 * m; }
      if t as real >= m { assert q * m >= 1.0 * m; }
    }
    q * 100.0
  }

  /** The stand-alone bar: empty when idle, otherwise the shown time as a share of the
      maximum, capped at 100. */
  function BarProgressWidth(phase: Capture.Phase, time: nat, finalTime: nat, maxTime: nat): (w: real)
    requires maxTime > 0
    ensures 0.0 <= w <= 100.0
    ensures phase == Capture.Idle ==> w == 0.0
    ensures phase != Capture.Idle ==> (w == 100.0 <==> ShownTime(phase, time, finalTime) >= maxTime)
    ensures phase != Capture.Idle && ShownTime(phase, time, finalTime) <= maxTime ==>
      w * (maxTime as real) == 100.0 * (ShownTime(phase, time, finalTime) as real)
  {
    if phase == Capture.Idle then 0.0
    else if phase == Capture.Recorded then Min(Share(finalTime, maxTime), 100.0)
    else Min(Share(time, maxTime), 100.0)
  }

  /** The modal's own copy of the width rule, with the maximum fixed at 60 seconds. */
  function ModalProgressWidth(phase: Capture.Phase, time: nat, finalTime: nat): (w: real)
    ensures 0.0 <= w <= 100.0
    ensures phase == Capture.Idle ==> w == 0.0
  {
    if phase == Capture.Idle then 0.0
    else if phase == Capture.Recorded then Min(Share(finalTime, 60), 100.0)
    else Min(Share(time, 60), 100.0)
  }

  /** The two copies agree when the bar is given the modal's maximum. */
  lemma ModalMatchesBar(phase: Capture.Phase, time: nat, finalTime: nat)
    ensures ModalProgressWidth(phase, time, finalTime) == BarProgressWidth(phase, time, finalTime, Capture.MAX_RECORDING_TIME)
  {
  }

  /** Widening: the bar never shrinks while the clock runs. */
  lemma WidthMonotone(phase: Capture.Phase, t1: nat, t2: nat, finalTime: nat, maxTime: nat)
    requires maxTime > 0 && t1 <= t2
    ensures BarProgressWidth(phase, t1, finalTime, maxTime) <= BarProgressWidth(phase, t2, finalTime, maxTime)
  {
    var m := maxTime as real;
    var p1, p2 := Share(t1, maxTime), Share(t2, maxTime);
    var x1, x2 := 100.0 * (t1 as real), 100.0 * (t2 as real);
    assert p1 * m == x1;
    assert p2 * m == x2;
    assert x1 <= x2;
    CancelPositive(p1, p2, m, x1, x2);
  }

  /** A positive factor can be cancelled from both sides of `<=`: from `a * m == x`,
      `b * m == y` and `x <= y` follows `a <= b`. */
  lemma CancelPositive(a: real, b: real, m: real, x: real, y: real)
    requires m > 0.0 && a * m == x && b * m == y && x <= y
    ensures a <= b
  {
    assert y - x == (b - a) * m;
  }

  /** The width a timer tick leads to never goes backwards and, from a valid state, the
      bar is full exactly when the clock has reached the ceiling. */
  lemma TickWidensBar(m: Capture.Modal)
    requires Capture.Valid(m) && m.phase == Capture.Recording
    ensures ModalProgressWidth(m.phase, m.time, m.finalTime) <= ModalProgressWidth(Capture.Tick(m).phase, Capture.Tick(m).time, Capture.Tick(m).finalTime)
    ensures Capture.Tick(m).time == Capture.MAX_RECORDING_TIME <==> ModalProgressWidth(Capture.Tick(m).phase, Capture.Tick(m).time, Capture.Tick(m).finalTime) == 100.0
  {
    ModalMatchesBar(m.phase, m.time, m.finalTime);
    var m' := Capture.Tick(m);
    ModalMatchesBar(m'.phase, m'.time, m'.finalTime);
    WidthMonotone(Capture.Recording, m.time, m'.time, m.finalTime, Capture.MAX_RECORDING_TIME);
  }

  const SEPARATOR: string := " / "

  /** Splitting a concatenation at the length of its left part. */
  lemma SplitConcat(a: string, b: string)
    ensures (a + b)[..|a|] == a && (a + b)[|a|..] == b
  {
  }

  /** The timer text: the shown time, a slash, and the maximum, each printed by the
      `formatTime` the bar is given. The text splits back into the two printed times. */
  function DisplayTime(format: nat -> string, phase: Capture.Phase, time: nat, finalTime: nat, maxTime: nat)
    : (s: string)
    ensures var shown := format(ShownTime(phase, time, finalTime));
      && |s| == |shown| + |SEPARATOR| + |format(maxTime)|
      && s[..|shown|] == shown
      && s[|shown|..|shown| + |SEPARATOR|] == SEPARATOR
      && s[|s| - |format(maxTime)|..] == format(maxTime)
  {
    var shown := format(ShownTime(phase, time, finalTime));
    var suffix := SEPARATOR + format(maxTime);
    SplitConcat(shown, suffix);
    SplitConcat(SEPARATOR, format(maxTime));
    shown + suffix
  }

  /** With the recording modal's `m:ss` formatter, what precedes the separator reads back
      as the shown time, and the text ends with the formatted maximum. */
  lemma ModalFormatReadsBack(phase: Capture.Phase, time: nat, finalTime: nat, maxTime: nat)
    ensures var s := DisplayTime(FormatTime, phase, time, finalTime, maxTime);
      var suffix := SEPARATOR + FormatTime(maxTime);
      && |s| > |suffix|
      && s[|s| - |suffix|..] == suffix
      && ParseTime(s[..|s| - |suffix|]) == Some(ShownTime(phase, time, finalTime))
  {
    var shown := FormatTime(ShownTime(phase, time, finalTime));
    var suffix := SEPARATOR + FormatTime(maxTime);
    FormatTimeRoundTrip(ShownTime(phase, time, finalTime));
    assert |shown| > 0 by {
      assert ParseTime(shown).Some?;
    }
    SplitConcat(shown, suffix);
    assert DisplayTime(FormatTime, phase, time, finalTime, maxTime) == shown + suffix;
  }

  /** The timer text under the bar, shown in every phase except idle. */
  function TimerText(format: nat -> string, phase: Capture.Phase, time: nat, finalTime: nat, maxTime: nat)
    : (t: Option<string>)
    ensures t.Some? <==> phase != Capture.Idle
    ensures t.Some? ==> t.value == DisplayTime(format, phase, time, finalTime, maxTime)
  {
    if phase != Capture.Idle then Some(DisplayTime(format, phase, time, finalTime, maxTime)) else None
  }
}
