/** The interview page's stopwatch: its three pieces of state, the buttons
    that change them, the once-a-second tick, and the `MM:SS` display. */
module TimerPanel {
  import opened JsText

  /** `padStart(2, '0')`. */
  function Pad2(s: string): (r: string)
    ensures |s| >= 2 ==> r == s
    ensures |s| < 2 ==> |r| == 2 && r[2 - |s|..] == s && forall i :: 0 <= i < 2 - |s| ==> r[i] == '0'
  {
    if |s| == 0 then "00" else if |s| == 1 then "0" + s else s
  }

  /** The display: whole minutes, a colon, and the seconds within the minute,
      each at least two digits wide. */
  function FormatTime(seconds: nat): (r: string)
    ensures |r| >= 5 && r[|r| - 3] == ':'
  {
    var ss := Pad2(DecimalString(seconds % 60));
    assert |DecimalString(seconds % 60)| <= 2 by {
      if seconds % 60 >= 10 {
        assert seconds % 60 / 10 < 10;
      }
    }
    Pad2(DecimalString(seconds / 60)) + ":" + ss
  }

  /** A padded rendering is all digits and reads back as the number. */
  lemma PaddedValue(n: nat)
    ensures var p := Pad2(DecimalString(n));
            |p| >= 2 && (forall i :: 0 <= i < |p| ==> IsDigit(p[i])) && DigitsValue(p) == n
  {
    var d := DecimalString(n);
    DecimalRoundTrip(n);
    if |d| == 1 {
      LeadingZeroValue(d);
      assert Pad2(d) == "0" + d;
    }
  }

  /** The display is two padded digit groups around a colon; the seconds
      group is exactly two digits, and reading the groups back gives the
      elapsed seconds. Under 100 minutes it is exactly five characters. */
  lemma FormatTimeReadsBack(seconds: nat)
    ensures var r := FormatTime(seconds);
            |r| >= 5 && r[|r| - 3] == ':'
            && (forall i :: 0 <= i < |r| && i != |r| - 3 ==> IsDigit(r[i]))
            && DigitsValue(r[..|r| - 3]) * 60 + DigitsValue(r[|r| - 2..]) == seconds
            && DigitsValue(r[|r| - 2..]) < 60
    ensures seconds < 6000 ==> |FormatTime(seconds)| == 5
  {
    var mm := Pad2(DecimalString(seconds / 60));
    var ss := Pad2(DecimalString(seconds % 60));
    PaddedValue(seconds / 60);
    PaddedValue(seconds % 60);
    assert |DecimalString(seconds % 60)| == 1 || |DecimalString(seconds % 60)| == 2 by {
      if seconds % 60 >= 10 {
        assert seconds % 60 / 10 < 10;
      }
    }
    assert |ss| == 2;
    var r := FormatTime(seconds);
    assert r == mm + ":" + ss;
    assert r[..|r| - 3] == mm;
    assert r[|r| - 2..] == ss;
    if seconds < 6000 {
      var m := seconds / 60;
      if m >= 10 {
        assert m / 10 < 10;
        assert |DecimalString(m)| == |DecimalString(m / 10)| + 1;
      }
      assert |mm| == 2;
    }
  }

  class Timer {
    var isExpanded: bool
    var isRunning: bool
    /** Elapsed seconds. */
    var time: nat

    constructor ()
      ensures !isExpanded && !isRunning && time == 0
    {
      isExpanded, isRunning, time := false, false, 0;
    }

    /** One interval tick: one more second, but only while running (the
        interval is cleared when it stops). */
    method Tick()
      modifies this
      ensures time == if old(isRunning) then old(time) + 1 else old(time)
      ensures isRunning == old(isRunning) && isExpanded == old(isExpanded)
    {
      if isRunning {
        time := time + 1;
      }
    }

    /** `toggleTimer`: start or pause, keeping the elapsed time. */
    method ToggleTimer()
      modifies this
      ensures isRunning == !old(isRunning)
      ensures time == old(time) && isExpanded == old(isExpanded)
    {
      isRunning := !isRunning;
    }

    /** `resetTimer`: stopped at zero; the panel stays as it is. */
    method ResetTimer()
      modifies this
      ensures !isRunning && time == 0
      ensures isExpanded == old(isExpanded)
    {
      isRunning := false;
      time := 0;
    }

    /** `toggleExpanded`: expanding starts the stopwatch and collapsing stops
        it; the elapsed time is kept either way. */
    method ToggleExpanded()
      modifies this
      ensures isExpanded == !old(isExpanded)
      ensures isRunning == isExpanded
      ensures time == old(time)
    {
      if isExpanded {
        isRunning := false;
      } else {
        isRunning := true;
      }
      isExpanded := !isExpanded;
    }
  }

  /** Pausing and resuming restores the state, and a paused stopwatch does
      not count; after a reset, n ticks while running show n seconds. */
  method ToggleTwiceAndTicks(w: Timer, n: nat)
    modifies w
    ensures w.isRunning == old(w.isRunning) && w.isExpanded == old(w.isExpanded)
    ensures w.time == if w.isRunning then n else 0
  {
    var wasRunning := w.isRunning;
    w.ToggleTimer();
    w.ToggleTimer();
    w.ResetTimer();
    if wasRunning {
      w.ToggleTimer();
    }
    var i := 0;
    while i < n
      invariant 0 <= i <= n
      invariant w.isRunning == old(w.isRunning) && w.isExpanded == old(w.isExpanded)
      invariant w.time == if w.isRunning then i else 0
    {
      w.Tick();
      i := i + 1;
    }
  }
}
