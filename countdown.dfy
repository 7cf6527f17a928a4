/**
 * The countdown-beep detector of src/application/services/game_service.py
 * (the same block appears twice, for the pre-wave countdown and for the
 * countdown after a wave is cleared). In the last two seconds of a countdown
 * a beep is due when the current one-second index exceeds the index of the
 * stored mark; after a beep the mark becomes `2.0 - remaining`.
 */
module Countdown {

  import opened Optional

  const BeepWindow: real := 2.0
  const BeepInterval: real := 1.0

  /** Python's int() on a float: truncation toward zero. */
  function Trunc(x: real): int
  {
    if x >= 0.0 then x.Floor else -((-x).Floor)
  }

  /** The one-second index of the current tick within the window. */
  function BeepIndex(remaining: real): int
  {
    Trunc((BeepWindow - remaining) / BeepInterval)
  }

  /**
   * The index of the stored mark: -1 when there is none, and, because the
   * source writes `mark or -1` and 0.0 is falsy, also when the mark is 0.0.
   */
  function MarkIndex(mark: Option<real>): int
  {
    match mark
    case None => -1
    case Some(m) => Trunc((if m == 0.0 then -1.0 else m) / BeepInterval)
  }

  datatype BeepStep = BeepStep(beeped: bool, mark: Option<real>)

  /** One tick of the detector, `remaining` seconds before the countdown ends. */
  function CountdownTick(hooked: bool, remaining: real, mark: Option<real>): (s: BeepStep)
    ensures s.beeped ==> hooked && 0.0 < remaining <= BeepWindow
    ensures s.beeped ==> s.mark == Some(BeepWindow - remaining) && 0 <= BeepIndex(remaining) <= 1
    ensures s.beeped ==> BeepIndex(remaining) > MarkIndex(mark)
    ensures hooked && 0.0 < remaining <= BeepWindow && BeepIndex(remaining) > MarkIndex(mark) ==> s.beeped
    ensures s.beeped && remaining != BeepWindow ==> MarkIndex(s.mark) == BeepIndex(remaining)
    ensures !s.beeped ==> s.mark == mark
  {
    if hooked && remaining <= BeepWindow && remaining > 0.0 && BeepIndex(remaining) > MarkIndex(mark)
    then BeepStep(true, Some(BeepWindow - remaining))
    else BeepStep(false, mark)
  }

  /** A mark the detector can have stored: none, or `2.0 - remaining` for a remaining time in (0, 2]. */
  predicate WindowMark(mark: Option<real>)
  {
    mark.None? || 0.0 <= mark.value < BeepWindow
  }

  /** The detector only ever stores a mark inside the window. */
  lemma TickKeepsWindowMark(hooked: bool, remaining: real, mark: Option<real>)
    requires WindowMark(mark)
    ensures WindowMark(CountdownTick(hooked, remaining, mark).mark)
  {
  }

  /** How many beeps a run of ticks at the remaining times `ticks` produces, from the mark `mark`. */
  function Beeps(hooked: bool, ticks: seq<real>, mark: Option<real>): nat
  {
    if ticks == [] then 0
    else
      var s := CountdownTick(hooked, ticks[0], mark);
      (if s.beeped then 1 else 0) + Beeps(hooked, ticks[1..], s.mark)
  }

  /** The number of ticks that land exactly at the start of the beep window. */
  function AtWindowStart(ticks: seq<real>): nat
  {
    if ticks == [] then 0 else (if ticks[0] == BeepWindow then 1 else 0) + AtWindowStart(ticks[1..])
  }

  /**
   * Every beep raises the mark's index, except a beep exactly at the start of
   * the window, whose mark 0.0 counts as no mark. So a window gives at most
   * two beeps plus one per tick landing exactly at its start.
   */
  lemma {:induction false} BeepBound(hooked: bool, ticks: seq<real>, mark: Option<real>)
    requires WindowMark(mark)
    ensures -1 <= MarkIndex(mark) <= 1
    ensures Beeps(hooked, ticks, mark) <= 1 - MarkIndex(mark) + AtWindowStart(ticks)
  {
    if ticks != [] {
      var s := CountdownTick(hooked, ticks[0], mark);
      BeepBound(hooked, ticks[1..], s.mark);
    }
  }

  /** Without a tick exactly at the start of the window, a countdown beeps at most twice. */
  lemma AtMostTwoBeeps(hooked: bool, ticks: seq<real>)
    requires forall i :: 0 <= i < |ticks| ==> ticks[i] != BeepWindow
    ensures Beeps(hooked, ticks, None) <= 2
  {
    NoTickAtStart(ticks);
    BeepBound(hooked, ticks, None);
  }

  lemma {:induction false} NoTickAtStart(ticks: seq<real>)
    requires forall i :: 0 <= i < |ticks| ==> ticks[i] != BeepWindow
    ensures AtWindowStart(ticks) == 0
  {
    if ticks != [] {
      NoTickAtStart(ticks[1..]);
    }
  }

  /** Strictly decreasing remaining times (a clock that always advances) meet the window start at most once. */
  lemma {:induction false} DecreasingTicksAtStart(ticks: seq<real>)
    requires forall i, j :: 0 <= i < j < |ticks| ==> ticks[i] > ticks[j]
    ensures AtWindowStart(ticks) <= 1
  {
    if ticks != [] {
      if ticks[0] == BeepWindow {
        NoTickAtStart(ticks[1..]);
      } else {
        DecreasingTicksAtStart(ticks[1..]);
      }
    }
  }

  /** With a clock that always advances, a countdown beeps at most three times. */
  lemma AtMostThreeBeeps(hooked: bool, ticks: seq<real>)
    requires forall i, j :: 0 <= i < j < |ticks| ==> ticks[i] > ticks[j]
    ensures Beeps(hooked, ticks, None) <= 3
  {
    DecreasingTicksAtStart(ticks);
    BeepBound(hooked, ticks, None);
  }

  /**
   * A tick in the last second, from a mark whose index is at most 0, makes
   * at least one beep: the detector cannot miss the second beep.
   */
  lemma {:induction false} SecondBeepDue(ticks: seq<real>, mark: Option<real>, j: nat)
    requires MarkIndex(mark) <= 0
    requires j < |ticks| && 0.0 < ticks[j] <= BeepInterval
    ensures Beeps(true, ticks, mark) >= 1
  {
    var s := CountdownTick(true, ticks[0], mark);
    if !s.beeped {
      assert j != 0;
      SecondBeepDue(ticks[1..], s.mark, j - 1);
    }
  }

  /**
   * With a clock that always advances, a fresh window with a tick in each of
   * its two seconds (and none exactly at its start) beeps exactly twice,
   * whatever the tick rate.
   */
  lemma {:induction false} ExactlyTwoBeeps(ticks: seq<real>, i: nat, j: nat)
    requires forall a, b :: 0 <= a < b < |ticks| ==> ticks[a] > ticks[b]
    requires forall a :: 0 <= a < |ticks| ==> ticks[a] != BeepWindow
    requires i < j < |ticks| && BeepInterval < ticks[i] <= BeepWindow && 0.0 < ticks[j] <= BeepInterval
    ensures Beeps(true, ticks, None) == 2
  {
    AtMostTwoBeeps(true, ticks);
    FirstBeepDue(ticks, i, j);
  }

  lemma {:induction false} FirstBeepDue(ticks: seq<real>, i: nat, j: nat)
    requires forall a, b :: 0 <= a < b < |ticks| ==> ticks[a] > ticks[b]
    requires i < j < |ticks| && BeepInterval < ticks[i] <= BeepWindow && 0.0 < ticks[j] <= BeepInterval
    ensures Beeps(true, ticks, None) >= 2
  {
    var s := CountdownTick(true, ticks[0], None);
    if i == 0 || s.beeped {
      assert ticks[0] >= ticks[i];
      assert s.beeped && MarkIndex(s.mark) <= 0;
      SecondBeepDue(ticks[1..], s.mark, j - 1);
    } else {
      FirstBeepDue(ticks[1..], i - 1, j - 1);
    }
  }

  /** A tick exactly at the window start followed by one in each second gives three beeps. */
  lemma ThreeBeepsFromExactStart()
    ensures Beeps(true, [2.0, 1.5, 0.5], None) == 3
  {
  }

  /** A clock that stalls exactly at the window start beeps on every tick. */
  lemma {:induction false} StalledClockBeepsEveryTick(n: nat)
    ensures Beeps(true, seq(n, _ => BeepWindow), None) == n
  {
    if n > 0 {
      var ticks := seq(n, _ => BeepWindow);
      assert ticks[1..] == seq(n - 1, _ => BeepWindow);
      StalledClockBeepsEveryTick(n - 1);
    }
  }

  /**
   * A mark left over from the second half of an earlier window silences a
   * whole countdown: no index can exceed 1.
   */
  lemma {:induction false} StaleMarkSilences(hooked: bool, ticks: seq<real>, m: real)
    requires 1.0 <= m < BeepWindow
    ensures Beeps(hooked, ticks, Some(m)) == 0
  {
    if ticks != [] {
      StaleMarkSilences(hooked, ticks[1..], m);
    }
  }
}
