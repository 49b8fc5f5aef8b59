/**
 * The ON window (dashboard.py, get_device_status lines 61-67): a two-state
 * machine over `on_time` that reports how many whole minutes the plug has been
 * on since the dashboard first saw it on.
 */
module OnWindow {
  import opened Wrappers

  /** `on_time` (absent while off) and `duration_minutes`. */
  datatype Window = Window(onTime: Option<int>, durationMinutes: int)

  /** The state at session start (dashboard.py lines 31-34). */
  const Off: Window := Window(None, 0)

  /** Python's `int(a / d)`: the quotient truncated toward zero. */
  function TruncDiv(a: int, d: int): (q: int)
    requires d > 0
    ensures a >= 0 ==> 0 <= q && q * d <= a < q * d + d
    ensures a < 0 ==> q <= 0 && q * d - d < a <= q * d
  {
    if a >= 0 then
      assert a == (a / d) * d + a % d && 0 <= a % d < d;
      a / d
    else
      assert -a == ((-a) / d) * d + (-a) % d && 0 <= (-a) % d < d;
      -((-a) / d)
  }

  /** One successful reading of the switch at time `now` (seconds). */
  function Observe(switchOn: bool, onTime: Option<int>, now: int): (w: Window)
    ensures w.onTime.Some? <==> switchOn
    ensures w.onTime.None? ==> w.durationMinutes == 0
    ensures switchOn && onTime.None? ==> w == Window(Some(now), 0)
    ensures switchOn && onTime.Some? ==> w.onTime == onTime
    ensures switchOn && onTime.Some? ==> w.durationMinutes == TruncDiv(now - onTime.value, 60)
  {
    if switchOn then
      var since := if onTime.Some? then onTime.value else now;
      Window(Some(since), TruncDiv(now - since, 60))
    else
      Off
  }

  /** One reading of the switch. */
  datatype Tick = Tick(switchOn: bool, now: int)

  /** The window after a sequence of successful readings. */
  function Replay(w: Window, ticks: seq<Tick>): Window
    decreases |ticks|
  {
    if ticks == [] then w
    else Replay(Observe(ticks[0].switchOn, w.onTime, ticks[0].now), ticks[1..])
  }

  /** Replaying one more reading is observing it in the state reached. */
  lemma {:induction false} ReplaySnoc(w: Window, ticks: seq<Tick>, t: Tick)
    ensures Replay(w, ticks + [t]) == Observe(t.switchOn, Replay(w, ticks).onTime, t.now)
    decreases |ticks|
  {
    if ticks == [] {
      assert ticks + [t] == [t];
    } else {
      assert (ticks + [t])[1..] == ticks[1..] + [t];
      ReplaySnoc(Observe(ticks[0].switchOn, w.onTime, ticks[0].now), ticks[1..], t);
    }
  }

  /** A reading with the switch off ends the window, whatever came before. */
  lemma OffResets(w: Window, ticks: seq<Tick>, t: Tick)
    requires !t.switchOn
    ensures Replay(w, ticks + [t]) == Off
  {
    ReplaySnoc(w, ticks, t);
  }

  /** While every reading is on, `on_time` stays at the time the window opened
      (the first reading, or the earlier `on_time` if one was set) and the
      duration is the truncated number of minutes since then. */
  lemma {:induction false} OnStreak(w: Window, ticks: seq<Tick>)
    requires |ticks| > 0
    requires forall i :: 0 <= i < |ticks| ==> ticks[i].switchOn
    ensures var since := if w.onTime.Some? then w.onTime.value else ticks[0].now;
      Replay(w, ticks) == Window(Some(since), TruncDiv(ticks[|ticks| - 1].now - since, 60))
    decreases |ticks|
  {
    var w1 := Observe(ticks[0].switchOn, w.onTime, ticks[0].now);
    if |ticks| > 1 {
      OnStreak(w1, ticks[1..]);
    }
  }

  /** Two on readings 125 s apart report 2 minutes; an off reading then
      clears `on_time` and reports 0. */
  lemma TwoMinutesThenOff(t0: int)
    ensures Replay(Off, [Tick(true, t0), Tick(true, t0 + 125)]) == Window(Some(t0), 2)
    ensures Replay(Off, [Tick(true, t0), Tick(true, t0 + 125), Tick(false, t0 + 130)]) == Off
  {
    var ons := [Tick(true, t0), Tick(true, t0 + 125)];
    OnStreak(Off, ons);
    OffResets(Off, ons, Tick(false, t0 + 130));
    assert ons + [Tick(false, t0 + 130)] == [Tick(true, t0), Tick(true, t0 + 125), Tick(false, t0 + 130)];
  }
}
