/**
 * The auto-off commitment (dashboard.py lines 25-28, 81-84, 154-161): at most
 * one pending deadline (`scheduled_off_time`) with a flag (`auto_off_active`).
 * Times are integer seconds.
 */
module AutoOff {
  import opened Wrappers

  datatype Commitment = Commitment(deadline: Option<int>, active: bool)

  /** No pending commitment: the session-start state and the state after a
      cancel or a firing. */
  const Inactive: Commitment := Commitment(None, false)

  /** The flag is set exactly when a deadline is pending. */
  predicate Consistent(c: Commitment) {
    c.active <==> c.deadline.Some?
  }

  /** `schedule_auto_off(hours)`: a new deadline `hours` from now replaces any
      earlier one. */
  function Schedule(c: Commitment, hours: int, now: int): (c': Commitment)
    ensures Consistent(c')
    ensures c'.deadline.Some? && c'.deadline.value - now == hours * 3600
  {
    Commitment(Some(now + hours * 3600), true)
  }

  /** The cancel button: both fields are cleared. */
  function Cancel(c: Commitment): (c': Commitment)
    ensures Consistent(c') && c'.deadline.None?
  {
    Inactive
  }

  /** The firing check of line 158, which looks at the deadline only. */
  predicate Due(c: Commitment, now: int) {
    c.deadline.Some? && now >= c.deadline.value
  }

  /** The state after the firing check. */
  function Fire(c: Commitment, now: int): (c': Commitment)
    ensures Due(c, now) ==> c' == Inactive
    ensures !Due(c, now) ==> c' == c
  {
    if Due(c, now) then Inactive else c
  }

  /** Every operation keeps the flag and the deadline in step, so the firing
      check's neglect of the flag does not matter. */
  lemma ConsistentPreserved(c: Commitment, hours: int, now: int)
    requires Consistent(c)
    ensures Consistent(Schedule(c, hours, now)) && Consistent(Cancel(c)) && Consistent(Fire(c, now))
    ensures Due(c, now) ==> c.active
  {
  }

  /** Last writer wins: two schedules leave only the second deadline. */
  lemma ScheduleOverwrites(c: Commitment, h1: int, t1: int, h2: int, t2: int)
    ensures Schedule(Schedule(c, h1, t1), h2, t2) == Schedule(c, h2, t2)
    ensures Schedule(Schedule(c, 1, t1), 2, t2).deadline == Some(t2 + 7200)
  {
  }

  /** Fire once: after a firing nothing is due at any later check. */
  lemma FiresOnce(c: Commitment, now: int, later: int)
    requires Due(c, now)
    ensures !Due(Fire(c, now), later)
  {
  }

  /** The events that touch the commitment. */
  datatype Event = Scheduled(hours: int, at: int) | Cancelled | Checked(now: int)

  /** The commitment after a sequence of events, and how many off commands the
      firing checks issued along the way. */
  function Replay(c: Commitment, events: seq<Event>): (Commitment, nat)
    decreases |events|
  {
    if events == [] then (c, 0)
    else
      var e := events[0];
      match e
      case Scheduled(h, t) => Replay(Schedule(c, h, t), events[1..])
      case Cancelled => Replay(Cancel(c), events[1..])
      case Checked(t) =>
        var r := Replay(Fire(c, t), events[1..]);
        (r.0, r.1 + if Due(c, t) then 1 else 0)
  }

  /** The number of schedule events in a sequence. */
  function Schedules(events: seq<Event>): nat
    decreases |events|
  {
    if events == [] then 0
    else (if events[0].Scheduled? then 1 else 0) + Schedules(events[1..])
  }

  /** No deadline fires twice: the off commands issued never outnumber the
      schedules (plus one for a deadline already pending at the start), and the
      commitment stays consistent throughout. */
  lemma {:induction false} FiresAtMostSchedules(c: Commitment, events: seq<Event>)
    requires Consistent(c)
    ensures Consistent(Replay(c, events).0)
    ensures Replay(c, events).1 <= Schedules(events) + (if c.active then 1 else 0)
    decreases |events|
  {
    if events != [] {
      match events[0]
      case Scheduled(h, t) => FiresAtMostSchedules(Schedule(c, h, t), events[1..]);
      case Cancelled => FiresAtMostSchedules(Cancel(c), events[1..]);
      case Checked(t) => FiresAtMostSchedules(Fire(c, t), events[1..]);
    }
  }
}
