/**
 * The dashboard's session engine (dashboard.py): the session fields that one
 * script run updates in place, the history list it appends to, and the two
 * files it writes.
 *
 * The cloud (status query and switch command), the files and the clock are
 * outside: a status query is passed in as a `Fetch`, the files are the fields
 * of a `Store`, the clock is the `now` parameter (integer seconds).
 */
module Dashboard {
  import opened Wrappers
  import opened Telemetry
  import Energy
  import OnWindow
  import AutoOff

  /** One row of the history table, with the keys of lines 89-97. */
  datatype Record = Record(
    time: int, currentMa: int, voltageV: real, powerW: real,
    energyKwh: real, costBdt: real, durationMin: int)

  /** The column names of the history table, in the order of the record. */
  const RecordColumns: seq<string> :=
    ["Time", "Current (mA)", "Voltage (V)", "Power (W)", "Energy (kWh)", "Cost (BDT)", "Duration (min)"]

  /** The tuple returned by `get_device_status`:
      (power_on, power, voltage, current, kwh, cost, duration). */
  datatype Status = Status(
    powerOn: bool, power: real, voltage: real, current: int,
    kwh: real, cost: real, duration: int)

  /** The tuple returned when the status query raised. */
  const FailedStatus: Status := Status(false, 0.0, 0.0, 0, 0.0, 0.0, 0)

  /** The outcome of `cloud.getstatus`: the `status` list (empty when the key
      is absent), or an exception. */
  datatype Fetch = Fetched(items: seq<StatusItem>) | FetchFailed

  /** The contents of `session_backup.json`; each key may be absent. */
  datatype Checkpoint = Checkpoint(kwh: Option<real>, lastUpdate: Option<int>)

  /** The energy part of the session: `accumulated_kwh`, `last_update_time`
      and the ON window. */
  datatype Meter = Meter(kwh: real, lastUpdate: int, window: OnWindow.Window)

  /** The checkpoint written at lines 101-105. */
  function Save(kwh: real, lastUpdate: int): Checkpoint {
    Checkpoint(Some(kwh), Some(lastUpdate))
  }

  /** Lines 35-43: the energy total and the last update time at startup, from
      the checkpoint if the file exists, each key defaulting separately. */
  function Restore(backup: Option<Checkpoint>, now: int): (r: (real, int))
    ensures backup.None? ==> r == (0.0, now)
    ensures backup.Some? && backup.value.kwh.Some? ==> r.0 == backup.value.kwh.value
    ensures backup.Some? && backup.value.kwh.None? ==> r.0 == 0.0
    ensures backup.Some? && backup.value.lastUpdate.Some? ==> r.1 == backup.value.lastUpdate.value
    ensures backup.Some? && backup.value.lastUpdate.None? ==> r.1 == now
  {
    match backup
    case None => (0.0, now)
    case Some(cp) => (cp.kwh.GetOr(0.0), cp.lastUpdate.GetOr(now))
  }

  /** Writing the checkpoint and restoring from it gives back the same state,
      whatever the clock says at restart. */
  lemma CheckpointRoundTrip(kwh: real, lastUpdate: int, now: int)
    ensures Restore(Some(Save(kwh, lastUpdate)), now) == (kwh, lastUpdate)
  {
  }

  /** One call of `get_device_status` on the energy part of the session. */
  function Poll(m: Meter, fetch: Fetch, now: int): (r: (Meter, Status))
    ensures fetch.FetchFailed? ==> r == (m, FailedStatus)
    ensures fetch.Fetched? ==>
      var reading := Decode(fetch.items);
      r.0.lastUpdate == now &&
      r.0.kwh - m.kwh == (reading.power / 1000.0) * ((now - m.lastUpdate) as real / 3600.0) &&
      r.1 == Status(reading.switchOn, reading.power, reading.voltage, reading.current,
                    r.0.kwh, Energy.Cost(r.0.kwh), r.0.window.durationMinutes)
    ensures fetch.Fetched? && Decode(fetch.items).power >= 0.0 && now >= m.lastUpdate ==>
      r.0.kwh >= m.kwh
  {
    match fetch
    case FetchFailed => (m, FailedStatus)
    case Fetched(items) =>
      var reading := Decode(items);
      var kwh := Energy.Accrue(m.kwh, reading.power, m.lastUpdate, now);
      var w := OnWindow.Observe(reading.switchOn, m.window.onTime, now);
      (Meter(kwh, now, w),
       Status(reading.switchOn, reading.power, reading.voltage, reading.current,
              kwh, Energy.Cost(kwh), w.durationMinutes))
  }

  /** A poll's ON window follows the two-state machine, and it keeps
      `duration_minutes` at 0 while `on_time` is absent. */
  lemma PollWindow(m: Meter, fetch: Fetch, now: int)
    requires m.window.onTime.None? ==> m.window.durationMinutes == 0
    ensures var r := Poll(m, fetch, now);
      (r.0.window.onTime.None? ==> r.0.window.durationMinutes == 0) &&
      (fetch.Fetched? ==> r.0.window == OnWindow.Observe(Decode(fetch.items).switchOn, m.window.onTime, now))
  {
  }

  /** The history row built from a status tuple (indices 3, 2, 1, 4, 5, 6). */
  function RecordOf(now: int, s: Status): Record {
    Record(now, s.current, s.voltage, s.power, s.kwh, s.cost, s.duration)
  }

  /** The buttons of one script run; Streamlit reports at most one click. */
  datatype Press = NoPress | PressOn | PressOff | PressSchedule | PressCancel

  /** Lines 150-157: the Schedule button is shown only while no auto-off is
      active, the Cancel button only while one is. */
  function AfterButtons(c: AutoOff.Commitment, press: Press, hours: int, now: int): AutoOff.Commitment {
    match press
    case PressSchedule => if !c.active then AutoOff.Schedule(c, hours, now) else c
    case PressCancel => if c.active then AutoOff.Cancel(c) else c
    case _ => c
  }

  /** The switch commands the On and Off buttons send (lines 134-139). */
  function ButtonCommands(press: Press): seq<bool> {
    match press
    case PressOn => [true]
    case PressOff => [false]
    case _ => []
  }

  /** The two files: `energy_history.csv` and `session_backup.json`
      (`None` when the file does not exist). */
  class Store {
    var historyCsv: Option<seq<Record>>
    var backup: Option<Checkpoint>

    constructor (historyCsv: Option<seq<Record>>, backup: Option<Checkpoint>)
      ensures this.historyCsv == historyCsv && this.backup == backup
    {
      this.historyCsv := historyCsv;
      this.backup := backup;
    }
  }

  /** The command side of the cloud: the `switch_1` values sent, in order. */
  class Cloud {
    var sent: seq<bool>

    constructor ()
      ensures sent == []
    {
      sent := [];
    }

    /** `toggle_device(state)`: the command goes out whether or not the cloud
        then reports an error; `delivered` is that report. */
    method ToggleDevice(state: bool, delivered: bool) returns (ok: bool)
      modifies this
      ensures sent == old(sent) + [state]
      ensures ok == delivered
    {
      sent := sent + [state];
      ok := delivered;
    }
  }

  /** `st.session_state` as far as the engine uses it. */
  class Session {
    var accumulatedKwh: real
    var lastUpdateTime: int
    var onTime: Option<int>
    var durationMinutes: int
    var scheduledOffTime: Option<int>
    var autoOffActive: bool
    var history: seq<Record>

    /** The energy part of the session. */
    function MeterState(): Meter
      reads this
    {
      Meter(accumulatedKwh, lastUpdateTime, OnWindow.Window(onTime, durationMinutes))
    }

    /** The auto-off part of the session. */
    function AutoOffState(): AutoOff.Commitment
      reads this
    {
      AutoOff.Commitment(scheduledOffTime, autoOffActive)
    }

    /** The auto-off flag follows the deadline, and the duration is 0 while
        the plug is not known to be on. */
    ghost predicate Valid()
      reads this
    {
      AutoOff.Consistent(AutoOffState()) &&
      (onTime.None? ==> durationMinutes == 0)
    }

    /** Lines 25-43 at the first run of a session: no auto-off, no ON window,
        the history from the CSV file (empty if there is none), the energy
        state from the checkpoint. */
    constructor (store: Store, now: int)
      ensures Valid()
      ensures AutoOffState() == AutoOff.Inactive
      ensures onTime.None? && durationMinutes == 0
      ensures history == (if store.historyCsv.Some? then store.historyCsv.value else [])
      ensures (accumulatedKwh, lastUpdateTime) == Restore(store.backup, now)
    {
      scheduledOffTime := None;
      autoOffActive := false;
      history := if store.historyCsv.Some? then store.historyCsv.value else [];
      onTime := None;
      durationMinutes := 0;
      match store.backup {
        case Some(saved) =>
          accumulatedKwh := saved.kwh.GetOr(0.0);
          lastUpdateTime := saved.lastUpdate.GetOr(now);
        case None =>
          accumulatedKwh := 0.0;
          lastUpdateTime := now;
      }
    }

    /** `get_device_status` (lines 46-72). */
    method GetDeviceStatus(fetch: Fetch, now: int) returns (s: Status)
      requires Valid()
      modifies this`accumulatedKwh, this`lastUpdateTime, this`onTime, this`durationMinutes
      ensures Valid()
      ensures (MeterState(), s) == Poll(old(MeterState()), fetch, now)
    {
      match fetch {
        case FetchFailed =>
          s := FailedStatus;
        case Fetched(items) =>
          var reading := Decode(items);
          var deltaTimeHours := (now - lastUpdateTime) as real / 3600.0;
          ghost var before := accumulatedKwh;
          lastUpdateTime := now;
          accumulatedKwh := accumulatedKwh + (reading.power / 1000.0) * deltaTimeHours;
          assert accumulatedKwh == Energy.Accrue(before, reading.power, old(lastUpdateTime), now);
          var cost := accumulatedKwh * Energy.UnitCostBdt;
          if reading.switchOn {
            if onTime.None? {
              onTime := Some(now);
            }
            durationMinutes := OnWindow.TruncDiv(now - onTime.value, 60);
          } else {
            onTime := None;
            durationMinutes := 0;
          }
          s := Status(reading.switchOn, reading.power, reading.voltage, reading.current,
                      accumulatedKwh, cost, durationMinutes);
      }
    }

    /** `update_history_row` (lines 86-106): poll, append one row, rewrite the
        CSV file with the whole history and the checkpoint with the current
        energy state. */
    method UpdateHistoryRow(store: Store, fetch: Fetch, now: int) returns (s: Status)
      requires Valid()
      modifies this`accumulatedKwh, this`lastUpdateTime, this`onTime, this`durationMinutes, this`history, store
      ensures Valid()
      ensures (MeterState(), s) == Poll(old(MeterState()), fetch, now)
      ensures history == old(history) + [RecordOf(now, s)]
      ensures store.historyCsv == Some(history)
      ensures store.backup == Some(Save(accumulatedKwh, lastUpdateTime))
    {
      s := GetDeviceStatus(fetch, now);
      history := history + [RecordOf(now, s)];
      store.historyCsv := Some(history);
      store.backup := Some(Save(accumulatedKwh, lastUpdateTime));
    }

    /** `schedule_auto_off` (lines 81-84). */
    method ScheduleAutoOff(hours: int, now: int)
      requires Valid()
      modifies this`scheduledOffTime, this`autoOffActive
      ensures Valid()
      ensures AutoOffState() == AutoOff.Schedule(old(AutoOffState()), hours, now)
    {
      scheduledOffTime := Some(now + hours * 3600);
      autoOffActive := true;
    }

    /** The Cancel Auto-Off branch (lines 154-157). */
    method CancelAutoOff()
      requires Valid()
      modifies this`scheduledOffTime, this`autoOffActive
      ensures Valid()
      ensures AutoOffState() == AutoOff.Cancel(old(AutoOffState()))
    {
      scheduledOffTime := None;
      autoOffActive := false;
    }

    /** The firing check (lines 158-161): when a deadline is pending and has
        passed, one off command goes out and both fields are cleared, whether
        or not the command was delivered. */
    method CheckAutoOff(cloud: Cloud, now: int, delivered: bool) returns (fired: bool)
      requires Valid()
      modifies this`scheduledOffTime, this`autoOffActive, cloud
      ensures Valid()
      ensures fired == AutoOff.Due(old(AutoOffState()), now)
      ensures AutoOffState() == AutoOff.Fire(old(AutoOffState()), now)
      ensures cloud.sent == old(cloud.sent) + (if fired then [false] else [])
    {
      fired := scheduledOffTime.Some? && now >= scheduledOffTime.value;
      if fired {
        var _ := cloud.ToggleDevice(false, delivered);
        scheduledOffTime := None;
        autoOffActive := false;
      }
    }

    /** One run of the script (lines 128-161): log a row, handle the button
        pressed, then check the auto-off deadline. */
    method Run(store: Store, cloud: Cloud, fetch: Fetch, now: int, press: Press, hours: int,
               buttonDelivered: bool, autoOffDelivered: bool) returns (s: Status)
      requires Valid()
      modifies this, store, cloud
      ensures Valid()
      ensures (MeterState(), s) == Poll(old(MeterState()), fetch, now)
      ensures history == old(history) + [RecordOf(now, s)]
      ensures store.historyCsv == Some(history)
      ensures store.backup == Some(Save(accumulatedKwh, lastUpdateTime))
      ensures var c := AfterButtons(old(AutoOffState()), press, hours, now);
        AutoOffState() == AutoOff.Fire(c, now) &&
        cloud.sent == old(cloud.sent) + ButtonCommands(press) + (if AutoOff.Due(c, now) then [false] else [])
    {
      s := UpdateHistoryRow(store, fetch, now);
      match press {
        case PressOn =>
          var _ := cloud.ToggleDevice(true, buttonDelivered);
        case PressOff =>
          var _ := cloud.ToggleDevice(false, buttonDelivered);
        case PressSchedule =>
          if !autoOffActive {
            ScheduleAutoOff(hours, now);
          }
        case PressCancel =>
          if autoOffActive {
            CancelAutoOff();
          }
        case NoPress =>
      }
      var _ := CheckAutoOff(cloud, now, autoOffDelivered);
    }
  }
}
