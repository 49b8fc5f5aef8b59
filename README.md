# Tuya smart-plug dashboard: the session engine and the history summary

This is a Dafny model of the logic inside a Streamlit dashboard for one Tuya
smart plug. The dashboard's script runs again every 60 seconds, after an
auto-refresh. On each run it does five things:

- it asks the cloud for the plug's status list;
- it decodes the switch, power, voltage and current from that list;
- it adds power × elapsed time to a running energy total and prices it at
  6 taka per kWh;
- it tracks how long the plug has been on;
- it appends one row to the history table, rewrites the history CSV file and
  the JSON checkpoint, and handles the buttons and the single auto-off
  deadline.

A second page reads the history file. It drops rows whose time does not
parse, checks the columns, keeps the rows of a date range and reports the
energy and cost used over that range.

Modules:

- `Telemetry`: the status list and how it is decoded. Later entries with the
  same code overwrite earlier ones.
- `Energy`: the right-endpoint (backward) rectangle rule and the tariff. Each
  interval is charged at the power read at its end.
- `OnWindow`: the ON-window state machine over `on_time`.
- `AutoOff`: the auto-off commitment as a value. This is the deadline and its
  flag, with schedule, cancel and fire.
- `Dashboard`: the session as a class whose fields the methods update in
  place. `Session` holds the fields of `st.session_state`. One more class
  stands in for the two files (`Store`) and one for the command side of the
  cloud (`Cloud`). `Poll` is the pure description of one status call.
  `Session.Run` is one whole script run.
- `HistorySummary`: the summary page. A `Frame` class covers the in-place
  `to_datetime` and `dropna`. Pure functions over rows cover the column
  check, the date filter and the totals.

Time is integer seconds throughout. The clock is a parameter `now`, and one
value stands for every clock read of one run. Quantities are reals. A day
is 86400 seconds, and days are numbered from the epoch.

The model follows the code:

- A row is appended on every run. There is no minimum logging interval
  (dashboard.py:128).
- A negative elapsed time is not clamped. `Energy.Accrue` proves that a
  clock going back while power flows lowers the energy total.
- A failed status call leaves `last_update_time` where it was, and returns
  all zeros (dashboard.py:70-72).
- The firing check reads only `scheduled_off_time`. `AutoOff.ConsistentPreserved`
  shows that the flag and the deadline always agree, so this makes no
  difference.

Three consequences of the code as written:

- The first reading after a gap charges the whole gap at the power read at
  its end. The gap can come from a closed browser, or from a restart that
  restores `last_update_time` from the checkpoint. `GapChargedAtEndPower`
  shows ten hours billed at 10 kWh for one reading of 1000 W.

- A failed status call logs a row with energy 0 and cost 0 (`Poll`, first
  ensures). The page's last-minus-first total over a range ending on such a
  row can therefore be negative (`FailedPollGivesNegativeTotal`).
  `TotalOfNonDecreasing` needs a non-decreasing series.
- A history file without a `Time` column makes `df['Time']` raise at
  pages/1_History_Summary.py:30. This happens before the column check, so the
  "missing columns" message never lists `Time`. See `ShowSummary`, last
  ensures.

## Model

| member | source | states |
|---|---|---|
| `Telemetry.Dps` | dashboard.py:49 | the dictionary has a key for exactly the codes that occur in the status list |
| `Telemetry.DpsLastWins` | dashboard.py:49 | when a code repeats, the dictionary holds the value of its last entry |
| `Telemetry.LookupAbsent` | dashboard.py:50-53 | a code that no entry carries reads as the default |
| `Telemetry.LookupLast` | dashboard.py:50-53 | a code that entries carry reads as the value of the last one |
| `Telemetry.DecodeLastEntry` | dashboard.py:49-53 | the last entry carrying a code decides its field: power and voltage are the raw value / 10, current is raw, the switch is the value's truthiness |
| `Telemetry.DecodeMissing` | dashboard.py:50-53 | a code that no entry carries reads as switch off, or as 0 for power, voltage and current |
| `Telemetry.DecodeAppend` | dashboard.py:49-53 | one more entry replaces exactly the field its code feeds and leaves the other three unchanged |
| `Telemetry.DecodeEmpty` | dashboard.py:49-53 | an empty (or absent) status list decodes to switch off and all quantities 0 |
| `Energy.Accrue` | dashboard.py:55-58 | one reading never lowers the total when power ≥ 0 and time moves forward; with power > 0 and the clock going back it lowers it (no clamp); with zero power or zero elapsed time it changes nothing |
| `Energy.Cost` | dashboard.py:59 | the cost of a non-negative energy total is non-negative |
| `Energy.CostOfDifference` | dashboard.py:59 | a difference in energy costs 6 taka per kWh of difference; cost is monotone in energy |
| `Energy.IntegrateMonotone` | dashboard.py:55-58 | over any sequence of readings with power ≥ 0 on a clock that never goes back, the energy total never decreases |
| `Energy.IntegrateAppend` | dashboard.py:55-58 | feeding two batches of readings one after the other gives the same total as feeding them together |
| `Energy.AccrueSplit` | dashboard.py:56-58 | at constant power, two readings over adjacent intervals add the same energy as one reading over the whole interval |
| `Energy.GapChargedAtEndPower` | dashboard.py:51-58 | the power read at the end of an interval is charged for all of it: one reading of 1000 W ten hours after the last gives 10 kWh |
| `Energy.OneKilowattHour` | dashboard.py:56-59 | 5.0 kWh plus 1000 W for 3600 s gives 6.0 kWh costing 36 taka |
| `OnWindow.TruncDiv` | dashboard.py:64 | `int()` of the quotient truncates toward zero: bounds for non-negative and negative dividends |
| `OnWindow.Observe` | dashboard.py:61-67 | switch on with no `on_time`: `on_time` is now and the duration 0; switch on with `on_time`: `on_time` kept and the duration the minutes since it truncated toward zero (negative quotients included, when the clock reads earlier than `on_time`); switch off: `on_time` cleared and the duration 0 |
| `OnWindow.ReplaySnoc` | dashboard.py:61-67 | the window after a sequence of readings is each reading observed in turn |
| `OnWindow.OffResets` | dashboard.py:65-67 | a reading with the switch off clears the window whatever came before |
| `OnWindow.OnStreak` | dashboard.py:61-64 | while every reading is on, `on_time` stays at the time the window opened and the duration is the truncated minutes since then |
| `OnWindow.TwoMinutesThenOff` | dashboard.py:61-67 | two on readings 125 s apart give 2 minutes; a following off reading clears the window |
| `AutoOff.Schedule` | dashboard.py:81-83 | the deadline becomes now + hours × 3600 and the flag is set |
| `AutoOff.Cancel` | dashboard.py:155-156 | both fields are cleared |
| `AutoOff.Fire` | dashboard.py:158-161 | a pending deadline that has passed clears both fields; any other state is left unchanged |
| `AutoOff.ConsistentPreserved` | dashboard.py:150-161 | schedule, cancel and fire keep the flag set exactly when a deadline is pending, so a due deadline always has its flag set |
| `AutoOff.ScheduleOverwrites` | dashboard.py:81-83 | last writer wins: scheduling twice leaves only the second deadline |
| `AutoOff.FiresOnce` | dashboard.py:158-161 | after a firing nothing is due at any later check |
| `AutoOff.FiresAtMostSchedules` | dashboard.py:150-161 | over any sequence of schedules, cancels and checks, the off commands issued never outnumber the schedules (plus one for a deadline already pending) |
| `Dashboard.Restore` | dashboard.py:35-43 | no checkpoint gives (0.0, now); with a checkpoint each key is used when present, else 0.0 or now |
| `Dashboard.CheckpointRoundTrip` | dashboard.py:101-105 | restoring the checkpoint the run wrote gives back its energy total and last update time |
| `Dashboard.Poll` | dashboard.py:46-72 | a failed call returns all zeros and changes nothing; a successful one sets the last update time to now, adds (power/1000)·(Δt/3600) kWh, reports cost = total × 6 after the update, and never lowers the total when power ≥ 0 and now ≥ last update |
| `Dashboard.PollWindow` | dashboard.py:61-67 | a successful poll steps the ON window by the state machine; the duration stays 0 while `on_time` is absent |
| `Dashboard.Cloud.ToggleDevice` | dashboard.py:74-79 | exactly one switch command goes out; the reported outcome does not change anything else |
| `Dashboard.Session.constructor` | dashboard.py:25-43 | a session starts with no auto-off, no ON window, the history from the CSV file (empty if none) and the energy state from the checkpoint |
| `Dashboard.Session.GetDeviceStatus` | dashboard.py:46-72 | the fields and the returned tuple are those `Poll` gives, and the session invariant is kept |
| `Dashboard.Session.UpdateHistoryRow` | dashboard.py:86-106 | polls, appends exactly one row built from status fields 3, 2, 1, 4, 5, 6 after the earlier rows, and writes the whole history and the current (total, last update time) to the files |
| `Dashboard.Session.ScheduleAutoOff` | dashboard.py:81-84 | the commitment becomes `AutoOff.Schedule` of the old one |
| `Dashboard.Session.CancelAutoOff` | dashboard.py:154-157 | the commitment is cleared |
| `Dashboard.Session.CheckAutoOff` | dashboard.py:158-161 | fires exactly when a deadline is pending and has passed; then one off command is sent and both fields are cleared whatever the outcome; otherwise nothing changes |
| `Dashboard.Session.Run` | dashboard.py:128-161 | one script run logs one row and writes both files; then the buttons act (Schedule only while inactive, Cancel only while active); then the deadline check runs; the commands sent are the button's followed by at most one off command |
| `HistorySummary.Keep` | pages/1_History_Summary.py:58 | a boolean-mask selection contains a row exactly when the input does and the row meets the condition, and is never longer than the input |
| `HistorySummary.KeepCounts` | pages/1_History_Summary.py:58 | a selection keeps each row meeting the condition as many times as it occurs in the input, and no other row |
| `HistorySummary.KeepIsSubsequence` | pages/1_History_Summary.py:58 | a selection is an order-preserving subsequence of its input |
| `HistorySummary.KeepIdempotent` | pages/1_History_Summary.py:58 | selecting again with the same condition changes nothing |
| `HistorySummary.CoerceRows` | pages/1_History_Summary.py:30 | time parsing keeps every row, in place, with its Time cell replaced by the parsed stamp or NaT |
| `HistorySummary.ParsedRowsKept` | pages/1_History_Summary.py:30-31 | after parsing and `dropna`, the rows left are exactly the rows whose time parses, in their original order, one row fewer per failed parse |
| `HistorySummary.DroppedCount` | pages/1_History_Summary.py:30-31 | exactly one row is dropped per time that does not parse |
| `HistorySummary.MissingColumns` | pages/1_History_Summary.py:34-35 | a column is listed exactly when it is expected and absent; the list is empty exactly when every expected column is present |
| `HistorySummary.MissingInExpectedOrder` | pages/1_History_Summary.py:35 | the missing columns come in expected-column order |
| `HistorySummary.DashboardTableComplete` | pages/1_History_Summary.py:34 | the columns the dashboard writes include every expected column |
| `HistorySummary.WholeDays` | pages/1_History_Summary.py:56-57 | start 00:00:00 ≤ t ≤ end 23:59:59 holds exactly when t's day lies between the two days, both included |
| `HistorySummary.DateFilterProperties` | pages/1_History_Summary.py:56-58 | the filter keeps exactly the stamped rows whose day is in range, each as many times as it occurs in the input, as an order-preserving subsequence, and re-filtering changes nothing |
| `HistorySummary.TotalIsSumOfSteps` | pages/1_History_Summary.py:99-100 | last minus first (0 with fewer than two values) equals the sum of the steps between consecutive values |
| `HistorySummary.TotalOfNonDecreasing` | pages/1_History_Summary.py:99 | over a non-decreasing energy series the total is never negative |
| `HistorySummary.FailedPollGivesNegativeTotal` | pages/1_History_Summary.py:99 | a failed status call logs energy 0, so after a row with positive energy the last-minus-first total is negative |
| `HistorySummary.PricedTotals` | pages/1_History_Summary.py:96-100 | where each row's cost is 6 × its energy, the numeric cost series is 6 × the numeric energy series, element by element, and the total cost is 6 × the total energy |
| `HistorySummary.Frame.CoerceTime` | pages/1_History_Summary.py:30 | the table's rows become their time-parsed form |
| `HistorySummary.Frame.DropMissingTime` | pages/1_History_Summary.py:31 | the table keeps only its rows with a time |
| `HistorySummary.ShowSummary` | pages/1_History_Summary.py:21-100 | the page's outcomes in order, each decided by the table as read (the columns are never changed; the rows are unchanged on the empty-file and no-Time exits): no file, empty file, no Time column (the KeyError), missing columns, no rows in range, else the filtered rows with last-minus-first energy and cost totals over their numeric values; a missing-column report never lists Time |

## Left out

- Cloud calls: the tinytuya calls (`cloud.getstatus`, `cloud.sendcommand`) are external. A status call is a `Fetch` parameter. A successful one gives its `status` list, and a missing `status` key is the empty list. Any exception is `FetchFailed`. A command is recorded in `Cloud.sent`, and its reported outcome is a parameter.
- Malformed status entries: an entry without `code` or `value` makes the call fail. It is covered by `FetchFailed`, not modelled entry by entry. Data-point values are booleans or integers.
- Files: the CSV and JSON files are stored values in `Store`. The CSV round trip gives back the records as written. pandas type inference and date parsing on re-reading are not modelled.
- HistorySummary.WholeDays: holds for integer-second stamps only. The dashboard logs `datetime.now()` with microseconds, and the page's end bound is end_date 23:59:59.000000, so a row in the last fractional second of the end day (say 23:59:59.4) is dropped by the real filter; the model does not show this.
- HistorySummary.DateFilterProperties: "keeps exactly the rows whose day is in range" rests on integer-second stamps; with the source's microsecond stamps the final fractional second of the end day is excluded.
- One browser session: each Streamlit tab has its own `st.session_state` (one `Session`), but all tabs share `energy_history.csv` and `session_backup.json` (one `Store`). Each run rewrites both files in full (dashboard.py:99-105), so a second tab overwrites the first tab's rows and checkpoint. The model proves nothing about two sessions sharing a store.
- Clock reads: `time.time()` and `datetime.now()` are one integer-second parameter per run. The source reads the clock several times per run, and floating-point seconds are not modelled.
- Floating point: quantities are exact reals. IEEE rounding is not modelled.
- Presentation: all of it is out. That means gauges, donut, trend plots, matplotlib/seaborn charts, the `plot_options` loop, `describe()`, `corr()`, the max-power metric, the last-100-rows view, messages, page switching and `st_autorefresh` itself.
- The date picker: the two chosen days are parameters of `ShowSummary`. Lines 52-54 are not modelled: the picker's bounds (the dates of the first and last time) and its behaviour when one date is chosen or no time parsed.
- A history file with no header at all makes `pd.read_csv` raise before line 25; `ShowSummary` does not include this case.
- Time parsing: `pd.to_datetime`'s parsing and calendar rules are a parameter `parse`. A cell that is or parses to a number counts as numeric for `pd.to_numeric`; anything else is dropped.
- Streamlit's widget mechanics: one button press per run is an input, and only the Schedule and Cancel buttons' visibility rule (lines 150-154) is modelled. The slider is the `hours` argument.
- test_tuya_cloud.py: a manual script of live cloud calls, with no logic of its own.
