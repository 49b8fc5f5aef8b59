/**
 * Decoding of the plug's status report into readings (dashboard.py, get_device_status).
 *
 * The cloud answers with a list of data points, each a `code` and a `value`.
 * The dashboard folds that list into a dictionary (a later entry with the same
 * code overwrites an earlier one) and reads four codes from it with defaults.
 */
module Telemetry {

  /** A data-point value. The plug reports booleans (`switch_1`) and integers
      (power in tenths of a watt, voltage in tenths of a volt, current in mA). */
  datatype DpValue = BoolVal(b: bool) | IntVal(n: int)

  /** One entry of the `status` list of a cloud response. */
  datatype StatusItem = StatusItem(code: string, value: DpValue)

  /** One instantaneous reading of the plug. */
  datatype Reading = Reading(switchOn: bool, power: real, voltage: real, current: int)

  const SwitchCode: string := "switch_1"
  const PowerCode: string := "cur_power"
  const VoltageCode: string := "cur_voltage"
  const CurrentCode: string := "cur_current"

  /** Python truthiness of a value (`if power_on:`). */
  function Truthy(v: DpValue): bool {
    match v
    case BoolVal(b) => b
    case IntVal(n) => n != 0
  }

  /** Numeric value of a data point; a Python bool is the integer 0 or 1. */
  function IntOf(v: DpValue): int {
    match v
    case BoolVal(b) => if b then 1 else 0
    case IntVal(n) => n
  }

  /** The dictionary `{item["code"]: item["value"] for item in status}`,
      built left to right so that later entries overwrite earlier ones. */
  function Dps(items: seq<StatusItem>): (m: map<string, DpValue>)
    ensures forall c :: c in m <==> exists i :: 0 <= i < |items| && items[i].code == c
  {
    if items == [] then map[]
    else
      var last := items[|items| - 1];
      Dps(items[..|items| - 1])[last.code := last.value]
  }

  /** `dps.get(code, default)`. */
  function Lookup(items: seq<StatusItem>, code: string, default: DpValue): DpValue {
    var m := Dps(items);
    if code in m then m[code] else default
  }

  /** The four readings the dashboard takes from a status list. */
  function Decode(items: seq<StatusItem>): Reading {
    Reading(
      Truthy(Lookup(items, SwitchCode, BoolVal(false))),
      IntOf(Lookup(items, PowerCode, IntVal(0))) as real / 10.0,
      IntOf(Lookup(items, VoltageCode, IntVal(0))) as real / 10.0,
      IntOf(Lookup(items, CurrentCode, IntVal(0))))
  }

  /** The entry at index i is the last one carrying its code. */
  predicate LastWithCode(items: seq<StatusItem>, i: int) {
    0 <= i < |items| && forall j :: i < j < |items| ==> items[j].code != items[i].code
  }

  /** The value stored under a code is the one of the last entry with that code. */
  lemma {:induction false} DpsLastWins(items: seq<StatusItem>, i: int)
    requires LastWithCode(items, i)
    ensures items[i].code in Dps(items) && Dps(items)[items[i].code] == items[i].value
  {
    var n := |items|;
    if i < n - 1 {
      var init := items[..n - 1];
      assert forall j :: i < j < |init| ==> init[j] == items[j];
      DpsLastWins(init, i);
      assert init[i] == items[i];
    }
  }

  /** A code that no entry carries reads as the default. */
  lemma LookupAbsent(items: seq<StatusItem>, code: string, default: DpValue)
    requires forall i :: 0 <= i < |items| ==> items[i].code != code
    ensures Lookup(items, code, default) == default
  {
  }

  /** A code that some entry carries reads as the value of its last entry. */
  lemma LookupLast(items: seq<StatusItem>, i: int, default: DpValue)
    requires LastWithCode(items, i)
    ensures Lookup(items, items[i].code, default) == items[i].value
  {
    DpsLastWins(items, i);
  }

  /** An empty status list decodes to the defaults: switch off, every quantity 0. */
  lemma DecodeEmpty()
    ensures Decode([]) == Reading(false, 0.0, 0.0, 0)
  {
  }

  /** Decoding with the scaling of each code: the last entry carrying a code
      decides its field; power and voltage are tenths, current is taken
      unchanged and the switch by truthiness. */
  lemma DecodeLastEntry(items: seq<StatusItem>, i: int)
    requires LastWithCode(items, i)
    ensures var r, v := Decode(items), items[i].value;
      (items[i].code == SwitchCode ==> r.switchOn == Truthy(v)) &&
      (items[i].code == PowerCode ==> r.power == IntOf(v) as real / 10.0) &&
      (items[i].code == VoltageCode ==> r.voltage == IntOf(v) as real / 10.0) &&
      (items[i].code == CurrentCode ==> r.current == IntOf(v))
  {
    DpsLastWins(items, i);
  }

  /** A code that no entry carries reads as off (the switch) or 0. */
  lemma DecodeMissing(items: seq<StatusItem>, code: string)
    requires forall i :: 0 <= i < |items| ==> items[i].code != code
    ensures var r := Decode(items);
      (code == SwitchCode ==> !r.switchOn) &&
      (code == PowerCode ==> r.power == 0.0) &&
      (code == VoltageCode ==> r.voltage == 0.0) &&
      (code == CurrentCode ==> r.current == 0)
  {
  }

  /** Appending one entry replaces exactly the field its code feeds and leaves
      the others as they were: the last entry wins. */
  lemma DecodeAppend(items: seq<StatusItem>, it: StatusItem)
    ensures var r, r' := Decode(items), Decode(items + [it]);
      r'.switchOn == (if it.code == SwitchCode then Truthy(it.value) else r.switchOn) &&
      r'.power == (if it.code == PowerCode then IntOf(it.value) as real / 10.0 else r.power) &&
      r'.voltage == (if it.code == VoltageCode then IntOf(it.value) as real / 10.0 else r.voltage) &&
      r'.current == (if it.code == CurrentCode then IntOf(it.value) else r.current)
  {
    assert (items + [it])[..|items|] == items;
  }
}
