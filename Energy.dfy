/**
 * Energy and cost accumulation (dashboard.py, get_device_status lines 55-59).
 *
 * Each successful reading adds the power it reports (W) times the time since
 * the previous successful reading (h) to the running total. The power is the
 * one read at the END of each interval: a right-endpoint (backward) rectangle
 * rule. Times are integer seconds; quantities are reals.
 */
module Energy {

  /** Tariff in taka per kWh (`unit_cost_bdt`). */
  const UnitCostBdt: real := 6.0

  /** One successful reading: when it was taken and the power it reported. */
  datatype Sample = Sample(time: int, powerW: real)

  /** The total after one reading of `powerW` watts at `now`, the previous
      reading having been at `last`. The elapsed time is not clamped, so a
      clock that goes back with power flowing lowers the total. */
  function Accrue(kwh: real, powerW: real, last: int, now: int): (k: real)
    ensures powerW >= 0.0 && now >= last ==> k >= kwh
    ensures powerW > 0.0 && now < last ==> k < kwh
    ensures powerW == 0.0 || now == last ==> k == kwh
  {
    var added := (powerW / 1000.0) * ((now - last) as real / 3600.0);
    assert powerW >= 0.0 && now >= last ==> added >= 0.0 by {
      if powerW >= 0.0 && now >= last {
        NonNegProduct(powerW / 1000.0, (now - last) as real / 3600.0);
      }
    }
    assert powerW > 0.0 && now < last ==> added < 0.0 by {
      if powerW > 0.0 && now < last {
        NegProduct(powerW / 1000.0, (now - last) as real / 3600.0);
      }
    }
    kwh + added
  }

  lemma NonNegProduct(a: real, b: real)
    requires a >= 0.0 && b >= 0.0
    ensures a * b >= 0.0
  {
  }

  lemma NegProduct(a: real, b: real)
    requires a > 0.0 && b < 0.0
    ensures a * b < 0.0
  {
  }

  /** The cost of an energy total (`accumulated_kwh * unit_cost_bdt`). */
  function Cost(kwh: real): (c: real)
    ensures kwh >= 0.0 ==> c >= 0.0
  {
    kwh * UnitCostBdt
  }

  /** Cost is the same affine function of energy everywhere: a difference in
      energy costs the tariff times that difference. */
  lemma CostOfDifference(k1: real, k2: real)
    ensures Cost(k2) - Cost(k1) == (k2 - k1) * UnitCostBdt
    ensures k1 <= k2 ==> Cost(k1) <= Cost(k2)
  {
  }

  /** The total after feeding a sequence of successful readings in order,
      starting from total `kwh` and previous reading time `last`. */
  function Integrate(kwh: real, last: int, samples: seq<Sample>): real
    decreases |samples|
  {
    if samples == [] then kwh
    else Integrate(Accrue(kwh, samples[0].powerW, last, samples[0].time), samples[0].time, samples[1..])
  }

  /** The time of the last reading after a sequence of readings. */
  function LastTime(last: int, samples: seq<Sample>): int {
    if samples == [] then last else samples[|samples| - 1].time
  }

  /** Readings with non-negative power on a clock that never goes back. */
  predicate Forward(last: int, samples: seq<Sample>) {
    (forall i :: 0 <= i < |samples| ==> samples[i].powerW >= 0.0) &&
    (|samples| > 0 ==> last <= samples[0].time) &&
    (forall i :: 0 < i < |samples| ==> samples[i - 1].time <= samples[i].time)
  }

  /** Monotone accumulation: with power never negative and a clock that never
      goes back, the energy total never decreases. */
  lemma {:induction false} IntegrateMonotone(kwh: real, last: int, samples: seq<Sample>)
    requires Forward(last, samples)
    ensures Integrate(kwh, last, samples) >= kwh
    decreases |samples|
  {
    if samples != [] {
      var k1 := Accrue(kwh, samples[0].powerW, last, samples[0].time);
      var rest := samples[1..];
      assert forall i :: 0 < i < |rest| ==> rest[i - 1] == samples[i] && rest[i] == samples[i + 1];
      IntegrateMonotone(k1, samples[0].time, rest);
    }
  }

  /** Totals compose: feeding `a` then `b` equals feeding `a + b`. */
  lemma {:induction false} IntegrateAppend(kwh: real, last: int, a: seq<Sample>, b: seq<Sample>)
    ensures Integrate(kwh, last, a + b) == Integrate(Integrate(kwh, last, a), LastTime(last, a), b)
    decreases |a|
  {
    if a != [] {
      assert (a + b)[0] == a[0];
      assert (a + b)[1..] == a[1..] + b;
      IntegrateAppend(Accrue(kwh, a[0].powerW, last, a[0].time), a[0].time, a[1..], b);
      if |a| > 1 {
        assert a[1..][|a[1..]| - 1] == a[|a| - 1];
      }
      assert LastTime(a[0].time, a[1..]) == LastTime(last, a);
      var k1 := Accrue(kwh, a[0].powerW, last, a[0].time);
      assert Integrate(kwh, last, a + b) == Integrate(k1, a[0].time, a[1..] + b);
      assert Integrate(kwh, last, a) == Integrate(k1, a[0].time, a[1..]);
    } else {
      assert a + b == b;
    }
  }

  /** At constant power, splitting an interval into two readings adds the same
      energy as one reading over the whole interval. */
  lemma AccrueSplit(kwh: real, powerW: real, t0: int, t1: int, t2: int)
    ensures Accrue(Accrue(kwh, powerW, t0, t1), powerW, t1, t2) == Accrue(kwh, powerW, t0, t2)
  {
    var p := powerW / 1000.0;
    var d1 := (t1 - t0) as real / 3600.0;
    var d2 := (t2 - t1) as real / 3600.0;
    assert (t2 - t0) as real / 3600.0 == d1 + d2;
    assert p * d1 + p * d2 == p * (d1 + d2);
  }

  /** The first reading after a gap (a closed browser, or a restart that
      restored `last_update_time` from the checkpoint) charges the whole gap
      at the power read at its end: ten hours after the last reading, one
      reading of 1000 W adds 10 kWh, whatever the plug drew meanwhile. */
  lemma GapChargedAtEndPower(t: int)
    ensures Integrate(0.0, t, [Sample(t + 36000, 1000.0)]) == 10.0
  {
    assert Integrate(0.0, t, [Sample(t + 36000, 1000.0)]) == Accrue(0.0, 1000.0, t, t + 36000);
  }

  /** A checkpoint of 5.0 kWh followed by one reading of 1000 W an hour later
      gives 6.0 kWh, costing 36 taka. */
  lemma OneKilowattHour(t: int)
    ensures Accrue(5.0, 1000.0, t, t + 3600) == 6.0
    ensures Cost(Accrue(5.0, 1000.0, t, t + 3600)) == 36.0
  {
  }
}
