/** The voltmeter, the ammeter and the plain ohmmeter: one loop iteration
    of each, after its sleep. */
module Meters {
  import opened Params
  import opened Wrappers
  import opened Circuit

  /** Last reading of a voltmeter and the circuit time it was taken at. */
  datatype Voltmeter = Voltmeter(voltage: real, t: real)
  /** Last reading of an ammeter and the circuit time it was taken at. */
  datatype Ammeter = Ammeter(current: real, t: real)
  /** Last computed resistance and the time stamp the ohmmeter holds. */
  datatype Ohmmeter = Ohmmeter(resistance: real, t: real)

  /** The state each instrument's constructor sets up. */
  const FreshVoltmeter := Voltmeter(0.0, 0.0)
  const FreshAmmeter := Ammeter(0.0, 0.0)
  const FreshOhmmeter := Ohmmeter(0.0, 0.0)

  /** Guard of the voltmeter's loop, on its own copy of the time. */
  predicate VoltmeterRunning(vm: Voltmeter)
  {
    BeforeEnd(vm.t)
  }

  /** Guard of the ammeter's loop. */
  predicate AmmeterRunning(am: Ammeter)
  {
    BeforeEnd(am.t)
  }

  /** Guard of the ohmmeter's loop. */
  predicate OhmmeterRunning(om: Ohmmeter)
  {
    BeforeEnd(om.t)
  }

  /** Body of `counter_v`: record the circuit's voltage and time. `None`
      when `read_voltage` raises (the source does not catch it). */
  function SampleVoltage(c: Clock): (r: Option<Voltmeter>)
    ensures r.Some? <==> ReadVoltage(c).Some?
    ensures r.Some? ==> r.value.t == c.t
    ensures r.Some? ==> r.value.voltage * (ParallelResistance(c.r2) + c.r1)
                        == ParallelResistance(c.r2) * Voltage
  {
    match ReadVoltage(c)
    case None => None
    case Some(v) => Some(Voltmeter(v, c.t))
  }

  /** Body of `counter_c`: record the circuit's current and time. */
  function SampleCurrent(c: Clock): (r: Option<Ammeter>)
    ensures r.Some? <==> ReadVoltage(c).Some?
    ensures r.Some? ==> r.value.t == c.t
    ensures r.Some? ==> r.value.current * RL == ReadVoltage(c).value
  {
    match ReadCurrent(c)
    case None => None
    case Some(i) => Some(Ammeter(i, c.t))
  }

  /** On every state the clock passes through after a reset, both meters
      sample successfully; the current is zero only once `r2` is 0. */
  lemma SamplingSucceeds(c: Clock)
    requires InRange(c)
    ensures SampleVoltage(c).Some? && SampleCurrent(c).Some?
    ensures 0.0 <= SampleVoltage(c).value.voltage <= Voltage
    ensures SampleCurrent(c).value.current == 0.0 <==> c.r2 == 0.0
  {
    ReadingsInRange(c);
  }

  /** Body of `Ohmmeter.counter_r`. The time stamp is taken BEFORE the
      division, so it moves even when the current is zero; the resistance
      is only replaced when the division succeeds. */
  function OhmmeterStep(om: Ohmmeter, vm: Voltmeter, am: Ammeter): (r: Ohmmeter)
    ensures r.t >= vm.t && r.t >= am.t && (r.t == vm.t || r.t == am.t)
    ensures am.current == 0.0 ==> r.resistance == om.resistance
    ensures am.current != 0.0 ==> r.resistance * am.current == vm.voltage
  {
    var t := Max(vm.t, am.t);
    if am.current == 0.0 then om.(t := t)
    else Ohmmeter(vm.voltage / am.current, t)
  }

  /** With the same two readings, a second ohmmeter iteration changes
      nothing: the result depends only on the readings and, on a zero
      current, on the previous resistance. */
  lemma OhmmeterStepIdempotent(om: Ohmmeter, vm: Voltmeter, am: Ammeter)
    ensures OhmmeterStep(OhmmeterStep(om, vm, am), vm, am) == OhmmeterStep(om, vm, am)
  {
  }

  /** When the two meters last sampled the same circuit state and the
      current is not zero, the ohmmeter reads exactly the load `RL`. */
  lemma OhmmeterReadsLoad(om: Ohmmeter, c: Clock)
    requires InRange(c) && c.r2 != 0.0
    ensures SampleVoltage(c).Some? && SampleCurrent(c).Some?
    ensures OhmmeterStep(om, SampleVoltage(c).value, SampleCurrent(c).value).resistance == RL
    ensures OhmmeterStep(om, SampleVoltage(c).value, SampleCurrent(c).value).t == c.t
  {
    SamplingSucceeds(c);
    var v := SampleVoltage(c).value.voltage;
    var i := SampleCurrent(c).value.current;
    assert i * RL == v;
    assert v / i == RL;
  }

  /** At the clock's final state `r2` is 0, so the current read there is
      zero. Because the time stamp is taken before the division, the
      ohmmeter still reaches `TMax` and its loop ends; its resistance is
      kept. */
  lemma OhmmeterStopsAtEnd(om: Ohmmeter)
    ensures SampleVoltage(Clock(TMax, 100.0, 0.0, false)).Some?
    ensures SampleCurrent(Clock(TMax, 100.0, 0.0, false)).Some?
    ensures SampleCurrent(Clock(TMax, 100.0, 0.0, false)).value.current == 0.0
    ensures var r := OhmmeterStep(om, SampleVoltage(Clock(TMax, 100.0, 0.0, false)).value,
                                  SampleCurrent(Clock(TMax, 100.0, 0.0, false)).value);
            !OhmmeterRunning(r) && r.resistance == om.resistance
  {
  }

  /** The instruments as constructed: every loop guard holds at time 0, and
      an ohmmeter iteration against an ammeter that has not sampled yet
      meets a zero current, so it keeps its resistance and only takes the
      later time stamp. */
  lemma FreshInstruments(om: Ohmmeter, vm: Voltmeter)
    ensures VoltmeterRunning(FreshVoltmeter) && AmmeterRunning(FreshAmmeter)
    ensures OhmmeterRunning(FreshOhmmeter)
    ensures OhmmeterStep(om, vm, FreshAmmeter) == Ohmmeter(om.resistance, Max(vm.t, 0.0))
  {
  }
}
