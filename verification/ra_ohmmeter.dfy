/** `RAOhmmeter`: an ohmmeter whose displayed resistance is the average of
    the readings of the last `TInterval` seconds. */
module RaOhmmeter {
  import opened Params
  import opened Wrappers
  import opened Circuit
  import opened Meters
  import opened Window

  /** The buffer of readings, the last average and the ohmmeter's time. */
  datatype RaOhmmeter = RaOhmmeter(buffer: Buffer, resistance: real, t: real)

  /** The state `RAOhmmeter.__init__` sets up. */
  const FreshRaOhmmeter := RaOhmmeter([], 0.0, 0.0)

  /** Guard of the rolling-average ohmmeter's loop. */
  predicate RaOhmmeterRunning(ra: RaOhmmeter)
  {
    BeforeEnd(ra.t)
  }

  /** Body of `RAOhmmeter.counter_r`. The time stamp is taken first. On a
      zero current the division raises before the buffer is written and
      the iteration is skipped: buffer and resistance stay as they were.
      Otherwise the reading is stored under the new time stamp, outdated
      entries are purged, and the resistance becomes the average of what
      is left, which includes the new reading. */
  function RaStep(ra: RaOhmmeter, vm: Voltmeter, am: Ammeter): (r: RaOhmmeter)
    requires KeysUnique(ra.buffer)
    ensures KeysUnique(r.buffer)
    ensures r.t >= vm.t && r.t >= am.t && (r.t == vm.t || r.t == am.t)
    ensures am.current == 0.0 ==> r.buffer == ra.buffer && r.resistance == ra.resistance
    ensures am.current != 0.0 ==>
      && Entry(r.t, vm.voltage / am.current) in r.buffer
      && RetentionHolds(r.buffer, r.t)
      && (forall e :: e in ra.buffer && e.stamp != r.t && Retained(e.stamp, r.t) ==> e in r.buffer)
      && (forall e :: e in r.buffer ==> e.stamp == r.t || e in ra.buffer)
      && r.buffer != []
      && r.resistance == Mean(r.buffer)
  {
    var t := Max(vm.t, am.t);
    if am.current == 0.0 then ra.(t := t)
    else
      var reading := vm.voltage / am.current;
      var b := Put(ra.buffer, t, reading);
      assert Entry(t, reading) in b;
      var avg := RollingAverage(b, t);
      assert Entry(t, reading) in avg.buffer;
      RaOhmmeter(avg.buffer, avg.average.value, t)
  }

  /** With the same two readings, a second iteration changes nothing: the
      reading is overwritten by itself, and the purge and the average have
      nothing left to change. */
  lemma RaStepIdempotent(ra: RaOhmmeter, vm: Voltmeter, am: Ammeter)
    requires KeysUnique(ra.buffer)
    ensures RaStep(RaStep(ra, vm, am), vm, am) == RaStep(ra, vm, am)
  {
    var once := RaStep(ra, vm, am);
    if am.current != 0.0 {
      var t := Max(vm.t, am.t);
      var reading := vm.voltage / am.current;
      assert Entry(t, reading) in once.buffer;
      PutPresent(once.buffer, t, reading);
      PurgeKeepsRetained(once.buffer, t);
    }
  }

  /** When every stored reading equals the load `RL`, and the meters last
      sampled the same circuit state with a non-zero current, the average
      is the load `RL`. */
  lemma RaReadsLoad(ra: RaOhmmeter, c: Clock)
    requires KeysUnique(ra.buffer)
    requires forall e :: e in ra.buffer ==> e.resistance == RL
    requires InRange(c) && c.r2 != 0.0
    ensures SampleVoltage(c).Some? && SampleCurrent(c).Some?
    ensures RaStep(ra, SampleVoltage(c).value, SampleCurrent(c).value).resistance == RL
  {
    SamplingSucceeds(c);
    var vm := SampleVoltage(c).value;
    var am := SampleCurrent(c).value;
    OhmmeterReadsLoad(FreshOhmmeter, c);
    assert vm.voltage / am.current == RL;
    var r := RaStep(ra, vm, am);
    assert forall e :: e in r.buffer ==> e.resistance == RL;
    MeanBounds(r.buffer, RL, RL);
    assert r.resistance == Mean(r.buffer);
  }

  /** A skipped iteration moves the time stamp without purging, so the
      retention invariant holds after each averaging step but not after a
      skip: here a reading from 0 s is still stored at 5 s. */
  lemma SkipLeavesStaleReadings()
    ensures var r := RaStep(RaOhmmeter([Entry(0.0, RL)], RL, 0.0), Voltmeter(0.0, 5.0), Ammeter(0.0, 5.0));
            r.t == 5.0 && !RetentionHolds(r.buffer, r.t)
  {
  }

  /** The rolling-average ohmmeter's last iteration: at the clock's final
      state the current is zero, the reading is skipped, and the loop ends
      because the time stamp still reaches `TMax`. */
  lemma RaStopsAtEnd(ra: RaOhmmeter)
    requires KeysUnique(ra.buffer)
    ensures SampleVoltage(Clock(TMax, 100.0, 0.0, false)).Some?
    ensures SampleCurrent(Clock(TMax, 100.0, 0.0, false)).Some?
    ensures var r := RaStep(ra, SampleVoltage(Clock(TMax, 100.0, 0.0, false)).value,
                            SampleCurrent(Clock(TMax, 100.0, 0.0, false)).value);
            !RaOhmmeterRunning(r) && r.buffer == ra.buffer && r.resistance == ra.resistance
  {
  }

  /** The rolling-average ohmmeter as constructed: its empty buffer has
      unique keys, so `RaStep` applies from the start; its loop guard holds;
      and an iteration against an ammeter that has not sampled yet is
      skipped, leaving the buffer empty and the resistance 0. */
  lemma FreshRaOhmmeterReady(vm: Voltmeter)
    ensures KeysUnique(FreshRaOhmmeter.buffer) && RaOhmmeterRunning(FreshRaOhmmeter)
    ensures RaStep(FreshRaOhmmeter, vm, FreshAmmeter) == RaOhmmeter([], 0.0, Max(vm.t, 0.0))
  {
  }
}
