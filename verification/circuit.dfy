/** The circuit itself: simulated time, the two time-dependent resistances,
    the pause flag, the clock loop and the voltage-divider read-outs. */
module Circuit {
  import opened Params
  import opened Arith
  import opened Wrappers

  /** The mutable part of a `Circuit` object: time stamp `t`, the two
      varying resistances and the `halt` (pause) flag. */
  datatype Clock = Clock(t: real, r1: real, r2: real, halt: bool)

  /** `reset`: time and resistances go back to their starting values; the
      pause flag is not touched. */
  function Reset(c: Clock): (r: Clock)
    ensures r.t == 0.0 && r.r1 == 0.0 && r.r2 == 100.0
    ensures r.halt == c.halt
  {
    c.(t := 0.0, r1 := 0.0, r2 := 100.0)
  }

  /** Resetting twice is resetting once. */
  lemma ResetIdempotent(c: Clock)
    ensures Reset(Reset(c)) == Reset(c)
  {
  }

  /** Nothing of the previous time or resistances survives a reset. */
  lemma ResetForgetsState(a: Clock, b: Clock)
    requires a.halt == b.halt
    ensures Reset(a) == Reset(b)
  {
  }

  /** The state a freshly constructed circuit is in: reset and not paused. */
  function Initial(): (c: Clock)
    ensures c == Reset(c) && !c.halt
  {
    Clock(0.0, 0.0, 100.0, false)
  }

  /** `pause`: raises the flag and touches nothing else. */
  function Pause(c: Clock): (r: Clock)
    ensures r.halt
    ensures r.(halt := c.halt) == c
  {
    c.(halt := true)
  }

  /** The first statement of `start`: the flag is cleared, nothing else. */
  function Unpause(c: Clock): (r: Clock)
    ensures !r.halt
    ensures r.(halt := c.halt) == c
  {
    c.(halt := false)
  }

  /** One iteration of the body of `counter_t`. A paused circuit waits in
      the inner loop and changes nothing; otherwise time moves by `Dt` and
      the two resistances move by `RDot * Dt` in opposite directions. */
  function Tick(c: Clock): (r: Clock)
    ensures c.halt ==> r == c
    ensures r.halt == c.halt
    ensures !c.halt ==> r.t == c.t + Dt && r.r1 == c.r1 + RDot * Dt
    ensures r.r1 + r.r2 == c.r1 + c.r2
  {
    if c.halt then c
    else c.(t := c.t + Dt, r1 := c.r1 + RDot * Dt, r2 := c.r2 - RDot * Dt)
  }

  /** `n` consecutive ticks, irrespective of the loop guard. */
  function Ticks(c: Clock, n: nat): Clock
  {
    if n == 0 then c else Tick(Ticks(c, n - 1))
  }

  /** The guard of `counter_t`. */
  predicate Running(c: Clock)
  {
    BeforeEnd(c.t)
  }

  /** Any number of ticks keeps `r1 + r2` and the pause flag. */
  lemma {:induction false} TicksConserve(c: Clock, n: nat)
    ensures Ticks(c, n).r1 + Ticks(c, n).r2 == c.r1 + c.r2
    ensures Ticks(c, n).halt == c.halt
  {
    if n > 0 {
      TicksConserve(c, n - 1);
    }
  }

  /** While paused, however often the clock ticks, nothing changes. */
  lemma {:induction false} PausedTicksIdle(c: Clock, n: nat)
    requires c.halt
    ensures Ticks(c, n) == c
  {
    if n > 0 {
      PausedTicksIdle(c, n - 1);
    }
  }

  /** Unpaused, `n` ticks move time and resistances linearly in `n`. */
  lemma {:induction false} TicksAdvance(c: Clock, n: nat)
    requires !c.halt
    ensures Ticks(c, n).t == c.t + n as real * Dt
    ensures Ticks(c, n).r1 == c.r1 + n as real * (RDot * Dt)
    ensures Ticks(c, n).r2 == c.r2 - n as real * (RDot * Dt)
    ensures !Ticks(c, n).halt
  {
    if n > 0 {
      TicksAdvance(c, n - 1);
      TicksConserve(c, n - 1);
    }
  }

  /** From a reset, unpaused circuit the guard holds for the first 100
      ticks and fails after exactly 100, at `t == 10`, `r1 == 100`,
      `r2 == 0`. */
  lemma HundredTicksFromInitial(k: nat)
    ensures k < 100 ==> Running(Ticks(Initial(), k))
    ensures k >= 100 ==> !Running(Ticks(Initial(), k))
    ensures Ticks(Initial(), 100) == Clock(TMax, 100.0, 0.0, false)
  {
    TicksAdvance(Initial(), k);
    TicksAdvance(Initial(), 100);
  }

  /** The outcome of running `counter_t` to its end. */
  datatype ClockRun =
    | Completed(final: Clock, ticks: nat)
    /** Paused before the window ended: the inner wait loop never exits. */
    | Blocked(at: Clock)

  /** The whole `counter_t` loop: tick while the guard holds. */
  method RunClock(c: Clock) returns (r: ClockRun)
    ensures r.Blocked? <==> c.halt && Running(c)
    ensures r.Blocked? ==> r.at == c
    ensures r.Completed? ==> r.final == Ticks(c, r.ticks) && !Running(r.final)
    ensures r.Completed? ==> forall k :: 0 <= k < r.ticks ==> Running(Ticks(c, k))
    ensures r.Completed? ==> r.final.r1 + r.final.r2 == c.r1 + c.r2
    ensures c == Initial() ==> r == Completed(Clock(TMax, 100.0, 0.0, false), 100)
  {
    if c.halt && Running(c) {
      return Blocked(c);
    }
    var cur := c;
    var n: nat := 0;
    while Running(cur)
      invariant cur == Ticks(c, n)
      invariant forall k :: 0 <= k < n ==> Running(Ticks(c, k))
      invariant cur.r1 + cur.r2 == c.r1 + c.r2
      invariant !cur.halt || !Running(cur)
      decreases ((TMax - cur.t) / Dt).Floor
    {
      cur := Tick(cur);
      n := n + 1;
    }
    if c == Initial() {
      HundredTicksFromInitial(n);
      assert n == 100;
    }
    r := Completed(cur, n);
  }

  /** `start` without instruments: clear the flag and run the clock. */
  method Start(c: Clock) returns (r: ClockRun)
    ensures r.Completed?
    ensures r.final.r1 + r.final.r2 == c.r1 + c.r2
    ensures !Running(r.final) && !r.final.halt
  {
    r := RunClock(Unpause(c));
    TicksConserve(Unpause(c), r.ticks);
  }

  /** `restart`: reset, then start; always 100 ticks, ending at `TMax`. */
  method Restart(c: Clock) returns (r: ClockRun)
    ensures r == Completed(Clock(TMax, 100.0, 0.0, false), 100)
  {
    r := RunClock(Unpause(Reset(c)));
  }

  /** The circuit states the clock passes through after a reset: the
      resistances sum to 100 and `r1` lies between 0 and 100. */
  predicate InRange(c: Clock)
  {
    c.r1 + c.r2 == 100.0 && 0.0 <= c.r1 <= 100.0
  }

  lemma {:induction false} TicksFromInitialInRange(n: nat)
    requires n <= 100
    ensures InRange(Ticks(Initial(), n))
    ensures Ticks(Initial(), n).r2 == 0.0 <==> n == 100
  {
    TicksAdvance(Initial(), n);
  }

  /** `r_par`: the load in parallel with `r_2`. */
  function ParallelResistance(r2: real): (p: real)
    requires RL + r2 != 0.0
    ensures p * (RL + r2) == RL * r2
  {
    RL * r2 / (RL + r2)
  }

  /** `read_voltage`: the divider output, or `None` where Python raises
      `ZeroDivisionError`. */
  function ReadVoltage(c: Clock): (v: Option<real>)
    ensures v.None? <==> RL + c.r2 == 0.0 || ParallelResistance(c.r2) + c.r1 == 0.0
    ensures v.Some? ==>
      v.value * (ParallelResistance(c.r2) + c.r1) == ParallelResistance(c.r2) * Voltage
  {
    if RL + c.r2 == 0.0 then None
    else
      var rPar := ParallelResistance(c.r2);
      if rPar + c.r1 == 0.0 then None
      else Some(rPar * Voltage / (rPar + c.r1))
  }

  /** `read_current`: the voltage over the load. */
  function ReadCurrent(c: Clock): (i: Option<real>)
    ensures i.Some? <==> ReadVoltage(c).Some?
    ensures i.Some? ==> i.value * RL == ReadVoltage(c).value
  {
    match ReadVoltage(c)
    case None => None
    case Some(v) => Some(v / RL)
  }

  /** With `r1 == 0` the whole source voltage falls across the load. */
  lemma ReadVoltageShortedR1(c: Clock)
    requires c.r1 == 0.0 && RL + c.r2 != 0.0 && ParallelResistance(c.r2) != 0.0
    ensures ReadVoltage(c) == Some(Voltage)
    ensures ReadCurrent(c) == Some(Voltage / RL)
  {
    var p := ParallelResistance(c.r2);
    assert p * Voltage / (p + c.r1) == Voltage by {
      assert p + c.r1 == p;
    }
  }

  /** On every state the clock passes through, both read-outs are defined,
      the voltage lies between 0 and `Voltage`, and it (hence the current)
      is zero exactly when `r2` has reached 0. */
  lemma ReadingsInRange(c: Clock)
    requires InRange(c)
    ensures ReadVoltage(c).Some? && ReadCurrent(c).Some?
    ensures 0.0 <= ReadVoltage(c).value <= Voltage
    ensures ReadVoltage(c).value == 0.0 <==> c.r2 == 0.0
    ensures ReadCurrent(c).value == 0.0 <==> c.r2 == 0.0
  {
    var p := ParallelResistance(c.r2);
    assert 0.0 <= p by {
      assert p * (RL + c.r2) == RL * c.r2;
    }
    assert p == 0.0 <==> c.r2 == 0.0;
    assert p + c.r1 > 0.0;
    var v := ReadVoltage(c).value;
    assert v * (p + c.r1) == p * Voltage;
    assert v >= 0.0;
    assert v <= Voltage by {
      assert p * Voltage <= (p + c.r1) * Voltage;
      var q := p + c.r1;
      assert (Voltage - v) * q == Voltage * q - p * Voltage;
      assert (Voltage - v) * q >= 0.0;
      NonNegativeFactor(Voltage - v, q);
    }
  }
}
