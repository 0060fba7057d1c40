/** Simulation-wide constants of the circuit simulator, as exact reals.

    The Python program uses IEEE doubles; this model assumes exact
    arithmetic, so `0.1` below is exactly one tenth. */
module Params {

  /** End of the simulated time window, in seconds. */
  const TMax: real := 10.0
  /** Tolerance used in every loop guard against `TMax`. */
  const TError: real := 0.0001

  /** Source voltage of the divider. */
  const Voltage: real := 10.0
  /** Rate at which `r_1` grows and `r_2` shrinks, ohms per second. */
  const RDot: real := 10.0
  /** Clock tick, seconds. */
  const Dt: real := 0.1
  /** Fixed load resistance. */
  const RL: real := 30.0
  /** Width of the rolling-average window, seconds. */
  const TInterval: real := 2.0

  /** The guard shared by every periodic loop: simulated time has not yet
      reached the end of the window (within the tolerance). */
  predicate BeforeEnd(t: real)
  {
    t < TMax - TError
  }

  function Max(a: real, b: real): (m: real)
    ensures m >= a && m >= b
    ensures m == a || m == b
  {
    if a >= b then a else b
  }
}
