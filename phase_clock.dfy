/**
 * The poll-driven clock of `get_status` (gpro/backend/app.py): one tick per
 * poll, a Touch/Untouch phase read off the elapsed ticks modulo a cycle of
 * two phases, and completion after `cycles` whole cycles.
 */
module PhaseClock {
  datatype Phase = Touch | Untouch

  /** Python's `a // m`: the quotient rounded towards minus infinity. */
  function FloorDiv(a: int, m: int): int
    requires m != 0
  {
    if m > 0 then a / m
    else if a % -m == 0 then -(a / -m)
    else -(a / -m) - 1
  }

  /** Python's `a % m`: the remainder takes the sign of the divisor (Dafny's `%` is Euclidean). */
  function FloorMod(a: int, m: int): (r: int)
    requires m != 0
    ensures m > 0 ==> 0 <= r < m
    ensures m < 0 ==> m < r <= 0
    ensures a == FloorDiv(a, m) * m + r
  {
    if m > 0 then a % m
    else
      var e := a % -m;
      if e == 0 then 0 else e + m
  }

  /** Any quotient/remainder pair with the remainder in Python's range is the one FloorMod gives. */
  lemma FloorModUnique(a: int, m: int, q: int, r: int)
    requires m != 0
    requires m > 0 ==> 0 <= r < m
    requires m < 0 ==> m < r <= 0
    requires a == q * m + r
    ensures FloorMod(a, m) == r
  {
    var f, p := FloorMod(a, m), FloorDiv(a, m);
    assert (p - q) * m == r - f;
    if p != q {
      MulMagnitude(p - q, m);
    }
  }

  lemma MulMagnitude(t: int, m: int)
    requires t != 0 && m != 0
    ensures t * m >= m || t * m <= -m
    ensures t * m <= m || t * m >= -m
  {
  }

  /** Adding whole cycles does not change the position within the cycle. */
  lemma FloorModShift(a: int, m: int, k: int)
    requires m != 0
    ensures FloorMod(a + k * m, m) == FloorMod(a, m)
  {
    var r, q := FloorMod(a, m), FloorDiv(a, m);
    assert a + k * m == (q + k) * m + r;
    FloorModUnique(a + k * m, m, q + k, r);
  }

  /** The phase at a tick: Touch in the first half of the two-phase cycle, Untouch in the second. */
  function PhaseAt(elapsed: int, duration: int): (phase: Phase)
    requires duration != 0
    ensures duration > 0 ==> (phase == Touch <==> elapsed % (duration * 2) < duration)
  {
    if FloorMod(elapsed, duration * 2) < duration then Touch else Untouch
  }

  /** The phase repeats every two phase durations. */
  lemma PhasePeriodic(elapsed: int, duration: int, k: int)
    requires duration != 0
    ensures PhaseAt(elapsed + k * (duration * 2), duration) == PhaseAt(elapsed, duration)
  {
    FloorModShift(elapsed, duration * 2, k);
  }

  /** In every cycle the first `duration` ticks are Touch and the next `duration` are Untouch. */
  lemma PhaseWithinCycle(k: int, j: int, duration: int)
    requires duration > 0 && 0 <= j < duration * 2
    ensures PhaseAt(k * (duration * 2) + j, duration) == (if j < duration then Touch else Untouch)
  {
    PhasePeriodic(j, duration, k);
    FloorModUnique(j, duration * 2, 0, j);
  }

  /** The number of ticks after which the test is complete. */
  function TotalTicks(cycles: int, duration: int): (total: int)
    ensures total > 0 <==> (cycles > 0 && duration > 0) || (cycles < 0 && duration < 0)
    ensures duration != 0 ==> FloorMod(total, duration * 2) == 0
  {
    var total := cycles * (duration * 2);
    if duration == 0 then total
    else
      FloorModUnique(total, duration * 2, cycles, 0);
      total
  }

  /** The effect of one poll on (elapsed, finished) when the poll does not fail. */
  function Step(elapsed: nat, finished: bool, total: int): (next: (nat, bool))
    ensures elapsed <= next.0 <= elapsed + 1
    ensures finished ==> next.1 && next.0 == elapsed
    ensures next.1 && !finished ==> next.0 >= total
    ensures !next.1 ==> next.0 < total && next.0 == elapsed + 1
    ensures !finished ==> next.0 == elapsed + 1 && (next.1 <==> next.0 >= total)
  {
    if finished then (elapsed, true) else (elapsed + 1, elapsed + 1 >= total)
  }

  /** (elapsed, finished) after n polls from a fresh start. */
  function Steps(n: nat, total: int): (state: (nat, bool))
    ensures state.0 <= n
    ensures state.1 ==> state.0 >= total && state.0 >= 1
    ensures !state.1 ==> state.0 == n
  {
    if n == 0 then (0, false) else
      var prev := Steps(n - 1, total);
      Step(prev.0, prev.1, total)
  }

  function Min(a: int, b: int): int { if a <= b then a else b }
  function Max(a: int, b: int): int { if a >= b then a else b }

  /**
   * After n polls from start: elapsed is n capped at the total (at least one
   * tick, since the first poll ticks before it checks), and the test is
   * finished exactly from the poll that reaches the total.
   */
  lemma {:induction false} StepsFromStart(n: nat, total: int)
    ensures Steps(n, total).0 == (if n == 0 then 0 else Min(n, Max(total, 1)))
    ensures Steps(n, total).1 <==> n > 0 && n >= total
  {
    if n > 0 {
      StepsFromStart(n - 1, total);
    }
  }

  /** Once finished, further polls change neither flag nor tick count. */
  lemma {:induction false} StepsStayFinished(n: nat, m: nat, total: int)
    requires n <= m && Steps(n, total).1
    ensures Steps(m, total) == Steps(n, total)
    decreases m - n
  {
    if n < m {
      StepsStayFinished(n, m - 1, total);
    }
  }
}
