/**
 * When the simulation engine must call the reporter next: the arithmetic of
 * `OfflineReporter.describeNextReport` (mdtools/openmm/reporter.py).
 */
module Schedule {
  import opened Wrappers
  import opened Arith

  /** x is a whole multiple of n. */
  ghost predicate Multiple(x: int, n: int) {
    exists q :: q * n == x
  }

  /** Python's `%` on integers: the remainder takes the sign of the divisor. */
  function PyMod(a: int, b: int): (r: int)
    requires b != 0
    ensures b > 0 ==> 0 <= r < b
    ensures b < 0 ==> b < r <= 0
    ensures Multiple(a - r, b)
  {
    var m := a % b;
    var q := a / b;
    assert q * b + m == a;
    if b < 0 && m != 0 then
      MulShift(q, b, -1);
      assert (q - 1) * b == a - (m + b);
      m + b
    else
      assert q * b == a - m;
      m
  }

  /** The errors Python raises in the scheduling arithmetic. */
  datatype ScheduleError = ZeroDivisionError

  /**
   * The six-element answer OpenMM expects from a reporter: steps until the
   * next report, whether positions, velocities, forces and energies are
   * needed, and the periodic-box wrapping request (None leaves it to the engine).
   */
  datatype ReportRequest = ReportRequest(
    steps: int,
    needsPositions: bool,
    needsVelocities: bool,
    needsForces: bool,
    needsEnergies: bool,
    enforcePeriodicBox: Option<bool>)

  /** `describeNextReport`: the steps left until the next multiple of the interval. */
  function NextReport(currentStep: int, reportInterval: int): (r: Result<ReportRequest, ScheduleError>)
    ensures r.Failure? <==> reportInterval == 0
    ensures r.Success? ==> Multiple(currentStep + r.value.steps, reportInterval)
    ensures r.Success? ==>
      r.value.needsPositions && !r.value.needsVelocities && !r.value.needsForces &&
      !r.value.needsEnergies && r.value.enforcePeriodicBox.None?
  {
    if reportInterval == 0 then Failure(ZeroDivisionError)
    else
      var m := PyMod(currentStep, reportInterval);
      var steps := reportInterval - m;
      assert Multiple(currentStep + steps, reportInterval) by {
        var q :| q * reportInterval == currentStep - m;
        MulShift(q, reportInterval, 1);
      }
      Success(ReportRequest(steps, true, false, false, false, None))
  }

  /** No multiple of a positive n lies strictly between two consecutive multiples. */
  lemma NoMultipleBetween(q: int, n: int, x: int)
    requires n > 0 && q * n < x < q * n + n
    ensures !Multiple(x, n)
  {
    if Multiple(x, n) {
      var p :| p * n == x;
      MulShift(q, n, p - q);
      MulSign(p - q, n);
    }
  }

  /**
   * With a positive interval, the next report falls on the FIRST later step
   * that is a multiple of the interval: between 1 and reportInterval steps
   * ahead, and no step before it is a multiple.
   */
  lemma NextReportIsNextMultiple(currentStep: int, reportInterval: int)
    requires reportInterval > 0
    ensures NextReport(currentStep, reportInterval).Success?
    ensures 1 <= NextReport(currentStep, reportInterval).value.steps <= reportInterval
    ensures forall x :: currentStep < x < currentStep + NextReport(currentStep, reportInterval).value.steps ==>
      !Multiple(x, reportInterval)
  {
    var m := PyMod(currentStep, reportInterval);
    var q :| q * reportInterval == currentStep - m;
    forall x | currentStep < x < currentStep + NextReport(currentStep, reportInterval).value.steps
      ensures !Multiple(x, reportInterval)
    {
      NoMultipleBetween(q, reportInterval, x);
    }
  }
}
