/** The post-fit arithmetic of compute_elastic_constants.py: the elastic constant from
    the fitted curvature A and the cell volume, the AXIS check, the volume of the
    goldene cell and the axis label of the report. The least-squares fit that produces
    (A, B) is not part of this model: the fitted parameters are an input. */
module ElasticConstants {
  import opened Errors

  /** Normal elastic constants along x and y (eV/A^3), fixed in the script. */
  const C11: real := 78.5620508475068
  const C22: real := 86.59810090977048

  /** Lattice parameters of the goldene cell (Angstrom): in-plane a, b and the
      interlayer distance d0. */
  const LatticeA: real := 2.758
  const LatticeB: real := 4.713
  const InterlayerDistance: real := 3.45

  /** The axis the script is configured for. */
  const ConfiguredAxis: int := 1

  /** The fitted parameters of energy = A * strain^2 + B. */
  datatype FitParameters = FitParameters(a: real, b: real)

  /** compute_elastic_constant after the fit: A / V for the axes 0 and 1, and
      (A / V - C11 - C22) / 2 for any other axis value. The fit parameters are
      returned unchanged beside the constant. */
  function ComputeElasticConstant(fit: FitParameters, axis: int, volume: real): (r: (real, FitParameters))
    requires volume != 0.0
    ensures r.1 == fit
    ensures axis in {0, 1} ==> r.0 * volume == fit.a
    ensures axis !in {0, 1} ==> (2.0 * r.0 + C11 + C22) * volume == fit.a
  {
    var constant :=
      if axis in {0, 1} then fit.a / volume
      else ((fit.a / volume) - C11 - C22) / 2.0;
    (constant, fit)
  }

  /** The curvature A a fit must have for the extractor to report `constant`. */
  function CurvatureFor(constant: real, axis: int, volume: real): real {
    if axis in {0, 1} then constant * volume else (2.0 * constant + C11 + C22) * volume
  }

  /** The extractor and CurvatureFor are inverse to each other: every constant is
      reported for exactly one curvature. */
  lemma ExtractorInverse(fit: FitParameters, constant: real, axis: int, volume: real)
    requires volume != 0.0
    ensures ComputeElasticConstant(fit, axis, volume).0 == constant <==>
      fit.a == CurvatureFor(constant, axis, volume)
  {
  }

  /** volume = ax * ay * d0 */
  function Volume(ax: real, ay: real, d0: real): (v: real)
    ensures ax > 0.0 && ay > 0.0 && d0 > 0.0 ==> v > 0.0
  {
    ax * ay * d0
  }

  /** The label of the report: "x" for 0, "y" for 1 and "xy" for anything else. */
  function AxisLabel(axis: int): (name: string)
    ensures name == "x" <==> axis == 0
    ensures name == "y" <==> axis == 1
    ensures name == "xy" <==> axis !in {0, 1}
  {
    if axis == 0 then "x" else if axis == 1 then "y" else "xy"
  }

  /** What the script reports: the axis label, the elastic constant and the fit. */
  datatype Report = Report(axisLabel: string, elasticConstant: real, fit: FitParameters)

  /** The script body: rejects an AXIS outside {0, 1, 10} before anything is computed,
      then runs the extractor on the goldene cell volume and labels the axis. */
  function RunScript(axis: int, fit: FitParameters): (r: Result<Report>)
    ensures r.Failure? <==> axis !in {0, 1, 10}
    ensures r.Failure? ==> r.error == InvalidAxisSelector
    ensures r.Success? ==> r.value.fit == fit && r.value.axisLabel == AxisLabel(axis)
  {
    if axis !in {0, 1, 10} then Failure(InvalidAxisSelector)
    else
      var volume := Volume(LatticeA, LatticeB, InterlayerDistance);
      var (constant, parameters) := ComputeElasticConstant(fit, axis, volume);
      Success(Report(AxisLabel(axis), constant, parameters))
  }

  /** For every accepted AXIS the report's label and formula agree: "x" and "y" come
      with A / V, "xy" (AXIS = 10) with the corrected (A / V - C11 - C22) / 2, where V
      is the positive volume of the goldene cell. */
  lemma ScriptReport(axis: int, fit: FitParameters)
    requires axis in {0, 1, 10}
    ensures var v := Volume(LatticeA, LatticeB, InterlayerDistance);
      v > 0.0 && RunScript(axis, fit).Success? &&
      var rep := RunScript(axis, fit).value;
      (axis == 0 ==> rep.axisLabel == "x" && rep.elasticConstant == fit.a / v) &&
      (axis == 1 ==> rep.axisLabel == "y" && rep.elasticConstant == fit.a / v) &&
      (axis == 10 ==>
        rep.axisLabel == "xy" && rep.elasticConstant == (fit.a / v - C11 - C22) / 2.0)
  {
  }

  /** The script as configured (AXIS = 1) passes the check and reports the y constant. */
  lemma ConfiguredScript(fit: FitParameters)
    ensures RunScript(ConfiguredAxis, fit).Success?
    ensures RunScript(ConfiguredAxis, fit).value.axisLabel == "y"
  {
  }
}
