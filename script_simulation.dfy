/**
 * The simulation of javascrip/script.js: a timer-driven test that computes a
 * shear force from a soil-type-specific peak stress and a three-phase curve
 * (elastic below 1 mm, plastic to 3 mm, then hardening for sand and softening
 * otherwise), converts it back to stress over a 36 cm² sample, and records vertical
 * strain (dilation for sand, contraction otherwise). The run ends, unclamped, on the
 * first tick at or past 5 mm.
 *
 * `tanDeg` stands for Math.tan of an angle given in degrees.
 */
module ScriptSimulation {
  import SampleBuffer
  import opened RunClock
  import opened Soil
  import opened Reals

  /** The run ends on the first tick at or past 5 mm. */
  const EndDisplacement: real := 5.0

  /** Sample area in cm² used to convert between stress (kPa) and force. */
  const SampleArea: real := 36.0

  /** Peak shear stress (kPa) by soil type at normal stress σ. */
  function PeakShearStress(soilType: SoilType, normalStress: real, tanDeg: real -> real): real
  {
    match soilType
    case Sand => normalStress * tanDeg(35.0)
    case Clay => 50.0 + normalStress * tanDeg(20.0)
    case Silt => 20.0 + normalStress * tanDeg(28.0)
    case SandClay => 30.0 + normalStress * tanDeg(32.0)
    case _ => normalStress * 0.5
  }

  /** Each type's peak stress is a Mohr-Coulomb line: its intercept at σ = 0 and its slope. */
  lemma PeakShearStressEnvelope(soilType: SoilType, normalStress: real, tanDeg: real -> real)
    ensures soilType == Sand ==> PeakShearStress(soilType, normalStress, tanDeg) == 0.0 + normalStress * tanDeg(35.0)
    ensures soilType == Clay ==> PeakShearStress(soilType, normalStress, tanDeg) == 50.0 + normalStress * tanDeg(20.0)
    ensures soilType == Silt ==> PeakShearStress(soilType, normalStress, tanDeg) == 20.0 + normalStress * tanDeg(28.0)
    ensures soilType == SandClay ==> PeakShearStress(soilType, normalStress, tanDeg) == 30.0 + normalStress * tanDeg(32.0)
    ensures soilType !in {Sand, Clay, Silt, SandClay} ==> PeakShearStress(soilType, normalStress, tanDeg) == 0.5 * normalStress
  {
  }

  /** The peak stress is non-negative when σ and the four tangents are. */
  lemma PeakShearStressNonNegative(soilType: SoilType, normalStress: real, tanDeg: real -> real)
    requires normalStress >= 0.0
    requires tanDeg(35.0) >= 0.0 && tanDeg(20.0) >= 0.0 && tanDeg(28.0) >= 0.0 && tanDeg(32.0) >= 0.0
    ensures PeakShearStress(soilType, normalStress, tanDeg) >= 0.0
  {
  }

  /** Force at a given stress over the 36 cm² sample: stress · 36 / 10. */
  function ForceFromStress(stress: real): real
  {
    stress * SampleArea / 10.0
  }

  /** Stress (kPa) at a given force over the 36 cm² sample: force / 36 · 10. */
  function StressFromForce(force: real): real
  {
    force / SampleArea * 10.0
  }

  /** The two conversions are inverse to each other. */
  lemma ForceStressRoundTrip(stress: real, force: real)
    ensures StressFromForce(ForceFromStress(stress)) == stress
    ensures ForceFromStress(StressFromForce(force)) == force
  {
  }

  /** calculateShearForce's curve for a peak force `maxForce` at displacement `d`. */
  function ForceCurve(soilType: SoilType, maxForce: real, d: real): real
  {
    if d < 1.0 then maxForce * (d / 1.0) * 0.7
    else if d < 3.0 then
      var progress := (d - 1.0) / 2.0;
      maxForce * (0.7 + 0.3 * progress)
    else
      var progress := (d - 3.0) / 2.0;
      if soilType == Sand then maxForce * (1.0 + 0.1 * progress)
      else maxForce * (1.0 - 0.1 * progress)
  }

  /** calculateShearForce: the curve scaled to the peak force of the soil type. */
  function ShearForce(soilType: SoilType, normalStress: real, d: real, tanDeg: real -> real): real
  {
    ForceCurve(soilType, ForceFromStress(PeakShearStress(soilType, normalStress, tanDeg)), d)
  }

  /**
   * The fraction of the peak mobilised at displacement `d`, written by slope:
   * 0.7 per mm to 1 mm, 0.15 per mm to 3 mm, then ±0.05 per mm.
   */
  function PhaseFactor(soilType: SoilType, d: real): real
  {
    if d < 1.0 then 0.7 * d
    else if d < 3.0 then 0.7 + 0.15 * (d - 1.0)
    else if soilType == Sand then 1.0 + 0.05 * (d - 3.0)
    else 1.0 - 0.05 * (d - 3.0)
  }

  /** The force curve is the peak force times the phase factor. */
  lemma ForceCurveIsScaledFactor(soilType: SoilType, maxForce: real, d: real)
    ensures ForceCurve(soilType, maxForce, d) == maxForce * PhaseFactor(soilType, d)
  {
  }

  /**
   * The readings of a tick: the force is the peak force times the phase factor, and
   * the stress shown is the soil's peak stress times the same factor.
   */
  lemma MeasuredReadings(soilType: SoilType, normalStress: real, d: real, tanDeg: real -> real)
    ensures Measure(soilType, normalStress, d, tanDeg).force
            == ForceFromStress(PeakShearStress(soilType, normalStress, tanDeg)) * PhaseFactor(soilType, d)
    ensures Measure(soilType, normalStress, d, tanDeg).stress
            == PeakShearStress(soilType, normalStress, tanDeg) * PhaseFactor(soilType, d)
    ensures Measure(soilType, normalStress, d, tanDeg).strain == VerticalStrain(soilType, d)
  {
    var peak := PeakShearStress(soilType, normalStress, tanDeg);
    ForceCurveIsScaledFactor(soilType, ForceFromStress(peak), d);
    var f := PhaseFactor(soilType, d);
    assert StressFromForce(ForceFromStress(peak) * f) == peak * f;
  }

  /** The phase factor at the phase boundaries: 0 at rest, 0.7 at 1 mm, 1 at 3 mm (the peak). */
  lemma PhaseBoundaries(soilType: SoilType)
    ensures PhaseFactor(soilType, 0.0) == 0.0
    ensures PhaseFactor(soilType, 1.0) == 0.7
    ensures PhaseFactor(soilType, 3.0) == 1.0
  {
  }

  /** The phase factor is continuous: it is Lipschitz with constant 0.7. */
  lemma PhaseFactorLipschitz(soilType: SoilType, d1: real, d2: real)
    requires d1 <= d2
    ensures Abs(PhaseFactor(soilType, d2) - PhaseFactor(soilType, d1)) <= 0.7 * (d2 - d1)
  {
  }

  /** Up to the peak at 3 mm the phase factor never decreases; for sand it never decreases at all. */
  lemma PhaseFactorRising(soilType: SoilType, d1: real, d2: real)
    requires d1 <= d2 && (d2 <= 3.0 || soilType == Sand)
    ensures PhaseFactor(soilType, d1) <= PhaseFactor(soilType, d2)
  {
  }

  /** Past the peak every soil but sand softens; the factor is then at most 1. */
  lemma PhaseFactorSoftening(soilType: SoilType, d1: real, d2: real)
    requires soilType != Sand && 3.0 <= d1 <= d2
    ensures PhaseFactor(soilType, d2) <= PhaseFactor(soilType, d1) <= 1.0
  {
  }

  /** For every soil but sand, 3 mm is where the factor peaks at 1. */
  lemma PhaseFactorPeak(soilType: SoilType, d: real)
    requires soilType != Sand
    ensures PhaseFactor(soilType, d) <= PhaseFactor(soilType, 3.0) == 1.0
  {
  }

  /**
   * Each branch of the force curve, continued to the boundary it shares with the next
   * branch, meets that branch there: the curve has no jump at 1 mm or at 3 mm.
   */
  lemma ForceCurveBranchesMeet(soilType: SoilType, maxForce: real)
    ensures maxForce * (1.0 / 1.0) * 0.7 == ForceCurve(soilType, maxForce, 1.0)
    ensures maxForce * (0.7 + 0.3 * ((3.0 - 1.0) / 2.0)) == ForceCurve(soilType, maxForce, 3.0)
  {
  }

  /** With a non-negative peak force, the force never decreases up to 3 mm (and for sand, ever). */
  lemma ForceCurveRising(soilType: SoilType, maxForce: real, d1: real, d2: real)
    requires maxForce >= 0.0 && d1 <= d2 && (d2 <= 3.0 || soilType == Sand)
    ensures ForceCurve(soilType, maxForce, d1) <= ForceCurve(soilType, maxForce, d2)
  {
    ForceCurveIsScaledFactor(soilType, maxForce, d1);
    ForceCurveIsScaledFactor(soilType, maxForce, d2);
    PhaseFactorRising(soilType, d1, d2);
    MulMonotone(maxForce, PhaseFactor(soilType, d1), PhaseFactor(soilType, d2));
  }

  /** With a non-negative peak force, every soil but sand softens past 3 mm. */
  lemma ForceCurveSoftening(soilType: SoilType, maxForce: real, d1: real, d2: real)
    requires maxForce >= 0.0 && soilType != Sand && 3.0 <= d1 <= d2
    ensures ForceCurve(soilType, maxForce, d2) <= ForceCurve(soilType, maxForce, d1) <= maxForce
  {
    ForceCurveIsScaledFactor(soilType, maxForce, d1);
    ForceCurveIsScaledFactor(soilType, maxForce, d2);
    PhaseFactorSoftening(soilType, d1, d2);
    MulMonotone(maxForce, PhaseFactor(soilType, d2), PhaseFactor(soilType, d1));
    MulMonotone(maxForce, PhaseFactor(soilType, d1), 1.0);
  }

  /** calculateVerticalStrain: sand dilates to 2 mm then contracts slowly; other soils contract throughout. */
  function VerticalStrain(soilType: SoilType, d: real): real
  {
    if soilType == Sand then
      if d < 2.0 then d * 0.05 else 2.0 * 0.05 - (d - 2.0) * 0.02
    else -d * 0.03
  }

  /** Vertical strain is continuous (the sand branches meet at 2 mm): Lipschitz with constant 0.05. */
  lemma VerticalStrainLipschitz(soilType: SoilType, d1: real, d2: real)
    requires d1 <= d2
    ensures Abs(VerticalStrain(soilType, d2) - VerticalStrain(soilType, d1)) <= 0.05 * (d2 - d1)
  {
  }

  /** Sand dilates up to 2 mm, contracts after, and is most dilated (0.1) at 2 mm. */
  lemma SandDilation(d1: real, d2: real)
    requires d1 <= d2
    ensures d2 <= 2.0 ==> VerticalStrain(Sand, d1) <= VerticalStrain(Sand, d2)
    ensures 2.0 <= d1 ==> VerticalStrain(Sand, d2) <= VerticalStrain(Sand, d1)
    ensures VerticalStrain(Sand, d1) <= VerticalStrain(Sand, 2.0) == 0.1
  {
  }

  /** Every other soil contracts: its strain never increases and is never positive for d >= 0. */
  lemma OtherSoilsContract(soilType: SoilType, d1: real, d2: real)
    requires soilType != Sand && d1 <= d2
    ensures VerticalStrain(soilType, d2) <= VerticalStrain(soilType, d1)
    ensures d1 >= 0.0 ==> VerticalStrain(soilType, d1) <= 0.0
  {
  }

  /** The three readings the timer callback derives from the displacement. */
  datatype Reading = Reading(force: real, stress: real, strain: real)

  /** The readings at displacement `d`: force from the curve, stress back over the sample area, vertical strain. */
  function Measure(soilType: SoilType, normalStress: real, d: real, tanDeg: real -> real): Reading
  {
    var force := ShearForce(soilType, normalStress, d, tanDeg);
    Reading(force, StressFromForce(force), VerticalStrain(soilType, d))
  }

  /** A run restarted from a completed test (at or past 5 mm) stops again on its first tick. */
  lemma RestartAfterCompletionStopsAtOnce(d: real, step: real)
    requires d >= EndDisplacement && step >= 0.0
    ensures Advance(Clock(d, true), step, EndDisplacement, false) == Clock(d + step, false)
  {
  }

  class ShearSimulation {
    /** Math.tan of an angle given in degrees, supplied by the host. */
    const tanDeg: real -> real

    var currentDisplacement: real
    var currentShearForce: real
    var currentShearStress: real
    var currentVerticalStrain: real
    var isSimulationRunning: bool
    /** simulationInterval holds a live timer. */
    var hasInterval: bool
    /** shearData: cleared on start and reset, never appended to. */
    var shearData: seq<real>

    /** shearChart.data.labels: the displacement of each sample, oldest first. */
    var chartLabels: seq<real>
    /** shearChart.data.datasets[0].data: the shear stress of each sample, oldest first. */
    var chartData: seq<real>

    /** The soil type, normal stress and speed read from the form when the timer was started. */
    var runSoilType: SoilType
    var runNormalStress: real
    var runSpeed: real

    /** A timer is live exactly while running; the chart arrays are parallel and within capacity. */
    ghost predicate Valid()
      reads this`hasInterval, this`isSimulationRunning, this`chartLabels, this`chartData, this`shearData
    {
      && hasInterval == isSimulationRunning
      && |chartLabels| == |chartData| <= SampleBuffer.Capacity
      && shearData == []
    }

    /** The clock part of the state. */
    function ClockState(): Clock
      reads this`currentDisplacement, this`isSimulationRunning
    {
      Clock(currentDisplacement, isSimulationRunning)
    }

    /** The per-tick displacement increment of the current run. */
    function Step(): real
      reads this`runSpeed
    {
      runSpeed / 60.0
    }

    /** The globals at page load. */
    constructor (tanDeg: real -> real)
      ensures Valid()
      ensures this.tanDeg == tanDeg
      ensures ClockState() == Clock(0.0, false)
      ensures currentShearForce == 0.0 && currentShearStress == 0.0 && currentVerticalStrain == 0.0
      ensures chartLabels == [] && chartData == []
    {
      this.tanDeg := tanDeg;
      currentDisplacement, currentShearForce, currentShearStress, currentVerticalStrain := 0.0, 0.0, 0.0, 0.0;
      isSimulationRunning, hasInterval := false, false;
      shearData, chartLabels, chartData := [], [], [];
      runSoilType, runNormalStress, runSpeed := Sand, 0.0, 0.0;
    }

    /** Recompute force, stress and strain at the current displacement. */
    method UpdateReadings()
      modifies this`currentShearForce, this`currentShearStress, this`currentVerticalStrain
      ensures Reading(currentShearForce, currentShearStress, currentVerticalStrain)
              == Measure(runSoilType, runNormalStress, currentDisplacement, tanDeg)
    {
      var r := Measure(runSoilType, runNormalStress, currentDisplacement, tanDeg);
      currentShearForce, currentShearStress, currentVerticalStrain := r.force, r.stress, r.strain;
    }

    /** updateShearChart: push the current sample, shifting the oldest off past 50. */
    method UpdateShearChart()
      requires |chartLabels| == |chartData|
      modifies this`chartLabels, this`chartData
      ensures chartLabels == SampleBuffer.Push(old(chartLabels), currentDisplacement)
      ensures chartData == SampleBuffer.Push(old(chartData), currentShearStress)
      ensures |chartLabels| == |chartData|
    {
      chartLabels := chartLabels + [currentDisplacement];
      chartData := chartData + [currentShearStress];
      if |chartLabels| > SampleBuffer.Capacity {
        chartLabels := chartLabels[1..];
        chartData := chartData[1..];
      }
    }

    /**
     * One firing of the timer set up by startSimulation (none fires without a live
     * timer): advance by speed/60, recompute force, stress and strain, record the
     * sample, and stop the timer once the displacement has reached 5 mm.
     */
    method Tick()
      requires Valid()
      modifies this`currentDisplacement, this`currentShearForce, this`currentShearStress,
               this`currentVerticalStrain, this`isSimulationRunning, this`hasInterval,
               this`chartLabels, this`chartData
      ensures Valid()
      ensures ClockState() == Advance(old(ClockState()), Step(), EndDisplacement, false)
      ensures old(isSimulationRunning) ==>
                && Reading(currentShearForce, currentShearStress, currentVerticalStrain)
                   == Measure(runSoilType, runNormalStress, currentDisplacement, tanDeg)
                && chartLabels == SampleBuffer.Push(old(chartLabels), currentDisplacement)
                && chartData == SampleBuffer.Push(old(chartData), currentShearStress)
      ensures !old(isSimulationRunning) ==>
                && currentShearForce == old(currentShearForce)
                && currentShearStress == old(currentShearStress)
                && currentVerticalStrain == old(currentVerticalStrain)
                && chartLabels == old(chartLabels) && chartData == old(chartData)
    {
      if !hasInterval {
        return;
      }
      currentDisplacement := currentDisplacement + runSpeed / 60.0;
      UpdateReadings();
      UpdateShearChart();
      if currentDisplacement >= EndDisplacement {
        hasInterval := false;
        isSimulationRunning := false;
      }
    }

    /**
     * startSimulation: read the form, clear the samples only when starting from
     * 0 mm (a resumed run keeps them), and start the timer.
     */
    method StartSimulation(soilTypeValue: string, normalStress: real, speed: real)
      requires isSimulationRunning && |chartLabels| == |chartData| <= SampleBuffer.Capacity && shearData == []
      modifies this`runSoilType, this`runNormalStress, this`runSpeed, this`shearData,
               this`chartLabels, this`chartData, this`hasInterval
      ensures Valid()
      ensures runSoilType == Parse(soilTypeValue) && runNormalStress == normalStress && runSpeed == speed
      ensures currentDisplacement == 0.0 ==> chartLabels == [] && chartData == []
      ensures currentDisplacement != 0.0 ==> chartLabels == old(chartLabels) && chartData == old(chartData)
    {
      runSoilType, runNormalStress, runSpeed := Parse(soilTypeValue), normalStress, speed;
      if currentDisplacement == 0.0 {
        shearData := [];
        chartLabels, chartData := [], [];
      }
      hasInterval := true;
    }

    /** toggleSimulation: start (or resume) when stopped, otherwise pause by clearing the timer. */
    method Toggle(soilTypeValue: string, normalStress: real, speed: real)
      requires Valid()
      modifies this`isSimulationRunning, this`runSoilType, this`runNormalStress, this`runSpeed,
               this`shearData, this`chartLabels, this`chartData, this`hasInterval
      ensures Valid()
      ensures ClockState() == Clock(old(currentDisplacement), !old(isSimulationRunning))
      ensures old(isSimulationRunning) ==> chartLabels == old(chartLabels) && chartData == old(chartData)
      ensures old(isSimulationRunning) ==> runSoilType == old(runSoilType) && runNormalStress == old(runNormalStress) && runSpeed == old(runSpeed)
      ensures !old(isSimulationRunning) ==> runSoilType == Parse(soilTypeValue) && runNormalStress == normalStress && runSpeed == speed
      ensures !old(isSimulationRunning) && currentDisplacement == 0.0 ==> chartLabels == [] && chartData == []
      ensures !old(isSimulationRunning) && currentDisplacement != 0.0 ==> chartLabels == old(chartLabels) && chartData == old(chartData)
    {
      if !isSimulationRunning {
        isSimulationRunning := true;
        StartSimulation(soilTypeValue, normalStress, speed);
      } else {
        isSimulationRunning := false;
        hasInterval := false;
      }
    }

    /** resetSimulation: stop any run and zero every reading and the chart. */
    method Reset()
      requires Valid()
      modifies this`currentDisplacement, this`currentShearForce, this`currentShearStress,
               this`currentVerticalStrain, this`isSimulationRunning, this`hasInterval,
               this`shearData, this`chartLabels, this`chartData
      ensures Valid()
      ensures ClockState() == Clock(0.0, false)
      ensures currentShearForce == 0.0 && currentShearStress == 0.0 && currentVerticalStrain == 0.0
      ensures shearData == [] && chartLabels == [] && chartData == []
    {
      if isSimulationRunning {
        hasInterval := false;
        isSimulationRunning := false;
      }
      currentDisplacement := 0.0;
      currentShearForce := 0.0;
      currentShearStress := 0.0;
      currentVerticalStrain := 0.0;
      shearData := [];
      chartLabels, chartData := [], [];
    }
  }
}
