/**
 * The simulation page of javascrip/simulation.js, the earlier copy of
 * js/simulation.js. The engine is the same; what differs is that the samples live
 * in the chart's own labels/data arrays and that pause, stop and reset cancel the
 * pending frame without ever setting animationId back to null.
 */
module JavascripSimulation {
  import ShearCurve
  import SampleBuffer
  import Soil
  import opened RunClock

  /** The test ends at 10 mm of horizontal displacement. */
  const MaxDisplacement: real := 10.0

  class ShearTest {
    /** Math.tan of an angle given in degrees, supplied by the host. */
    const tanDeg: real -> real

    var isRunning: bool
    /** animationId is not null; once a frame has been requested it never becomes null again. */
    var hasAnimationId: bool
    var displacement: real

    var soilType: Soil.SoilType
    var cohesion: real
    var frictionAngle: real
    var normalStress: real
    /** saturation === 'saturated' */
    var saturated: bool
    var speed: real

    /** shearChart.data.labels: the displacement of each sample, oldest first. */
    var chartLabels: seq<real>
    /** shearChart.data.datasets[0].data: the shear stress of each sample, oldest first. */
    var chartData: seq<real>

    /** Displacement clamped; chart arrays parallel and within capacity. */
    ghost predicate Inv()
      reads this`displacement, this`isRunning, this`hasAnimationId, this`chartLabels, this`chartData
    {
      && displacement <= MaxDisplacement
      && |chartLabels| == |chartData| <= SampleBuffer.Capacity
    }

    /** The object invariant between events: in addition, a running test holds a frame handle. */
    ghost predicate Valid()
      reads this`displacement, this`isRunning, this`hasAnimationId, this`chartLabels, this`chartData
    {
      Inv() && (isRunning ==> hasAnimationId)
    }

    /** The clock part of the state. */
    function ClockState(): Clock
      reads this`displacement, this`isRunning
    {
      Clock(displacement, isRunning)
    }

    /** The per-frame displacement increment: speed in mm/min over 60 frames. */
    function Step(): real
      reads this`speed
    {
      speed / 60.0
    }

    /** calculateShearStress at the current displacement. */
    function CurrentShearStress(): real
      reads this`cohesion, this`normalStress, this`frictionAngle, this`saturated, this`soilType, this`displacement
    {
      var strength := ShearCurve.Strength(cohesion, normalStress, tanDeg(frictionAngle), saturated);
      ShearCurve.ShearStress(strength, ShearCurve.PeakDisplacement(soilType), displacement)
    }

    /** The data of updateMohrChart. */
    function MohrData(): (r: seq<ShearCurve.Point>)
      reads this
      ensures |r| == 5 && r[0] == ShearCurve.Point(0.0, cohesion)
    {
      ShearCurve.MohrPoints(cohesion, tanDeg(frictionAngle))
    }

    /** The page's initial state: dry sand, c = 0, φ = 35°, σ = 100 kPa, 1.2 mm/min, at rest. */
    constructor (tanDeg: real -> real)
      ensures Valid()
      ensures this.tanDeg == tanDeg
      ensures ClockState() == Clock(0.0, false) && !hasAnimationId
      ensures soilType == Soil.Sand && cohesion == 0.0 && frictionAngle == 35.0
      ensures normalStress == 100.0 && !saturated && speed == 1.2
      ensures chartLabels == [] && chartData == []
    {
      this.tanDeg := tanDeg;
      isRunning, hasAnimationId, displacement := false, false, 0.0;
      soilType, cohesion, frictionAngle := Soil.Sand, 0.0, 35.0;
      normalStress, saturated, speed := 100.0, false, 1.2;
      chartLabels, chartData := [], [];
    }

    /** The soil-type change handler: record the selected type and apply its preset, if any. */
    method SelectSoilType(value: string)
      modifies this`soilType, this`cohesion, this`frictionAngle
      ensures soilType == Soil.Parse(value)
      ensures Soil.SoilParams(cohesion, frictionAngle)
              == Soil.SelectSoilType(soilType, old(Soil.SoilParams(cohesion, frictionAngle)))
    {
      soilType := Soil.Parse(value);
      match Soil.Preset(soilType)
      case Some(p) =>
        cohesion, frictionAngle := p.cohesion, p.frictionAngle;
      case None =>
    }

    /** The chart part of updateResults: push the newest sample, shifting the oldest off past 50. */
    method UpdateResults(stress: real)
      requires |chartLabels| == |chartData|
      modifies this`chartLabels, this`chartData
      ensures chartLabels == SampleBuffer.Push(old(chartLabels), displacement)
      ensures chartData == SampleBuffer.Push(old(chartData), stress)
      ensures |chartLabels| == |chartData|
    {
      chartLabels := chartLabels + [displacement];
      chartData := chartData + [stress];
      if |chartLabels| > SampleBuffer.Capacity {
        chartLabels := chartLabels[1..];
        chartData := chartData[1..];
      }
    }

    /** stopSimulation: the run is over; the frame is cancelled but its handle is kept. */
    method Stop()
      modifies this`isRunning
      ensures !isRunning
    {
      isRunning := false;
    }

    /** pauseSimulation: stop advancing; displacement and frame handle are kept. */
    method Pause()
      requires Valid()
      modifies this`isRunning
      ensures Valid()
      ensures ClockState() == Clock(old(displacement), false)
    {
      isRunning := false;
    }

    /**
     * animate: one frame. While running, advance by speed/60; on reaching 10 mm stop
     * and clamp to exactly 10 mm; then record (displacement, stress) in the chart and
     * request the next frame if still running. Not running: nothing happens.
     */
    method Tick()
      requires Inv()
      modifies this`isRunning, this`hasAnimationId, this`displacement, this`chartLabels, this`chartData
      ensures Valid()
      ensures ClockState() == Advance(old(ClockState()), Step(), MaxDisplacement, true)
      ensures speed >= 0.0 ==> old(displacement) <= displacement
      ensures isRunning ==> hasAnimationId
      ensures !isRunning ==> hasAnimationId == old(hasAnimationId)
      ensures old(isRunning) ==> chartLabels == SampleBuffer.Push(old(chartLabels), displacement)
      ensures old(isRunning) ==> chartData == SampleBuffer.Push(old(chartData), CurrentShearStress())
      ensures !old(isRunning) ==> chartLabels == old(chartLabels) && chartData == old(chartData)
    {
      if !isRunning {
        return;
      }
      displacement := displacement + speed / 60.0;
      if displacement >= MaxDisplacement {
        Stop();
        displacement := MaxDisplacement;
      }
      var stress := CurrentShearStress();
      UpdateResults(stress);
      if isRunning {
        hasAnimationId := true;
      }
    }

    /** startSimulation: a no-op while running; otherwise mark running and run the first frame at once. */
    method Start()
      requires Valid()
      modifies this`isRunning, this`hasAnimationId, this`displacement, this`chartLabels, this`chartData
      ensures Valid()
      ensures old(isRunning) ==> ClockState() == old(ClockState()) && chartLabels == old(chartLabels) && chartData == old(chartData)
      ensures !old(isRunning) ==> ClockState() == Advance(Clock(old(displacement), true), Step(), MaxDisplacement, true)
      ensures !old(isRunning) ==> chartLabels == SampleBuffer.Push(old(chartLabels), displacement)
      ensures !old(isRunning) ==> chartData == SampleBuffer.Push(old(chartData), CurrentShearStress())
    {
      if isRunning {
        return;
      }
      isRunning := true;
      Tick();
    }

    /** resetSimulation: stop, return to 0 mm and empty the chart; animationId keeps its handle. */
    method Reset()
      modifies this`isRunning, this`displacement, this`chartLabels, this`chartData
      ensures Valid()
      ensures ClockState() == Clock(0.0, false)
      ensures chartLabels == [] && chartData == []
    {
      isRunning := false;
      displacement := 0.0;
      chartLabels, chartData := [], [];
    }
  }
}
