/**
 * The simulation page of js/simulation.js: one direct-shear test whose closure
 * state (running flag, pending animation frame, displacement, soil parameters and
 * the chart's sample arrays) is held by a `ShearTest` object. Each animation frame
 * is one call of `Tick`; requestAnimationFrame/cancelAnimationFrame reduce to the
 * flag `hasAnimationId` (animationId is not null).
 */
module JsSimulation {
  import ShearCurve
  import SampleBuffer
  import Soil
  import opened RunClock

  /** The test ends at 10 mm of horizontal displacement. */
  const MaxDisplacement: real := 10.0

  class ShearTest {
    /** Math.tan of an angle given in degrees, supplied by the host. */
    const tanDeg: real -> real

    var isRunning: bool
    var hasAnimationId: bool
    var displacement: real

    var soilType: Soil.SoilType
    var cohesion: real
    var frictionAngle: real
    var normalStress: real
    /** saturation === 'saturated' */
    var saturated: bool
    var speed: real

    /** chartData.labels: the displacement of each sample, oldest first. */
    var labels: seq<real>
    /** chartData.values: the shear stress of each sample, oldest first. */
    var values: seq<real>

    /**
     * What holds even inside startSimulation between setting the flag and the first
     * frame: the displacement is clamped, the two chart arrays stay parallel and
     * within capacity, and a frame is only ever pending while running.
     */
    ghost predicate Inv()
      reads this`displacement, this`isRunning, this`hasAnimationId, this`labels, this`values
    {
      && displacement <= MaxDisplacement
      && |labels| == |values| <= SampleBuffer.Capacity
      && (hasAnimationId ==> isRunning)
    }

    /** The object invariant between events: in addition, a frame is pending exactly while running. */
    ghost predicate Valid()
      reads this`displacement, this`isRunning, this`hasAnimationId, this`labels, this`values
    {
      Inv() && hasAnimationId == isRunning
    }

    /** The clock part of the state. */
    function ClockState(): Clock
      reads this`displacement, this`isRunning
    {
      Clock(displacement, isRunning)
    }

    /** The per-frame displacement increment: speed in mm/min over 60 frames. */
    function Step(): real
      reads this`speed
    {
      speed / 60.0
    }

    /** calculateShearStress at the current displacement. */
    function CurrentShearStress(): real
      reads this`cohesion, this`normalStress, this`frictionAngle, this`saturated, this`soilType, this`displacement
    {
      var strength := ShearCurve.Strength(cohesion, normalStress, tanDeg(frictionAngle), saturated);
      ShearCurve.ShearStress(strength, ShearCurve.PeakDisplacement(soilType), displacement)
    }

    /** calculateYMax: the stress axis limit, never below 100 kPa. */
    function CalculateYMax(): (r: real)
      reads this
      ensures r >= 100.0
      ensures r >= 1.5 * (cohesion + normalStress * tanDeg(frictionAngle))
    {
      ShearCurve.YMax(cohesion, normalStress, tanDeg(frictionAngle))
    }

    /** The data of updateMohrChart. */
    function MohrData(): (r: seq<ShearCurve.Point>)
      reads this
      ensures |r| == 5 && r[0] == ShearCurve.Point(0.0, cohesion)
    {
      ShearCurve.MohrPoints(cohesion, tanDeg(frictionAngle))
    }

    /** The page's initial state: dry sand, c = 0, φ = 35°, σ = 100 kPa, 1.2 mm/min, at rest. */
    constructor (tanDeg: real -> real)
      ensures Valid()
      ensures this.tanDeg == tanDeg
      ensures ClockState() == Clock(0.0, false) && !hasAnimationId
      ensures soilType == Soil.Sand && cohesion == 0.0 && frictionAngle == 35.0
      ensures normalStress == 100.0 && !saturated && speed == 1.2
      ensures labels == [] && values == []
    {
      this.tanDeg := tanDeg;
      isRunning, hasAnimationId, displacement := false, false, 0.0;
      soilType, cohesion, frictionAngle := Soil.Sand, 0.0, 35.0;
      normalStress, saturated, speed := 100.0, false, 1.2;
      labels, values := [], [];
    }

    /** The soil-type change handler: record the selected type and apply its preset, if any. */
    method SelectSoilType(value: string)
      modifies this`soilType, this`cohesion, this`frictionAngle
      ensures soilType == Soil.Parse(value)
      ensures Soil.SoilParams(cohesion, frictionAngle)
              == Soil.SelectSoilType(soilType, old(Soil.SoilParams(cohesion, frictionAngle)))
    {
      soilType := Soil.Parse(value);
      match Soil.Preset(soilType)
      case Some(p) =>
        cohesion, frictionAngle := p.cohesion, p.frictionAngle;
      case None =>
    }

    /** updateChart: push the newest sample onto both arrays, shifting the oldest off past 50. */
    method UpdateChart(d: real, stress: real)
      requires |labels| == |values|
      modifies this`labels, this`values
      ensures labels == SampleBuffer.Push(old(labels), d)
      ensures values == SampleBuffer.Push(old(values), stress)
      ensures |labels| == |values|
    {
      labels := labels + [d];
      values := values + [stress];
      if |labels| > SampleBuffer.Capacity {
        labels := labels[1..];
        values := values[1..];
      }
    }

    /** stopSimulation: the run is over and the pending frame is cancelled. */
    method Stop()
      modifies this`isRunning, this`hasAnimationId
      ensures !isRunning && !hasAnimationId
    {
      isRunning := false;
      hasAnimationId := false;
    }

    /** pauseSimulation: stop advancing and cancel the pending frame; the displacement is kept. */
    method Pause()
      requires Valid()
      modifies this`isRunning, this`hasAnimationId
      ensures Valid()
      ensures ClockState() == Clock(old(displacement), false) && !hasAnimationId
    {
      isRunning := false;
      hasAnimationId := false;
    }

    /**
     * animate: one frame. While running, advance by speed/60; on reaching 10 mm stop
     * and clamp to exactly 10 mm; then record (displacement, stress) in the chart and
     * request the next frame if still running. Not running: nothing happens.
     */
    method Tick()
      requires Inv()
      modifies this`isRunning, this`hasAnimationId, this`displacement, this`labels, this`values
      ensures Valid()
      ensures hasAnimationId == isRunning
      ensures ClockState() == Advance(old(ClockState()), Step(), MaxDisplacement, true)
      ensures speed >= 0.0 ==> old(displacement) <= displacement
      ensures old(isRunning) ==> labels == SampleBuffer.Push(old(labels), displacement)
      ensures old(isRunning) ==> values == SampleBuffer.Push(old(values), CurrentShearStress())
      ensures !old(isRunning) ==> labels == old(labels) && values == old(values) && hasAnimationId == old(hasAnimationId)
    {
      if !isRunning {
        return;
      }
      displacement := displacement + speed / 60.0;
      if displacement >= MaxDisplacement {
        Stop();
        displacement := MaxDisplacement;
      }
      var stress := CurrentShearStress();
      UpdateChart(displacement, stress);
      if isRunning {
        hasAnimationId := true;
      }
    }

    /** startSimulation: a no-op while running; otherwise mark running and run the first frame at once. */
    method Start()
      requires Valid()
      modifies this`isRunning, this`hasAnimationId, this`displacement, this`labels, this`values
      ensures Valid()
      ensures hasAnimationId == isRunning
      ensures old(isRunning) ==> ClockState() == old(ClockState()) && labels == old(labels) && values == old(values)
      ensures !old(isRunning) ==> ClockState() == Advance(Clock(old(displacement), true), Step(), MaxDisplacement, true)
      ensures !old(isRunning) ==> labels == SampleBuffer.Push(old(labels), displacement)
      ensures !old(isRunning) ==> values == SampleBuffer.Push(old(values), CurrentShearStress())
    {
      if isRunning {
        return;
      }
      isRunning := true;
      Tick();
    }

    /** resetSimulation: cancel any frame, stop, return to 0 mm and empty the chart. */
    method Reset()
      modifies this`isRunning, this`hasAnimationId, this`displacement, this`labels, this`values
      ensures Valid()
      ensures ClockState() == Clock(0.0, false) && !hasAnimationId
      ensures labels == [] && values == []
    {
      hasAnimationId := false;
      isRunning := false;
      displacement := 0.0;
      labels, values := [], [];
    }
  }

  /** Reset lands in one fixed state whatever came before, so resetting twice equals resetting once. */
  method ResetIsIdempotent(t: ShearTest)
    modifies t
    ensures t.ClockState() == Clock(0.0, false) && !t.hasAnimationId && t.labels == [] && t.values == []
  {
    t.Reset();
    var once := (t.ClockState(), t.hasAnimationId, t.labels, t.values);
    t.Reset();
    assert (t.ClockState(), t.hasAnimationId, t.labels, t.values) == once;
  }
}
