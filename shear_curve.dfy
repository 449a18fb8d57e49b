/**
 * The constitutive curve shared by js/simulation.js and javascrip/simulation.js:
 * Mohr-Coulomb strength, reduced for saturated samples, reached by a linear ramp
 * at the peak displacement (4 mm for clay, 2 mm otherwise) and followed by linear
 * softening of 10% of the strength per millimetre.
 *
 * `tanPhi` stands for Math.tan of the friction angle converted to radians.
 */
module ShearCurve {
  import opened Soil
  import opened Reals

  /** Mohr-Coulomb shear strength c + σ·tanφ, times 0.7 for a saturated sample. */
  function Strength(cohesion: real, normalStress: real, tanPhi: real, saturated: bool): real
  {
    var dry := cohesion + normalStress * tanPhi;
    if saturated then dry * 0.7 else dry
  }

  /** The saturation reduction is exactly the factor 0.7 on the dry strength. */
  lemma SaturatedIsSevenTenths(cohesion: real, normalStress: real, tanPhi: real)
    ensures Strength(cohesion, normalStress, tanPhi, true) == 0.7 * Strength(cohesion, normalStress, tanPhi, false)
  {
  }

  /** Strength is never negative for non-negative cohesion, normal stress and tanφ. */
  lemma StrengthNonNegative(cohesion: real, normalStress: real, tanPhi: real, saturated: bool)
    requires cohesion >= 0.0 && normalStress >= 0.0 && tanPhi >= 0.0
    ensures Strength(cohesion, normalStress, tanPhi, saturated) >= 0.0
    ensures Strength(cohesion, normalStress, tanPhi, saturated) >= 0.7 * cohesion
  {
  }

  /** Displacement (mm) at which the stress peaks: 4 for clay, 2 for every other soil type. */
  function PeakDisplacement(soilType: SoilType): (p: real)
    ensures p > 0.0
    ensures p == 4.0 <==> soilType == Clay
    ensures p == 2.0 <==> soilType != Clay
  {
    if soilType == Clay then 4.0 else 2.0
  }

  /** Shear stress at displacement `d` on the ramp-and-soften curve of strength `strength` peaking at `peak`. */
  function ShearStress(strength: real, peak: real, d: real): real
    requires peak > 0.0
  {
    if d <= peak then strength * (d / peak)
    else strength * (1.0 - 0.1 * (d - peak))
  }

  /** The ramp starts at zero and reaches the full strength exactly at the peak. */
  lemma RampEndpoints(strength: real, peak: real)
    requires peak > 0.0
    ensures ShearStress(strength, peak, 0.0) == 0.0
    ensures ShearStress(strength, peak, peak) == strength
  {
  }

  /** Before the peak the stress is proportional to displacement. */
  lemma RampIsLinear(strength: real, peak: real, d: real)
    requires peak > 0.0 && d <= peak
    ensures ShearStress(strength, peak, d) * peak == strength * d
  {
  }

  /** On [0, peak] the stress does not decrease when the strength is non-negative. */
  lemma RampMonotone(strength: real, peak: real, d1: real, d2: real)
    requires peak > 0.0 && strength >= 0.0
    requires d1 <= d2 <= peak
    ensures ShearStress(strength, peak, d1) <= ShearStress(strength, peak, d2)
  {
    assert d1 / peak <= d2 / peak by { DivMonotone(d1, d2, peak); }
    MulMonotone(strength, d1 / peak, d2 / peak);
  }

  /** After the peak the stress does not increase when the strength is non-negative. */
  lemma SofteningMonotone(strength: real, peak: real, d1: real, d2: real)
    requires peak > 0.0 && strength >= 0.0
    requires peak < d1 <= d2
    ensures ShearStress(strength, peak, d2) <= ShearStress(strength, peak, d1)
  {
    MulMonotone(strength, 1.0 - 0.1 * (d2 - peak), 1.0 - 0.1 * (d1 - peak));
  }

  /** The softening branch, extended to the peak itself, meets the ramp there. */
  lemma BranchesMeetAtPeak(strength: real, peak: real)
    requires peak > 0.0
    ensures strength * (1.0 - 0.1 * (peak - peak)) == ShearStress(strength, peak, peak)
  {
  }

  /** The peak is the maximum of the whole curve when the strength is non-negative. */
  lemma PeakIsMaximum(strength: real, peak: real, d: real)
    requires peak > 0.0 && strength >= 0.0
    ensures ShearStress(strength, peak, d) <= ShearStress(strength, peak, peak)
  {
    assert ShearStress(strength, peak, peak) == strength * 1.0 by { assert peak / peak == 1.0; }
    if d <= peak {
      RampMonotone(strength, peak, d, peak);
    } else {
      MulMonotone(strength, 1.0 - 0.1 * (d - peak), 1.0);
    }
  }

  /**
   * The curve is continuous everywhere, the peak included: it is Lipschitz with any
   * constant that bounds both slopes, |strength|/peak on the ramp and |strength|/10
   * after the peak.
   */
  lemma ShearStressLipschitz(strength: real, peak: real, rate: real, d1: real, d2: real)
    requires peak > 0.0 && d1 <= d2
    requires Abs(strength) / peak <= rate && Abs(strength) / 10.0 <= rate
    ensures Abs(ShearStress(strength, peak, d2) - ShearStress(strength, peak, d1)) <= rate * (d2 - d1)
  {
    if d2 <= peak {
      OnRamp(strength, peak, rate, d1, d2);
    } else if peak < d1 {
      OnSoftening(strength, peak, rate, d1, d2);
    } else {
      AcrossPeak(strength, peak, rate, d1, d2);
    }
  }

  /** The bound for two displacements on the ramp. */
  lemma OnRamp(strength: real, peak: real, rate: real, d1: real, d2: real)
    requires peak > 0.0 && d1 <= d2 <= peak && Abs(strength) / peak <= rate
    ensures Abs(ShearStress(strength, peak, d2) - ShearStress(strength, peak, d1)) <= rate * (d2 - d1)
  {
    RampSlope(strength, peak, d1, d2);
    RateBound(Abs(strength) / peak, rate, d2 - d1);
  }

  /** The bound for two displacements past the peak. */
  lemma OnSoftening(strength: real, peak: real, rate: real, d1: real, d2: real)
    requires peak > 0.0 && peak < d1 <= d2 && Abs(strength) / 10.0 <= rate
    ensures Abs(ShearStress(strength, peak, d2) - ShearStress(strength, peak, d1)) <= rate * (d2 - d1)
  {
    SoftSlope(strength, peak, d1, d2);
    RateBound(Abs(strength) / 10.0, rate, d2 - d1);
  }

  /** The bound for two displacements on either side of the peak, through the peak itself. */
  lemma AcrossPeak(strength: real, peak: real, rate: real, d1: real, d2: real)
    requires peak > 0.0 && d1 <= peak < d2
    requires Abs(strength) / peak <= rate && Abs(strength) / 10.0 <= rate
    ensures Abs(ShearStress(strength, peak, d2) - ShearStress(strength, peak, d1)) <= rate * (d2 - d1)
  {
    RampPart(strength, peak, rate, d1);
    SoftPart(strength, peak, rate, d2);
    CombineBounds(ShearStress(strength, peak, d2), strength, ShearStress(strength, peak, d1),
                  rate, peak - d1, d2 - peak);
  }

  /** From d1 up to the peak the change is at most rate times the distance. */
  lemma RampPart(strength: real, peak: real, rate: real, d1: real)
    requires peak > 0.0 && d1 <= peak && Abs(strength) / peak <= rate
    ensures Abs(strength - ShearStress(strength, peak, d1)) <= rate * (peak - d1)
  {
    RampSlope(strength, peak, d1, peak);
    RampEndpoints(strength, peak);
    RateBound(Abs(strength) / peak, rate, peak - d1);
  }

  /** From the peak to d2 the change is at most rate times the distance. */
  lemma SoftPart(strength: real, peak: real, rate: real, d2: real)
    requires peak > 0.0 && peak < d2 && Abs(strength) / 10.0 <= rate
    ensures Abs(ShearStress(strength, peak, d2) - strength) <= rate * (d2 - peak)
  {
    SoftSlope(strength, peak, peak, d2);
    assert strength * (1.0 - 0.1 * (peak - peak)) == strength;
    RateBound(Abs(strength) / 10.0, rate, d2 - peak);
  }

  /** Two steps bounded at the same rate make one step bounded at that rate. */
  lemma CombineBounds(x: real, y: real, z: real, rate: real, w1: real, w2: real)
    requires Abs(x - y) <= rate * w2 && Abs(y - z) <= rate * w1
    ensures Abs(x - z) <= rate * (w1 + w2)
  {
    assert rate * (w1 + w2) == rate * w1 + rate * w2;
  }

  lemma RateBound(slope: real, rate: real, w: real)
    requires slope <= rate && w >= 0.0
    ensures slope * w <= rate * w
  {
    assert rate * w - slope * w == (rate - slope) * w;
  }

  /** On the ramp the change is |strength|/peak times the change in displacement. */
  lemma RampSlope(strength: real, peak: real, d1: real, d2: real)
    requires peak > 0.0 && d1 <= d2 <= peak
    ensures Abs(ShearStress(strength, peak, d2) - ShearStress(strength, peak, d1)) == Abs(strength) / peak * (d2 - d1)
  {
    calc {
      ShearStress(strength, peak, d2) - ShearStress(strength, peak, d1);
      strength * (d2 / peak) - strength * (d1 / peak);
      { assert d2 / peak - d1 / peak == (d2 - d1) / peak; }
      strength * ((d2 - d1) / peak);
    }
    AbsOfProduct(strength, (d2 - d1) / peak);
  }

  /** Past the peak (extended to include it) the change is |strength|/10 times the change in displacement. */
  lemma SoftSlope(strength: real, peak: real, d1: real, d2: real)
    requires peak > 0.0 && peak <= d1 <= d2
    ensures Abs(strength * (1.0 - 0.1 * (d2 - peak)) - strength * (1.0 - 0.1 * (d1 - peak))) == Abs(strength) / 10.0 * (d2 - d1)
  {
    assert strength * (1.0 - 0.1 * (d2 - peak)) - strength * (1.0 - 0.1 * (d1 - peak)) == -(strength * ((d2 - d1) / 10.0));
    AbsOfProduct(strength, (d2 - d1) / 10.0);
  }

  lemma AbsOfProduct(x: real, y: real)
    requires y >= 0.0
    ensures Abs(x * y) == Abs(x) * y
  {
    if x < 0.0 { assert x * y <= 0.0; }
  }

  lemma DivMonotone(x: real, y: real, z: real)
    requires z > 0.0 && x <= y
    ensures x / z <= y / z
  {
    assert y / z - x / z == (y - x) / z;
  }

  /** The upper limit of the stress axis: 1.5 times the dry strength, but at least 100 kPa. */
  function YMax(cohesion: real, normalStress: real, tanPhi: real): (r: real)
    ensures r >= 100.0
    ensures r >= 1.5 * Strength(cohesion, normalStress, tanPhi, false)
    ensures r == 100.0 || r == 1.5 * Strength(cohesion, normalStress, tanPhi, false)
  {
    var maxShear := cohesion + normalStress * tanPhi;
    if maxShear * 1.5 > 100.0 then maxShear * 1.5 else 100.0
  }

  /** A point of the Mohr-Coulomb envelope chart: normal stress x, shear strength y. */
  datatype Point = Point(x: real, y: real)

  /** The envelope drawn as five points at σ = 0, 100, 200, 300 and 400 kPa. */
  function MohrPoints(cohesion: real, tanPhi: real): (r: seq<Point>)
    ensures |r| == 5
    ensures forall i :: 0 <= i < 5 ==> r[i].x == 100.0 * (i as real)
    ensures forall i :: 0 <= i < 5 ==> r[i].y == cohesion + r[i].x * tanPhi
  {
    [Point(0.0, cohesion),
     Point(100.0, cohesion + 100.0 * tanPhi),
     Point(200.0, cohesion + 200.0 * tanPhi),
     Point(300.0, cohesion + 300.0 * tanPhi),
     Point(400.0, cohesion + 400.0 * tanPhi)]
  }

  /** Every envelope point lies on the dry strength line, which meets the y axis at the cohesion. */
  lemma MohrPointsOnEnvelope(cohesion: real, tanPhi: real, i: int)
    requires 0 <= i < 5
    ensures MohrPoints(cohesion, tanPhi)[0].y == cohesion
    ensures MohrPoints(cohesion, tanPhi)[i].y == Strength(cohesion, MohrPoints(cohesion, tanPhi)[i].x, tanPhi, false)
  {
  }

  /** With tanφ >= 0 the envelope does not decrease from point to point. */
  lemma MohrPointsAscending(cohesion: real, tanPhi: real, i: int, j: int)
    requires tanPhi >= 0.0 && 0 <= i <= j < 5
    ensures MohrPoints(cohesion, tanPhi)[i].y <= MohrPoints(cohesion, tanPhi)[j].y
  {
    var r := MohrPoints(cohesion, tanPhi);
    MulMonotone(tanPhi, r[i].x, r[j].x);
  }
}
