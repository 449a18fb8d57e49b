/**
 * Soil types as the pages' drop-downs name them, and the soil-type selector of both
 * simulation.js pages: choosing a type overwrites cohesion (kPa) and friction angle
 * (degrees) with a preset. That switch has no default branch, so a type it does not
 * name leaves both untouched.
 */
module Soil {
  import opened Wrappers

  /**
   * The value of a soil-type select. The simulation.js pages offer "clayeySand",
   * the script.js page "sandClay"; any other string is kept as `Other`.
   */
  datatype SoilType = Sand | Clay | Silt | ClayeySand | SandClay | Other(value: string)

  /** The option value a soil type is written as. */
  function Name(t: SoilType): string
  {
    match t
    case Sand => "sand"
    case Clay => "clay"
    case Silt => "silt"
    case ClayeySand => "clayeySand"
    case SandClay => "sandClay"
    case Other(v) => v
  }

  /** The soil type a select value stands for. */
  function Parse(value: string): SoilType
  {
    match value
    case "sand" => Sand
    case "clay" => Clay
    case "silt" => Silt
    case "clayeySand" => ClayeySand
    case "sandClay" => SandClay
    case _ => Other(value)
  }

  /** `Other` never carries one of the five names the pages know. */
  ghost predicate WellFormed(t: SoilType)
  {
    t.Other? ==> t.value !in {"sand", "clay", "silt", "clayeySand", "sandClay"}
  }

  /** Parsing loses nothing: every string is the name of the type it parses to. */
  lemma NameOfParse(value: string)
    ensures WellFormed(Parse(value))
    ensures Name(Parse(value)) == value
  {
  }

  /** Every well-formed type is recovered from its name. */
  lemma ParseOfName(t: SoilType)
    requires WellFormed(t)
    ensures Parse(Name(t)) == t
  {
  }

  /** Cohesion in kPa and friction angle in degrees, as held by the simulator. */
  datatype SoilParams = SoilParams(cohesion: real, frictionAngle: real)

  /** The preset of the simulation.js switch, or None when it has no case for the type. */
  function Preset(t: SoilType): (r: Option<SoilParams>)
    ensures r.Some? <==> t in {Sand, Clay, Silt, ClayeySand}
    ensures r.Some? ==> 0.0 <= r.value.cohesion && 0.0 < r.value.frictionAngle < 90.0
  {
    match t
    case Sand => Some(SoilParams(0.0, 35.0))
    case Clay => Some(SoilParams(25.0, 20.0))
    case Silt => Some(SoilParams(10.0, 28.0))
    case ClayeySand => Some(SoilParams(15.0, 30.0))
    case _ => None
  }

  /** The parameters after the change handler has run for soil type `t`. */
  function SelectSoilType(t: SoilType, current: SoilParams): (r: SoilParams)
    ensures Preset(t).None? ==> r == current
    ensures Preset(t).Some? ==> r == Preset(t).value
  {
    match Preset(t)
    case Some(p) => p
    case None => current
  }

  /** The four presets, row by row, whatever the sliders held. */
  lemma PresetTable(current: SoilParams)
    ensures SelectSoilType(Parse("sand"), current) == SoilParams(0.0, 35.0)
    ensures SelectSoilType(Parse("clay"), current) == SoilParams(25.0, 20.0)
    ensures SelectSoilType(Parse("silt"), current) == SoilParams(10.0, 28.0)
    ensures SelectSoilType(Parse("clayeySand"), current) == SoilParams(15.0, 30.0)
    ensures SelectSoilType(Parse("sandClay"), current) == current
  {
  }

  /** Selecting the same soil type twice is the same as selecting it once. */
  lemma SelectIdempotent(t: SoilType, current: SoilParams)
    ensures SelectSoilType(t, SelectSoilType(t, current)) == SelectSoilType(t, current)
  {
  }

  /** For a type with a preset the result does not depend on what the sliders held before. */
  lemma SelectForgetsSliders(t: SoilType, a: SoilParams, b: SoilParams)
    requires Preset(t).Some?
    ensures SelectSoilType(t, a) == SelectSoilType(t, b)
  {
  }
}
