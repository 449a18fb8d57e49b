# Direct-shear test simulator, modelled in Dafny

The repository is a set of web pages that simulate a direct-shear soil test on a
Humboldt HM-5750 machine. This project models the engine behind those pages and
proves properties of it. The engine has four parts:

- **js/simulation.js.** The main simulator. It applies a soil-type preset for
  cohesion and friction angle. It computes the Mohr-Coulomb strength, reduced by
  30% for a saturated sample. Shear stress rises linearly to a peak (4 mm for
  clay, 2 mm otherwise) and then softens by 10% of the strength per mm. An
  animation frame advances the displacement by speed/60 until it is clamped at
  10 mm, and a chart keeps the last 50 samples.
- **javascrip/simulation.js.** An earlier copy of the same engine. Its samples
  live in the chart's own arrays, and cancelling a frame never clears its handle.
- **javascrip/script.js.** A timer-driven variant. It has a per-soil peak stress
  table and a three-phase force curve (elastic, plastic, then hardening for sand
  and softening otherwise). It converts force to stress over a 36 cm² sample,
  records vertical strain, and stops unclamped on the first tick at or past 5 mm.
- **js/protocol-steps.js.** A ten-step protocol navigator with previous/next
  buttons and step links.

The modules are:

- `Soil`: soil types and the preset table.
- `ShearCurve`: strength, the ramp-and-soften curve, the axis limit and the
  Mohr envelope.
- `SampleBuffer`: the 50-sample chart buffer.
- `RunClock`: the displacement clock shared by all three simulators.
- `JsSimulation`, `JavascripSimulation` and `ScriptSimulation`: one class per
  page. The class holds the page's mutable state, and each event handler is a
  method.
- `ProtocolSteps`: the navigator, as a class over an array of link flags.
- `Reals` and `Wrappers`: small shared helpers (absolute value, monotone multiplication, Option).

Every method is specified against the pure functions of the shared modules, and
the properties are proved about those functions. Math.tan of an angle in degrees
is an uninterpreted function `tanDeg: real -> real` supplied by the host. All
arithmetic is exact real arithmetic.

## Model

| member | source | states |
|---|---|---|
| Soil.Preset | js/simulation.js:73-90 | the change handler's switch has a preset exactly for sand, clay, silt and clayeySand; each preset has a non-negative cohesion and an angle strictly between 0° and 90° |
| Soil.SelectSoilType | js/simulation.js:70-90 | after the handler runs, cohesion and angle are the type's preset, or unchanged when the switch has no case for it |
| Soil.PresetTable | javascrip/simulation.js:52-69 | the four rows (0, 35), (25, 20), (10, 28), (15, 30); "sandClay" leaves the sliders as they were |
| Soil.SelectIdempotent | js/simulation.js:70-90 | choosing the same soil type twice gives the same parameters as choosing it once |
| Soil.SelectForgetsSliders | js/simulation.js:73-90 | for a type with a preset, the result does not depend on the slider values before the change |
| Soil.NameOfParse | js/simulation.js:71 | every select value is recovered from the soil type it is read as, so an unknown value is kept verbatim |
| Soil.ParseOfName | javascrip/script.js:257 | every soil type is read back from its option value |
| ShearCurve.SaturatedIsSevenTenths | js/simulation.js:290-294 | a saturated sample's strength is exactly 0.7 times the dry strength for the same c, φ and σ |
| ShearCurve.StrengthNonNegative | javascrip/simulation.js:256-261 | with c, σ and tanφ non-negative, the strength is non-negative and at least 0.7·c |
| ShearCurve.PeakDisplacement | js/simulation.js:296 | the peak is at 4 mm exactly for clay and at 2 mm for every other type |
| ShearCurve.RampEndpoints | js/simulation.js:297-298 | the ramp is 0 at 0 mm and equals the full strength at the peak |
| ShearCurve.RampIsLinear | javascrip/simulation.js:265-266 | before the peak, stress · peak = strength · displacement |
| ShearCurve.RampMonotone | js/simulation.js:297-298 | with non-negative strength, stress does not decrease on [0, peak] |
| ShearCurve.SofteningMonotone | js/simulation.js:299-301 | with non-negative strength, stress does not increase past the peak |
| ShearCurve.BranchesMeetAtPeak | javascrip/simulation.js:265-269 | the softening branch evaluated at the peak equals the ramp's value there |
| ShearCurve.PeakIsMaximum | js/simulation.js:296-301 | with non-negative strength, no displacement gives more stress than the peak |
| ShearCurve.ShearStressLipschitz | js/simulation.js:296-301 | the curve is continuous: any rate at least as steep as both slopes (\|strength\|/peak and \|strength\|/10) bounds the change in stress between two displacements |
| ShearCurve.YMax | js/simulation.js:54-59 | the stress axis limit is max(1.5·(c + σ·tanφ), 100), so never below 100 |
| ShearCurve.MohrPoints | javascrip/simulation.js:483-490 | five points at σ = 0, 100, 200, 300 and 400, each with y = c + σ·tanφ |
| ShearCurve.MohrPointsOnEnvelope | js/simulation.js:624-631 | the first point's y is the cohesion, and every point lies on the dry strength line |
| ShearCurve.MohrPointsAscending | js/simulation.js:624-631 | with tanφ ≥ 0 the envelope points do not decrease |
| SampleBuffer.Push | js/simulation.js:339-346 | the buffer grows by one up to 50 entries and then stays at 50, with the new sample last |
| SampleBuffer.PushIsSuffix | javascrip/script.js:403-410 | a push keeps a suffix of the old entries, in order, followed by the new sample |
| SampleBuffer.PushKeepsMostRecent | javascrip/simulation.js:310-317 | one push on a buffer of at most 50 gives exactly the 50 most recent samples |
| SampleBuffer.PushAllKeepsMostRecent | js/simulation.js:339-346 | any sequence of pushes leaves the most recent (at most 50) samples, oldest first |
| SampleBuffer.SixtySamplesKeepLastFifty | javascrip/script.js:403-410 | sixty samples into an empty chart leave the last fifty |
| RunClock.AdvanceWhenStopped | js/simulation.js:306 | a tick while not running changes nothing |
| RunClock.AdvanceStopsAtLimit | js/simulation.js:308-313 | a running tick adds the step and stops the run exactly when the new displacement reaches the limit; a stopped run's displacement is the limit when clamped |
| RunClock.AdvanceClamped | javascrip/simulation.js:277-282 | with clamping the displacement never exceeds the limit |
| RunClock.AdvanceOvershoot | javascrip/script.js:292-296 | without clamping the final displacement is below limit + step |
| RunClock.AdvanceMonotone | js/simulation.js:308 | for a non-negative speed the displacement never decreases |
| RunClock.RunStillRunning | js/simulation.js:305-321 | while d + k·step stays below the limit, k ticks leave the run going at exactly d + k·step |
| RunClock.RunCompletes | js/simulation.js:305-321 | the run stops on the first tick n with d + n·step ≥ limit, at the limit when clamped and at d + n·step otherwise |
| RunClock.RunWhenStopped | js/simulation.js:306 | once stopped, any number of ticks change nothing |
| RunClock.DefaultSpeedCompletesOnTick500 | js/simulation.js:28-37 | in exact arithmetic, at the default 1.2 mm/min the 10 mm test is at 9.98 mm after 499 frames and completes on frame 500 at 10 mm |
| RunClock.UnclampedRunOvershoots | javascrip/script.js:272-297 | at 1.3 mm/min the 5 mm run stops on tick 231 at 5.005 mm, past the limit |
| JsSimulation.ShearTest.CalculateYMax | js/simulation.js:54-59 | the axis limit is at least 100 and at least 1.5 times the dry strength |
| JsSimulation.ShearTest.MohrData | js/simulation.js:620-638 | the envelope has five points and starts at (0, cohesion) |
| JsSimulation.ShearTest.constructor | js/simulation.js:26-43 | the page starts at rest at 0 mm with dry sand, c = 0, φ = 35°, σ = 100 kPa, 1.2 mm/min and an empty chart |
| JsSimulation.ShearTest.SelectSoilType | js/simulation.js:70-90 | records the selected type and sets cohesion and angle as Soil.SelectSoilType does |
| JsSimulation.ShearTest.UpdateChart | js/simulation.js:335-363 | both chart arrays become SampleBuffer.Push of the new displacement and stress, and stay parallel |
| JsSimulation.ShearTest.Stop | js/simulation.js:388-398 | the run is over and no frame is pending |
| JsSimulation.ShearTest.Pause | js/simulation.js:376-386 | stops the run with the displacement kept and no frame pending |
| JsSimulation.ShearTest.Tick | js/simulation.js:305-321 | the clock moves as RunClock.Advance with clamping at 10 mm; a running frame pushes (displacement, calculateShearStress) to the chart; a frame is pending exactly while running; a stopped frame changes nothing |
| JsSimulation.ShearTest.Start | js/simulation.js:366-374 | a no-op while running; otherwise starts the run and performs the first frame at once |
| JsSimulation.ShearTest.Reset | js/simulation.js:401-434 | stopped at 0 mm, no frame pending, empty chart, from any state |
| JsSimulation.ResetIsIdempotent | js/simulation.js:401-411 | resetting twice gives the same state as resetting once |
| JavascripSimulation.ShearTest.MohrData | javascrip/simulation.js:480-494 | the envelope has five points and starts at (0, cohesion). This page calls updateMohrChart only once, from initCharts (javascrip/simulation.js:477), so its envelope is never redrawn after a slider or preset change |
| JavascripSimulation.ShearTest.constructor | javascrip/simulation.js:26-37 | the page starts at rest at 0 mm with dry sand, c = 0, φ = 35°, σ = 100 kPa, 1.2 mm/min and no frame handle |
| JavascripSimulation.ShearTest.SelectSoilType | javascrip/simulation.js:48-75 | records the selected type and sets cohesion and angle as Soil.SelectSoilType does |
| JavascripSimulation.ShearTest.UpdateResults | javascrip/simulation.js:296-321 | the chart's labels and data become SampleBuffer.Push of the displacement and stress, and stay parallel |
| JavascripSimulation.ShearTest.Stop | javascrip/simulation.js:347-356 | the run is over |
| JavascripSimulation.ShearTest.Pause | javascrip/simulation.js:336-345 | stops the run with the displacement kept; the frame handle is not cleared |
| JavascripSimulation.ShearTest.Tick | javascrip/simulation.js:273-294 | the clock moves as RunClock.Advance with clamping at 10 mm; a running frame pushes the sample; a running page always holds a frame handle; a stopped frame changes nothing |
| JavascripSimulation.ShearTest.Start | javascrip/simulation.js:324-334 | a no-op while running; otherwise starts the run and performs the first frame at once |
| JavascripSimulation.ShearTest.Reset | javascrip/simulation.js:358-384 | stopped at 0 mm with both chart arrays empty |
| ScriptSimulation.PeakShearStressEnvelope | javascrip/script.js:305-324 | peak stress σ·tan35° for sand, 50 + σ·tan20° for clay, 20 + σ·tan28° for silt, 30 + σ·tan32° for sandClay, and 0.5·σ for any other type |
| ScriptSimulation.PeakShearStressNonNegative | javascrip/script.js:305-324 | the peak stress is non-negative when σ and the four tangents are |
| ScriptSimulation.ForceStressRoundTrip | javascrip/script.js:326-327 | stress→force (·36/10) and force→stress (/36·10) are inverse to each other |
| ScriptSimulation.ForceCurveIsScaledFactor | javascrip/script.js:329-347 | the force curve is the peak force times a phase factor that depends only on soil type and displacement |
| ScriptSimulation.MeasuredReadings | javascrip/script.js:276-283 | on each tick the force is the peak force times the phase factor, the displayed stress is the peak stress times the same factor, and the strain is the vertical strain |
| ScriptSimulation.PhaseBoundaries | javascrip/script.js:330-339 | the factor is 0 at rest, 0.7 at 1 mm and 1 at 3 mm |
| ScriptSimulation.PhaseFactorLipschitz | javascrip/script.js:329-347 | the phase factor is continuous, including at 1 mm and 3 mm (Lipschitz with constant 0.7) |
| ScriptSimulation.PhaseFactorRising | javascrip/script.js:330-342 | the factor does not decrease up to 3 mm, and never decreases for sand |
| ScriptSimulation.PhaseFactorSoftening | javascrip/script.js:338-346 | past 3 mm every soil but sand softens, with the factor at most 1 |
| ScriptSimulation.PhaseFactorPeak | javascrip/script.js:338-346 | for every soil but sand the factor peaks at 1 at 3 mm |
| ScriptSimulation.ForceCurveBranchesMeet | javascrip/script.js:330-336 | the elastic branch meets the plastic branch at 1 mm, and the plastic branch meets the last branch at 3 mm |
| ScriptSimulation.ForceCurveRising | javascrip/script.js:330-342 | with a non-negative peak force, the force does not decrease up to 3 mm, and never decreases for sand |
| ScriptSimulation.ForceCurveSoftening | javascrip/script.js:338-346 | with a non-negative peak force, every soil but sand softens past 3 mm and stays at most the peak force |
| ScriptSimulation.VerticalStrainLipschitz | javascrip/script.js:351-364 | vertical strain is continuous, including at 2 mm for sand (Lipschitz with constant 0.05) |
| ScriptSimulation.SandDilation | javascrip/script.js:353-359 | sand dilates up to 2 mm and contracts after, with a maximum of 0.1 at 2 mm |
| ScriptSimulation.OtherSoilsContract | javascrip/script.js:360-363 | every other soil's strain never increases and is never positive for d ≥ 0 |
| ScriptSimulation.RestartAfterCompletionStopsAtOnce | javascrip/script.js:262-296 | a run restarted at or past 5 mm, with the displacement not reset, stops on its first tick |
| ScriptSimulation.ShearSimulation.constructor | javascrip/script.js:1-10 | all readings are 0 with no run, no timer and an empty chart |
| ScriptSimulation.ShearSimulation.UpdateReadings | javascrip/script.js:276-283 | force, stress and strain become Measure of the run's soil type and normal stress at the current displacement |
| ScriptSimulation.ShearSimulation.UpdateShearChart | javascrip/script.js:400-415 | both chart arrays become SampleBuffer.Push of the current displacement and stress |
| ScriptSimulation.ShearSimulation.Tick | javascrip/script.js:272-297 | the clock moves as RunClock.Advance with no clamp at 5 mm; a live timer recomputes the readings as Measure and pushes the sample; without a timer nothing changes |
| ScriptSimulation.ShearSimulation.StartSimulation | javascrip/script.js:256-298 | fixes the run's soil type, normal stress and speed, clears the chart only when starting from 0 mm, and starts the timer |
| ScriptSimulation.ShearSimulation.Toggle | javascrip/script.js:239-253 | flips the running flag at the same displacement; starting reads the form and clears the chart only from 0 mm; pausing keeps the chart and the run's parameters |
| ScriptSimulation.ShearSimulation.Reset | javascrip/script.js:418-442 | stopped at 0 mm with every reading 0 and the chart and shearData empty |
| ProtocolSteps.TotalSteps | js/protocol-steps.js:89 | totalSteps, the number of entries of stepsData, is 10 |
| ProtocolSteps.StepData | js/protocol-steps.js:13-74 | an entry exists exactly for steps 1 to 10; step 1 is 'fa-tools' and step 10 is 'fa-calculator' |
| ProtocolSteps.ApplyAllStaysInRange | js/protocol-steps.js:131-145 | from any step in [1, 10], buttons and links to existing steps keep the counter in [1, 10] |
| ProtocolSteps.BadLinkLeavesRange | js/protocol-steps.js:124-129 | a link whose data-step is outside [1, 10] takes the counter to a step with no entry |
| ProtocolSteps.NextTimes | js/protocol-steps.js:139-145 | k presses of next from step c reach min(c + k, 10) |
| ProtocolSteps.PrevTimes | js/protocol-steps.js:131-137 | k presses of previous from step c reach max(c − k, 1) |
| ProtocolSteps.ButtonsFromOutsideRange | js/protocol-steps.js:131-145 | from a step past 10 previous steps back by one and next does nothing; from a step below 1 next steps forward by one and previous does nothing |
| ProtocolSteps.ButtonsDisabledExactlyAtEnds | js/protocol-steps.js:113-114 | the previous button does nothing exactly at step 1, and next exactly at step 10 |
| ProtocolSteps.PrevUndoesNext | js/protocol-steps.js:131-145 | away from the ends, previous undoes next and next undoes previous |
| ProtocolSteps.StepNavigator.constructor | js/protocol-steps.js:148 | the page opens on step 1, fully shown |
| ProtocolSteps.StepNavigator.UpdateStep | js/protocol-steps.js:92-121 | records the step. For an existing step it shows the step's entry, marks exactly the links with that data-step active, and disables previous exactly at 1 and next exactly at 10. For any other step it fails with nothing else changed |
| ProtocolSteps.StepNavigator.PrevClicked | js/protocol-steps.js:131-137 | from any reachable state, including a step left outside [1, 10] by a bad link, moves as Apply(·, Prev); the navigator stays consistent, a valid navigator stays valid, a step with an entry ends fully shown, and a step without one leaves the display, buttons and links as they were |
| ProtocolSteps.StepNavigator.NextClicked | js/protocol-steps.js:139-145 | from any reachable state, including a step left outside [1, 10] by a bad link, moves as Apply(·, Next); the navigator stays consistent, a valid navigator stays valid, a step with an entry ends fully shown, and a step without one leaves the display, buttons and links as they were |
| ProtocolSteps.StepNavigator.LinkClicked | js/protocol-steps.js:124-129 | jumps to the link's data-step without a check; the result is valid, with that link active, exactly when the step exists; otherwise the display, buttons and links are as they were |
| ProtocolSteps.RecoverFromBadLink | js/protocol-steps.js:124-145 | a link with data-step 11 followed by one press of previous leaves the page at step 10, fully shown |

## Left out

- Canvas drawing is not modelled: drawMachine, drawScrews, drawWeightSystem, drawForces and getSoilColor only draw.
- Chart.js construction, options, axis limits (updateYLimit and the x-axis maximum) and `update()` calls belong to a foreign library and are not modelled. The chart is assumed to exist, so the `window.shearChart` and `window.mohrChart` guards are not modelled.
- Chart labels are the displacement formatted with `toFixed(2)`. They are modelled as the displacement itself.
- Results text is not modelled: the displayed vertical deformation (d·0.05), the displayed force (stress·1000), `updateVisualization`, and button labels and disabled flags on the simulator pages.
- RunClock.DefaultSpeedCompletesOnTick500: holds in exact arithmetic only. The page adds the double `speed / 60` each frame, and that double sum is just below 10 after 500 frames, so the page completes on frame 501.
- Math.tan and the degree-to-radian conversion are floating point. They are the host-supplied `tanDeg`, and all arithmetic is exact, so rounding is not modelled.
- requestAnimationFrame, cancelAnimationFrame, setInterval and clearInterval are not modelled as schedulers. Each frame or timer firing is one call of `Tick`, and a handle is a boolean "pending" flag.
- Only the soil-type handler is modelled among the control listeners. The slider, saturation and speed listeners only assign the corresponding field.
- Saturation is a boolean: true exactly when the select's value is 'saturated'.
- ScriptSimulation.ShearSimulation.StartSimulation: `parseInt` of the normal stress and `parseFloat` of the speed are not modelled. The caller passes the parsed numbers.
- The script.js globals `normalStressData` and `shearStressData` are never used and are not modelled. `shearData` is only ever set to the empty list.
- The hard-coded results of `updateResultsParameters` and the `stressStrainChart` sample data in javascrip/script.js are display literals and are not modelled.
- js/navegation.js is not part of this model. It only highlights menu entries.
- Protocol step content (`innerHTML`) and the opacity transition are not modelled. The navigator shows only each step's icon and title.
- Step links are modelled with integer `data-step` values. A non-numeric attribute, which `parseInt` turns into NaN, is not modelled.
- ProtocolSteps.StepNavigator.UpdateStep: for a step with no entry, the handler throws a TypeError right after writing `currentStep`. The model returns `ok == false` at that point.
- The script.js force curve itself is not proved Lipschitz. Its continuity follows from ForceCurveIsScaledFactor together with PhaseFactorLipschitz, and ForceCurveBranchesMeet states it at the branch boundaries.
