/**
 * The step navigator of js/protocol-steps.js: a counter over the ten steps of the
 * test protocol, moved by the previous/next buttons (which refuse to leave the
 * range) and by the step links (which jump without any check). Every move goes
 * through updateStep, which records the step, shows its icon and title, marks the
 * matching links active and disables the buttons at either end.
 */
module ProtocolSteps {
  import opened Wrappers

  /** The part of a stepsData entry the navigator uses. */
  datatype StepInfo = StepInfo(icon: string, title: string)

  /** stepsData, in key order: entry k holds step k + 1. */
  const Steps: seq<StepInfo> := [
    StepInfo("fa-tools", "Preparación de la Máquina"),
    StepInfo("fa-box-open", "Montaje de la Caja de Corte"),
    StepInfo("fa-mountain", "Preparación de la Muestra"),
    StepInfo("fa-hammer", "Compactación de la Muestra"),
    StepInfo("fa-weight-hanging", "Aplicación de Carga Normal"),
    StepInfo("fa-compress-alt", "Inicio del Ensayo de Corte"),
    StepInfo("fa-ruler-combined", "Monitoreo del Ensayo"),
    StepInfo("fa-stop-circle", "Finalización del Ensayo"),
    StepInfo("fa-vial", "Análisis de la Muestra Fallada"),
    StepInfo("fa-calculator", "Cálculos y Reporte")
  ]

  /** totalSteps: the number of keys of stepsData. */
  function TotalSteps(): (n: nat)
    ensures n == 10
  {
    |Steps|
  }

  /** stepsData[step]: the entry for a key 1..10, and None (undefined) for anything else. */
  function StepData(step: int): (r: Option<StepInfo>)
    ensures r.Some? <==> 1 <= step <= TotalSteps()
    ensures step == 1 ==> r == Some(StepInfo("fa-tools", "Preparación de la Máquina"))
    ensures step == 10 ==> r == Some(StepInfo("fa-calculator", "Cálculos y Reporte"))
  {
    if 1 <= step <= |Steps| then Some(Steps[step - 1]) else None
  }

  /** A user action: the previous button, the next button, or a step link with its data-step. */
  datatype Move = Prev | Next | Link(step: int)

  /**
   * The step after a move. Previous steps back whenever the counter is above 1 and
   * next steps forward whenever it is below totalSteps, so from a step a bad link
   * left outside the range the buttons bring it back one step at a time; a link
   * jumps anywhere.
   */
  function Apply(current: int, m: Move): int
  {
    match m
    case Prev => if current > 1 then current - 1 else current
    case Next => if current < TotalSteps() then current + 1 else current
    case Link(s) => s
  }

  /** The step after a sequence of moves, first move first. */
  function ApplyAll(current: int, moves: seq<Move>): int
    decreases |moves|
  {
    if |moves| == 0 then current else ApplyAll(Apply(current, moves[0]), moves[1..])
  }

  /** A link whose data-step names an existing step. */
  predicate InRange(m: Move)
  {
    m.Link? ==> 1 <= m.step <= TotalSteps()
  }

  /**
   * Starting from any step, buttons and links to existing steps keep the counter in
   * [1, totalSteps]; the page starts at step 1.
   */
  lemma {:induction false} ApplyAllStaysInRange(current: int, moves: seq<Move>)
    requires 1 <= current <= TotalSteps()
    requires forall i :: 0 <= i < |moves| ==> InRange(moves[i])
    ensures 1 <= ApplyAll(current, moves) <= TotalSteps()
    decreases |moves|
  {
    if |moves| > 0 {
      assert InRange(moves[0]);
      assert forall i :: 0 <= i < |moves[1..]| ==> InRange(moves[1..][i]) by {
        forall i | 0 <= i < |moves[1..]|
          ensures InRange(moves[1..][i])
        {
          assert moves[1..][i] == moves[i + 1];
        }
      }
      ApplyAllStaysInRange(Apply(current, moves[0]), moves[1..]);
    }
  }

  /** A link to a step that does not exist takes the counter out of range. */
  lemma BadLinkLeavesRange(current: int, s: int)
    requires !(1 <= s <= TotalSteps())
    ensures StepData(ApplyAll(current, [Link(s)])).None?
  {
  }

  /** The same move k times over. */
  function Repeat(m: Move, k: nat): (r: seq<Move>)
    ensures |r| == k
    ensures forall i :: 0 <= i < k ==> r[i] == m
  {
    if k == 0 then [] else [m] + Repeat(m, k - 1)
  }

  /** Pressing next k times from step c reaches min(c + k, totalSteps). */
  lemma {:induction false} NextTimes(c: int, k: nat)
    requires 1 <= c <= TotalSteps()
    ensures ApplyAll(c, Repeat(Next, k)) == if c + k < TotalSteps() then c + k else TotalSteps()
    decreases k
  {
    if k > 0 {
      assert Repeat(Next, k)[1..] == Repeat(Next, k - 1);
      NextTimes(Apply(c, Next), k - 1);
    }
  }

  /** Pressing previous k times from step c reaches max(c - k, 1). */
  lemma {:induction false} PrevTimes(c: int, k: nat)
    requires 1 <= c <= TotalSteps()
    ensures ApplyAll(c, Repeat(Prev, k)) == if c - k > 1 then c - k else 1
    decreases k
  {
    if k > 0 {
      assert Repeat(Prev, k)[1..] == Repeat(Prev, k - 1);
      PrevTimes(Apply(c, Prev), k - 1);
    }
  }

  /** A button is a no-op exactly where updateStep disables it. */
  lemma ButtonsDisabledExactlyAtEnds(c: int)
    requires 1 <= c <= TotalSteps()
    ensures Apply(c, Prev) == c <==> c == 1
    ensures Apply(c, Next) == c <==> c == TotalSteps()
  {
  }

  /** Outside the range, the buttons move the counter one step towards it. */
  lemma ButtonsFromOutsideRange(c: int)
    ensures c > TotalSteps() ==> Apply(c, Prev) == c - 1 && Apply(c, Next) == c
    ensures c < 1 ==> Apply(c, Next) == c + 1 && Apply(c, Prev) == c
  {
  }

  /** Away from the ends, previous undoes next and next undoes previous. */
  lemma PrevUndoesNext(c: int)
    requires 1 <= c <= TotalSteps()
    ensures c < TotalSteps() ==> Apply(Apply(c, Next), Prev) == c
    ensures c > 1 ==> Apply(Apply(c, Prev), Next) == c
  {
  }

  class StepNavigator {
    /** The data-step of each .step-link, in document order. */
    const linkSteps: seq<int>
    /** Whether each .step-link carries the 'active' class. */
    const active: array<bool>

    var currentStep: int
    /** prevBtn.disabled and nextBtn.disabled */
    var prevDisabled: bool
    var nextDisabled: bool
    /** The icon and title on display. */
    var shown: StepInfo

    /** What updateStep leaves behind for the step it was given. */
    ghost predicate ShowsStep(step: int)
      reads this, active
    {
      && active.Length == |linkSteps|
      && StepData(step).Some?
      && shown == StepData(step).value
      && prevDisabled == (step == 1)
      && nextDisabled == (step == TotalSteps())
      && forall i :: 0 <= i < active.Length ==> active[i] == (linkSteps[i] == step)
    }

    /** The navigator shows an existing step, the current one. */
    ghost predicate Valid()
      reads this, active
    {
      ShowsStep(currentStep)
    }

    /**
     * Every state the page can reach: whenever the counter names an existing step,
     * that step is on display. After a bad link the counter names no step and the
     * display still shows the one before.
     */
    ghost predicate Consistent()
      reads this, active
    {
      && active.Length == |linkSteps|
      && (StepData(currentStep).Some? ==> ShowsStep(currentStep))
    }

    /** Page load: updateStep(1). */
    constructor (linkSteps: seq<int>)
      ensures Valid()
      ensures this.linkSteps == linkSteps && fresh(active)
      ensures currentStep == 1
    {
      this.linkSteps := linkSteps;
      active := new bool[|linkSteps|];
      new;
      var ok := UpdateStep(1);
    }

    /**
     * updateStep: record the step; for an existing step show it, mark exactly the
     * links with that data-step active and set the buttons. For any other step the
     * lookup of its entry fails right after the counter was written, and nothing
     * else changes.
     */
    method UpdateStep(step: int) returns (ok: bool)
      requires active.Length == |linkSteps|
      modifies this`currentStep, this`shown, this`prevDisabled, this`nextDisabled, active
      ensures currentStep == step
      ensures ok <==> 1 <= step <= TotalSteps()
      ensures ok ==> ShowsStep(step)
      ensures !ok ==> shown == old(shown) && prevDisabled == old(prevDisabled)
                      && nextDisabled == old(nextDisabled) && active[..] == old(active[..])
    {
      currentStep := step;
      var data := StepData(step);
      if data.None? {
        return false;
      }
      shown := data.value;
      var i := 0;
      while i < active.Length
        invariant 0 <= i <= active.Length
        invariant forall j :: 0 <= j < i ==> active[j] == (linkSteps[j] == step)
        invariant currentStep == step && shown == data.value
      {
        active[i] := false;
        if linkSteps[i] == step {
          active[i] := true;
        }
        i := i + 1;
      }
      prevDisabled := step == 1;
      nextDisabled := step == TotalSteps();
      ok := true;
    }

    /**
     * The previous button: go back one step unless at or below the first. From a
     * step past the last, left by a bad link, it steps back towards the range.
     */
    method PrevClicked()
      requires Consistent()
      modifies this`currentStep, this`shown, this`prevDisabled, this`nextDisabled, active
      ensures Consistent()
      ensures currentStep == Apply(old(currentStep), Prev)
      ensures old(Valid()) ==> Valid()
      ensures StepData(currentStep).Some? ==> Valid()
      ensures StepData(currentStep).None? ==>
                shown == old(shown) && prevDisabled == old(prevDisabled)
                && nextDisabled == old(nextDisabled) && active[..] == old(active[..])
    {
      if currentStep > 1 {
        var ok := UpdateStep(currentStep - 1);
      }
    }

    /**
     * The next button: go forward one step unless at or past the last. From a step
     * below the first, left by a bad link, it steps forward towards the range.
     */
    method NextClicked()
      requires Consistent()
      modifies this`currentStep, this`shown, this`prevDisabled, this`nextDisabled, active
      ensures Consistent()
      ensures currentStep == Apply(old(currentStep), Next)
      ensures old(Valid()) ==> Valid()
      ensures StepData(currentStep).Some? ==> Valid()
      ensures StepData(currentStep).None? ==>
                shown == old(shown) && prevDisabled == old(prevDisabled)
                && nextDisabled == old(nextDisabled) && active[..] == old(active[..])
    {
      if currentStep < TotalSteps() {
        var ok := UpdateStep(currentStep + 1);
      }
    }

    /** A click on step link `i`: jump to its data-step, with no range check. */
    method LinkClicked(i: nat) returns (ok: bool)
      requires active.Length == |linkSteps| && i < |linkSteps|
      modifies this`currentStep, this`shown, this`prevDisabled, this`nextDisabled, active
      ensures currentStep == Apply(old(currentStep), Link(linkSteps[i]))
      ensures ok <==> 1 <= linkSteps[i] <= TotalSteps()
      ensures Consistent()
      ensures ok ==> Valid() && active[i]
      ensures !ok ==> shown == old(shown) && prevDisabled == old(prevDisabled)
                      && nextDisabled == old(nextDisabled) && active[..] == old(active[..])
    {
      ok := UpdateStep(linkSteps[i]);
    }
  }

  /**
   * A page whose only link has data-step 11: the link leaves the counter at 11 with
   * step 1 still on display, and one press of previous brings it to step 10, shown.
   */
  method RecoverFromBadLink() returns (nav: StepNavigator)
    ensures nav.currentStep == 10 && nav.Valid()
  {
    nav := new StepNavigator([11]);
    var ok := nav.LinkClicked(0);
    assert !ok && nav.currentStep == 11 && nav.shown == StepData(1).value;
    nav.PrevClicked();
  }
}
