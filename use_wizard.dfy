/** The wizard hook of `src/hooks/use-wizard.ts`: the current phase and step, the
    answers (mirrored into local storage), the progress bar, and the moves forward and
    back through the phases. */
module UseWizard {

  import opened Wrappers
  import opened WizardTypes
  import WizardData
  import Text

  /** `isValidAnswer(answers[stepId])`: present, not blank text and not an empty list;
      every number counts, 0 included. */
  predicate IsValidAnswer(a: Option<Answer>) {
    match a
    case None => false
    case Some(AnswerText(s)) => Text.Trim(s) != ""
    case Some(AnswerList(items)) => |items| > 0
    case Some(AnswerNumber(_)) => true
  }

  /** Text counts unless it is all white space, a list unless it is empty, and every
      number counts, zero included; a missing answer never counts. */
  lemma AnswerValidity(s: string, items: seq<string>, n: real)
    ensures IsValidAnswer(Some(AnswerText(s))) <==> exists i :: 0 <= i < |s| && !Text.IsWhitespace(s[i])
    ensures IsValidAnswer(Some(AnswerList(items))) <==> items != []
    ensures IsValidAnswer(Some(AnswerNumber(n))) && !IsValidAnswer(None)
  {
    Text.TrimNotBlank(s);
  }

  function AnswerAt(answers: WizardState, stepId: string): Option<Answer> {
    if stepId in answers then Some(answers[stepId]) else None
  }

  /** A configuration the hook can walk: at least one phase, and no phase without steps. */
  predicate Walkable(config: WizardConfig) {
    |config.phases| > 0 && forall p :: 0 <= p < |config.phases| ==> |config.phases[p].steps| > 0
  }

  /** Step `s` of phase `p` exists. */
  predicate At(config: WizardConfig, p: nat, s: nat) {
    p < |config.phases| && s < |config.phases[p].steps|
  }

  /** The position of step `s` of phase `p` among all the wizard's steps. */
  function GlobalIndex(config: WizardConfig, p: nat, s: nat): nat
    requires p <= |config.phases|
  {
    WizardData.StepsBefore(config.phases, p) + s
  }

  /** The progress bar: `100 * (steps of the earlier phases + stepIndex) / totalSteps`. */
  function ProgressOf(config: WizardConfig, p: nat, s: nat): real
    requires p <= |config.phases|
  {
    if WizardData.TotalSteps(config) == 0 then 0.0
    else (GlobalIndex(config, p, s) as real / WizardData.TotalSteps(config) as real) * 100.0
  }

  /** The step the wizard is on is the one at its global position in `getAllSteps`. */
  lemma CurrentIsFlattened(config: WizardConfig, p: nat, s: nat)
    requires At(config, p, s)
    ensures GlobalIndex(config, p, s) < WizardData.TotalSteps(config)
    ensures WizardData.AllSteps(config)[GlobalIndex(config, p, s)] == config.phases[p].steps[s]
  {
    WizardData.FlattenAt(config.phases, p, s);
  }

  /** The bar starts at 0 and stays below 100 on every step, the last one included. */
  lemma ProgressBounds(config: WizardConfig, p: nat, s: nat)
    requires At(config, p, s)
    ensures ProgressOf(config, 0, 0) == 0.0
    ensures 0.0 <= ProgressOf(config, p, s) < 100.0
  {
    CurrentIsFlattened(config, p, s);
    PercentBelow(GlobalIndex(config, p, s), WizardData.TotalSteps(config));
  }

  /** A fraction of a smaller count in a larger one is a percentage below 100. */
  lemma PercentBelow(a: nat, b: nat)
    requires a < b
    ensures 0.0 <= (a as real / b as real) * 100.0 < 100.0
  {
    var q := a as real / b as real;
    assert q * (b as real) == a as real;
    assert q < 1.0;
  }

  /** On the shipped wizard the last step shows 12/13 of the bar. */
  lemma LastStepProgress()
    ensures At(WizardData.Data, 5, 1)
    ensures ProgressOf(WizardData.Data, 5, 1) == (12.0 / 13.0) * 100.0
  {
    WizardData.DataShape();
    var ps := WizardData.Data.phases;
    assert WizardData.StepsBefore(ps, 5) == 11 by {
      assert WizardData.StepsBefore(ps, 1) == 2;
      assert WizardData.StepsBefore(ps, 2) == 6;
      assert WizardData.StepsBefore(ps, 3) == 8;
      assert WizardData.StepsBefore(ps, 4) == 10;
    }
  }

  lemma DataWalkable()
    ensures Walkable(WizardData.Data)
  {
    WizardData.DataShape();
  }

  /** The key the answers are kept under in local storage. */
  const StorageKey := "wizard-answers"

  class Wizard {

    const config: WizardConfig
    var phaseIndex: nat
    var stepIndex: nat
    var answers: WizardState
    var isSubmitting: bool
    /** The `wizard-answers` entry of local storage, `None` when it is absent. */
    var stored: Option<WizardState>

    predicate Valid()
      reads this
    {
      Walkable(config) && At(config, phaseIndex, stepIndex)
    }

    function CurrentStep(): WizardStep
      reads this
      requires Valid()
    {
      config.phases[phaseIndex].steps[stepIndex]
    }

    /** The first render: the answers come back from local storage (`None` when the entry
        is missing, empty or not JSON), and the persisting effect writes them back. */
    constructor (config: WizardConfig, saved: Option<WizardState>)
      requires Walkable(config)
      ensures Valid() && this.config == config
      ensures phaseIndex == 0 && stepIndex == 0 && !isSubmitting
      ensures answers == saved.GetOr(map[]) && stored == Some(answers)
    {
      this.config := config;
      phaseIndex := 0;
      stepIndex := 0;
      answers := saved.GetOr(map[]);
      isSubmitting := false;
      stored := Some(saved.GetOr(map[]));
    }

    /** The memoised `progress`, accumulating the earlier phases' lengths in a loop. */
    method Progress() returns (r: real)
      requires Valid()
      ensures r == ProgressOf(config, phaseIndex, stepIndex)
    {
      var globalStepIndex := 0;
      for i := 0 to phaseIndex
        invariant globalStepIndex == WizardData.StepsBefore(config.phases, i)
      {
        globalStepIndex := globalStepIndex + |config.phases[i].steps|;
      }
      globalStepIndex := globalStepIndex + stepIndex;
      var totalSteps := |WizardData.AllSteps(config)|;
      if totalSteps == 0 {
        r := 0.0;
      } else {
        r := (globalStepIndex as real / totalSteps as real) * 100.0;
      }
    }

    /** `handleOptionSelect(stepId, value)`: that one answer is replaced, and the new
        answers are persisted. */
    method HandleOptionSelect(stepId: string, value: Answer)
      modifies this
      ensures answers == old(answers)[stepId := value] && stored == Some(answers)
      ensures phaseIndex == old(phaseIndex) && stepIndex == old(stepIndex) && isSubmitting == old(isSubmitting)
    {
      answers := answers[stepId := value];
      stored := Some(answers);
    }

    /** `submitWizard()`: the stored answers are removed, and the submitting flag is set
        and cleared again before anything else can run. */
    method SubmitWizard()
      modifies this
      ensures stored == None && !isSubmitting
      ensures answers == old(answers) && phaseIndex == old(phaseIndex) && stepIndex == old(stepIndex)
    {
      isSubmitting := true;
      stored := None;
      isSubmitting := false;
    }

    /** `handleNext()`: nothing without a valid answer; submitting on the very last step;
        otherwise one step forward, into the next phase at a phase's end. */
    method HandleNext()
      requires Valid()
      modifies this
      ensures Valid() && answers == old(answers)
      ensures !IsValidAnswer(AnswerAt(old(answers), old(CurrentStep()).id)) ==>
        && phaseIndex == old(phaseIndex) && stepIndex == old(stepIndex)
        && stored == old(stored) && isSubmitting == old(isSubmitting)
      ensures IsValidAnswer(AnswerAt(old(answers), old(CurrentStep()).id)) ==>
        if GlobalIndex(config, old(phaseIndex), old(stepIndex)) + 1 == WizardData.TotalSteps(config)
        then phaseIndex == old(phaseIndex) && stepIndex == old(stepIndex) && stored == None && !isSubmitting
        else (GlobalIndex(config, phaseIndex, stepIndex) == GlobalIndex(config, old(phaseIndex), old(stepIndex)) + 1
              && stored == old(stored) && isSubmitting == old(isSubmitting))
    {
      var currentAnswer := AnswerAt(answers, CurrentStep().id);
      if !IsValidAnswer(currentAnswer) {
        return;
      }
      var isLastStepInPhase := stepIndex >= |config.phases[phaseIndex].steps| - 1;
      var isLastPhase := phaseIndex >= |config.phases| - 1;
      LastMeansEnd(config, phaseIndex, stepIndex);
      if isLastStepInPhase && isLastPhase {
        SubmitWizard();
        return;
      }
      if isLastStepInPhase {
        phaseIndex := phaseIndex + 1;
        stepIndex := 0;
      } else {
        stepIndex := stepIndex + 1;
      }
    }

    /** `handleBack()`: one step back, into the last step of the previous phase at a
        phase's start; nothing on the very first step. */
    method HandleBack()
      requires Valid()
      modifies this
      ensures Valid()
      ensures answers == old(answers) && stored == old(stored) && isSubmitting == old(isSubmitting)
      ensures old(phaseIndex) == 0 && old(stepIndex) == 0 ==> phaseIndex == 0 && stepIndex == 0
      ensures old(phaseIndex) > 0 || old(stepIndex) > 0 ==>
        GlobalIndex(config, phaseIndex, stepIndex) + 1 == GlobalIndex(config, old(phaseIndex), old(stepIndex))
    {
      if stepIndex > 0 {
        stepIndex := stepIndex - 1;
      } else if phaseIndex > 0 {
        var previousPhase := config.phases[phaseIndex - 1];
        phaseIndex := phaseIndex - 1;
        stepIndex := |previousPhase.steps| - 1;
      }
    }

    /** `resetWizard()`: back to the first step with no answers; the storage entry is
        removed, and the persisting effect then writes the empty answers back. */
    method ResetWizard()
      requires Valid()
      modifies this
      ensures Valid() && phaseIndex == 0 && stepIndex == 0 && answers == map[]
      ensures stored == Some(map[]) && isSubmitting == old(isSubmitting)
    {
      phaseIndex := 0;
      stepIndex := 0;
      answers := map[];
      stored := None;
      stored := Some(answers);
    }
  }

  /** The last step of the last phase is the wizard's last step, and no other step is. */
  lemma LastMeansEnd(config: WizardConfig, p: nat, s: nat)
    requires Walkable(config) && At(config, p, s)
    ensures (s >= |config.phases[p].steps| - 1 && p >= |config.phases| - 1)
      <==> GlobalIndex(config, p, s) + 1 == WizardData.TotalSteps(config)
  {
    WizardData.FlattenLength(config.phases);
    var n := |config.phases|;
    if p < n - 1 {
      WizardData.StepsBeforeGrows(config.phases, p + 1, n);
    }
  }

  /** Moving forward and back again returns to the same step. */
  lemma ForwardThenBack(config: WizardConfig, p: nat, s: nat)
    requires Walkable(config) && At(config, p, s)
    requires GlobalIndex(config, p, s) + 1 < WizardData.TotalSteps(config)
    ensures var (p', s') := if s + 1 < |config.phases[p].steps| then (p, s + 1) else (p + 1, 0);
      && At(config, p', s')
      && (if s' > 0 then (p', s' - 1) else (p' - 1, |config.phases[p' - 1].steps| - 1)) == (p, s)
  {
    LastMeansEnd(config, p, s);
  }
}
