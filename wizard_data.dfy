/** The onboarding wizard's configuration of `src/config/wizard-data.ts` (six phases,
    thirteen steps) and its helpers: flattening the phases, finding a step by id and a
    step's position in the whole wizard. */
module WizardData {

  import opened Wrappers
  import opened WizardTypes

  // ---------------------------------------------------------------------------------
  // Options

  function Choice(id: string, labelKey: string, value: string, icon: string): WizardOption {
    WizardOption(id, labelKey, TextValue(value), Some(icon), None)
  }

  function Picture(id: string, labelKey: string, icon: string, imageSrc: string): WizardOption {
    WizardOption(id, labelKey, TextValue(id), Some(icon), Some(imageSrc))
  }

  const GenderOptions: seq<WizardOption> := [
    Choice("male", "wizard.options.male", "male", "User"),
    Choice("female", "wizard.options.female", "female", "User")]

  const WhoCooksOptions: seq<WizardOption> := [
    Choice("me", "wizard.options.me", "me", "Apron"),
    Choice("partner-family", "wizard.options.partnerFamily", "partner_family", "Users"),
    Choice("ordering-takeout", "wizard.options.orderingTakeout", "ordering_takeout", "Bike")]

  const HatedFoodOptions: seq<WizardOption> := [
    Picture("fish", "wizard.options.fish", "Fish", "/images/wizard/fish.png"),
    Picture("broccoli", "wizard.options.broccoli", "Broccoli", "/images/wizard/broccoli.png"),
    Picture("mushrooms", "wizard.options.mushrooms", "Mushroom", "/images/wizard/mushrooms.png"),
    Picture("avocado", "wizard.options.avocado", "Avocado", "/images/wizard/avocado.png"),
    Picture("dairy", "wizard.options.dairy", "Milk", "/images/wizard/dairy.png"),
    Picture("cilantro", "wizard.options.cilantro", "Leaf", "/images/wizard/cilantro.png")]

  const ActivityLevelOptions: seq<WizardOption> := [
    Choice("sedentary", "wizard.options.sedentary", "sedentary", "Armchair"),
    Choice("light", "wizard.options.light", "light", "Walking"),
    Choice("moderate", "wizard.options.moderate", "moderate", "Running"),
    Choice("active", "wizard.options.active", "active", "Muscle")]

  const SocialLifeOptions: seq<WizardOption> := [
    Choice("monk-mode", "wizard.options.monkMode", "monk_mode", "Laptop"),
    Choice("social-butterfly", "wizard.options.socialButterfly", "social_butterfly", "Sparkles"),
    Choice("party-animal", "wizard.options.partyAnimal", "party_animal", "PartyPopper")]

  const SweetSavoryOptions: seq<WizardOption> := [
    Choice("sweet-tooth", "wizard.options.sweetTooth", "sweet_tooth", "Candy"),
    Choice("savory-cravings", "wizard.options.savoryCravings", "savory_cravings", "Pizza")]

  // ---------------------------------------------------------------------------------
  // Steps

  const NameStep := WizardStep("name", "steps.name.question", TextInput, None,
    Some(TextConfig("steps.name.placeholder", "text")))
  const EmailStep := WizardStep("email", "steps.email.question", TextInput, None,
    Some(TextConfig("steps.email.placeholder", "email")))
  const GenderStep := WizardStep("gender", "steps.gender.question", CardSelection, Some(GenderOptions), None)
  const AgeStep := WizardStep("age", "steps.age.question", Slider, None,
    Some(SliderConfig(18.0, 100.0, Some(1.0), None)))
  const WeightStep := WizardStep("weight", "steps.weight.question", Slider, None,
    Some(SliderConfig(40.0, 200.0, Some(0.5), Some("kg"))))
  const HeightStep := WizardStep("height", "steps.height.question", Slider, None,
    Some(SliderConfig(140.0, 220.0, Some(1.0), Some("cm"))))
  const WhoCooksStep := WizardStep("who-cooks", "steps.whoCooks.question", CardSelection, Some(WhoCooksOptions), None)
  const CookingSkillStep := WizardStep("cooking-skill", "steps.cookingSkill.question", Rating, None,
    Some(RatingConfig(5, Some("Flame"))))
  const HatedFoodsStep := WizardStep("hated-foods", "steps.hatedFoods.question", ImageGrid, Some(HatedFoodOptions), None)
  const SpecificExclusionsStep := WizardStep("specific-exclusions", "steps.specificExclusions.question", SearchList, None,
    Some(SearchListConfig(Some("steps.specificExclusions.placeholder"), Some(true), None)))
  const ActivityLevelStep := WizardStep("activity-level", "steps.activityLevel.question", CardSelection,
    Some(ActivityLevelOptions), None)
  const SocialLifeStep := WizardStep("social-life", "steps.socialLife.question", CardSelection, Some(SocialLifeOptions), None)
  const SweetSavoryStep := WizardStep("sweet-savory", "steps.sweetSavory.question", CardSelection,
    Some(SweetSavoryOptions), None)

  // ---------------------------------------------------------------------------------
  // Phases

  const LeadCapturePhase := WizardPhase("lead-capture", "phases.leadCapture.title",
    Some("phases.leadCapture.description"), [NameStep, EmailStep])
  const BasicsPhase := WizardPhase("basics", "phases.basics.title", Some("phases.basics.description"),
    [GenderStep, AgeStep, WeightStep, HeightStep])
  const KitchenPhase := WizardPhase("kitchen", "phases.kitchen.title", Some("phases.kitchen.description"),
    [WhoCooksStep, CookingSkillStep])
  const BlacklistPhase := WizardPhase("blacklist", "phases.blacklist.title", Some("phases.blacklist.description"),
    [HatedFoodsStep, SpecificExclusionsStep])
  const ActivityPhase := WizardPhase("activity", "phases.activity.title", Some("phases.activity.description"),
    [ActivityLevelStep])
  const LifestylePhase := WizardPhase("lifestyle", "phases.lifestyle.title", Some("phases.lifestyle.description"),
    [SocialLifeStep, SweetSavoryStep])

  const Data: WizardConfig := WizardConfig("foodbrain", "wizard.name.aiDietitian",
    [LeadCapturePhase, BasicsPhase, KitchenPhase, BlacklistPhase, ActivityPhase, LifestylePhase])

  // ---------------------------------------------------------------------------------
  // Helpers

  /** `phases.flatMap(phase => phase.steps)` */
  function Flatten(phases: seq<WizardPhase>): seq<WizardStep>
    decreases |phases|
  {
    if |phases| == 0 then [] else phases[0].steps + Flatten(phases[1..])
  }

  /** `getAllSteps(config)` */
  function AllSteps(config: WizardConfig): seq<WizardStep> {
    Flatten(config.phases)
  }

  /** The number of steps in the first `p` phases. */
  function StepsBefore(phases: seq<WizardPhase>, p: nat): nat
    requires p <= |phases|
    decreases p
  {
    if p == 0 then 0 else StepsBefore(phases, p - 1) + |phases[p - 1].steps|
  }

  /** `getTotalSteps(config)` */
  function TotalSteps(config: WizardConfig): nat {
    |AllSteps(config)|
  }

  /** `steps.findIndex(step => step.id === stepId)` */
  function IndexOf(steps: seq<WizardStep>, stepId: string): (r: int)
    ensures -1 <= r < |steps|
    decreases |steps|
  {
    if |steps| == 0 then -1
    else if steps[0].id == stepId then 0
    else var i := IndexOf(steps[1..], stepId); if i < 0 then -1 else i + 1
  }

  /** `getStepIndex(config, stepId)` */
  function StepIndex(config: WizardConfig, stepId: string): int {
    IndexOf(AllSteps(config), stepId)
  }

  /** `steps.find(step => step.id === stepId)` */
  function Find(steps: seq<WizardStep>, stepId: string): Option<WizardStep>
    decreases |steps|
  {
    if |steps| == 0 then None
    else if steps[0].id == stepId then Some(steps[0])
    else Find(steps[1..], stepId)
  }

  /** `findStepById(config, stepId)` */
  function FindStepById(config: WizardConfig, stepId: string): Option<WizardStep> {
    Find(AllSteps(config), stepId)
  }

  // ---------------------------------------------------------------------------------
  // Properties

  /** Flattening keeps the phases' steps in phase order: step `s` of phase `p` sits after
      all steps of the earlier phases, and the total is the sum of the phase lengths. */
  lemma {:induction false} FlattenAt(phases: seq<WizardPhase>, p: nat, s: nat)
    requires p < |phases| && s < |phases[p].steps|
    ensures StepsBefore(phases, p) + s < |Flatten(phases)|
    ensures Flatten(phases)[StepsBefore(phases, p) + s] == phases[p].steps[s]
    decreases p
  {
    FlattenLength(phases);
    if p == 0 {
    } else {
      var tail := phases[1..];
      FlattenAt(tail, p - 1, s);
      ShiftedBefore(phases, p);
    }
  }

  lemma {:induction false} FlattenLength(phases: seq<WizardPhase>)
    ensures |Flatten(phases)| == StepsBefore(phases, |phases|)
    decreases |phases|
  {
    if |phases| > 0 {
      FlattenLength(phases[1..]);
      ShiftedBefore(phases, |phases|);
    }
  }

  /** Counting from the second phase skips the first phase's steps. */
  lemma {:induction false} ShiftedBefore(phases: seq<WizardPhase>, p: nat)
    requires 0 < p <= |phases|
    ensures StepsBefore(phases, p) == |phases[0].steps| + StepsBefore(phases[1..], p - 1)
    decreases p
  {
    if p > 1 {
      ShiftedBefore(phases, p - 1);
      assert phases[1..][p - 2] == phases[p - 1];
    }
  }

  /** The earlier phases hold no more steps than all of them. */
  lemma {:induction false} StepsBeforeGrows(phases: seq<WizardPhase>, p: nat, q: nat)
    requires p <= q <= |phases|
    ensures StepsBefore(phases, p) + (if p < q then |phases[p].steps| else 0) <= StepsBefore(phases, q)
    decreases q - p
  {
    if p < q {
      StepsBeforeGrows(phases, p + 1, q);
    }
  }

  /** `getStepIndex` is the index of the first step with the id, or -1 when none has it. */
  lemma {:induction false} IndexOfFirst(steps: seq<WizardStep>, stepId: string)
    ensures IndexOf(steps, stepId) == -1 <==> forall i :: 0 <= i < |steps| ==> steps[i].id != stepId
    ensures IndexOf(steps, stepId) >= 0 ==>
      && steps[IndexOf(steps, stepId)].id == stepId
      && forall j :: 0 <= j < IndexOf(steps, stepId) ==> steps[j].id != stepId
    decreases |steps|
  {
    if |steps| > 0 && steps[0].id != stepId {
      IndexOfFirst(steps[1..], stepId);
      assert forall i :: 1 <= i < |steps| ==> steps[i] == steps[1..][i - 1];
    }
  }

  /** `findStepById` returns the step at `getStepIndex`, and `undefined` exactly when the
      index is -1. */
  lemma {:induction false} FindAgreesWithIndex(steps: seq<WizardStep>, stepId: string)
    ensures Find(steps, stepId).None? <==> IndexOf(steps, stepId) == -1
    ensures IndexOf(steps, stepId) >= 0 ==> Find(steps, stepId) == Some(steps[IndexOf(steps, stepId)])
    decreases |steps|
  {
    if |steps| > 0 && steps[0].id != stepId {
      FindAgreesWithIndex(steps[1..], stepId);
    }
  }

  /** Data facts: six non-empty phases of 2, 4, 2, 2, 1 and 2 steps, thirteen in all. */
  lemma DataShape()
    ensures |Data.phases| == 6
    ensures |Data.phases[0].steps| == 2 && |Data.phases[1].steps| == 4 && |Data.phases[2].steps| == 2
    ensures |Data.phases[3].steps| == 2 && |Data.phases[4].steps| == 1 && |Data.phases[5].steps| == 2
    ensures forall p :: 0 <= p < |Data.phases| ==> |Data.phases[p].steps| > 0
    ensures TotalSteps(Data) == 13 && StepsBefore(Data.phases, 6) == 13
  {
    DataFlat();
    FlattenLength(Data.phases);
  }

  /** The thirteen steps in wizard order. */
  const Steps: seq<WizardStep> := [NameStep, EmailStep, GenderStep, AgeStep, WeightStep, HeightStep, WhoCooksStep,
    CookingSkillStep, HatedFoodsStep, SpecificExclusionsStep, ActivityLevelStep, SocialLifeStep, SweetSavoryStep]

  lemma FlattenCons(phases: seq<WizardPhase>)
    requires |phases| > 0
    ensures Flatten(phases) == phases[0].steps + Flatten(phases[1..])
  {
  }

  lemma DataFlat()
    ensures AllSteps(Data) == Steps
  {
    var ps := Data.phases;
    assert Flatten(ps[6..]) == [];
    FlattenCons(ps[5..]);
    assert ps[5..][1..] == ps[6..];
    FlattenCons(ps[4..]);
    assert ps[4..][1..] == ps[5..];
    FlattenCons(ps[3..]);
    assert ps[3..][1..] == ps[4..];
    FlattenCons(ps[2..]);
    assert ps[2..][1..] == ps[3..];
    FlattenCons(ps[1..]);
    assert ps[1..][1..] == ps[2..];
    FlattenCons(ps);
    StepsGrouped();
  }

  lemma StepsGrouped()
    ensures Steps == LeadCapturePhase.steps + (BasicsPhase.steps + (KitchenPhase.steps + (BlacklistPhase.steps
      + (ActivityPhase.steps + (LifestylePhase.steps + [])))))
  {
  }

  /** The ids of all thirteen steps, in wizard order. */
  const StepIds: seq<string> := ["name", "email", "gender", "age", "weight", "height", "who-cooks",
    "cooking-skill", "hated-foods", "specific-exclusions", "activity-level", "social-life", "sweet-savory"]

  /** A key that tells the thirteen ids apart: their length and first letter. */
  function IdKey(id: string): int {
    if |id| == 0 then 0 else |id| * 128 + id[0] as int
  }

  const IdKeys: seq<int> := [4 * 128 + 110, 5 * 128 + 101, 6 * 128 + 103, 3 * 128 + 97, 6 * 128 + 119,
    6 * 128 + 104, 9 * 128 + 119, 13 * 128 + 99, 11 * 128 + 104, 19 * 128 + 115, 14 * 128 + 97,
    11 * 128 + 115, 12 * 128 + 115]

  lemma StepIdAt(i: nat)
    requires i < 13
    ensures Steps[i].id == StepIds[i] && IdKey(StepIds[i]) == IdKeys[i]
  {
  }

  lemma IdKeysDistinct(i: nat, j: nat)
    requires i < j < 13
    ensures IdKeys[i] != IdKeys[j]
  {
  }

  /** The steps' ids are, in order, name, email, gender, age, weight, height, who-cooks,
      cooking-skill, hated-foods, specific-exclusions, activity-level, social-life and
      sweet-savory; no two steps share an id. */
  lemma DataIdsDistinct()
    ensures |AllSteps(Data)| == |StepIds|
    ensures forall i :: 0 <= i < |StepIds| ==> AllSteps(Data)[i].id == StepIds[i]
    ensures forall i, j :: 0 <= i < j < |AllSteps(Data)| ==> AllSteps(Data)[i].id != AllSteps(Data)[j].id
  {
    DataFlat();
    forall i | 0 <= i < |StepIds| ensures Steps[i].id == StepIds[i] {
      StepIdAt(i);
    }
    forall i, j | 0 <= i < j < |Steps| ensures Steps[i].id != Steps[j].id {
      StepIdAt(i);
      StepIdAt(j);
      IdKeysDistinct(i, j);
    }
  }

  /** Every slider's minimum is below its maximum. */
  lemma SlidersOrdered()
    ensures forall s :: s in AllSteps(Data) && s.config.Some? && s.config.value.SliderConfig? ==>
      s.config.value.min < s.config.value.max
  {
    DataFlat();
    forall s | s in Steps && s.config.Some? && s.config.value.SliderConfig?
      ensures s.config.value.min < s.config.value.max
    {
      assert s == AgeStep || s == WeightStep || s == HeightStep;
    }
  }

  /** The lead-capture phase, asking for the name and the e-mail address, comes first. */
  lemma LeadCaptureFirst()
    ensures Data.phases[0].id == "lead-capture"
    ensures |Data.phases[0].steps| == 2 && Data.phases[0].steps[0].id == "name" && Data.phases[0].steps[1].id == "email"
  {
  }
}
