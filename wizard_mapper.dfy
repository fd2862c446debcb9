/** `mapWizardToUser` of `src/lib/wizard-mapper.ts`: the wizard's answers regrouped into
    the user record's nested fields. */
module WizardMapper {

  import opened Wrappers
  import opened WizardTypes
  import WizardData

  /** A field read from the answers: `None` is `undefined`. */
  type Field = Option<Answer>

  datatype KitchenHabits = KitchenHabits(chef: Field, cookingSkill: Field)
  datatype DietaryPrefs = DietaryPrefs(blacklisted: seq<Answer>, dietType: Field, allergies: seq<string>)
  datatype ActivityProfile = ActivityProfile(level: Field, frequency: Field)
  datatype LifestyleProfile = LifestyleProfile(socialLife: Field, sweetSavory: Field)
  datatype BodyMetrics = BodyMetrics(gender: Field, age: Field, weight: Field, height: Field)

  datatype MappedUser = MappedUser(
    name: Field,
    email: Field,
    kitchenHabits: KitchenHabits,
    dietaryPrefs: DietaryPrefs,
    activityProfile: ActivityProfile,
    lifestyleProfile: LifestyleProfile,
    bodyMetrics: BodyMetrics)

  function Get(answers: WizardState, key: string): Field {
    if key in answers then Some(answers[key]) else None
  }

  /** JavaScript truthiness of an answer that is not a list. */
  predicate Truthy(f: Field) {
    match f
    case None => false
    case Some(AnswerText(s)) => s != ""
    case Some(AnswerNumber(n)) => n != 0.0
    case Some(AnswerList(_)) => true
  }

  /** A list answer's items, as answers. */
  function Items(items: seq<string>): (r: seq<Answer>)
    ensures |r| == |items| && forall i :: 0 <= i < |items| ==> r[i] == AnswerText(items[i])
  {
    if |items| == 0 then [] else [AnswerText(items[0])] + Items(items[1..])
  }

  /** The hated foods' share of the blacklist: a list as it is, a single truthy value
      wrapped, and nothing for a falsy one. */
  function HatedPart(f: Field): seq<Answer> {
    match f
    case Some(AnswerList(items)) => Items(items)
    case _ => if Truthy(f) then [f.value] else []
  }

  /** The specific exclusions' share: a list only. */
  function ExclusionsPart(f: Field): seq<Answer> {
    match f
    case Some(AnswerList(items)) => Items(items)
    case _ => []
  }

  function ListOrEmpty(f: Field): seq<string> {
    match f
    case Some(AnswerList(items)) => items
    case _ => []
  }

  function MapWizardToUser(answers: WizardState): MappedUser {
    MappedUser(
      Get(answers, "name"),
      Get(answers, "email"),
      KitchenHabits(Get(answers, "who-cooks"), Get(answers, "cooking-skill")),
      DietaryPrefs(
        HatedPart(Get(answers, "hated-foods")) + ExclusionsPart(Get(answers, "specific-exclusions")),
        Get(answers, "diet-type"),
        ListOrEmpty(Get(answers, "allergies-search"))),
      ActivityProfile(Get(answers, "activity-level"), Get(answers, "activity-frequency")),
      LifestyleProfile(Get(answers, "social-life"), Get(answers, "sweet-savory")),
      BodyMetrics(Get(answers, "gender"), Get(answers, "age"), Get(answers, "weight"), Get(answers, "height")))
  }

  // ---------------------------------------------------------------------------------
  // Properties

  /** Every scalar field is the answer under its key, unchanged. */
  lemma CopiedFields(answers: WizardState)
    ensures var u := MapWizardToUser(answers);
      && (u.name.Some? <==> "name" in answers) && (u.name.Some? ==> u.name.value == answers["name"])
      && (u.email.Some? <==> "email" in answers) && (u.email.Some? ==> u.email.value == answers["email"])
      && u.kitchenHabits == KitchenHabits(Get(answers, "who-cooks"), Get(answers, "cooking-skill"))
      && u.lifestyleProfile == LifestyleProfile(Get(answers, "social-life"), Get(answers, "sweet-savory"))
      && u.bodyMetrics == BodyMetrics(Get(answers, "gender"), Get(answers, "age"), Get(answers, "weight"), Get(answers, "height"))
  {
  }

  /** With both lists answered, the blacklist is the hated foods then the exclusions, in
      their order. */
  lemma BlacklistOfLists(answers: WizardState, hated: seq<string>, excluded: seq<string>)
    requires Get(answers, "hated-foods") == Some(AnswerList(hated))
    requires Get(answers, "specific-exclusions") == Some(AnswerList(excluded))
    ensures var b := MapWizardToUser(answers).dietaryPrefs.blacklisted;
      && |b| == |hated| + |excluded|
      && (forall i :: 0 <= i < |hated| ==> b[i] == AnswerText(hated[i]))
      && (forall i :: 0 <= i < |excluded| ==> b[|hated| + i] == AnswerText(excluded[i]))
  {
  }

  /** A single hated food is kept when truthy and dropped when falsy (empty text, zero,
      missing); exclusions count only as a list. */
  lemma BlacklistOfScalars(answers: WizardState)
    requires !Get(answers, "hated-foods").Some? || !Get(answers, "hated-foods").value.AnswerList?
    requires !Get(answers, "specific-exclusions").Some? || !Get(answers, "specific-exclusions").value.AnswerList?
    ensures MapWizardToUser(answers).dietaryPrefs.blacklisted ==
      if Truthy(Get(answers, "hated-foods")) then [answers["hated-foods"]] else []
  {
  }

  lemma FalsyHatedDropped(answers: WizardState)
    requires Get(answers, "hated-foods") in {None, Some(AnswerText("")), Some(AnswerNumber(0.0))}
    ensures |MapWizardToUser(answers).dietaryPrefs.blacklisted| == |ExclusionsPart(Get(answers, "specific-exclusions"))|
  {
  }

  /** Allergies are the `allergies-search` list, and empty for anything else. */
  lemma AllergiesList(answers: WizardState)
    ensures var a := MapWizardToUser(answers).dietaryPrefs.allergies;
      && (Get(answers, "allergies-search").Some? && Get(answers, "allergies-search").value.AnswerList? ==>
          a == answers["allergies-search"].items)
      && (!("allergies-search" in answers && answers["allergies-search"].AnswerList?) ==> a == [])
  {
  }

  /** A key the thirteen steps do not use. */
  lemma NotAStepId(key: string)
    requires WizardData.IdKey(key) !in WizardData.IdKeys
    ensures key !in WizardData.StepIds
  {
    forall i | 0 <= i < |WizardData.StepIds| ensures WizardData.StepIds[i] != key {
      WizardData.StepIdAt(i);
    }
  }

  /** The diet type, the allergy search and the activity frequency are not wizard steps:
      for answers the wizard collects they are always missing or empty. */
  lemma UnaskedFields(answers: WizardState)
    requires forall k :: k in answers ==> k in WizardData.StepIds
    ensures var u := MapWizardToUser(answers);
      && u.dietaryPrefs.dietType.None? && u.dietaryPrefs.allergies == [] && u.activityProfile.frequency.None?
  {
    assert "diet-type" !in WizardData.StepIds by { NotAStepId("diet-type"); }
    assert "allergies-search" !in WizardData.StepIds by { NotAStepId("allergies-search"); }
    assert "activity-frequency" !in WizardData.StepIds by { NotAStepId("activity-frequency"); }
  }
}
