/** The per-step validators of `src/lib/validation-schemas.ts`: the first step asks for
    name, email and goals together, the second repeats the bio-data schema, and the third
    checks only the allergies text. */
module ValidationSchemas {

  import opened Values
  import opened Schemas

  const GoalsRequired := FieldSpec("goals", StringKind([MinLength(10, GoalsLength)]), false)

  const Step1ValidationSchema: Schema := [NameField, EmailField, GoalsRequired]
  const Step2ValidationSchema: Schema := [AgeField, WeightField, HeightField, GenderField]
  const Step3ValidationSchema: Schema := [AllergiesField]

  predicate Step1ValidationOk(input: map<string, Value>, isEmail: string -> bool) {
    && Step1Ok(input, isEmail)
    && Read(input, "goals").Str? && |Read(input, "goals").s| >= 10
  }

  predicate Step3ValidationOk(input: map<string, Value>) {
    OptionalText(input, "allergies", 0)
  }

  // ---------------------------------------------------------------------------------
  // Properties

  /** Step 1 needs all three fields: a name of two characters or more, an accepted email
      and goals of ten characters or more. */
  lemma Step1ValidationAccepts(input: map<string, Value>, isEmail: string -> bool)
    ensures SafeParse(Step1ValidationSchema, input, isEmail).Ok? <==> Step1ValidationOk(input, isEmail)
  {
    assert Step1ValidationSchema == Step1Schema + [GoalsRequired];
    IssuesAppend(Step1Schema, [GoalsRequired], input, isEmail);
    assert (Issues(Step1Schema, input, isEmail) == []) == Step1Ok(input, isEmail) by {
      Step1Accepts(input, isEmail);
    }
    TextField(GoalsRequired, input, isEmail, 10, GoalsLength);
  }

  /** Step 2 is the bio-data schema itself, with the same inclusive bounds. */
  lemma Step2ValidationAccepts(input: map<string, Value>, isEmail: string -> bool)
    ensures Step2ValidationSchema == Step2Schema
    ensures SafeParse(Step2ValidationSchema, input, isEmail).Ok? <==> Step2Ok(input)
  {
    Step2Accepts(input, isEmail);
  }

  /** Step 3 accepts anything whose allergies, when given, are text. */
  lemma Step3ValidationAccepts(input: map<string, Value>, isEmail: string -> bool)
    ensures SafeParse(Step3ValidationSchema, input, isEmail).Ok? <==> Step3ValidationOk(input)
  {
    TextField(AllergiesField, input, isEmail, 0, "");
  }

  /** A successful step parse keeps only that step's keys: step 2 and step 3 never carry
      an email onwards. */
  lemma StepsStripEmail(input: map<string, Value>, isEmail: string -> bool)
    ensures SafeParse(Step2ValidationSchema, input, isEmail).Ok? ==>
      "email" !in SafeParse(Step2ValidationSchema, input, isEmail).value
    ensures SafeParse(Step3ValidationSchema, input, isEmail).Ok? ==>
      "email" !in SafeParse(Step3ValidationSchema, input, isEmail).value
  {
    assert "email" !in Keys(Step2ValidationSchema) by {
      assert forall f :: f in Step2ValidationSchema ==> f.key[0] != 'e';
    }
    assert "email" !in Keys(Step3ValidationSchema);
  }
}
