/** The Zod validators of `src/lib/schemas.ts`, as data: a schema is a list of fields,
    each with a kind, its checks and whether it may be left out. Parsing collects the
    issues field by field, in shape order, and on success keeps only the shape's keys. */
module Schemas {

  import opened Wrappers
  import opened Values
  import Text

  /** One refinement with its custom message. */
  datatype Check =
    | MinLength(length: nat, message: string)
    | Email(message: string)
    | AtLeast(bound: real, message: string)
    | AtMost(bound: real, message: string)

  datatype Kind =
    | StringKind(checks: seq<Check>)
    | NumberKind(checks: seq<Check>)
    | EnumKind(options: seq<string>)
    | UnknownKind

  datatype FieldSpec = FieldSpec(key: string, kind: Kind, optional: bool)

  type Schema = seq<FieldSpec>

  /** The issues Zod raises with its own wording. */
  datatype IssueCode = Required | InvalidType | InvalidEnumValue

  datatype Issue = Custom(path: string, message: string) | BuiltIn(path: string, code: IssueCode)

  /** A property of the input object; a missing key reads as `undefined`. */
  function Read(input: map<string, Value>, key: string): Value {
    if key in input then input[key] else Undefined
  }

  /** Whether one check fails on a value of the right type; `isEmail` is what Zod's
      `.email()` accepts. */
  predicate Fails(c: Check, v: Value, isEmail: string -> bool) {
    match c
    case MinLength(n, _) => v.Str? && |v.s| < n
    case Email(_) => v.Str? && !isEmail(v.s)
    case AtLeast(b, _) => v.Num? && v.n < b
    case AtMost(b, _) => v.Num? && v.n > b
  }

  /** Every check runs, and each failing one adds its message. */
  function CheckIssues(key: string, checks: seq<Check>, v: Value, isEmail: string -> bool): (r: seq<Issue>)
    ensures r == [] <==> forall i :: 0 <= i < |checks| ==> !Fails(checks[i], v, isEmail)
  {
    if |checks| == 0 then []
    else
      var rest := CheckIssues(key, checks[1..], v, isEmail);
      assert forall i :: 1 <= i < |checks| ==> checks[i] == checks[1..][i - 1];
      (if Fails(checks[0], v, isEmail) then [Custom(key, checks[0].message)] else []) + rest
  }

  /** A field's issues: `undefined` passes an optional field and is `Required` for the
      rest; a value of the wrong type stops at the type issue. */
  function FieldIssues(f: FieldSpec, input: map<string, Value>, isEmail: string -> bool): seq<Issue> {
    var v := Read(input, f.key);
    if v == Undefined then
      if f.optional || f.kind.UnknownKind? then [] else [BuiltIn(f.key, Required)]
    else
      match f.kind
      case UnknownKind => []
      case StringKind(checks) => if v.Str? then CheckIssues(f.key, checks, v, isEmail) else [BuiltIn(f.key, InvalidType)]
      case NumberKind(checks) => if v.Num? then CheckIssues(f.key, checks, v, isEmail) else [BuiltIn(f.key, InvalidType)]
      case EnumKind(options) =>
        if !v.Str? then [BuiltIn(f.key, InvalidType)]
        else if v.s in options then [] else [BuiltIn(f.key, InvalidEnumValue)]
  }

  function Issues(schema: Schema, input: map<string, Value>, isEmail: string -> bool): (r: seq<Issue>)
    ensures r == [] <==> forall i :: 0 <= i < |schema| ==> FieldIssues(schema[i], input, isEmail) == []
  {
    if |schema| == 0 then []
    else
      var rest := Issues(schema[1..], input, isEmail);
      assert forall i :: 1 <= i < |schema| ==> schema[i] == schema[1..][i - 1];
      FieldIssues(schema[0], input, isEmail) + rest
  }

  function Keys(schema: Schema): set<string> {
    set f | f in schema :: f.key
  }

  /** The parsed object: the shape's keys that hold a value; other keys are stripped. */
  function Stripped(schema: Schema, input: map<string, Value>): (r: map<string, Value>)
    ensures forall k :: k in r <==> k in input && k in Keys(schema) && input[k] != Undefined
  {
    map k | k in input && k in Keys(schema) && input[k] != Undefined :: input[k]
  }

  /** `schema.safeParse(input)` */
  function SafeParse(schema: Schema, input: map<string, Value>, isEmail: string -> bool): Result<map<string, Value>, seq<Issue>> {
    var issues := Issues(schema, input, isEmail);
    if issues == [] then Ok(Stripped(schema, input)) else Err(issues)
  }

  /** `.partial()`: every field may be left out. */
  function Partial(schema: Schema): (r: Schema)
    ensures |r| == |schema|
    ensures forall i :: 0 <= i < |schema| ==> r[i] == schema[i].(optional := true)
  {
    seq(|schema|, i requires 0 <= i < |schema| => schema[i].(optional := true))
  }

  // ---------------------------------------------------------------------------------
  // The schemas

  const GenderValues: seq<string> := ["male", "female", "other", "prefer_not_to_say"]

  const NameField := FieldSpec("name", StringKind([MinLength(2, "Name must be at least 2 characters")]), false)
  const EmailField := FieldSpec("email", StringKind([Email("Invalid email address")]), false)
  const AgeField := FieldSpec("age", NumberKind([AtLeast(13.0, "You must be at least 13 years old"), AtMost(120.0, "Invalid age")]), true)
  const WeightField := FieldSpec("weight", NumberKind([AtLeast(30.0, "Weight must be at least 30kg"), AtMost(300.0, "Weight seems invalid")]), true)
  const HeightField := FieldSpec("height", NumberKind([AtLeast(100.0, "Height must be at least 100cm"), AtMost(250.0, "Height seems invalid")]), true)
  const GenderField := FieldSpec("gender", EnumKind(GenderValues), true)
  const GoalsLength := "Please describe your goals in at least 10 characters"
  const GoalsField := FieldSpec("goals", StringKind([MinLength(10, GoalsLength)]), true)
  const AllergiesField := FieldSpec("allergies", StringKind([]), true)

  const Step1Schema: Schema := [NameField, EmailField]
  const Step2Schema: Schema := [AgeField, WeightField, HeightField, GenderField]
  const Step3Schema: Schema := [GoalsField, AllergiesField]

  /** The four nested records, accepted as any JSON. */
  const ProfileFields: Schema := [
    FieldSpec("kitchenHabits", UnknownKind, true), FieldSpec("dietaryPrefs", UnknownKind, true),
    FieldSpec("activityProfile", UnknownKind, true), FieldSpec("lifestyleProfile", UnknownKind, true)]

  /** The three steps merged with the profile records, every field made optional. */
  const OnboardingSchema: Schema := Partial(Step1Schema + Step2Schema + Step3Schema + ProfileFields)

  const UserUpdateSchema: Schema := OnboardingSchema

  // ---------------------------------------------------------------------------------
  // The same rules, stated plainly

  /** Missing, or a number in `[lo, hi]`. */
  predicate OptionalBetween(input: map<string, Value>, key: string, lo: real, hi: real) {
    Read(input, key) == Undefined || (Read(input, key).Num? && lo <= Read(input, key).n <= hi)
  }

  /** Missing, or text of at least `n` characters. */
  predicate OptionalText(input: map<string, Value>, key: string, n: nat) {
    Read(input, key) == Undefined || (Read(input, key).Str? && |Read(input, key).s| >= n)
  }

  predicate IsGender(v: Value) {
    v == Str("male") || v == Str("female") || v == Str("other") || v == Str("prefer_not_to_say")
  }

  predicate Step1Ok(input: map<string, Value>, isEmail: string -> bool) {
    && Read(input, "name").Str? && |Read(input, "name").s| >= 2
    && Read(input, "email").Str? && isEmail(Read(input, "email").s)
  }

  predicate Step2Ok(input: map<string, Value>) {
    && OptionalBetween(input, "age", 13.0, 120.0)
    && OptionalBetween(input, "weight", 30.0, 300.0)
    && OptionalBetween(input, "height", 100.0, 250.0)
    && (Read(input, "gender") == Undefined || IsGender(Read(input, "gender")))
  }

  predicate Step3Ok(input: map<string, Value>) {
    OptionalText(input, "goals", 10) && OptionalText(input, "allergies", 0)
  }

  predicate OnboardingOk(input: map<string, Value>, isEmail: string -> bool) {
    && OptionalText(input, "name", 2)
    && (Read(input, "email") == Undefined || (Read(input, "email").Str? && isEmail(Read(input, "email").s)))
    && Step2Ok(input) && Step3Ok(input)
  }

  // ---------------------------------------------------------------------------------
  // Properties

  lemma GenderExact(v: Value)
    ensures (v.Str? && v.s in GenderValues) <==> IsGender(v)
  {
  }

  /** Two checks report in their order. */
  lemma TwoChecks(key: string, a: Check, b: Check, v: Value, isEmail: string -> bool)
    ensures CheckIssues(key, [a, b], v, isEmail) ==
      (if Fails(a, v, isEmail) then [Custom(key, a.message)] else [])
      + (if Fails(b, v, isEmail) then [Custom(key, b.message)] else [])
  {
    assert [a, b][1..] == [b];
    assert [b][1..] == [];
  }

  /** A schema of four fields passes when each of them does. */
  lemma FourFields(schema: Schema, input: map<string, Value>, isEmail: string -> bool)
    requires |schema| == 4
    ensures Issues(schema, input, isEmail) == [] <==>
      && FieldIssues(schema[0], input, isEmail) == [] && FieldIssues(schema[1], input, isEmail) == []
      && FieldIssues(schema[2], input, isEmail) == [] && FieldIssues(schema[3], input, isEmail) == []
  {
  }

  /** A number field with an inclusive range. */
  lemma RangeField(f: FieldSpec, input: map<string, Value>, isEmail: string -> bool,
                   lo: real, loMessage: string, hi: real, hiMessage: string)
    requires f == FieldSpec(f.key, NumberKind([AtLeast(lo, loMessage), AtMost(hi, hiMessage)]), true)
    ensures FieldIssues(f, input, isEmail) == [] <==> OptionalBetween(input, f.key, lo, hi)
  {
    TwoChecks(f.key, AtLeast(lo, loMessage), AtMost(hi, hiMessage), Read(input, f.key), isEmail);
  }

  /** A text field with a minimum length. */
  lemma TextField(f: FieldSpec, input: map<string, Value>, isEmail: string -> bool, n: nat, message: string)
    requires f.kind == StringKind([MinLength(n, message)]) || (n == 0 && f.kind == StringKind([]))
    ensures f.optional ==> (FieldIssues(f, input, isEmail) == [] <==> OptionalText(input, f.key, n))
    ensures !f.optional ==>
      (FieldIssues(f, input, isEmail) == [] <==> Read(input, f.key).Str? && |Read(input, f.key).s| >= n)
  {
  }

  lemma EmailFieldOk(f: FieldSpec, input: map<string, Value>, isEmail: string -> bool)
    requires f.kind == StringKind([Email("Invalid email address")])
    ensures FieldIssues(f, input, isEmail) == [] <==>
      (Read(input, f.key) == Undefined && f.optional) || (Read(input, f.key).Str? && isEmail(Read(input, f.key).s))
  {
  }

  lemma GenderFieldOk(f: FieldSpec, input: map<string, Value>, isEmail: string -> bool)
    requires f.kind == EnumKind(GenderValues) && f.optional
    ensures FieldIssues(f, input, isEmail) == [] <==> Read(input, f.key) == Undefined || IsGender(Read(input, f.key))
  {
    GenderExact(Read(input, f.key));
  }

  /** Step 1 needs a name of two characters or more and an accepted email. */
  lemma Step1Accepts(input: map<string, Value>, isEmail: string -> bool)
    ensures SafeParse(Step1Schema, input, isEmail).Ok? <==> Step1Ok(input, isEmail)
  {
    TextField(NameField, input, isEmail, 2, "Name must be at least 2 characters");
    EmailFieldOk(EmailField, input, isEmail);
  }

  /** Step 2 bounds are inclusive, every field may be missing, and gender is one of the
      four values. */
  lemma Step2Accepts(input: map<string, Value>, isEmail: string -> bool)
    ensures SafeParse(Step2Schema, input, isEmail).Ok? <==> Step2Ok(input)
  {
    FourFields(Step2Schema, input, isEmail);
    assert (FieldIssues(AgeField, input, isEmail) == []) == OptionalBetween(input, "age", 13.0, 120.0) by {
      RangeField(AgeField, input, isEmail, 13.0, "You must be at least 13 years old", 120.0, "Invalid age");
    }
    assert (FieldIssues(WeightField, input, isEmail) == []) == OptionalBetween(input, "weight", 30.0, 300.0) by {
      RangeField(WeightField, input, isEmail, 30.0, "Weight must be at least 30kg", 300.0, "Weight seems invalid");
    }
    assert (FieldIssues(HeightField, input, isEmail) == []) == OptionalBetween(input, "height", 100.0, 250.0) by {
      RangeField(HeightField, input, isEmail, 100.0, "Height must be at least 100cm", 250.0, "Height seems invalid");
    }
    assert (FieldIssues(GenderField, input, isEmail) == []) == (Read(input, "gender") == Undefined || IsGender(Read(input, "gender"))) by {
      GenderFieldOk(GenderField, input, isEmail);
    }
  }

  /** Step 3: goals of ten characters or more when given, and any allergies text. */
  lemma Step3Accepts(input: map<string, Value>, isEmail: string -> bool)
    ensures SafeParse(Step3Schema, input, isEmail).Ok? <==> Step3Ok(input)
  {
    TextField(GoalsField, input, isEmail, 10, GoalsLength);
    TextField(AllergiesField, input, isEmail, 0, "");
  }

  /** Issues of a merged shape are those of its parts, in order. */
  lemma {:induction false} IssuesAppend(a: Schema, b: Schema, input: map<string, Value>, isEmail: string -> bool)
    ensures Issues(a + b, input, isEmail) == Issues(a, input, isEmail) + Issues(b, input, isEmail)
  {
    if |a| > 0 {
      assert (a + b)[1..] == a[1..] + b;
      IssuesAppend(a[1..], b, input, isEmail);
    } else {
      assert a + b == b;
    }
  }

  lemma PartialAppend(a: Schema, b: Schema)
    ensures Partial(a + b) == Partial(a) + Partial(b)
  {
  }

  lemma PartialOfOptional(schema: Schema)
    requires forall i :: 0 <= i < |schema| ==> schema[i].optional
    ensures Partial(schema) == schema
  {
  }

  /** The profile records accept anything. */
  lemma ProfilesPass(input: map<string, Value>, isEmail: string -> bool)
    ensures Issues(Partial(ProfileFields), input, isEmail) == []
  {
    PartialOfOptional(ProfileFields);
  }

  /** The partial step 1: a name, when given, of two characters or more, and an
      accepted email when given. */
  lemma PartialStep1(input: map<string, Value>, isEmail: string -> bool)
    ensures Issues(Partial(Step1Schema), input, isEmail) == [] <==>
      && OptionalText(input, "name", 2)
      && (Read(input, "email") == Undefined || (Read(input, "email").Str? && isEmail(Read(input, "email").s)))
  {
    var s := Partial(Step1Schema);
    assert s == [NameField.(optional := true), EmailField.(optional := true)];
    TextField(s[0], input, isEmail, 2, "Name must be at least 2 characters");
    EmailFieldOk(s[1], input, isEmail);
  }

  /** The user-update schema: the three steps' rules with every field optional, and the
      profile records unchecked. */
  lemma OnboardingAccepts(input: map<string, Value>, isEmail: string -> bool)
    ensures SafeParse(UserUpdateSchema, input, isEmail).Ok? <==> OnboardingOk(input, isEmail)
  {
    PartialAppend(Step1Schema + Step2Schema + Step3Schema, ProfileFields);
    PartialAppend(Step1Schema + Step2Schema, Step3Schema);
    PartialAppend(Step1Schema, Step2Schema);
    PartialOfOptional(Step2Schema);
    PartialOfOptional(Step3Schema);
    var p1 := Partial(Step1Schema);
    assert UserUpdateSchema == p1 + Step2Schema + Step3Schema + Partial(ProfileFields);
    IssuesAppend(p1 + Step2Schema + Step3Schema, Partial(ProfileFields), input, isEmail);
    IssuesAppend(p1 + Step2Schema, Step3Schema, input, isEmail);
    IssuesAppend(p1, Step2Schema, input, isEmail);
    ProfilesPass(input, isEmail);
    PartialStep1(input, isEmail);
    assert (Issues(Step2Schema, input, isEmail) == []) == Step2Ok(input) by { Step2Accepts(input, isEmail); }
    assert (Issues(Step3Schema, input, isEmail) == []) == Step3Ok(input) by { Step3Accepts(input, isEmail); }
  }

  /** An age below 13 is reported with the under-age message, one above 120 with the
      invalid-age message. */
  lemma AgeMessages(input: map<string, Value>, isEmail: string -> bool)
    requires Read(input, "age").Num?
    ensures Read(input, "age").n < 13.0 ==> FieldIssues(AgeField, input, isEmail) == [Custom("age", "You must be at least 13 years old")]
    ensures Read(input, "age").n > 120.0 ==> FieldIssues(AgeField, input, isEmail) == [Custom("age", "Invalid age")]
  {
    TwoChecks("age", AtLeast(13.0, "You must be at least 13 years old"), AtMost(120.0, "Invalid age"), Read(input, "age"), isEmail);
  }

  /** Parsing keeps only the shape's keys, unchanged. */
  lemma ParsedKeys(schema: Schema, input: map<string, Value>, isEmail: string -> bool)
    requires SafeParse(schema, input, isEmail).Ok?
    ensures forall k :: k in SafeParse(schema, input, isEmail).value ==>
      k in Keys(schema) && SafeParse(schema, input, isEmail).value[k] == input[k]
  {
  }
}
