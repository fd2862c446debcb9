/** The onboarding server actions of `src/app/actions/onboarding.ts`: `saveProgress`
    validates one step (or the partial update), picks the row to upsert, encrypts the
    sensitive fields and upserts; `getUser` and `getUserByEmail` read a row back and
    decrypt it. The database and the cipher are parameters. */
module Onboarding {

  import opened Wrappers
  import opened Values
  import Text
  import opened Schemas
  import ValidationSchemas
  import Crypto

  /** A thrown value: an `Error` with its message, or anything else. */
  datatype Thrown = Error(message: string) | OtherThrown

  /** `error instanceof Error ? error.message : fallback` */
  function CaughtMessage(t: Thrown, fallback: string): string {
    match t
    case Error(m) => m
    case OtherThrown => fallback
  }

  /** `encrypt` (or `decrypt`) as the actions see it: the result, or the message of the
      `Error` it throws. */
  type Cipher = string -> Result<string, string>

  /** The plain text encrypted for a field: text as it is, numbers through `String()`
      (given as `numberText`). */
  function Plain(v: Value, numberText: real -> string): string {
    match v
    case Str(s) => s
    case Num(n) => numberText(n)
    case _ => ""
  }

  /** The encrypted fields, in the order they are encrypted. */
  const SecretFields: seq<string> := ["name", "goals", "allergies", "age", "weight", "height"]

  /** The fields an update may write: the encrypted ones and the plain gender. */
  const StoredFields: set<string> := (set k | k in SecretFields) + {"gender"}

  lemma PlainFieldsNotSecret()
    ensures "gender" !in SecretFields && "email" !in SecretFields
  {
    assert forall i :: 0 <= i < |SecretFields| ==> SecretFields[i][0] != 'e' && (SecretFields[i][0] == 'g' ==> |SecretFields[i]| == 5);
  }

  /** Encrypting `keys` in order into `acc`, skipping missing fields; the first failure
      ends it. */
  function EncryptFields(keys: seq<string>, data: map<string, Value>, encrypt: Cipher, numberText: real -> string,
                         acc: map<string, string>): Result<map<string, string>, string>
  {
    if |keys| == 0 then Ok(acc)
    else
      var v := Read(data, keys[0]);
      if v == Undefined then EncryptFields(keys[1..], data, encrypt, numberText, acc)
      else
        match encrypt(Plain(v, numberText))
        case Err(e) => Err(e)
        case Ok(c) => EncryptFields(keys[1..], data, encrypt, numberText, acc[keys[0] := c])
  }

  /** What `encryptUserData(data)` gives: the six secret fields encrypted, gender copied,
      nothing for a missing field. */
  function EncryptedData(data: map<string, Value>, encrypt: Cipher, numberText: real -> string): Result<map<string, string>, string> {
    match EncryptFields(SecretFields, data, encrypt, numberText, map[])
    case Err(e) => Err(e)
    case Ok(m) =>
      var g := Read(data, "gender");
      Ok(if g == Undefined then m else m["gender" := Plain(g, numberText)])
  }

  /** One `if (data.key !== undefined) encrypted.key = encrypt(...)` of `encryptUserData`,
      for the first of the `keys` still to do: it does what that key's step of
      `EncryptFields` does. */
  method EncryptInto(ghost keys: seq<string>, key: string, data: map<string, Value>, encrypt: Cipher,
                     numberText: real -> string, encrypted: map<string, string>)
    returns (r: Result<map<string, string>, string>)
    requires |keys| > 0 && keys[0] == key
    ensures r.Err? ==> r == EncryptFields(keys, data, encrypt, numberText, encrypted)
    ensures r.Ok? ==>
      EncryptFields(keys, data, encrypt, numberText, encrypted) == EncryptFields(keys[1..], data, encrypt, numberText, r.value)
    ensures r.Ok? ==> r.value.Keys == encrypted.Keys + (if Read(data, key) == Undefined then {} else {key})
  {
    if Read(data, key) != Undefined {
      var c := encrypt(Plain(Read(data, key), numberText));
      if c.Err? {
        return Err(c.error);
      }
      return Ok(encrypted[key := c.value]);
    }
    return Ok(encrypted);
  }

  /** `encryptUserData(data)`, one field after the other; a throwing `encrypt` ends it. */
  method EncryptUserData(data: map<string, Value>, encrypt: Cipher, numberText: real -> string)
    returns (r: Result<map<string, string>, string>)
    ensures r == EncryptedData(data, encrypt, numberText)
  {
    ghost var keys := SecretFields;
    r := EncryptInto(keys, "name", data, encrypt, numberText, map[]);
    if r.Err? { return; }
    keys := keys[1..];
    r := EncryptInto(keys, "goals", data, encrypt, numberText, r.value);
    if r.Err? { return; }
    keys := keys[1..];
    r := EncryptInto(keys, "allergies", data, encrypt, numberText, r.value);
    if r.Err? { return; }
    keys := keys[1..];
    r := EncryptInto(keys, "age", data, encrypt, numberText, r.value);
    if r.Err? { return; }
    keys := keys[1..];
    r := EncryptInto(keys, "weight", data, encrypt, numberText, r.value);
    if r.Err? { return; }
    keys := keys[1..];
    r := EncryptInto(keys, "height", data, encrypt, numberText, r.value);
    if r.Err? { return; }
    keys := keys[1..];
    assert keys == [];
    if Read(data, "gender") != Undefined {
      r := Ok(r.value["gender" := Plain(Read(data, "gender"), numberText)]);
    }
  }

  // ---------------------------------------------------------------------------------
  // saveProgress

  /** The schema for `step`: that step's validator for 1, 2 and 3, the partial user
      update for anything else, `undefined` and 0 included. */
  function StepSchema(step: Option<int>): Schema {
    if step.Some? && step.value != 0 && 1 <= step.value <= 3
    then [ValidationSchemas.Step1ValidationSchema, ValidationSchemas.Step2ValidationSchema,
          ValidationSchemas.Step3ValidationSchema][step.value - 1]
    else UserUpdateSchema
  }

  datatype Where = ById(id: string) | ByEmail(email: string)

  /** The row to upsert: by id when one is given, else by the validated email, else none. */
  function WhereFor(userId: Option<string>, validated: map<string, Value>): Option<Where> {
    if userId.Some? && userId.value != "" then Some(ById(userId.value))
    else
      match Read(validated, "email")
      case Str(e) => if e != "" then Some(ByEmail(e)) else None
      case _ => None
  }

  /** The write sent to the database: the update and the create payload. */
  datatype Upsert = Upsert(where: Where, update: map<string, string>, create: map<string, string>)

  /** The validated email when non-empty. */
  function EmailOf(validated: map<string, Value>): Option<string> {
    match Read(validated, "email")
    case Str(e) => if e != "" then Some(e) else None
    case _ => None
  }

  function UpsertFor(w: Where, validated: map<string, Value>, encrypted: map<string, string>): Upsert {
    var email := EmailOf(validated);
    Upsert(w,
      if email.Some? then encrypted["email" := email.value] else encrypted,
      (map k | k in encrypted && k in StoredFields :: encrypted[k])["email" := email.GetOr("")])
  }

  datatype SaveProgressResult = SaveProgressResult(success: bool, userId: Option<string>, error: Option<string>)

  function Fail(message: string): SaveProgressResult {
    SaveProgressResult(false, None, Some(message))
  }

  /** The messages of the issues, Zod's own wording given as `zodMessage`. */
  function Messages(issues: seq<Issue>, zodMessage: Issue -> string): (r: seq<string>)
    ensures |r| == |issues|
    ensures forall i :: 0 <= i < |issues| && issues[i].Custom? ==> r[i] == issues[i].message
  {
    if |issues| == 0 then []
    else [if issues[0].Custom? then issues[0].message else zodMessage(issues[0])] + Messages(issues[1..], zodMessage)
  }

  /** `saveProgress(data, userId, step)`, with `upsert` the database call. */
  function SaveProgress(data: map<string, Value>, userId: Option<string>, step: Option<int>,
                        isEmail: string -> bool, zodMessage: Issue -> string,
                        encrypt: Cipher, numberText: real -> string,
                        upsert: Upsert -> Result<string, Thrown>): SaveProgressResult
  {
    match SafeParse(StepSchema(step), data, isEmail)
    case Err(issues) => Fail(Text.Join(Messages(issues, zodMessage), ", "))
    case Ok(validated) =>
      match WhereFor(userId, validated)
      case None => Fail("Either userId or email is required")
      case Some(w) =>
        match EncryptedData(validated, encrypt, numberText)
        case Err(e) => Fail(e)
        case Ok(encrypted) =>
          match upsert(UpsertFor(w, validated, encrypted))
          case Ok(id) => SaveProgressResult(true, Some(id), None)
          case Err(t) => Fail(CaughtMessage(t, "Failed to save progress"))
  }

  // ---------------------------------------------------------------------------------
  // getUser and getUserByEmail

  datatype PrismaUser = PrismaUser(
    id: string, email: string, name: Option<string>, age: Option<string>, weight: Option<string>,
    height: Option<string>, gender: Option<string>, goals: Option<string>, allergies: Option<string>,
    status: string)

  /** A row read back; the numeric fields stay the decrypted text. */
  datatype DecryptedUser = DecryptedUser(
    id: string, email: string, name: Option<string>, age: Option<string>, weight: Option<string>,
    height: Option<string>, gender: Option<string>, goals: Option<string>, allergies: Option<string>,
    status: string)

  /** `field ? decrypt(field) : undefined` */
  function DecryptField(f: Option<string>, decrypt: Cipher): Result<Option<string>, string> {
    if f.None? || f.value == "" then Ok(None)
    else
      match decrypt(f.value)
      case Err(e) => Err(e)
      case Ok(p) => Ok(Some(p))
  }

  /** `decryptUserData(user)`: the fields in the order the object literal lists them. */
  function DecryptUserData(u: PrismaUser, decrypt: Cipher): Result<DecryptedUser, string> {
    var name :- DecryptField(u.name, decrypt);
    var age :- DecryptField(u.age, decrypt);
    var weight :- DecryptField(u.weight, decrypt);
    var height :- DecryptField(u.height, decrypt);
    var goals :- DecryptField(u.goals, decrypt);
    var allergies :- DecryptField(u.allergies, decrypt);
    var gender := if u.gender.Some? && u.gender.value != "" then u.gender else None;
    Ok(DecryptedUser(u.id, u.email, name, age, weight, height, gender, goals, allergies, u.status))
  }

  datatype GetUserResult = GetUserResult(success: bool, user: Option<DecryptedUser>, error: Option<string>)

  /** What both readers do with the lookup's outcome. */
  function FetchUser(found: Result<Option<PrismaUser>, Thrown>, decrypt: Cipher): GetUserResult {
    match found
    case Err(t) => GetUserResult(false, None, Some(CaughtMessage(t, "Failed to fetch user")))
    case Ok(None) => GetUserResult(false, None, Some("User not found"))
    case Ok(Some(u)) =>
      match DecryptUserData(u, decrypt)
      case Err(e) => GetUserResult(false, None, Some(e))
      case Ok(d) => GetUserResult(true, Some(d), None)
  }

  function GetUser(userId: string, findById: string -> Result<Option<PrismaUser>, Thrown>, decrypt: Cipher): GetUserResult {
    FetchUser(findById(userId), decrypt)
  }

  function GetUserByEmail(email: string, findByEmail: string -> Result<Option<PrismaUser>, Thrown>, decrypt: Cipher): GetUserResult {
    FetchUser(findByEmail(email), decrypt)
  }

  // ---------------------------------------------------------------------------------
  // Properties

  /** A field is present when it holds a value. */
  predicate Present(data: map<string, Value>, key: string) {
    Read(data, key) != Undefined
  }

  /** When every present field encrypts, the result adds exactly the present keys, each
      with its own cipher text. */
  lemma {:induction false} EncryptFieldsOk(keys: seq<string>, data: map<string, Value>, encrypt: Cipher,
                                           numberText: real -> string, acc: map<string, string>)
    requires forall k :: k in keys && Present(data, k) ==> encrypt(Plain(Read(data, k), numberText)).Ok?
    ensures var r := EncryptFields(keys, data, encrypt, numberText, acc);
      && r.Ok?
      && (forall k :: k in r.value <==> k in acc || (k in keys && Present(data, k)))
      && (forall k :: k in keys && Present(data, k) ==> r.value[k] == encrypt(Plain(Read(data, k), numberText)).value)
      && (forall k :: k in acc && k !in keys ==> r.value[k] == acc[k])
  {
    if |keys| > 0 {
      assert forall k :: k in keys <==> k == keys[0] || k in keys[1..] by {
        assert keys == [keys[0]] + keys[1..];
      }
      var next := if Present(data, keys[0]) then acc[keys[0] := encrypt(Plain(Read(data, keys[0]), numberText)).value] else acc;
      EncryptFieldsOk(keys[1..], data, encrypt, numberText, next);
    }
  }

  /** Encryption fails exactly when some present field fails, and then with the message
      of the first field that does. */
  lemma {:induction false} EncryptFieldsErr(keys: seq<string>, data: map<string, Value>, encrypt: Cipher,
                                            numberText: real -> string, acc: map<string, string>)
    ensures var r := EncryptFields(keys, data, encrypt, numberText, acc);
      && (r.Err? <==> exists i :: 0 <= i < |keys| && Present(data, keys[i]) && encrypt(Plain(Read(data, keys[i]), numberText)).Err?)
      && (r.Err? ==>
            exists i :: 0 <= i < |keys| && Present(data, keys[i])
              && encrypt(Plain(Read(data, keys[i]), numberText)) == Err(r.error)
              && forall j :: 0 <= j < i && Present(data, keys[j]) ==> encrypt(Plain(Read(data, keys[j]), numberText)).Ok?)
  {
    if |keys| > 0 {
      assert forall i :: 1 <= i < |keys| ==> keys[1..][i - 1] == keys[i];
      var c := encrypt(Plain(Read(data, keys[0]), numberText));
      if !Present(data, keys[0]) {
        EncryptFieldsErr(keys[1..], data, encrypt, numberText, acc);
      } else if c.Ok? {
        EncryptFieldsErr(keys[1..], data, encrypt, numberText, acc[keys[0] := c.value]);
      }
    }
  }

  /** `encryptUserData` writes exactly the present stored fields, the secret ones
      encrypted and gender as it is, and never an email. */
  lemma EncryptedFields(data: map<string, Value>, encrypt: Cipher, numberText: real -> string)
    requires forall k :: k in SecretFields && Present(data, k) ==> encrypt(Plain(Read(data, k), numberText)).Ok?
    ensures var r := EncryptedData(data, encrypt, numberText);
      && r.Ok?
      && (forall k :: k in r.value <==> k in StoredFields && Present(data, k))
      && "email" !in r.value
      && (forall k :: k in SecretFields && Present(data, k) ==> r.value[k] == encrypt(Plain(Read(data, k), numberText)).value)
      && (Present(data, "gender") ==> r.value["gender"] == Plain(Read(data, "gender"), numberText))
  {
    EncryptFieldsOk(SecretFields, data, encrypt, numberText, map[]);
    PlainFieldsNotSecret();
  }

  /** Steps 1 to 3 pick their own validator; anything else, 0 and a missing step among
      them, the partial user update. */
  lemma SchemaChoice(step: Option<int>)
    ensures step == Some(1) ==> StepSchema(step) == ValidationSchemas.Step1ValidationSchema
    ensures step == Some(2) ==> StepSchema(step) == ValidationSchemas.Step2ValidationSchema
    ensures step == Some(3) ==> StepSchema(step) == ValidationSchemas.Step3ValidationSchema
    ensures step.None? || step.value < 1 || step.value > 3 ==> StepSchema(step) == UserUpdateSchema
  {
  }

  /** A validation failure reports every issue's message, joined by `, `, and writes
      nothing: the outcome does not depend on the database or the cipher. */
  lemma InvalidWritesNothing(data: map<string, Value>, userId: Option<string>, step: Option<int>,
                             isEmail: string -> bool, zodMessage: Issue -> string,
                             encrypt: Cipher, numberText: real -> string,
                             upsert: Upsert -> Result<string, Thrown>, upsert2: Upsert -> Result<string, Thrown>)
    requires SafeParse(StepSchema(step), data, isEmail).Err?
    ensures SaveProgress(data, userId, step, isEmail, zodMessage, encrypt, numberText, upsert)
      == Fail(Text.Join(Messages(SafeParse(StepSchema(step), data, isEmail).error, zodMessage), ", "))
    ensures SaveProgress(data, userId, step, isEmail, zodMessage, encrypt, numberText, upsert)
      == SaveProgress(data, userId, step, isEmail, zodMessage, encrypt, numberText, upsert2)
  {
  }

  /** The upsert key: the id whenever one is given, else the validated email, else the
      request fails before any write. */
  lemma WhereChoice(userId: Option<string>, validated: map<string, Value>)
    ensures userId.Some? && userId.value != "" ==> WhereFor(userId, validated) == Some(ById(userId.value))
    ensures (userId.None? || userId.value == "") && EmailOf(validated).Some? ==>
      WhereFor(userId, validated) == Some(ByEmail(EmailOf(validated).value))
    ensures (userId.None? || userId.value == "") && EmailOf(validated).None? ==> WhereFor(userId, validated).None?
  {
  }

  lemma NoKeyNoWrite(data: map<string, Value>, userId: Option<string>, step: Option<int>,
                     isEmail: string -> bool, zodMessage: Issue -> string,
                     encrypt: Cipher, numberText: real -> string, upsert: Upsert -> Result<string, Thrown>)
    requires SafeParse(StepSchema(step), data, isEmail).Ok?
    requires WhereFor(userId, SafeParse(StepSchema(step), data, isEmail).value).None?
    ensures SaveProgress(data, userId, step, isEmail, zodMessage, encrypt, numberText, upsert)
      == Fail("Either userId or email is required")
  {
  }

  /** Steps 2 and 3 strip the email, so without a user id they can never be saved,
      whatever the request carries. */
  lemma LaterStepsNeedUserId(data: map<string, Value>, step: Option<int>,
                             isEmail: string -> bool, zodMessage: Issue -> string,
                             encrypt: Cipher, numberText: real -> string, upsert: Upsert -> Result<string, Thrown>)
    requires step == Some(2) || step == Some(3)
    ensures !SaveProgress(data, None, step, isEmail, zodMessage, encrypt, numberText, upsert).success
  {
    var parsed := SafeParse(StepSchema(step), data, isEmail);
    if parsed.Ok? {
      assert "email" !in parsed.value by {
        ValidationSchemas.StepsStripEmail(data, isEmail);
      }
      assert WhereFor(None, parsed.value).None?;
    }
  }

  /** The created row's email is the validated email or `''`; the update carries the
      email only when there is one. */
  lemma UpsertEmail(w: Where, validated: map<string, Value>, encrypted: map<string, string>)
    requires "email" !in encrypted
    ensures UpsertFor(w, validated, encrypted).create["email"] == EmailOf(validated).GetOr("")
    ensures ("email" in UpsertFor(w, validated, encrypted).update) <==> EmailOf(validated).Some?
    ensures forall k :: k in encrypted ==> UpsertFor(w, validated, encrypted).update[k] == encrypted[k]
  {
  }

  /** An empty allergies text passes every schema but cannot be encrypted, so saving it
      fails with the cipher's message, after validation and key choice. */
  lemma EmptyAllergiesFail(data: map<string, Value>, userId: string, isEmail: string -> bool,
                           zodMessage: Issue -> string, encrypt: Cipher, numberText: real -> string,
                           upsert: Upsert -> Result<string, Thrown>, m: string)
    requires userId != "" && encrypt("") == Err(m)
    requires data == map["allergies" := Str("")]
    ensures SaveProgress(data, Some(userId), Some(3), isEmail, zodMessage, encrypt, numberText, upsert) == Fail(m)
  {
    var s := ValidationSchemas.Step3ValidationSchema;
    assert SafeParse(s, data, isEmail).Ok? by {
      ValidationSchemas.Step3ValidationAccepts(data, isEmail);
    }
    var validated := SafeParse(s, data, isEmail).value;
    assert validated == data by {
      assert "allergies" in Keys(s);
    }
    assert SecretFields[2] == "allergies";
    var r := EncryptFields(SecretFields, validated, encrypt, numberText, map[]);
    assert r == Err(m) by {
      EncryptFieldsErr(SecretFields, validated, encrypt, numberText, map[]);
      assert forall k :: Present(validated, k) ==> Plain(Read(validated, k), numberText) == "";
      assert Present(validated, SecretFields[2]);
    }
    assert StepSchema(Some(3)) == s;
    assert WhereFor(Some(userId), validated) == Some(ById(userId));
    assert EncryptedData(validated, encrypt, numberText) == Err(m);
  }

  /** The crypto module's `encrypt` refuses the empty allergies in just that way. */
  lemma CryptoRefusesEmpty(env: Option<string>, base64: string -> seq<Crypto.byte>, iv: seq<Crypto.byte>,
                           seal: (seq<Crypto.byte>, seq<Crypto.byte>, string) -> Crypto.Sealed)
    ensures (t => Crypto.Encrypt(t, env, base64, iv, seal))("") == Err(Crypto.EncryptEmpty)
  {
  }

  /** Both readers report a missing row as not found. */
  lemma NotFound(key: string, find: string -> Result<Option<PrismaUser>, Thrown>, decrypt: Cipher)
    requires find(key) == Ok(None)
    ensures GetUser(key, find, decrypt) == GetUserResult(false, None, Some("User not found"))
    ensures GetUserByEmail(key, find, decrypt) == GetUserResult(false, None, Some("User not found"))
  {
  }

  /** An empty or missing field, or one that decrypts. */
  predicate Decrypts(f: Option<string>, decrypt: Cipher) {
    f.None? || f.value == "" || decrypt(f.value).Ok?
  }

  /** `out` is what `field ? decrypt(field) : undefined` leaves: nothing for an empty or
      missing field, the decrypted text otherwise. */
  predicate DecryptedAs(f: Option<string>, out: Option<string>, decrypt: Cipher)
    requires Decrypts(f, decrypt)
  {
    if f.None? || f.value == "" then out.None? else out == Some(decrypt(f.value).value)
  }

  /** A found row comes back with its id, email and status, its empty fields missing and
      the others decrypted, when every decryption succeeds; a non-empty gender is copied
      and an empty one left out. */
  lemma FoundDecrypted(u: PrismaUser, decrypt: Cipher)
    requires Decrypts(u.name, decrypt) && Decrypts(u.age, decrypt) && Decrypts(u.weight, decrypt)
    requires Decrypts(u.height, decrypt) && Decrypts(u.goals, decrypt) && Decrypts(u.allergies, decrypt)
    ensures var r := FetchUser(Ok(Some(u)), decrypt);
      && r.success && r.user.Some? && r.error.None?
      && r.user.value.id == u.id && r.user.value.email == u.email && r.user.value.status == u.status
      && DecryptedAs(u.name, r.user.value.name, decrypt)
      && DecryptedAs(u.age, r.user.value.age, decrypt)
      && DecryptedAs(u.weight, r.user.value.weight, decrypt)
      && DecryptedAs(u.height, r.user.value.height, decrypt)
      && DecryptedAs(u.goals, r.user.value.goals, decrypt)
      && DecryptedAs(u.allergies, r.user.value.allergies, decrypt)
      && (u.gender.Some? && u.gender.value != "" ==> r.user.value.gender == u.gender)
      && (u.gender.None? || u.gender == Some("") ==> r.user.value.gender.None?)
  {
    assert DecryptUserData(u, decrypt).Ok? by {
      assert DecryptField(u.name, decrypt).Ok? && DecryptField(u.age, decrypt).Ok?;
      assert DecryptField(u.weight, decrypt).Ok? && DecryptField(u.height, decrypt).Ok?;
      assert DecryptField(u.goals, decrypt).Ok? && DecryptField(u.allergies, decrypt).Ok?;
    }
    var d := DecryptUserData(u, decrypt).value;
    assert d.name == DecryptField(u.name, decrypt).value && d.age == DecryptField(u.age, decrypt).value;
    assert d.weight == DecryptField(u.weight, decrypt).value && d.height == DecryptField(u.height, decrypt).value;
    assert d.goals == DecryptField(u.goals, decrypt).value && d.allergies == DecryptField(u.allergies, decrypt).value;
  }

  /** A lookup that throws reports the error's message, or the fixed fallback. */
  lemma FetchThrows(t: Thrown, decrypt: Cipher)
    ensures FetchUser(Err(t), decrypt).error == Some(if t.Error? then t.message else "Failed to fetch user")
    ensures !FetchUser(Err(t), decrypt).success
  {
  }
}
