/** `submitWizardAction` of `src/app/actions/submit-wizard.ts`: the wizard's last step
    checks the name and the email, encrypts both, and upserts the user keyed on the
    encrypted email with status `STARTED`. The cipher and the database are parameters. */
module SubmitWizard {

  import opened Wrappers
  import opened WizardTypes
  import Text
  import WizardMapper
  import Crypto

  const MissingFields := "Name and email are required to submit the wizard"
  const InvalidEmail := "Please provide a valid email address"
  const SubmitFailed := "Failed to submit wizard. Please try again."
  const CheckoutUrl := "/payment/checkout"
  const Started := "STARTED"

  predicate Blocked(c: char) {
    Text.IsWhitespace(c) || c == '@'
  }

  /** `/^[^\s@]+@[^\s@]+\.[^\s@]+$/`: one `@` past the start, a `.` at least two places
      after it and before the end, and no white space or other `@` anywhere. */
  predicate EmailRegex(s: string) {
    exists i, j :: 0 < i && i + 1 < j && j + 1 < |s| && s[i] == '@' && s[j] == '.'
      && forall k :: 0 <= k < |s| && k != i ==> !Blocked(s[k])
  }

  /** The text the regular expression is tested on: `String(email)`. A number's decimal
      form holds no `@`, so it never matches; a list is joined with commas. */
  function TestedText(a: Answer): Option<string> {
    match a
    case AnswerText(s) => Some(s)
    case AnswerList(items) => Some(Text.Join(items, ","))
    case AnswerNumber(_) => None
  }

  predicate EmailAccepted(a: Answer) {
    TestedText(a).Some? && EmailRegex(TestedText(a).value)
  }

  /** `encrypt(x)` on an answer: a list or a number fails its string check. `encrypt(n, t)`
      is the cipher's `n`-th draw, each call drawing a fresh IV. */
  function EncryptAnswer(a: Answer, draw: nat, encrypt: (nat, string) -> Result<string, string>): Result<string, string> {
    if a.AnswerText? then encrypt(draw, a.s) else Err(Crypto.EncryptEmpty)
  }

  /** The fields both the create and the update payloads set. */
  datatype UserWrite = UserWrite(
    name: string,
    status: string,
    kitchenHabits: WizardMapper.KitchenHabits,
    dietaryPrefs: WizardMapper.DietaryPrefs,
    activityProfile: WizardMapper.ActivityProfile,
    lifestyleProfile: WizardMapper.LifestyleProfile)

  /** The upsert: keyed on the encrypted email, which the created row also stores. */
  datatype SubmitUpsert = SubmitUpsert(whereEmail: string, createEmail: string, create: UserWrite, update: UserWrite)

  datatype SubmitWizardResult = SubmitWizardResult(
    success: bool, userId: Option<string>, redirectUrl: Option<string>, error: Option<string>)

  function Failure(message: string): SubmitWizardResult {
    SubmitWizardResult(false, None, None, Some(message))
  }

  /** The write for a valid submission. */
  function Write(answers: WizardState, encryptedName: string, encryptedEmail: string): SubmitUpsert {
    var u := WizardMapper.MapWizardToUser(answers);
    var w := UserWrite(encryptedName, Started, u.kitchenHabits, u.dietaryPrefs, u.activityProfile, u.lifestyleProfile);
    SubmitUpsert(encryptedEmail, encryptedEmail, w, w)
  }

  /** `submitWizardAction(answers)`, with `upsert` the database call (`None` when it
      throws). */
  function SubmitWizardAction(answers: WizardState, encrypt: (nat, string) -> Result<string, string>,
                              upsert: SubmitUpsert -> Option<string>): SubmitWizardResult
  {
    var name := WizardMapper.Get(answers, "name");
    var email := WizardMapper.Get(answers, "email");
    if !WizardMapper.Truthy(name) || !WizardMapper.Truthy(email) then Failure(MissingFields)
    else if !EmailAccepted(email.value) then Failure(InvalidEmail)
    else
      match EncryptAnswer(name.value, 0, encrypt)
      case Err(_) => Failure(SubmitFailed)
      case Ok(encryptedName) =>
        match EncryptAnswer(email.value, 1, encrypt)
        case Err(_) => Failure(SubmitFailed)
        case Ok(encryptedEmail) =>
          match upsert(Write(answers, encryptedName, encryptedEmail))
          case None => Failure(SubmitFailed)
          case Some(id) => SubmitWizardResult(true, Some(id), Some(CheckoutUrl), None)
  }

  // ---------------------------------------------------------------------------------
  // Properties

  /** A missing or empty name or email is refused before anything is encrypted or
      written. */
  lemma RequiredFirst(answers: WizardState, encrypt: (nat, string) -> Result<string, string>,
                      upsert: SubmitUpsert -> Option<string>)
    requires !WizardMapper.Truthy(WizardMapper.Get(answers, "name")) || !WizardMapper.Truthy(WizardMapper.Get(answers, "email"))
    ensures SubmitWizardAction(answers, encrypt, upsert) == Failure(MissingFields)
  {
  }

  lemma EmptyNameRefused(answers: WizardState, encrypt: (nat, string) -> Result<string, string>,
                         upsert: SubmitUpsert -> Option<string>)
    requires "name" !in answers || answers["name"] == AnswerText("")
    ensures SubmitWizardAction(answers, encrypt, upsert) == Failure(MissingFields)
  {
  }

  /** An email the regular expression rejects is refused next, before any write. */
  lemma EmailChecked(answers: WizardState, encrypt: (nat, string) -> Result<string, string>,
                     upsert: SubmitUpsert -> Option<string>)
    requires WizardMapper.Truthy(WizardMapper.Get(answers, "name")) && WizardMapper.Truthy(WizardMapper.Get(answers, "email"))
    requires !EmailAccepted(answers["email"])
    ensures SubmitWizardAction(answers, encrypt, upsert) == Failure(InvalidEmail)
  {
  }

  /** A success wrote the user under the encrypted email, with the encrypted name and
      status `STARTED` on both paths, and sends the browser to the checkout. */
  lemma SuccessWrites(answers: WizardState, encrypt: (nat, string) -> Result<string, string>,
                      upsert: SubmitUpsert -> Option<string>)
    requires SubmitWizardAction(answers, encrypt, upsert).success
    ensures "name" in answers && "email" in answers && answers["name"].AnswerText? && answers["email"].AnswerText?
    ensures EmailRegex(answers["email"].s)
    ensures var w := Write(answers, encrypt(0, answers["name"].s).value, encrypt(1, answers["email"].s).value);
      && upsert(w).Some?
      && SubmitWizardAction(answers, encrypt, upsert) == SubmitWizardResult(true, upsert(w), Some(CheckoutUrl), None)
      && w.whereEmail == encrypt(1, answers["email"].s).value && w.createEmail == w.whereEmail
      && w.create.status == Started && w.update.status == Started
      && w.create.name == encrypt(0, answers["name"].s).value
  {
  }

  /** Every failure after the checks gives the one fixed message. */
  lemma LaterFailuresGeneric(answers: WizardState, encrypt: (nat, string) -> Result<string, string>,
                             upsert: SubmitUpsert -> Option<string>)
    requires WizardMapper.Truthy(WizardMapper.Get(answers, "name")) && WizardMapper.Truthy(WizardMapper.Get(answers, "email"))
    requires EmailAccepted(answers["email"])
    requires !SubmitWizardAction(answers, encrypt, upsert).success
    ensures SubmitWizardAction(answers, encrypt, upsert) == Failure(SubmitFailed)
  {
  }

  /** With the crypto module's cipher, the key of a second submission of the same email
      never equals the first one's stored email when the IVs differ: the upsert cannot
      find the earlier row and creates another. */
  lemma ResubmissionNeverMatches(email: string, env: Option<string>, base64: string -> seq<Crypto.byte>,
                                 iv1: seq<Crypto.byte>, iv2: seq<Crypto.byte>,
                                 seal: (seq<Crypto.byte>, seq<Crypto.byte>, string) -> Crypto.Sealed)
    requires Crypto.Encrypt(email, env, base64, iv1, seal).Ok? && iv1 != iv2
    ensures Crypto.Encrypt(email, env, base64, iv2, seal).Ok?
    ensures Crypto.Encrypt(email, env, base64, iv1, seal).value != Crypto.Encrypt(email, env, base64, iv2, seal).value
  {
    Crypto.FreshIvsDiffer(email, email, env, base64, iv1, iv2, seal);
  }

  /** The regular expression on a few addresses. */
  lemma EmailExamples()
    ensures EmailRegex("a@b.c")
    ensures !EmailRegex("a@bc")
    ensures !EmailRegex("@b.c")
    ensures !EmailRegex("a b@c.d")
  {
    var s := "a@b.c";
    assert s[1] == '@' && s[3] == '.';
    assert forall k :: 0 <= k < |s| && k != 1 ==> !Blocked(s[k]);
    var t := "a@bc";
    assert forall j :: 0 <= j < |t| ==> t[j] != '.';
    var u := "@b.c";
    assert forall i :: 0 < i < |u| ==> u[i] != '@';
    var v := "a b@c.d";
    assert Blocked(v[1]) && v[1] != '@';
  }

  /** The regular expression does not stop a second dot or a trailing one: `a@b.c.` is
      accepted. */
  lemma TrailingDotAccepted()
    ensures EmailRegex("a@b.c.")
  {
    var s := "a@b.c.";
    assert s[1] == '@' && s[3] == '.';
    assert forall k :: 0 <= k < |s| && k != 1 ==> !Blocked(s[k]);
  }

  /** An accepted address has exactly one `@`, no white space and a non-empty local
      part. */
  lemma AcceptedShape(s: string)
    requires EmailRegex(s)
    ensures Text.NoWhitespace(s)
    ensures exists i :: 0 < i < |s| && s[i] == '@' && forall k :: 0 <= k < |s| && s[k] == '@' ==> k == i
  {
    var i, j :| 0 < i && i + 1 < j && j + 1 < |s| && s[i] == '@' && s[j] == '.'
      && forall k :: 0 <= k < |s| && k != i ==> !Blocked(s[k]);
    assert !Text.IsWhitespace(s[i]);
  }
}
