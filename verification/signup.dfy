/** The sign-up form (src/app/signup/page.tsx): field edits, the three
    client-side checks in their fixed order, and the hand-off to `signup`. */
module Signup {
  import opened Wrappers
  import opened Auth

  datatype SignupForm = SignupForm(
    email: string,
    password: string,
    confirmPassword: string,
    name: string,
    phone: string,
    agreeToTerms: bool,
    agreeToMarketing: bool)

  /** The form as the page first renders it: every text empty, both boxes unticked. */
  function InitialForm(): (r: SignupForm)
    ensures TextOf(r, Email) == "" && TextOf(r, Password) == "" && TextOf(r, ConfirmPassword) == ""
    ensures TextOf(r, Name) == "" && TextOf(r, Phone) == ""
    ensures !FlagOf(r, AgreeToTerms) && !FlagOf(r, AgreeToMarketing)
  {
    SignupForm("", "", "", "", "", false, false)
  }

  datatype TextField = Email | Password | ConfirmPassword | Name | Phone
  datatype CheckField = AgreeToTerms | AgreeToMarketing

  function TextOf(f: SignupForm, field: TextField): string {
    match field
    case Email => f.email
    case Password => f.password
    case ConfirmPassword => f.confirmPassword
    case Name => f.name
    case Phone => f.phone
  }

  function FlagOf(f: SignupForm, field: CheckField): bool {
    match field
    case AgreeToTerms => f.agreeToTerms
    case AgreeToMarketing => f.agreeToMarketing
  }

  /** An input's change event: a text input carries its value, a checkbox its checked state. */
  datatype InputEvent = TextInput(field: TextField, value: string) | CheckInput(box: CheckField, checked: bool)

  /** `handleInputChange`: the named field takes the event's value and no other field changes. */
  function HandleInputChange(f: SignupForm, e: InputEvent): (r: SignupForm)
    ensures e.TextInput? ==> TextOf(r, e.field) == e.value
    ensures e.TextInput? ==> forall t :: t != e.field ==> TextOf(r, t) == TextOf(f, t)
    ensures e.TextInput? ==> forall c :: FlagOf(r, c) == FlagOf(f, c)
    ensures e.CheckInput? ==> FlagOf(r, e.box) == e.checked
    ensures e.CheckInput? ==> forall c :: c != e.box ==> FlagOf(r, c) == FlagOf(f, c)
    ensures e.CheckInput? ==> forall t :: TextOf(r, t) == TextOf(f, t)
  {
    match e
    case TextInput(Email, v) => f.(email := v)
    case TextInput(Password, v) => f.(password := v)
    case TextInput(ConfirmPassword, v) => f.(confirmPassword := v)
    case TextInput(Name, v) => f.(name := v)
    case TextInput(Phone, v) => f.(phone := v)
    case CheckInput(AgreeToTerms, b) => f.(agreeToTerms := b)
    case CheckInput(AgreeToMarketing, b) => f.(agreeToMarketing := b)
  }

  datatype ValidationError = PasswordMismatch | PasswordTooShort | TermsNotAccepted

  /** The message the page shows for each failed check. */
  function Message(e: ValidationError): string {
    match e
    case PasswordMismatch => "비밀번호가 일치하지 않습니다."
    case PasswordTooShort => "비밀번호는 8자 이상이어야 합니다."
    case TermsNotAccepted => "이용약관에 동의해주세요."
  }

  const MinPasswordLength := 8

  /** The checks of `handleSubmit`, first failure wins: mismatch, then length, then terms. */
  function Validate(f: SignupForm): (r: Option<ValidationError>)
    ensures r == Some(PasswordMismatch) <==> f.password != f.confirmPassword
    ensures r == Some(PasswordTooShort) <==> f.password == f.confirmPassword && |f.password| < MinPasswordLength
    ensures r == Some(TermsNotAccepted) <==>
      f.password == f.confirmPassword && |f.password| >= MinPasswordLength && !f.agreeToTerms
    ensures r.None? <==> f.password == f.confirmPassword && |f.password| >= MinPasswordLength && f.agreeToTerms
  {
    if f.password != f.confirmPassword then Some(PasswordMismatch)
    else if |f.password| < MinPasswordLength then Some(PasswordTooShort)
    else if !f.agreeToTerms then Some(TermsNotAccepted)
    else None
  }

  /** Among `handleSubmit`'s own checks, neither the phone number, the e-mail,
      the name nor marketing consent has any say in whether the form passes. */
  lemma ValidationIgnoresOptionalFields(f: SignupForm, g: SignupForm)
    requires f.password == g.password && f.confirmPassword == g.confirmPassword
    requires f.agreeToTerms == g.agreeToTerms
    ensures Validate(f) == Validate(g)
  {
  }

  datatype SubmitOutcome = Rejected(error: ValidationError) | SignedUp(auth: AuthState)

  /** `handleSubmit`: a form failing a check leaves the session alone and
      reports the first failure; a passing one signs up a new user with the
      form's e-mail, name and phone (the id and date are the caller's). */
  function Submit(auth: AuthState, f: SignupForm, newId: string, today: string): (r: SubmitOutcome)
    ensures r.Rejected? <==> Validate(f).Some?
    ensures r.Rejected? ==> r.error == Validate(f).value
    ensures r.SignedUp? ==> r.auth.isLoggedIn && r.auth.user.Some? && Consistent(r.auth)
    ensures r.SignedUp? ==> r.auth.user.value.id == newId && r.auth.user.value.email == f.email
    ensures r.SignedUp? ==> r.auth.user.value.name == f.name && r.auth.user.value.phone == f.phone
  {
    match Validate(f)
    case Some(err) => Rejected(err)
    case None => SignedUp(Auth.Signup(auth, SignupData(f.email, f.name, f.phone), newId, today).0)
  }

  /** The browser's constraint validation, which runs before `handleSubmit`:
      the e-mail, the name, both passwords and the terms box are `required`,
      and the e-mail field is `type="email"`. Whether a non-empty e-mail has
      the format that type demands is the parameter `emailWellFormed`. */
  predicate BrowserAccepts(f: SignupForm, emailWellFormed: bool) {
    f.email != "" && emailWellFormed && f.name != "" && f.password != "" && f.confirmPassword != ""
    && f.agreeToTerms
  }

  /** Pressing the submit button: the browser blocks a form that fails its
      constraints (`None`, and `handleSubmit` never runs); otherwise
      `handleSubmit` decides. On the page the terms check therefore never
      fires, and a sign-up always carries a non-empty e-mail and name. */
  function PageSubmit(auth: AuthState, f: SignupForm, emailWellFormed: bool, newId: string, today: string)
    : (r: Option<SubmitOutcome>)
    ensures r.None? <==> !BrowserAccepts(f, emailWellFormed)
    ensures r.Some? ==> (r.value.Rejected? <==> f.password != f.confirmPassword || |f.password| < MinPasswordLength)
    ensures r.Some? ==> r.value != Rejected(TermsNotAccepted)
    ensures r.Some? && r.value.SignedUp? ==>
      r.value.auth.user.Some? && r.value.auth.user.value.email != "" && r.value.auth.user.value.name != ""
  {
    if BrowserAccepts(f, emailWellFormed) then Some(Submit(auth, f, newId, today)) else None
  }
}
