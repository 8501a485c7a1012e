/**
 * The request and response models of the backend: the subscription tiers and billing intervals,
 * the field validators of the sign-up and password-change forms, and the defaults they fill in.
 */
module Models {
  import opened Wrappers

  datatype SubscriptionTier = DailyFree | Basic | Premium | Platinum | Enterprise

  /** The string each tier is stored and sent as. */
  function TierValue(t: SubscriptionTier): string {
    match t
    case DailyFree => "daily_free"
    case Basic => "basic"
    case Premium => "premium"
    case Platinum => "platinum"
    case Enterprise => "enterprise"
  }

  const AllTiers: seq<SubscriptionTier> := [DailyFree, Basic, Premium, Platinum, Enterprise]

  /** `SubscriptionTier(s)`: the tier whose value is `s`, if any. */
  function ParseTier(s: string): (r: Option<SubscriptionTier>)
    ensures r.Some? ==> TierValue(r.value) == s
  {
    if s == "daily_free" then Some(DailyFree)
    else if s == "basic" then Some(Basic)
    else if s == "premium" then Some(Premium)
    else if s == "platinum" then Some(Platinum)
    else if s == "enterprise" then Some(Enterprise)
    else None
  }

  /** There are exactly five tiers, with five different values, and every value parses back to its tier. */
  lemma TiersExactlyFive(t: SubscriptionTier)
    ensures |AllTiers| == 5 && t in AllTiers
    ensures forall i, j :: 0 <= i < j < |AllTiers| ==> TierValue(AllTiers[i]) != TierValue(AllTiers[j])
    ensures ParseTier(TierValue(t)) == Some(t)
  {
    assert TierValue(DailyFree)[0] == 'd' && TierValue(Basic)[0] == 'b' && TierValue(Premium)[1] == 'r';
    assert TierValue(Platinum)[1] == 'l' && TierValue(Enterprise)[0] == 'e';
  }

  datatype BillingInterval = Monthly | Annual

  function IntervalValue(b: BillingInterval): string {
    match b
    case Monthly => "monthly"
    case Annual => "annual"
  }

  function ParseInterval(s: string): (r: Option<BillingInterval>)
    ensures r.Some? ==> IntervalValue(r.value) == s
  {
    if s == "monthly" then Some(Monthly) else if s == "annual" then Some(Annual) else None
  }

  /** There are exactly two intervals, and each value parses back to its interval. */
  lemma IntervalsExactlyTwo(b: BillingInterval)
    ensures b == Monthly || b == Annual
    ensures IntervalValue(Monthly) != IntervalValue(Annual)
    ensures ParseInterval(IntervalValue(b)) == Some(b)
  {
    assert IntervalValue(Monthly)[0] == 'm';
  }

  // ---------------------------------------------------------------------------------------------
  // Validation

  /** One entry of a validation error: the field and the message its validator raised. */
  datatype FieldError = FieldError(field: string, message: string)

  const ShortPassword := FieldError("password", "Password must be at least 8 characters long")
  const SignupMismatch := FieldError("confirm_password", "Passwords do not match")
  const InvalidEmail := FieldError("email", "value is not a valid email address")

  datatype UserSignup = UserSignup(fullName: string, email: string, password: string, confirmPassword: string)

  /**
   * The errors of a sign-up form, field by field in declaration order. The email check is the
   * library's and is given as `emailValid`. The confirmation is compared with the password only
   * when the password itself passed, because only then has it reached the validated values.
   */
  function SignupErrors(form: UserSignup, emailValid: bool): (r: seq<FieldError>)
    ensures |form.password| < 8 ==> ShortPassword in r && SignupMismatch !in r
    ensures |form.password| >= 8 ==> ShortPassword !in r && (SignupMismatch in r <==> form.confirmPassword != form.password)
    ensures InvalidEmail in r <==> !emailValid
  {
    (if emailValid then [] else [InvalidEmail])
    + (if |form.password| < 8 then [ShortPassword] else [])
    + (if |form.password| >= 8 && form.confirmPassword != form.password then [SignupMismatch] else [])
  }

  /** Constructing a `UserSignup`: the form itself, or every error found. */
  function ValidateSignup(form: UserSignup, emailValid: bool): (r: Result<UserSignup, seq<FieldError>>)
    ensures r.Success? <==> emailValid && |form.password| >= 8 && form.confirmPassword == form.password
    ensures r.Success? ==> r.value == form
  {
    var errors := SignupErrors(form, emailValid);
    if errors == [] then Success(form) else Failure(errors)
  }

  /** A short password reports the length error alone, even when the confirmation differs. */
  lemma ShortPasswordReportedAlone(form: UserSignup)
    requires |form.password| < 8
    ensures ValidateSignup(form, true) == Failure([ShortPassword])
  {
    var e: seq<FieldError> := [];
    assert SignupErrors(form, true) == e + [ShortPassword] + e;
    assert e + [ShortPassword] + e == [ShortPassword];
  }

  datatype PasswordChange = PasswordChange(currentPassword: string, newPassword: string, confirmPassword: string)

  const ChangeMismatch := FieldError("confirm_password", "Passwords do not match")

  /** A password change checks only that the confirmation repeats the new password; it has no length rule. */
  function ValidatePasswordChange(form: PasswordChange): (r: Result<PasswordChange, seq<FieldError>>)
    ensures r.Success? <==> form.confirmPassword == form.newPassword
    ensures r.Failure? ==> r.error == [ChangeMismatch]
  {
    if form.confirmPassword != form.newPassword then Failure([ChangeMismatch]) else Success(form)
  }

  /** Even a one-character new password is accepted when it is confirmed. */
  lemma NoLengthRuleOnChange(current: string, c: char)
    ensures ValidatePasswordChange(PasswordChange(current, [c], [c])).Success?
  {
  }

  // ---------------------------------------------------------------------------------------------
  // Defaults

  const DefaultLanguage := "en"

  /** A language preference that was not given is English. */
  function LanguageOrDefault(languagePreference: Option<string>): (r: string)
    ensures languagePreference.None? ==> r == "en"
    ensures languagePreference.Some? ==> r == languagePreference.value
  {
    languagePreference.GetOr(DefaultLanguage)
  }

  /** The profile update form: a field left out is `None`. */
  datatype UserUpdate = UserUpdate(fullName: Option<string>, languagePreference: Option<string>)
}
