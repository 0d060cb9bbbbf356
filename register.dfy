/**
 * The seller registration form: its fields, the change handlers, the
 * validation that fills the per-field error messages, and the submit gate.
 */
module Register {
  import opened Wrappers
  import opened Text

  datatype RegisterForm = RegisterForm(
    companyName: string,
    email: string,
    password: string,
    confirmPassword: string,
    website: string,
    agreeTerms: bool,
    receiveUpdates: bool)

  /** The text inputs `handleChange` serves, by their `name` attribute. */
  datatype TextField = CompanyName | Email | Password | ConfirmPassword | Website

  /** What a checkbox reports to `onCheckedChange`. */
  datatype CheckedState = Checked | Unchecked | Indeterminate

  function InitialForm(): RegisterForm
  {
    RegisterForm("", "", "", "", "", false, false)
  }

  /** `handleChange` for a text input: `{...formData, [name]: value}`. */
  function SetText(f: RegisterForm, field: TextField, value: string): RegisterForm
  {
    match field
    case CompanyName => f.(companyName := value)
    case Email => f.(email := value)
    case Password => f.(password := value)
    case ConfirmPassword => f.(confirmPassword := value)
    case Website => f.(website := value)
  }

  function GetText(f: RegisterForm, field: TextField): string
  {
    match field
    case CompanyName => f.companyName
    case Email => f.email
    case Password => f.password
    case ConfirmPassword => f.confirmPassword
    case Website => f.website
  }

  /**
   * `/\S+@\S+\.\S+/.test(s)`: somewhere in `s` a non-blank character, an
   * "@", a non-empty run of non-blank characters, a ".", and a non-blank
   * character follow each other.
   */
  predicate EmailLooksValid(s: string)
  {
    exists p, q :: 0 <= p < q < |s| && p + 2 <= q
      && AtAfterNonBlank(s, p) && DotBeforeNonBlank(s, q) && NonBlankBetween(s, p, q)
  }

  /** An "@" at `p` right after a non-blank character. */
  predicate AtAfterNonBlank(s: string, p: int)
  {
    1 <= p < |s| && s[p] == '@' && !IsWhite(s[p - 1])
  }

  /** A "." at `q` right before a non-blank character. */
  predicate DotBeforeNonBlank(s: string, q: int)
  {
    0 <= q < |s| - 1 && s[q] == '.' && !IsWhite(s[q + 1])
  }

  /** No blank strictly between `p` and `q`. */
  predicate NonBlankBetween(s: string, p: int, q: int)
    requires 0 <= p <= q <= |s|
  {
    forall k :: p < k < q ==> !IsWhite(s[k])
  }

  /** The keys of `errors`: the fields a message can be shown under. */
  datatype ErrorKey = CompanyNameError | EmailError | PasswordError | ConfirmPasswordError | AgreeTermsError

  const CompanyNameRequired := "Company name is required"
  const EmailRequired := "Email is required"
  const EmailInvalid := "Email is invalid"
  const PasswordRequired := "Password is required"
  const PasswordTooShort := "Password must be at least 8 characters"
  const PasswordsDiffer := "Passwords do not match"
  const TermsRequired := "You must agree to the terms and conditions"

  const AllErrorKeys: set<ErrorKey> := {CompanyNameError, EmailError, PasswordError, ConfirmPasswordError, AgreeTermsError}

  /** The message `validateForm` stores under `k`, if its check fails. */
  function ErrorMessage(f: RegisterForm, k: ErrorKey): Option<string>
  {
    match k
    case CompanyNameError =>
      if Trim(f.companyName) == "" then Some(CompanyNameRequired) else None
    case EmailError =>
      if Trim(f.email) == "" then Some(EmailRequired)
      else if !EmailLooksValid(f.email) then Some(EmailInvalid)
      else None
    case PasswordError =>
      if f.password == "" then Some(PasswordRequired)
      else if |f.password| < 8 then Some(PasswordTooShort)
      else None
    case ConfirmPasswordError =>
      if f.password != f.confirmPassword then Some(PasswordsDiffer) else None
    case AgreeTermsError =>
      if !f.agreeTerms then Some(TermsRequired) else None
  }

  /** `newErrors` once `validateForm` has run every check. */
  function FormErrors(f: RegisterForm): map<ErrorKey, string>
  {
    map k | k in AllErrorKeys && ErrorMessage(f, k).Some? :: ErrorMessage(f, k).value
  }

  /** The rule behind each key, stated without the messages. */
  predicate RuleBroken(f: RegisterForm, k: ErrorKey)
  {
    match k
    case CompanyNameError => AllWhite(f.companyName)
    case EmailError => !EmailLooksValid(f.email)
    case PasswordError => |f.password| < 8
    case ConfirmPasswordError => f.password != f.confirmPassword
    case AgreeTermsError => !f.agreeTerms
  }

  // ------------------------------------------------------------ lemmas

  /** A key has a message exactly when its rule is broken. */
  lemma MessageIffRuleBroken(f: RegisterForm, k: ErrorKey)
    ensures ErrorMessage(f, k).Some? <==> RuleBroken(f, k)
  {
    match k {
      case CompanyNameError => TrimEmptyIff(f.companyName);
      case EmailError => TrimEmptyIff(f.email); EmailNotBlank(f.email);
      case PasswordError =>
      case ConfirmPasswordError =>
      case AgreeTermsError =>
    }
  }

  /** The error map holds a key exactly when its check produces a message, and then holds that message. */
  lemma FormErrorsAt(f: RegisterForm, k: ErrorKey)
    ensures k in FormErrors(f) <==> ErrorMessage(f, k).Some?
    ensures k in FormErrors(f) ==> FormErrors(f)[k] == ErrorMessage(f, k).value
  {
    assert k in AllErrorKeys by {
      match k {
        case CompanyNameError =>
        case EmailError =>
        case PasswordError =>
        case ConfirmPasswordError =>
        case AgreeTermsError =>
      }
    }
  }

  lemma KeyIffRuleBroken(f: RegisterForm, k: ErrorKey)
    ensures k in FormErrors(f) <==> RuleBroken(f, k)
  {
    FormErrorsAt(f, k);
    MessageIffRuleBroken(f, k);
  }

  /** A field has an error exactly when its rule is broken. */
  lemma FormErrorKeys(f: RegisterForm)
    ensures CompanyNameError in FormErrors(f) <==> AllWhite(f.companyName)
    ensures EmailError in FormErrors(f) <==> !EmailLooksValid(f.email)
    ensures PasswordError in FormErrors(f) <==> |f.password| < 8
    ensures ConfirmPasswordError in FormErrors(f) <==> f.password != f.confirmPassword
    ensures AgreeTermsError in FormErrors(f) <==> !f.agreeTerms
  {
    KeyIffRuleBroken(f, CompanyNameError);
    KeyIffRuleBroken(f, EmailError);
    KeyIffRuleBroken(f, PasswordError);
    KeyIffRuleBroken(f, ConfirmPasswordError);
    KeyIffRuleBroken(f, AgreeTermsError);
  }

  /** The message a failing check shows, stated with the rules rather than `trim`. */
  function ShownMessage(f: RegisterForm, k: ErrorKey): string
  {
    match k
    case CompanyNameError => CompanyNameRequired
    case EmailError => if AllWhite(f.email) then EmailRequired else EmailInvalid
    case PasswordError => if f.password == "" then PasswordRequired else PasswordTooShort
    case ConfirmPasswordError => PasswordsDiffer
    case AgreeTermsError => TermsRequired
  }

  /** The message shown under each failing check: "required" before "invalid" or "too short". */
  lemma FormErrorMessages(f: RegisterForm, k: ErrorKey)
    ensures k in FormErrors(f) ==> FormErrors(f)[k] == ShownMessage(f, k)
  {
    if k == EmailError {
      EmailMessage(f);
    } else {
      MessageAt(f, k, ShownMessage(f, k));
    }
  }

  lemma MessageAt(f: RegisterForm, k: ErrorKey, m: string)
    requires ErrorMessage(f, k).Some? ==> ErrorMessage(f, k).value == m
    ensures k in FormErrors(f) ==> FormErrors(f)[k] == m
  {
    FormErrorsAt(f, k);
  }

  lemma EmailMessage(f: RegisterForm)
    ensures EmailError in FormErrors(f) ==> FormErrors(f)[EmailError] == if AllWhite(f.email) then EmailRequired else EmailInvalid
  {
    TrimEmptyIff(f.email);
    MessageAt(f, EmailError, if AllWhite(f.email) then EmailRequired else EmailInvalid);
  }

  /** An address the pattern accepts has a non-blank character, so it is never "required". */
  lemma EmailNotBlank(s: string)
    ensures EmailLooksValid(s) ==> !AllWhite(s)
  {
    if EmailLooksValid(s) {
      var p, q :| 0 <= p < q < |s| && p + 2 <= q
        && AtAfterNonBlank(s, p) && DotBeforeNonBlank(s, q) && NonBlankBetween(s, p, q);
      assert !IsWhite(s[p - 1]);
    }
  }

  /** The form passes exactly when every rule holds. */
  lemma ValidIff(f: RegisterForm)
    ensures |FormErrors(f)| == 0 <==>
      !AllWhite(f.companyName) && EmailLooksValid(f.email) && |f.password| >= 8
      && f.password == f.confirmPassword && f.agreeTerms
  {
    if !AllWhite(f.companyName) && EmailLooksValid(f.email) && |f.password| >= 8 && f.password == f.confirmPassword && f.agreeTerms {
      NoErrorsWhenRulesHold(f);
    } else {
      var k := if AllWhite(f.companyName) then CompanyNameError
        else if !EmailLooksValid(f.email) then EmailError
        else if |f.password| < 8 then PasswordError
        else if f.password != f.confirmPassword then ConfirmPasswordError
        else AgreeTermsError;
      KeyIffRuleBroken(f, k);
      KeyMakesNonEmpty(FormErrors(f), k);
    }
  }

  lemma NoErrorsWhenRulesHold(f: RegisterForm)
    requires !AllWhite(f.companyName) && EmailLooksValid(f.email) && |f.password| >= 8
    requires f.password == f.confirmPassword && f.agreeTerms
    ensures |FormErrors(f)| == 0
  {
    var r := FormErrors(f);
    forall k: ErrorKey ensures k !in r {
      KeyIffRuleBroken(f, k);
    }
    assert r.Keys == {};
  }

  lemma KeyMakesNonEmpty(m: map<ErrorKey, string>, k: ErrorKey)
    requires k in m
    ensures |m| > 0
  {
    assert k in m.Keys;
  }

  /** The pattern is not anchored: text around an accepted address is accepted too. */
  lemma EmailUnanchored(s: string, before: string, after: string)
    requires EmailLooksValid(s)
    ensures EmailLooksValid(before + s + after)
  {
    var p, q :| 0 <= p < q < |s| && p + 2 <= q
      && AtAfterNonBlank(s, p) && DotBeforeNonBlank(s, q) && NonBlankBetween(s, p, q);
    var t := before + s + after;
    var n := |before|;
    assert forall k :: 0 <= k < |s| ==> t[n + k] == s[k];
    assert AtAfterNonBlank(t, n + p) && DotBeforeNonBlank(t, n + q);
    assert forall k :: n + p < k < n + q ==> t[k] == s[k - n];
    assert NonBlankBetween(t, n + p, n + q);
  }

  /** Two addresses on either side of the pattern. */
  lemma EmailExamples()
    ensures EmailLooksValid("seller@example.com")
    ensures !EmailLooksValid("seller@example")
  {
    var s := "seller@example.com";
    assert AtAfterNonBlank(s, 6) && DotBeforeNonBlank(s, 14);
    assert forall k :: 6 < k < 14 ==> 'a' <= s[k] <= 'x';
    assert NonBlankBetween(s, 6, 14);
    var t := "seller@example";
    assert forall k :: 0 <= k < |t| ==> t[k] != '.';
    forall q ensures !DotBeforeNonBlank(t, q) {
    }
  }

  /** Typing into one input leaves the others alone. */
  lemma SetTextGetText(f: RegisterForm, field: TextField, other: TextField, value: string)
    ensures GetText(SetText(f, field, value), field) == value
    ensures other != field ==> GetText(SetText(f, field, value), other) == GetText(f, other)
    ensures SetText(f, field, value).agreeTerms == f.agreeTerms && SetText(f, field, value).receiveUpdates == f.receiveUpdates
  {
  }

  // ------------------------------------------------------------ the page

  class RegisterPage {
    var formData: RegisterForm
    var errors: map<ErrorKey, string>
    var isLoading: bool

    constructor ()
      ensures formData == InitialForm() && errors == map[] && !isLoading
    {
      formData := InitialForm();
      errors := map[];
      isLoading := false;
    }

    /**
     * `handleChange` for the five text inputs. Its `type === "checkbox"` branch is
     * never taken: both checkboxes report through `onCheckedChange` instead
     * (SetAgreeTerms, SetReceiveUpdates).
     */
    method HandleChange(field: TextField, value: string)
      modifies this
      ensures formData == SetText(old(formData), field, value)
      ensures errors == old(errors) && isLoading == old(isLoading)
    {
      formData := SetText(formData, field, value);
    }

    /** The terms checkbox: `agreeTerms: checked === true`. */
    method SetAgreeTerms(checked: CheckedState)
      modifies this
      ensures formData == old(formData).(agreeTerms := checked == Checked)
      ensures errors == old(errors) && isLoading == old(isLoading)
    {
      formData := formData.(agreeTerms := checked == Checked);
    }

    /** The updates checkbox: `receiveUpdates: checked === true`. */
    method SetReceiveUpdates(checked: CheckedState)
      modifies this
      ensures formData == old(formData).(receiveUpdates := checked == Checked)
      ensures errors == old(errors) && isLoading == old(isLoading)
    {
      formData := formData.(receiveUpdates := checked == Checked);
    }

    /** `validateForm`: shows the errors and reports whether there were none. */
    method ValidateForm() returns (valid: bool)
      modifies this
      ensures errors == FormErrors(formData) && (valid <==> |errors| == 0)
      ensures formData == old(formData) && isLoading == old(isLoading)
    {
      errors := FormErrors(formData);
      valid := |errors| == 0;
    }

    /**
     * `handleSubmit`: a form with errors is not sent; a valid one is sent
     * (the redirect is not modelled) and the loading flag is cleared again.
     */
    method HandleSubmit() returns (submitted: bool)
      modifies this
      ensures errors == FormErrors(formData) && formData == old(formData)
      ensures submitted <==> |FormErrors(formData)| == 0
      ensures submitted ==> !isLoading
      ensures !submitted ==> isLoading == old(isLoading)
    {
      submitted := ValidateForm();
      if !submitted {
        return;
      }
      isLoading := true;
      isLoading := false;
    }
  }
}
