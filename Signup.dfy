/** The sign-up page (src/pages/Signup.js): its form record, the validation
    that gates the request, the request body it sends, and the page state
    that the input, validate and submit handlers change. */
module Signup {
  import opened JsText
  import opened EmailPattern
  import opened FormState
  import opened PasswordStrength

  /** The names of the form's inputs. */
  datatype Field =
    | FirstName | LastName | Email | Password | ConfirmPassword
    | UserType | Phone | Organization | AgreeToTerms | SubscribeNewsletter

  const AllFields: set<Field> :=
    {FirstName, LastName, Email, Password, ConfirmPassword,
     UserType, Phone, Organization, AgreeToTerms, SubscribeNewsletter}

  lemma AllFieldsComplete(f: Field)
    ensures f in AllFields
  {
  }

  /** `formData`. */
  datatype SignupData = SignupData(
    firstName: string,
    lastName: string,
    email: string,
    password: string,
    confirmPassword: string,
    userType: string,
    phone: string,
    organization: string,
    agreeToTerms: bool,
    subscribeNewsletter: bool)

  /** The record the page starts with: everything empty, terms not accepted,
      newsletter ticked. */
  function Initial(): SignupData {
    SignupData("", "", "", "", "", "", "", "", false, true)
  }

  /** The two inputs rendered as checkboxes; all others (the user-type radio
      buttons included) report their `value`. */
  predicate IsCheckbox(f: Field) {
    f == AgreeToTerms || f == SubscribeNewsletter
  }

  /** `formData[f]`. */
  function Get(d: SignupData, f: Field): Value {
    match f
    case FirstName => Text(d.firstName)
    case LastName => Text(d.lastName)
    case Email => Text(d.email)
    case Password => Text(d.password)
    case ConfirmPassword => Text(d.confirmPassword)
    case UserType => Text(d.userType)
    case Phone => Text(d.phone)
    case Organization => Text(d.organization)
    case AgreeToTerms => Flag(d.agreeToTerms)
    case SubscribeNewsletter => Flag(d.subscribeNewsletter)
  }

  /** The spread copy `{...prev, [name]: type === 'checkbox' ? checked : value}`:
      the named field takes the new value and no other field changes. */
  function SetField(d: SignupData, name: Field, value: string, checked: bool): (r: SignupData)
    ensures Get(r, name) == if IsCheckbox(name) then Flag(checked) else Text(value)
    ensures forall f :: f != name ==> Get(r, f) == Get(d, f)
  {
    match name
    case FirstName => d.(firstName := value)
    case LastName => d.(lastName := value)
    case Email => d.(email := value)
    case Password => d.(password := value)
    case ConfirmPassword => d.(confirmPassword := value)
    case UserType => d.(userType := value)
    case Phone => d.(phone := value)
    case Organization => d.(organization := value)
    case AgreeToTerms => d.(agreeToTerms := checked)
    case SubscribeNewsletter => d.(subscribeNewsletter := checked)
  }

  /** The messages `validateForm` can record. */
  datatype Message =
    | FirstNameRequired | LastNameRequired | EmailRequired | EmailInvalid
    | PasswordRequired | PasswordTooShort | ConfirmationRequired | PasswordsDiffer
    | UserTypeRequired | PhoneRequired | TermsRequired

  /** The text shown for each message; none is empty, so a recorded message
      is always truthy. */
  function MessageText(m: Message): (text: string)
    ensures text != ""
  {
    match m
    case FirstNameRequired => "First name is required"
    case LastNameRequired => "Last name is required"
    case EmailRequired => "Email is required"
    case EmailInvalid => "Email is invalid"
    case PasswordRequired => "Password is required"
    case PasswordTooShort => "Password must be at least 8 characters"
    case ConfirmationRequired => "Please confirm your password"
    case PasswordsDiffer => "Passwords do not match"
    case UserTypeRequired => "Please select your user type"
    case PhoneRequired => "Phone number is required"
    case TermsRequired => "You must agree to the terms and conditions"
  }

  /** The message `validateForm` records for field `f`, if any. Each field
      gets at most one, and the "required" message is checked first. */
  function FieldError(d: SignupData, f: Field): Option<Message> {
    match f
    case FirstName =>
      if Trim(d.firstName) == "" then Some(FirstNameRequired) else None
    case LastName =>
      if Trim(d.lastName) == "" then Some(LastNameRequired) else None
    case Email =>
      if Trim(d.email) == "" then Some(EmailRequired)
      else if !MatchesEmail(d.email) then Some(EmailInvalid)
      else None
    case Password =>
      if d.password == "" then Some(PasswordRequired)
      else if |d.password| < 8 then Some(PasswordTooShort)
      else None
    case ConfirmPassword =>
      if d.confirmPassword == "" then Some(ConfirmationRequired)
      else if d.password != d.confirmPassword then Some(PasswordsDiffer)
      else None
    case UserType =>
      if d.userType == "" then Some(UserTypeRequired) else None
    case Phone =>
      if Trim(d.phone) == "" then Some(PhoneRequired) else None
    case AgreeToTerms =>
      if !d.agreeToTerms then Some(TermsRequired) else None
    case Organization | SubscribeNewsletter => None
  }

  /** The error map a validation run builds from `d`, and from nothing else. */
  function ExpectedErrors(d: SignupData): map<Field, ErrorText<Message>> {
    map f | f in AllFields && FieldError(d, f).Some? :: Says(FieldError(d, f).value)
  }

  /** When the form may be sent, stated field by field. */
  ghost predicate IsValid(d: SignupData) {
    && !IsBlank(d.firstName)
    && !IsBlank(d.lastName)
    && !IsBlank(d.email) && EmailShaped(d.email)
    && |d.password| >= 8
    && d.confirmPassword != "" && d.confirmPassword == d.password
    && d.userType != ""
    && !IsBlank(d.phone)
    && d.agreeToTerms
  }

  /** The fields with a message are the keys of the expected error map. */
  lemma ExpectedErrorsKeys(d: SignupData, f: Field)
    ensures f in ExpectedErrors(d) <==> FieldError(d, f).Some?
  {
    AllFieldsComplete(f);
  }

  /** A map holding exactly the messages of `d` is the expected error map. */
  lemma ExpectedErrorsUnique(d: SignupData, m: map<Field, ErrorText<Message>>)
    requires forall f :: f in m <==> FieldError(d, f).Some?
    requires forall f :: f in m ==> m[f] == Says(FieldError(d, f).value)
    ensures m == ExpectedErrors(d)
  {
    forall f ensures f in m <==> f in ExpectedErrors(d) {
      ExpectedErrorsKeys(d, f);
    }
  }

  /** Field by field, a message is recorded exactly when the field breaks its
      rule in `IsValid`. */
  lemma {:induction false} FieldErrorMeansBroken(d: SignupData)
    ensures FieldError(d, FirstName).Some? <==> IsBlank(d.firstName)
    ensures FieldError(d, LastName).Some? <==> IsBlank(d.lastName)
    ensures FieldError(d, Email).Some? <==> IsBlank(d.email) || !EmailShaped(d.email)
    ensures FieldError(d, Password).Some? <==> |d.password| < 8
    ensures FieldError(d, ConfirmPassword).Some? <==> d.confirmPassword == "" || d.confirmPassword != d.password
    ensures FieldError(d, UserType).Some? <==> d.userType == ""
    ensures FieldError(d, Phone).Some? <==> IsBlank(d.phone)
    ensures FieldError(d, AgreeToTerms).Some? <==> !d.agreeToTerms
    ensures FieldError(d, Organization) == None && FieldError(d, SubscribeNewsletter) == None
  {
    assert FieldError(d, FirstName).Some? <==> IsBlank(d.firstName) by {
      TrimEmptyIffBlank(d.firstName);
    }
    assert FieldError(d, LastName).Some? <==> IsBlank(d.lastName) by {
      TrimEmptyIffBlank(d.lastName);
    }
    assert FieldError(d, Email).Some? <==> IsBlank(d.email) || !EmailShaped(d.email) by {
      TrimEmptyIffBlank(d.email);
    }
    assert FieldError(d, Phone).Some? <==> IsBlank(d.phone) by {
      TrimEmptyIffBlank(d.phone);
    }
  }

  /** Validation passes exactly when no field has a message. */
  lemma {:induction false} ValidIffNoErrors(d: SignupData)
    ensures IsValid(d) <==> forall f :: FieldError(d, f).None?
    ensures ExpectedErrors(d) == map[] <==> IsValid(d)
  {
    FieldErrorMeansBroken(d);
    forall f ensures f in ExpectedErrors(d) <==> FieldError(d, f).Some? {
      ExpectedErrorsKeys(d, f);
    }
    if IsValid(d) {
      forall f ensures FieldError(d, f).None? {
        match f
        case FirstName =>
        case LastName =>
        case Email =>
        case Password =>
        case ConfirmPassword =>
        case UserType =>
        case Phone =>
        case Organization =>
        case AgreeToTerms =>
        case SubscribeNewsletter =>
      }
      assert ExpectedErrors(d).Keys == {};
    }
  }

  /** An empty or blank email is reported as missing, never as invalid; a
      non-blank one that does not match the pattern is reported as invalid. */
  lemma {:induction false} EmailRequiredBeforeFormat(d: SignupData)
    ensures FieldError(d, Email) == Some(EmailRequired) <==> IsBlank(d.email)
    ensures FieldError(d, Email) == Some(EmailInvalid) <==> !IsBlank(d.email) && !EmailShaped(d.email)
  {
    TrimEmptyIffBlank(d.email);
  }

  /** The password and its confirmation are reported as missing when empty,
      and only otherwise as too short or as not matching: an empty
      confirmation never reads "Passwords do not match", though it differs
      from any non-empty password. */
  lemma RequiredBeforeFormat(d: SignupData)
    ensures FieldError(d, Password) == Some(PasswordRequired) <==> d.password == ""
    ensures FieldError(d, Password) == Some(PasswordTooShort) <==> 0 < |d.password| < 8
    ensures FieldError(d, ConfirmPassword) == Some(ConfirmationRequired) <==> d.confirmPassword == ""
    ensures FieldError(d, ConfirmPassword) == Some(PasswordsDiffer) <==>
      d.confirmPassword != "" && d.confirmPassword != d.password
  {
  }

  /** A password of eight characters and a confirmation that differs from it
      in the last character. */
  lemma MismatchedConfirmation(d: SignupData)
    requires d.password == "Abc12345" && d.confirmPassword == "Abc12346"
    ensures FieldError(d, Password) == None
    ensures FieldError(d, ConfirmPassword) == Some(PasswordsDiffer)
    ensures !IsValid(d)
  {
  }

  /** Organization and the newsletter box never block the form: editing
      them changes no field's message. */
  lemma OptionalFieldsNeverBlock(d: SignupData, name: Field, value: string, checked: bool)
    requires name == Organization || name == SubscribeNewsletter
    ensures forall f :: FieldError(SetField(d, name, value, checked), f) == FieldError(d, f)
    ensures IsValid(SetField(d, name, value, checked)) == IsValid(d)
  {
    var e := SetField(d, name, value, checked);
    assert e == d.(organization := value) || e == d.(subscribeNewsletter := checked);
  }

  /** The page as first shown cannot be sent. */
  lemma InitialIsInvalid()
    ensures !IsValid(Initial())
    ensures ExpectedErrors(Initial())[AgreeToTerms] == Says(TermsRequired)
    ensures Strength(Initial().password) == 0
  {
    assert FieldError(Initial(), AgreeToTerms).Some?;
    StrengthZeroIffEmpty("");
  }

  /** The JSON body POSTed to the sign-up endpoint. */
  datatype SignupRequest = SignupRequest(
    firstName: string,
    lastName: string,
    email: string,
    password: string,
    userType: string,
    phone: string,
    organization: string)

  function RequestBody(d: SignupData): SignupRequest {
    SignupRequest(d.firstName, d.lastName, d.email, d.password, d.userType, d.phone, d.organization)
  }

  /** Two records produce the same body exactly when they agree on the seven
      fields sent: the confirmation, the terms box and the newsletter box are
      never part of it. */
  lemma RequestBodyCarriesExactly(d: SignupData, e: SignupData)
    ensures RequestBody(d) == RequestBody(e) <==>
      && d.firstName == e.firstName && d.lastName == e.lastName && d.email == e.email
      && d.password == e.password && d.userType == e.userType && d.phone == e.phone
      && d.organization == e.organization
  {
  }

  /** The errors left by running `check` on the checked fields in the order
      `validateForm` visits them, starting from an empty map. */
  function RunChecks(check: Field -> Option<Message>): map<Field, ErrorText<Message>> {
    var m1 := Record(map[], FirstName, check(FirstName));
    var m2 := Record(m1, LastName, check(LastName));
    var m3 := Record(m2, Email, check(Email));
    var m4 := Record(m3, Password, check(Password));
    var m5 := Record(m4, ConfirmPassword, check(ConfirmPassword));
    var m6 := Record(m5, UserType, check(UserType));
    var m7 := Record(m6, Phone, check(Phone));
    Record(m7, AgreeToTerms, check(AgreeToTerms))
  }

  /** Each visited field ends up with its own message, if any; the two
      fields not visited have none. */
  lemma {:induction false} RunChecksAt(check: Field -> Option<Message>, g: Field)
    ensures g in RunChecks(check) <==> g != Organization && g != SubscribeNewsletter && check(g).Some?
    ensures g in RunChecks(check) ==> RunChecks(check)[g] == Says(check(g).value)
  {
    var m1 := Record(map[], FirstName, check(FirstName));
    var m2 := Record(m1, LastName, check(LastName));
    var m3 := Record(m2, Email, check(Email));
    var m4 := Record(m3, Password, check(Password));
    var m5 := Record(m4, ConfirmPassword, check(ConfirmPassword));
    var m6 := Record(m5, UserType, check(UserType));
    var m7 := Record(m6, Phone, check(Phone));
    RecordAt(map[], FirstName, check(FirstName), g);
    RecordAt(m1, LastName, check(LastName), g);
    RecordAt(m2, Email, check(Email), g);
    RecordAt(m3, Password, check(Password), g);
    RecordAt(m4, ConfirmPassword, check(ConfirmPassword), g);
    RecordAt(m5, UserType, check(UserType), g);
    RecordAt(m6, Phone, check(Phone), g);
    RecordAt(m7, AgreeToTerms, check(AgreeToTerms), g);
  }

  /** The errors `validateForm` leaves for `d`. */
  function CheckedInOrder(d: SignupData): map<Field, ErrorText<Message>> {
    RunChecks(f => FieldError(d, f))
  }

  /** The order of the checks does not matter: running them in page order
      gives exactly the expected error map. */
  lemma {:induction false} CheckOrderIrrelevant(d: SignupData)
    ensures CheckedInOrder(d) == ExpectedErrors(d)
  {
    var check := f => FieldError(d, f);
    forall g ensures (g in RunChecks(check) <==> FieldError(d, g).Some?)
      && (g in RunChecks(check) ==> RunChecks(check)[g] == Says(FieldError(d, g).value))
    {
      RunChecksAt(check, g);
    }
    ExpectedErrorsUnique(d, RunChecks(check));
  }

  /** One check of `validateForm`: records the field's message in
      `newErrors` when the field fails its rule. */
  method CheckField(d: SignupData, newErrors: map<Field, ErrorText<Message>>, f: Field)
    returns (r: map<Field, ErrorText<Message>>)
    ensures r == Record(newErrors, f, FieldError(d, f))
  {
    r := newErrors;
    match f
    case FirstName =>
      if Trim(d.firstName) == "" { r := r[FirstName := Says(FirstNameRequired)]; }
    case LastName =>
      if Trim(d.lastName) == "" { r := r[LastName := Says(LastNameRequired)]; }
    case Email =>
      if Trim(d.email) == "" {
        r := r[Email := Says(EmailRequired)];
      } else if !MatchesEmail(d.email) {
        r := r[Email := Says(EmailInvalid)];
      }
    case Password =>
      if d.password == "" {
        r := r[Password := Says(PasswordRequired)];
      } else if |d.password| < 8 {
        r := r[Password := Says(PasswordTooShort)];
      }
    case ConfirmPassword =>
      if d.confirmPassword == "" {
        r := r[ConfirmPassword := Says(ConfirmationRequired)];
      } else if d.password != d.confirmPassword {
        r := r[ConfirmPassword := Says(PasswordsDiffer)];
      }
    case UserType =>
      if d.userType == "" { r := r[UserType := Says(UserTypeRequired)]; }
    case Phone =>
      if Trim(d.phone) == "" { r := r[Phone := Says(PhoneRequired)]; }
    case AgreeToTerms =>
      if !d.agreeToTerms { r := r[AgreeToTerms := Says(TermsRequired)]; }
    case Organization | SubscribeNewsletter =>
  }

  /** The component's state. */
  class SignupPage {
    var formData: SignupData
    var errors: map<Field, ErrorText<Message>>
    var passwordStrength: int
    var isSubmitting: bool

    /** The meter always shows the score of the current password. */
    ghost predicate Valid()
      reads this
    {
      passwordStrength == Strength(formData.password)
    }

    constructor ()
      ensures Valid()
      ensures formData == Initial() && errors == map[]
      ensures passwordStrength == 0 && !isSubmitting
    {
      formData := Initial();
      errors := map[];
      passwordStrength := 0;
      isSubmitting := false;
      StrengthZeroIffEmpty("");
    }

    /** `handleInputChange`: store the input's value, re-score the password
        when it is the password that changed, and blank the field's error. */
    method HandleInputChange(name: Field, value: string, checked: bool)
      requires Valid()
      modifies this
      ensures Valid()
      ensures formData == SetField(old(formData), name, value, checked)
      ensures passwordStrength == if name == Password then Strength(value) else old(passwordStrength)
      ensures errors == ClearError(old(errors), name)
      ensures isSubmitting == old(isSubmitting)
    {
      formData := SetField(formData, name, value, checked);
      if name == Password {
        passwordStrength := CalculatePasswordStrength(value);
      }
      if HasError(errors, name) {
        errors := errors[name := Empty];
      }
    }

    /** `validateForm`: build a fresh error map one field at a time, in the
        order the page checks them, store it, and report whether it is
        empty. Earlier errors never survive. */
    method ValidateForm() returns (ok: bool)
      requires Valid()
      modifies this`errors
      ensures Valid()
      ensures errors == ExpectedErrors(formData)
      ensures ok <==> errors == map[]
      ensures ok <==> IsValid(formData)
    {
      var d := formData;
      var newErrors: map<Field, ErrorText<Message>> := map[];
      newErrors := CheckField(d, newErrors, FirstName);
      newErrors := CheckField(d, newErrors, LastName);
      newErrors := CheckField(d, newErrors, Email);
      newErrors := CheckField(d, newErrors, Password);
      newErrors := CheckField(d, newErrors, ConfirmPassword);
      newErrors := CheckField(d, newErrors, UserType);
      newErrors := CheckField(d, newErrors, Phone);
      newErrors := CheckField(d, newErrors, AgreeToTerms);
      CheckOrderIrrelevant(d);
      errors := newErrors;
      ok := |newErrors| == 0;
      ValidIffNoErrors(d);
    }

    /** `handleSubmit`: nothing is sent unless validation passes; otherwise the
        projected body is sent and the busy flag is raised and lowered again
        whatever the server answers. */
    method HandleSubmit() returns (sent: Option<SignupRequest>)
      requires Valid()
      modifies this`errors, this`isSubmitting
      ensures Valid()
      ensures errors == ExpectedErrors(formData)
      ensures sent.Some? <==> IsValid(formData)
      ensures sent.Some? ==> sent.value == RequestBody(formData)
      ensures isSubmitting == if sent.Some? then false else old(isSubmitting)
    {
      var ok := ValidateForm();
      if !ok {
        return None;
      }
      isSubmitting := true;
      sent := Some(RequestBody(formData));
      isSubmitting := false;
    }
  }
}
