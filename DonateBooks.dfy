/** The book-donation page (src/pages/DonateBooks.js): its form record, the
    validation that gates the donation, and the page state that the input,
    validate and submit handlers change. */
module DonateBooks {
  import opened JsText
  import opened EmailPattern
  import opened FormState

  /** The keys of `formData`. */
  datatype Field =
    | DonorName | Email | Phone | BookTitle | Author | Genre | Condition
    | Quantity | Description | PickupAddress | City | State | ZipCode
    | PreferredPickupTime | AdditionalNotes

  const AllFields: set<Field> :=
    {DonorName, Email, Phone, BookTitle, Author, Genre, Condition,
     Quantity, Description, PickupAddress, City, State, ZipCode,
     PreferredPickupTime, AdditionalNotes}

  lemma AllFieldsComplete(f: Field)
    ensures f in AllFields
  {
  }

  /** `formData`. `quantity` starts as the number 1 and holds the input's
      string value once edited. */
  datatype DonationData = DonationData(
    donorName: string,
    email: string,
    phone: string,
    bookTitle: string,
    author: string,
    genre: string,
    condition: string,
    quantity: Value,
    description: string,
    pickupAddress: string,
    city: string,
    state: string,
    zipCode: string,
    preferredPickupTime: string,
    additionalNotes: string)

  /** The record the page starts with, and the one the scheduled reset
      restores: every string empty, one book. */
  function Initial(): DonationData {
    DonationData("", "", "", "", "", "", "", Number(1), "", "", "", "", "", "", "")
  }

  /** `formData[f]`. */
  function Get(d: DonationData, f: Field): Value {
    match f
    case DonorName => Text(d.donorName)
    case Email => Text(d.email)
    case Phone => Text(d.phone)
    case BookTitle => Text(d.bookTitle)
    case Author => Text(d.author)
    case Genre => Text(d.genre)
    case Condition => Text(d.condition)
    case Quantity => d.quantity
    case Description => Text(d.description)
    case PickupAddress => Text(d.pickupAddress)
    case City => Text(d.city)
    case State => Text(d.state)
    case ZipCode => Text(d.zipCode)
    case PreferredPickupTime => Text(d.preferredPickupTime)
    case AdditionalNotes => Text(d.additionalNotes)
  }

  /** The reset record, field by field. */
  lemma InitialValues(f: Field)
    ensures Get(Initial(), f) == if f == Quantity then Number(1) else Text("")
  {
  }

  /** The spread copy `{...prev, [name]: value}`: the named field takes the
      input's string value and no other field changes. */
  function SetText(d: DonationData, name: Field, value: string): (r: DonationData)
    ensures Get(r, name) == Text(value)
    ensures forall f :: f != name ==> Get(r, f) == Get(d, f)
  {
    match name
    case DonorName => d.(donorName := value)
    case Email => d.(email := value)
    case Phone => d.(phone := value)
    case BookTitle => d.(bookTitle := value)
    case Author => d.(author := value)
    case Genre => d.(genre := value)
    case Condition => d.(condition := value)
    case Quantity => d.(quantity := Text(value))
    case Description => d.(description := value)
    case PickupAddress => d.(pickupAddress := value)
    case City => d.(city := value)
    case State => d.(state := value)
    case ZipCode => d.(zipCode := value)
    case PreferredPickupTime => d.(preferredPickupTime := value)
    case AdditionalNotes => d.(additionalNotes := value)
  }

  /** The messages `validateForm` can record. */
  datatype Message =
    | NameRequired | EmailRequired | EmailInvalid | PhoneRequired
    | TitleRequired | AuthorRequired | GenreRequired | ConditionRequired
    | AddressRequired | CityRequired | StateRequired | ZipRequired

  /** The text shown for each message; none is empty. */
  function MessageText(m: Message): (text: string)
    ensures text != ""
  {
    match m
    case NameRequired => "Name is required"
    case EmailRequired => "Email is required"
    case EmailInvalid => "Email is invalid"
    case PhoneRequired => "Phone number is required"
    case TitleRequired => "Book title is required"
    case AuthorRequired => "Author is required"
    case GenreRequired => "Genre is required"
    case ConditionRequired => "Condition is required"
    case AddressRequired => "Pickup address is required"
    case CityRequired => "City is required"
    case StateRequired => "State is required"
    case ZipRequired => "ZIP code is required"
  }

  /** The message `validateForm` records for field `f`, if any. Genre and
      condition come from selects and are only tested for emptiness. */
  function FieldError(d: DonationData, f: Field): Option<Message> {
    match f
    case DonorName => if Trim(d.donorName) == "" then Some(NameRequired) else None
    case Email =>
      if Trim(d.email) == "" then Some(EmailRequired)
      else if !MatchesEmail(d.email) then Some(EmailInvalid)
      else None
    case Phone => if Trim(d.phone) == "" then Some(PhoneRequired) else None
    case BookTitle => if Trim(d.bookTitle) == "" then Some(TitleRequired) else None
    case Author => if Trim(d.author) == "" then Some(AuthorRequired) else None
    case Genre => if d.genre == "" then Some(GenreRequired) else None
    case Condition => if d.condition == "" then Some(ConditionRequired) else None
    case PickupAddress => if Trim(d.pickupAddress) == "" then Some(AddressRequired) else None
    case City => if Trim(d.city) == "" then Some(CityRequired) else None
    case State => if Trim(d.state) == "" then Some(StateRequired) else None
    case ZipCode => if Trim(d.zipCode) == "" then Some(ZipRequired) else None
    case Quantity | Description | PreferredPickupTime | AdditionalNotes => None
  }

  /** The error map a validation run builds from `d`, and from nothing else. */
  function ExpectedErrors(d: DonationData): map<Field, ErrorText<Message>> {
    map f | f in AllFields && FieldError(d, f).Some? :: Says(FieldError(d, f).value)
  }

  /** When the donation may be sent, stated field by field. */
  ghost predicate IsValid(d: DonationData) {
    && !IsBlank(d.donorName)
    && !IsBlank(d.email) && EmailShaped(d.email)
    && !IsBlank(d.phone)
    && !IsBlank(d.bookTitle)
    && !IsBlank(d.author)
    && d.genre != ""
    && d.condition != ""
    && !IsBlank(d.pickupAddress)
    && !IsBlank(d.city)
    && !IsBlank(d.state)
    && !IsBlank(d.zipCode)
  }

  /** The fields with a message are the keys of the expected error map. */
  lemma ExpectedErrorsKeys(d: DonationData, f: Field)
    ensures f in ExpectedErrors(d) <==> FieldError(d, f).Some?
  {
    AllFieldsComplete(f);
  }

  /** A map holding exactly the messages of `d` is the expected error map. */
  lemma ExpectedErrorsUnique(d: DonationData, m: map<Field, ErrorText<Message>>)
    requires forall f :: f in m <==> FieldError(d, f).Some?
    requires forall f :: f in m ==> m[f] == Says(FieldError(d, f).value)
    ensures m == ExpectedErrors(d)
  {
    forall f ensures f in m <==> f in ExpectedErrors(d) {
      ExpectedErrorsKeys(d, f);
    }
  }

  /** The fields whose rule trims the value first. */
  lemma {:induction false} TrimmedFieldErrors(d: DonationData)
    ensures FieldError(d, DonorName).Some? <==> IsBlank(d.donorName)
    ensures FieldError(d, Phone).Some? <==> IsBlank(d.phone)
    ensures FieldError(d, BookTitle).Some? <==> IsBlank(d.bookTitle)
    ensures FieldError(d, Author).Some? <==> IsBlank(d.author)
    ensures FieldError(d, PickupAddress).Some? <==> IsBlank(d.pickupAddress)
    ensures FieldError(d, City).Some? <==> IsBlank(d.city)
    ensures FieldError(d, State).Some? <==> IsBlank(d.state)
    ensures FieldError(d, ZipCode).Some? <==> IsBlank(d.zipCode)
  {
    TrimEmptyIffBlank(d.donorName);
    TrimEmptyIffBlank(d.phone);
    TrimEmptyIffBlank(d.bookTitle);
    TrimEmptyIffBlank(d.author);
    TrimEmptyIffBlank(d.pickupAddress);
    TrimEmptyIffBlank(d.city);
    TrimEmptyIffBlank(d.state);
    TrimEmptyIffBlank(d.zipCode);
  }

  /** Field by field, a message is recorded exactly when the field breaks its
      rule in `IsValid`. */
  lemma {:induction false} FieldErrorMeansBroken(d: DonationData)
    ensures FieldError(d, DonorName).Some? <==> IsBlank(d.donorName)
    ensures FieldError(d, Email).Some? <==> IsBlank(d.email) || !EmailShaped(d.email)
    ensures FieldError(d, Phone).Some? <==> IsBlank(d.phone)
    ensures FieldError(d, BookTitle).Some? <==> IsBlank(d.bookTitle)
    ensures FieldError(d, Author).Some? <==> IsBlank(d.author)
    ensures FieldError(d, Genre).Some? <==> d.genre == ""
    ensures FieldError(d, Condition).Some? <==> d.condition == ""
    ensures FieldError(d, PickupAddress).Some? <==> IsBlank(d.pickupAddress)
    ensures FieldError(d, City).Some? <==> IsBlank(d.city)
    ensures FieldError(d, State).Some? <==> IsBlank(d.state)
    ensures FieldError(d, ZipCode).Some? <==> IsBlank(d.zipCode)
    ensures forall f :: Unchecked(f) ==> FieldError(d, f) == None
  {
    TrimmedFieldErrors(d);
    TrimEmptyIffBlank(d.email);
  }

  /** The four fields without a rule never get a message. */
  predicate Unchecked(f: Field) {
    f == Quantity || f == Description || f == PreferredPickupTime || f == AdditionalNotes
  }

  /** Validation passes exactly when no field has a message. */
  lemma {:induction false} ValidIffNoErrors(d: DonationData)
    ensures IsValid(d) <==> forall f :: FieldError(d, f).None?
    ensures ExpectedErrors(d) == map[] <==> IsValid(d)
  {
    FieldErrorMeansBroken(d);
    forall f ensures f in ExpectedErrors(d) <==> FieldError(d, f).Some? {
      ExpectedErrorsKeys(d, f);
    }
    if IsValid(d) {
      forall f ensures FieldError(d, f).None? {
        if !Unchecked(f) {
          assert f in {DonorName, Email, Phone, BookTitle, Author, Genre, Condition,
                       PickupAddress, City, State, ZipCode};
        }
      }
      assert ExpectedErrors(d).Keys == {};
    }
  }

  /** An empty or blank email is reported as missing and a non-blank one
      that does not match as invalid: never both, since a field holds one
      message. */
  lemma {:induction false} EmailRequiredBeforeFormat(d: DonationData)
    ensures FieldError(d, Email) == Some(EmailRequired) <==> IsBlank(d.email)
    ensures FieldError(d, Email) == Some(EmailInvalid) <==> !IsBlank(d.email) && !EmailShaped(d.email)
  {
    TrimEmptyIffBlank(d.email);
  }

  /** An empty donor name is reported as "Name is required" and blocks the
      donation. */
  lemma EmptyNameBlocks(d: DonationData)
    requires d.donorName == ""
    ensures ExpectedErrors(d)[DonorName] == Says(NameRequired)
    ensures MessageText(NameRequired) == "Name is required"
    ensures !IsValid(d)
  {
    ExpectedErrorsKeys(d, DonorName);
  }

  /** Editing a field without a rule changes no message and not the
      verdict. */
  lemma OptionalFieldsIrrelevant(d: DonationData, name: Field, value: string)
    requires Unchecked(name)
    ensures forall f :: FieldError(SetText(d, name, value), f) == FieldError(d, f)
    ensures IsValid(SetText(d, name, value)) == IsValid(d)
  {
    var e := SetText(d, name, value);
    assert || e == d.(quantity := Text(value)) || e == d.(description := value)
           || e == d.(preferredPickupTime := value) || e == d.(additionalNotes := value);
  }

  /** The page as first shown, and as every reset leaves it, cannot be
      sent. */
  lemma InitialIsInvalid()
    ensures !IsValid(Initial())
    ensures ExpectedErrors(Initial())[BookTitle] == Says(TitleRequired)
  {
    ExpectedErrorsKeys(Initial(), BookTitle);
  }

  /** The errors left by running `check` on the checked fields in the order
      `validateForm` visits them, starting from an empty map. */
  function RunChecks(check: Field -> Option<Message>): map<Field, ErrorText<Message>> {
    var m1 := Record(map[], DonorName, check(DonorName));
    var m2 := Record(m1, Email, check(Email));
    var m3 := Record(m2, Phone, check(Phone));
    var m4 := Record(m3, BookTitle, check(BookTitle));
    var m5 := Record(m4, Author, check(Author));
    var m6 := Record(m5, Genre, check(Genre));
    var m7 := Record(m6, Condition, check(Condition));
    var m8 := Record(m7, PickupAddress, check(PickupAddress));
    var m9 := Record(m8, City, check(City));
    var m10 := Record(m9, State, check(State));
    Record(m10, ZipCode, check(ZipCode))
  }

  /** Each visited field ends up with its own message, if any; the fields
      not visited have none. */
  lemma {:induction false} RunChecksAt(check: Field -> Option<Message>, g: Field)
    ensures g in RunChecks(check) <==> !Unchecked(g) && check(g).Some?
    ensures g in RunChecks(check) ==> RunChecks(check)[g] == Says(check(g).value)
  {
    var m1 := Record(map[], DonorName, check(DonorName));
    var m2 := Record(m1, Email, check(Email));
    var m3 := Record(m2, Phone, check(Phone));
    var m4 := Record(m3, BookTitle, check(BookTitle));
    var m5 := Record(m4, Author, check(Author));
    var m6 := Record(m5, Genre, check(Genre));
    var m7 := Record(m6, Condition, check(Condition));
    var m8 := Record(m7, PickupAddress, check(PickupAddress));
    var m9 := Record(m8, City, check(City));
    var m10 := Record(m9, State, check(State));
    RecordAt(map[], DonorName, check(DonorName), g);
    RecordAt(m1, Email, check(Email), g);
    RecordAt(m2, Phone, check(Phone), g);
    RecordAt(m3, BookTitle, check(BookTitle), g);
    RecordAt(m4, Author, check(Author), g);
    RecordAt(m5, Genre, check(Genre), g);
    RecordAt(m6, Condition, check(Condition), g);
    RecordAt(m7, PickupAddress, check(PickupAddress), g);
    RecordAt(m8, City, check(City), g);
    RecordAt(m9, State, check(State), g);
    RecordAt(m10, ZipCode, check(ZipCode), g);
  }

  /** The errors `validateForm` leaves for `d`. */
  function CheckedInOrder(d: DonationData): map<Field, ErrorText<Message>> {
    RunChecks(f => FieldError(d, f))
  }

  /** The order of the checks does not matter: running them in page order
      gives exactly the expected error map. */
  lemma {:induction false} CheckOrderIrrelevant(d: DonationData)
    ensures CheckedInOrder(d) == ExpectedErrors(d)
  {
    var check := f => FieldError(d, f);
    forall g ensures (g in RunChecks(check) <==> FieldError(d, g).Some?)
      && (g in RunChecks(check) ==> RunChecks(check)[g] == Says(FieldError(d, g).value))
    {
      RunChecksAt(check, g);
    }
    ExpectedErrorsUnique(d, RunChecks(check));
  }

  /** One check of `validateForm`: records the field's message in
      `newErrors` when the field fails its rule. */
  method CheckField(d: DonationData, newErrors: map<Field, ErrorText<Message>>, f: Field)
    returns (r: map<Field, ErrorText<Message>>)
    ensures r == Record(newErrors, f, FieldError(d, f))
  {
    r := newErrors;
    match f
    case DonorName =>
      if Trim(d.donorName) == "" { r := r[DonorName := Says(NameRequired)]; }
    case Email =>
      if Trim(d.email) == "" {
        r := r[Email := Says(EmailRequired)];
      } else if !MatchesEmail(d.email) {
        r := r[Email := Says(EmailInvalid)];
      }
    case Phone =>
      if Trim(d.phone) == "" { r := r[Phone := Says(PhoneRequired)]; }
    case BookTitle =>
      if Trim(d.bookTitle) == "" { r := r[BookTitle := Says(TitleRequired)]; }
    case Author =>
      if Trim(d.author) == "" { r := r[Author := Says(AuthorRequired)]; }
    case Genre =>
      if d.genre == "" { r := r[Genre := Says(GenreRequired)]; }
    case Condition =>
      if d.condition == "" { r := r[Condition := Says(ConditionRequired)]; }
    case PickupAddress =>
      if Trim(d.pickupAddress) == "" { r := r[PickupAddress := Says(AddressRequired)]; }
    case City =>
      if Trim(d.city) == "" { r := r[City := Says(CityRequired)]; }
    case State =>
      if Trim(d.state) == "" { r := r[State := Says(StateRequired)]; }
    case ZipCode =>
      if Trim(d.zipCode) == "" { r := r[ZipCode := Says(ZipRequired)]; }
    case Quantity | Description | PreferredPickupTime | AdditionalNotes =>
  }

  /** The component's state. `pendingResets` counts the reset callbacks that
      submissions have scheduled and that have not run yet. */
  class DonatePage {
    var formData: DonationData
    var errors: map<Field, ErrorText<Message>>
    var isSubmitting: bool
    var isSubmitted: bool
    var pendingResets: nat

    constructor ()
      ensures formData == Initial() && errors == map[]
      ensures !isSubmitting && !isSubmitted && pendingResets == 0
    {
      formData := Initial();
      errors := map[];
      isSubmitting := false;
      isSubmitted := false;
      pendingResets := 0;
    }

    /** `handleInputChange`: store the input's value and blank that field's
        error if one is set. */
    method HandleInputChange(name: Field, value: string)
      modifies this`formData, this`errors
      ensures formData == SetText(old(formData), name, value)
      ensures errors == ClearError(old(errors), name)
    {
      formData := SetText(formData, name, value);
      if HasError(errors, name) {
        errors := errors[name := Empty];
      }
    }

    /** `validateForm`: build a fresh error map one field at a time, in the
        order the page checks them, store it, and report whether it is
        empty. Earlier errors never survive. */
    method ValidateForm() returns (ok: bool)
      modifies this`errors
      ensures errors == ExpectedErrors(formData)
      ensures ok <==> errors == map[]
      ensures ok <==> IsValid(formData)
    {
      var d := formData;
      var newErrors: map<Field, ErrorText<Message>> := map[];
      newErrors := CheckField(d, newErrors, DonorName);
      newErrors := CheckField(d, newErrors, Email);
      newErrors := CheckField(d, newErrors, Phone);
      newErrors := CheckField(d, newErrors, BookTitle);
      newErrors := CheckField(d, newErrors, Author);
      newErrors := CheckField(d, newErrors, Genre);
      newErrors := CheckField(d, newErrors, Condition);
      newErrors := CheckField(d, newErrors, PickupAddress);
      newErrors := CheckField(d, newErrors, City);
      newErrors := CheckField(d, newErrors, State);
      newErrors := CheckField(d, newErrors, ZipCode);
      CheckOrderIrrelevant(d);
      errors := newErrors;
      ok := |newErrors| == 0;
      ValidIffNoErrors(d);
    }

    /** `handleSubmit`: nothing happens past validation unless it passes.
        Otherwise the whole record is sent, `isSubmitted` is raised only if
        the server accepts, the busy flag ends lowered, and a reset is
        scheduled whatever the server answered. */
    method HandleSubmit(serverAccepts: bool) returns (sent: Option<DonationData>)
      modifies this`errors, this`isSubmitting, this`isSubmitted, this`pendingResets
      ensures errors == ExpectedErrors(formData)
      ensures sent.Some? <==> IsValid(formData)
      ensures sent.Some? ==> sent.value == formData
      ensures isSubmitting == if sent.Some? then false else old(isSubmitting)
      ensures isSubmitted == if sent.Some? && serverAccepts then true else old(isSubmitted)
      ensures pendingResets == old(pendingResets) + if sent.Some? then 1 else 0
    {
      var ok := ValidateForm();
      if !ok {
        return None;
      }
      isSubmitting := true;
      sent := Some(formData);
      if serverAccepts {
        isSubmitted := true;
      }
      isSubmitting := false;
      pendingResets := pendingResets + 1;
    }

    /** The scheduled reset callback: the initial record comes back and the
        thank-you view is left. Errors are not touched. */
    method RunScheduledReset()
      requires pendingResets > 0
      modifies this`formData, this`isSubmitted, this`pendingResets
      ensures formData == Initial() && !isSubmitted
      ensures pendingResets == old(pendingResets) - 1
    {
      formData := Initial();
      isSubmitted := false;
      pendingResets := pendingResets - 1;
    }
  }
}
