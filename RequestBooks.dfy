/** The book-request page (src/pages/RequestBooks.js): its form record, the
    multi-select genre list, the validation that gates the request, and the
    page state that the input, validate and submit handlers change. */
module RequestBooks {
  import opened JsText
  import opened EmailPattern
  import opened FormState

  /** The keys of `formData`. */
  datatype Field =
    | ChildName | ChildAge | ParentName | Email | Phone | PreferredGenres
    | ReadingLevel | Interests | NumberOfBooks | DeliveryAddress | City
    | State | ZipCode | SchoolName | TeacherName | SpecialRequests | Urgency

  const AllFields: set<Field> :=
    {ChildName, ChildAge, ParentName, Email, Phone, PreferredGenres,
     ReadingLevel, Interests, NumberOfBooks, DeliveryAddress, City,
     State, ZipCode, SchoolName, TeacherName, SpecialRequests, Urgency}

  lemma AllFieldsComplete(f: Field)
    ensures f in AllFields
  {
  }

  /** `formData`. `numberOfBooks` starts as the number 5 and holds the
      input's string value once edited. */
  datatype RequestData = RequestData(
    childName: string,
    childAge: string,
    parentName: string,
    email: string,
    phone: string,
    preferredGenres: seq<string>,
    readingLevel: string,
    interests: string,
    numberOfBooks: Value,
    deliveryAddress: string,
    city: string,
    state: string,
    zipCode: string,
    schoolName: string,
    teacherName: string,
    specialRequests: string,
    urgency: string)

  /** The record the page starts with, and the one the scheduled reset
      restores: every string empty, no genre, five books. */
  function Initial(): RequestData {
    RequestData("", "", "", "", "", [], "", "", Number(5), "", "", "", "", "", "", "", "")
  }

  /** `formData[f]`. */
  function Get(d: RequestData, f: Field): Value {
    match f
    case ChildName => Text(d.childName)
    case ChildAge => Text(d.childAge)
    case ParentName => Text(d.parentName)
    case Email => Text(d.email)
    case Phone => Text(d.phone)
    case PreferredGenres => List(d.preferredGenres)
    case ReadingLevel => Text(d.readingLevel)
    case Interests => Text(d.interests)
    case NumberOfBooks => d.numberOfBooks
    case DeliveryAddress => Text(d.deliveryAddress)
    case City => Text(d.city)
    case State => Text(d.state)
    case ZipCode => Text(d.zipCode)
    case SchoolName => Text(d.schoolName)
    case TeacherName => Text(d.teacherName)
    case SpecialRequests => Text(d.specialRequests)
    case Urgency => Text(d.urgency)
  }

  /** The reset record, field by field. */
  lemma InitialValues(f: Field)
    ensures Get(Initial(), f) ==
      if f == PreferredGenres then List([])
      else if f == NumberOfBooks then Number(5)
      else Text("")
  {
  }

  /** `list.filter(genre => genre !== g)`: every occurrence of `g` goes, the
      rest keep their order. */
  function RemoveAll(list: seq<string>, g: string): (r: seq<string>)
    ensures g !in r
    ensures |r| <= |list|
    ensures forall x :: x in r ==> x in list
  {
    if list == [] then []
    else if list[0] == g then RemoveAll(list[1..], g)
    else [list[0]] + RemoveAll(list[1..], g)
  }

  /** Filtering distributes over concatenation: together with its effect on
      one-element lists this pins `RemoveAll` down as an order-keeping
      filter. */
  lemma {:induction false} RemoveAllAppend(a: seq<string>, b: seq<string>, g: string)
    ensures RemoveAll(a + b, g) == RemoveAll(a, g) + RemoveAll(b, g)
  {
    if a != [] {
      assert (a + b)[0] == a[0];
      assert (a + b)[1..] == a[1..] + b;
      RemoveAllAppend(a[1..], b, g);
    } else {
      assert a + b == b;
    }
  }

  /** Filtering a one-element list. */
  lemma RemoveAllSingle(x: string, g: string)
    ensures RemoveAll([x], g) == if x == g then [] else [x]
  {
    assert [x][1..] == [];
  }

  /** Every other genre keeps its number of occurrences. */
  lemma {:induction false} RemoveAllCounts(list: seq<string>, g: string)
    ensures multiset(RemoveAll(list, g)) == multiset(list)[g := 0]
  {
    if list != [] {
      RemoveAllCounts(list[1..], g);
      assert list == [list[0]] + list[1..];
    }
  }

  /** A genre that is not in the list leaves it as it is. */
  lemma {:induction false} RemoveAllAbsent(list: seq<string>, g: string)
    requires g !in list
    ensures RemoveAll(list, g) == list
  {
    if list != [] {
      RemoveAllAbsent(list[1..], g);
      assert list == [list[0]] + list[1..];
    }
  }

  /** The new `preferredGenres` after a genre checkbox changes: appended
      when ticked, filtered out when unticked. */
  function ToggleGenre(genres: seq<string>, genre: string, checked: bool): (r: seq<string>)
    ensures checked ==> |r| == |genres| + 1 && r[..|genres|] == genres && r[|genres|] == genre
    ensures !checked ==> genre !in r && multiset(r) == multiset(genres)[genre := 0]
  {
    if checked then genres + [genre]
    else
      RemoveAllCounts(genres, genre);
      RemoveAll(genres, genre)
  }

  /** Ticking does not look for an earlier copy: a ticked genre that is
      already listed ends up listed twice. */
  lemma TickKeepsDuplicates(genres: seq<string>, genre: string)
    ensures multiset(ToggleGenre(genres, genre, true))[genre] == multiset(genres)[genre] + 1
  {
  }

  /** Unticking right after ticking a genre that was not listed gives the
      list back unchanged. */
  lemma UntickUndoesTick(genres: seq<string>, genre: string)
    requires genre !in genres
    ensures ToggleGenre(ToggleGenre(genres, genre, true), genre, false) == genres
  {
    RemoveAllAppend(genres, [genre], genre);
    RemoveAllSingle(genre, genre);
    RemoveAllAbsent(genres, genre);
  }

  /** Unticking twice is unticking once. */
  lemma UntickIdempotent(genres: seq<string>, genre: string)
    ensures ToggleGenre(ToggleGenre(genres, genre, false), genre, false) == ToggleGenre(genres, genre, false)
  {
    RemoveAllAbsent(RemoveAll(genres, genre), genre);
  }

  /** The spread copy `{...prev, [name]: value}` of a named input: the
      field takes the input's string value and no other field changes.
      Every named input is a text, number or select input; the genre list
      has no input of its own. */
  function SetText(d: RequestData, name: Field, value: string): (r: RequestData)
    requires name != PreferredGenres
    ensures Get(r, name) == Text(value)
    ensures forall f :: f != name ==> Get(r, f) == Get(d, f)
  {
    match name
    case ChildName => d.(childName := value)
    case ChildAge => d.(childAge := value)
    case ParentName => d.(parentName := value)
    case Email => d.(email := value)
    case Phone => d.(phone := value)
    case ReadingLevel => d.(readingLevel := value)
    case Interests => d.(interests := value)
    case NumberOfBooks => d.(numberOfBooks := Text(value))
    case DeliveryAddress => d.(deliveryAddress := value)
    case City => d.(city := value)
    case State => d.(state := value)
    case ZipCode => d.(zipCode := value)
    case SchoolName => d.(schoolName := value)
    case TeacherName => d.(teacherName := value)
    case SpecialRequests => d.(specialRequests := value)
    case Urgency => d.(urgency := value)
  }

  /** A change event: a named input's new value, or a genre checkbox (which
      has no `name`) with its value and new checked state. */
  datatype Change =
    | Input(name: Field, value: string)
    | GenreBox(genre: string, checked: bool)

  /** Changes the page can receive: named inputs never target the genre
      list. */
  predicate Possible(c: Change) {
    c.Input? ==> c.name != PreferredGenres
  }

  /** The record after a change. */
  function Apply(d: RequestData, c: Change): (r: RequestData)
    requires Possible(c)
    ensures c.GenreBox? ==> forall f :: f != PreferredGenres ==> Get(r, f) == Get(d, f)
    ensures c.Input? ==> Get(r, PreferredGenres) == Get(d, PreferredGenres)
  {
    match c
    case GenreBox(genre, checked) => d.(preferredGenres := ToggleGenre(d.preferredGenres, genre, checked))
    case Input(name, value) => SetText(d, name, value)
  }

  /** The messages `validateForm` can record. */
  datatype Message =
    | ChildNameRequired | ChildAgeRequired | ParentNameRequired | EmailRequired
    | EmailInvalid | PhoneRequired | GenresRequired | ReadingLevelRequired
    | AddressRequired | CityRequired | StateRequired | ZipRequired

  /** The text shown for each message; none is empty. */
  function MessageText(m: Message): (text: string)
    ensures text != ""
  {
    match m
    case ChildNameRequired => "Child's name is required"
    case ChildAgeRequired => "Child's age is required"
    case ParentNameRequired => "Parent/Guardian name is required"
    case EmailRequired => "Email is required"
    case EmailInvalid => "Email is invalid"
    case PhoneRequired => "Phone number is required"
    case GenresRequired => "Please select at least one genre"
    case ReadingLevelRequired => "Reading level is required"
    case AddressRequired => "Delivery address is required"
    case CityRequired => "City is required"
    case StateRequired => "State is required"
    case ZipRequired => "ZIP code is required"
  }

  /** The message `validateForm` records for field `f`, if any. The age and
      the reading level are only tested for emptiness, not trimmed. */
  function FieldError(d: RequestData, f: Field): Option<Message> {
    match f
    case ChildName => if Trim(d.childName) == "" then Some(ChildNameRequired) else None
    case ChildAge => if d.childAge == "" then Some(ChildAgeRequired) else None
    case ParentName => if Trim(d.parentName) == "" then Some(ParentNameRequired) else None
    case Email =>
      if Trim(d.email) == "" then Some(EmailRequired)
      else if !MatchesEmail(d.email) then Some(EmailInvalid)
      else None
    case Phone => if Trim(d.phone) == "" then Some(PhoneRequired) else None
    case PreferredGenres => if |d.preferredGenres| == 0 then Some(GenresRequired) else None
    case ReadingLevel => if d.readingLevel == "" then Some(ReadingLevelRequired) else None
    case DeliveryAddress => if Trim(d.deliveryAddress) == "" then Some(AddressRequired) else None
    case City => if Trim(d.city) == "" then Some(CityRequired) else None
    case State => if Trim(d.state) == "" then Some(StateRequired) else None
    case ZipCode => if Trim(d.zipCode) == "" then Some(ZipRequired) else None
    case Interests | NumberOfBooks | SchoolName | TeacherName | SpecialRequests | Urgency => None
  }

  /** The error map a validation run builds from `d`, and from nothing else. */
  function ExpectedErrors(d: RequestData): map<Field, ErrorText<Message>> {
    map f | f in AllFields && FieldError(d, f).Some? :: Says(FieldError(d, f).value)
  }

  /** When the request may be sent, stated field by field. */
  ghost predicate IsValid(d: RequestData) {
    && !IsBlank(d.childName)
    && d.childAge != ""
    && !IsBlank(d.parentName)
    && !IsBlank(d.email) && EmailShaped(d.email)
    && !IsBlank(d.phone)
    && |d.preferredGenres| > 0
    && d.readingLevel != ""
    && !IsBlank(d.deliveryAddress)
    && !IsBlank(d.city)
    && !IsBlank(d.state)
    && !IsBlank(d.zipCode)
  }

  /** The fields with a message are the keys of the expected error map. */
  lemma ExpectedErrorsKeys(d: RequestData, f: Field)
    ensures f in ExpectedErrors(d) <==> FieldError(d, f).Some?
  {
    AllFieldsComplete(f);
  }

  /** A map holding exactly the messages of `d` is the expected error map. */
  lemma ExpectedErrorsUnique(d: RequestData, m: map<Field, ErrorText<Message>>)
    requires forall f :: f in m <==> FieldError(d, f).Some?
    requires forall f :: f in m ==> m[f] == Says(FieldError(d, f).value)
    ensures m == ExpectedErrors(d)
  {
    forall f ensures f in m <==> f in ExpectedErrors(d) {
      ExpectedErrorsKeys(d, f);
    }
  }

  /** The fields whose rule trims the value first. */
  lemma {:induction false} TrimmedFieldErrors(d: RequestData)
    ensures FieldError(d, ChildName).Some? <==> IsBlank(d.childName)
    ensures FieldError(d, ParentName).Some? <==> IsBlank(d.parentName)
    ensures FieldError(d, Phone).Some? <==> IsBlank(d.phone)
    ensures FieldError(d, DeliveryAddress).Some? <==> IsBlank(d.deliveryAddress)
    ensures FieldError(d, City).Some? <==> IsBlank(d.city)
    ensures FieldError(d, State).Some? <==> IsBlank(d.state)
    ensures FieldError(d, ZipCode).Some? <==> IsBlank(d.zipCode)
  {
    TrimEmptyIffBlank(d.childName);
    TrimEmptyIffBlank(d.parentName);
    TrimEmptyIffBlank(d.phone);
    TrimEmptyIffBlank(d.deliveryAddress);
    TrimEmptyIffBlank(d.city);
    TrimEmptyIffBlank(d.state);
    TrimEmptyIffBlank(d.zipCode);
  }

  /** Field by field, a message is recorded exactly when the field breaks its
      rule in `IsValid`. */
  lemma {:induction false} FieldErrorMeansBroken(d: RequestData)
    ensures FieldError(d, ChildName).Some? <==> IsBlank(d.childName)
    ensures FieldError(d, ChildAge).Some? <==> d.childAge == ""
    ensures FieldError(d, ParentName).Some? <==> IsBlank(d.parentName)
    ensures FieldError(d, Email).Some? <==> IsBlank(d.email) || !EmailShaped(d.email)
    ensures FieldError(d, Phone).Some? <==> IsBlank(d.phone)
    ensures FieldError(d, PreferredGenres).Some? <==> d.preferredGenres == []
    ensures FieldError(d, ReadingLevel).Some? <==> d.readingLevel == ""
    ensures FieldError(d, DeliveryAddress).Some? <==> IsBlank(d.deliveryAddress)
    ensures FieldError(d, City).Some? <==> IsBlank(d.city)
    ensures FieldError(d, State).Some? <==> IsBlank(d.state)
    ensures FieldError(d, ZipCode).Some? <==> IsBlank(d.zipCode)
    ensures forall f :: Unchecked(f) ==> FieldError(d, f) == None
  {
    TrimmedFieldErrors(d);
    TrimEmptyIffBlank(d.email);
  }

  /** The six fields without a rule never get a message. */
  predicate Unchecked(f: Field) {
    f == Interests || f == NumberOfBooks || f == SchoolName
    || f == TeacherName || f == SpecialRequests || f == Urgency
  }

  /** Validation passes exactly when no field has a message. */
  lemma {:induction false} ValidIffNoErrors(d: RequestData)
    ensures IsValid(d) <==> forall f :: FieldError(d, f).None?
    ensures ExpectedErrors(d) == map[] <==> IsValid(d)
  {
    FieldErrorMeansBroken(d);
    forall f ensures f in ExpectedErrors(d) <==> FieldError(d, f).Some? {
      ExpectedErrorsKeys(d, f);
    }
    if IsValid(d) {
      forall f ensures FieldError(d, f).None? {
        if !Unchecked(f) {
          assert f in {ChildName, ChildAge, ParentName, Email, Phone, PreferredGenres,
                       ReadingLevel, DeliveryAddress, City, State, ZipCode};
        }
      }
      assert ExpectedErrors(d).Keys == {};
    }
  }

  /** An empty or blank email is reported as missing, never as invalid. */
  lemma {:induction false} EmailRequiredBeforeFormat(d: RequestData)
    ensures FieldError(d, Email) == Some(EmailRequired) <==> IsBlank(d.email)
    ensures FieldError(d, Email) == Some(EmailInvalid) <==> !IsBlank(d.email) && !EmailShaped(d.email)
  {
    TrimEmptyIffBlank(d.email);
  }

  /** The age is tested for emptiness only: a blank age passes, and so does
      any age outside the input's 3..18 range. This is about the value
      `validateForm` is given: a `type="number"` input hands the handler
      either "" or a numeral, so a user cannot produce the blank one by
      typing. */
  lemma AgeNotTrimmed(d: RequestData)
    requires d.childAge == " " || d.childAge == "42"
    ensures FieldError(d, ChildAge) == None
  {
  }

  /** Editing a field without a rule changes no message and not the
      verdict. */
  lemma OptionalFieldsIrrelevant(d: RequestData, name: Field, value: string)
    requires Unchecked(name)
    ensures forall f :: FieldError(SetText(d, name, value), f) == FieldError(d, f)
    ensures IsValid(SetText(d, name, value)) == IsValid(d)
  {
    var e := SetText(d, name, value);
    assert || e == d.(interests := value) || e == d.(numberOfBooks := Text(value))
           || e == d.(schoolName := value) || e == d.(teacherName := value)
           || e == d.(specialRequests := value) || e == d.(urgency := value);
  }

  /** The page as first shown, and as every reset leaves it, cannot be
      sent: among others, no genre is chosen. */
  lemma InitialIsInvalid()
    ensures !IsValid(Initial())
    ensures ExpectedErrors(Initial())[PreferredGenres] == Says(GenresRequired)
  {
    ExpectedErrorsKeys(Initial(), PreferredGenres);
  }

  /** The errors left by running `check` on the checked fields in the order
      `validateForm` visits them, starting from an empty map. */
  function RunChecks(check: Field -> Option<Message>): map<Field, ErrorText<Message>> {
    var m1 := Record(map[], ChildName, check(ChildName));
    var m2 := Record(m1, ChildAge, check(ChildAge));
    var m3 := Record(m2, ParentName, check(ParentName));
    var m4 := Record(m3, Email, check(Email));
    var m5 := Record(m4, Phone, check(Phone));
    var m6 := Record(m5, PreferredGenres, check(PreferredGenres));
    var m7 := Record(m6, ReadingLevel, check(ReadingLevel));
    var m8 := Record(m7, DeliveryAddress, check(DeliveryAddress));
    var m9 := Record(m8, City, check(City));
    var m10 := Record(m9, State, check(State));
    Record(m10, ZipCode, check(ZipCode))
  }

  /** Each visited field ends up with its own message, if any; the fields
      not visited have none. */
  lemma {:induction false} RunChecksAt(check: Field -> Option<Message>, g: Field)
    ensures g in RunChecks(check) <==> !Unchecked(g) && check(g).Some?
    ensures g in RunChecks(check) ==> RunChecks(check)[g] == Says(check(g).value)
  {
    var m1 := Record(map[], ChildName, check(ChildName));
    var m2 := Record(m1, ChildAge, check(ChildAge));
    var m3 := Record(m2, ParentName, check(ParentName));
    var m4 := Record(m3, Email, check(Email));
    var m5 := Record(m4, Phone, check(Phone));
    var m6 := Record(m5, PreferredGenres, check(PreferredGenres));
    var m7 := Record(m6, ReadingLevel, check(ReadingLevel));
    var m8 := Record(m7, DeliveryAddress, check(DeliveryAddress));
    var m9 := Record(m8, City, check(City));
    var m10 := Record(m9, State, check(State));
    RecordAt(map[], ChildName, check(ChildName), g);
    RecordAt(m1, ChildAge, check(ChildAge), g);
    RecordAt(m2, ParentName, check(ParentName), g);
    RecordAt(m3, Email, check(Email), g);
    RecordAt(m4, Phone, check(Phone), g);
    RecordAt(m5, PreferredGenres, check(PreferredGenres), g);
    RecordAt(m6, ReadingLevel, check(ReadingLevel), g);
    RecordAt(m7, DeliveryAddress, check(DeliveryAddress), g);
    RecordAt(m8, City, check(City), g);
    RecordAt(m9, State, check(State), g);
    RecordAt(m10, ZipCode, check(ZipCode), g);
  }

  /** The errors `validateForm` leaves for `d`. */
  function CheckedInOrder(d: RequestData): map<Field, ErrorText<Message>> {
    RunChecks(f => FieldError(d, f))
  }

  /** The order of the checks does not matter: running them in page order
      gives exactly the expected error map. */
  lemma {:induction false} CheckOrderIrrelevant(d: RequestData)
    ensures CheckedInOrder(d) == ExpectedErrors(d)
  {
    var check := f => FieldError(d, f);
    forall g ensures (g in RunChecks(check) <==> FieldError(d, g).Some?)
      && (g in RunChecks(check) ==> RunChecks(check)[g] == Says(FieldError(d, g).value))
    {
      RunChecksAt(check, g);
    }
    ExpectedErrorsUnique(d, RunChecks(check));
  }

  /** One check of `validateForm`: records the field's message in
      `newErrors` when the field fails its rule. */
  method CheckField(d: RequestData, newErrors: map<Field, ErrorText<Message>>, f: Field)
    returns (r: map<Field, ErrorText<Message>>)
    ensures r == Record(newErrors, f, FieldError(d, f))
  {
    r := newErrors;
    match f
    case ChildName =>
      if Trim(d.childName) == "" { r := r[ChildName := Says(ChildNameRequired)]; }
    case ChildAge =>
      if d.childAge == "" { r := r[ChildAge := Says(ChildAgeRequired)]; }
    case ParentName =>
      if Trim(d.parentName) == "" { r := r[ParentName := Says(ParentNameRequired)]; }
    case Email =>
      if Trim(d.email) == "" {
        r := r[Email := Says(EmailRequired)];
      } else if !MatchesEmail(d.email) {
        r := r[Email := Says(EmailInvalid)];
      }
    case Phone =>
      if Trim(d.phone) == "" { r := r[Phone := Says(PhoneRequired)]; }
    case PreferredGenres =>
      if |d.preferredGenres| == 0 { r := r[PreferredGenres := Says(GenresRequired)]; }
    case ReadingLevel =>
      if d.readingLevel == "" { r := r[ReadingLevel := Says(ReadingLevelRequired)]; }
    case DeliveryAddress =>
      if Trim(d.deliveryAddress) == "" { r := r[DeliveryAddress := Says(AddressRequired)]; }
    case City =>
      if Trim(d.city) == "" { r := r[City := Says(CityRequired)]; }
    case State =>
      if Trim(d.state) == "" { r := r[State := Says(StateRequired)]; }
    case ZipCode =>
      if Trim(d.zipCode) == "" { r := r[ZipCode := Says(ZipRequired)]; }
    case Interests | NumberOfBooks | SchoolName | TeacherName | SpecialRequests | Urgency =>
  }

  /** The component's state. `pendingResets` counts the reset callbacks that
      submissions have scheduled and that have not run yet. */
  class RequestPage {
    var formData: RequestData
    var errors: map<Field, ErrorText<Message>>
    var isSubmitting: bool
    var isSubmitted: bool
    var pendingResets: nat

    constructor ()
      ensures formData == Initial() && errors == map[]
      ensures !isSubmitting && !isSubmitted && pendingResets == 0
    {
      formData := Initial();
      errors := map[];
      isSubmitting := false;
      isSubmitted := false;
      pendingResets := 0;
    }

    /** `handleInputChange`: apply the change, then blank the error stored
        under the event's `name` if one is set. A genre checkbox has no
        name, so ticking a genre never blanks the genre error. */
    method HandleInputChange(c: Change)
      requires Possible(c)
      modifies this`formData, this`errors
      ensures formData == Apply(old(formData), c)
      ensures c.Input? ==> errors == ClearError(old(errors), c.name)
      ensures c.GenreBox? ==> errors == old(errors)
    {
      match c
      case GenreBox(genre, checked) =>
        formData := formData.(preferredGenres := ToggleGenre(formData.preferredGenres, genre, checked));
      case Input(name, value) =>
        formData := SetText(formData, name, value);
        if HasError(errors, name) {
          errors := errors[name := Empty];
        }
    }

    /** `validateForm`: build a fresh error map one field at a time, in the
        order the page checks them, store it, and report whether it is
        empty. */
    method ValidateForm() returns (ok: bool)
      modifies this`errors
      ensures errors == ExpectedErrors(formData)
      ensures ok <==> errors == map[]
      ensures ok <==> IsValid(formData)
    {
      var d := formData;
      var newErrors: map<Field, ErrorText<Message>> := map[];
      newErrors := CheckField(d, newErrors, ChildName);
      newErrors := CheckField(d, newErrors, ChildAge);
      newErrors := CheckField(d, newErrors, ParentName);
      newErrors := CheckField(d, newErrors, Email);
      newErrors := CheckField(d, newErrors, Phone);
      newErrors := CheckField(d, newErrors, PreferredGenres);
      newErrors := CheckField(d, newErrors, ReadingLevel);
      newErrors := CheckField(d, newErrors, DeliveryAddress);
      newErrors := CheckField(d, newErrors, City);
      newErrors := CheckField(d, newErrors, State);
      newErrors := CheckField(d, newErrors, ZipCode);
      CheckOrderIrrelevant(d);
      errors := newErrors;
      ok := |newErrors| == 0;
      ValidIffNoErrors(d);
    }

    /** `handleSubmit`: nothing happens past validation unless it passes.
        Otherwise the whole record is sent, `isSubmitted` is raised only if
        the server accepts, the busy flag ends lowered, and a reset is
        scheduled whatever the server answered. */
    method HandleSubmit(serverAccepts: bool) returns (sent: Option<RequestData>)
      modifies this`errors, this`isSubmitting, this`isSubmitted, this`pendingResets
      ensures errors == ExpectedErrors(formData)
      ensures sent.Some? <==> IsValid(formData)
      ensures sent.Some? ==> sent.value == formData
      ensures isSubmitting == if sent.Some? then false else old(isSubmitting)
      ensures isSubmitted == if sent.Some? && serverAccepts then true else old(isSubmitted)
      ensures pendingResets == old(pendingResets) + if sent.Some? then 1 else 0
    {
      var ok := ValidateForm();
      if !ok {
        return None;
      }
      isSubmitting := true;
      sent := Some(formData);
      if serverAccepts {
        isSubmitted := true;
      }
      isSubmitting := false;
      pendingResets := pendingResets + 1;
    }

    /** The scheduled reset callback: the initial record comes back and the
        thank-you view is left. Errors are not touched. */
    method RunScheduledReset()
      requires pendingResets > 0
      modifies this`formData, this`isSubmitted, this`pendingResets
      ensures formData == Initial() && !isSubmitted
      ensures pendingResets == old(pendingResets) - 1
    {
      formData := Initial();
      isSubmitted := false;
      pendingResets := pendingResets - 1;
    }
  }
}
