/**
 * The registration form: twenty text fields, a validator that rebuilds the
 * error dictionary from the nine required checks, a submit handler that
 * passes the data on only when validation succeeds, and a change handler
 * that updates one field and clears its error.
 */
module Registration {
  import opened Wrappers
  import opened JsText

  /** The keys of `FormData`; `Kind` is the `type` field. */
  datatype Field =
    | FullName | Age | Gender | Address | Barangay | ContactNumber | Kind | CropType
    | YearsExperience | Notes | Email | CivilStatus | NationalId | Education | Livelihood
    | AreaSize | HouseholdSize | EmergencyName | EmergencyContact | RegistrationDate

  datatype FormData = FormData(
    fullName: string, age: string, gender: string, address: string, barangay: string,
    contactNumber: string, kind: string, cropType: string, yearsExperience: string,
    notes: string, email: string, civilStatus: string, nationalId: string,
    education: string, livelihood: string, areaSize: string, householdSize: string,
    emergencyName: string, emergencyContact: string, registrationDate: string)
  {
    /** `formData[field]`. */
    function Get(f: Field): string {
      match f
      case FullName => fullName
      case Age => age
      case Gender => gender
      case Address => address
      case Barangay => barangay
      case ContactNumber => contactNumber
      case Kind => kind
      case CropType => cropType
      case YearsExperience => yearsExperience
      case Notes => notes
      case Email => email
      case CivilStatus => civilStatus
      case NationalId => nationalId
      case Education => education
      case Livelihood => livelihood
      case AreaSize => areaSize
      case HouseholdSize => householdSize
      case EmergencyName => emergencyName
      case EmergencyContact => emergencyContact
      case RegistrationDate => registrationDate
    }

    /** `{ ...prev, [field]: value }`. */
    function Set(f: Field, v: string): FormData {
      match f
      case FullName => this.(fullName := v)
      case Age => this.(age := v)
      case Gender => this.(gender := v)
      case Address => this.(address := v)
      case Barangay => this.(barangay := v)
      case ContactNumber => this.(contactNumber := v)
      case Kind => this.(kind := v)
      case CropType => this.(cropType := v)
      case YearsExperience => this.(yearsExperience := v)
      case Notes => this.(notes := v)
      case Email => this.(email := v)
      case CivilStatus => this.(civilStatus := v)
      case NationalId => this.(nationalId := v)
      case Education => this.(education := v)
      case Livelihood => this.(livelihood := v)
      case AreaSize => this.(areaSize := v)
      case HouseholdSize => this.(householdSize := v)
      case EmergencyName => this.(emergencyName := v)
      case EmergencyContact => this.(emergencyContact := v)
      case RegistrationDate => this.(registrationDate := v)
    }
  }

  /** Setting a field changes that field to the new value and no other field. */
  lemma SetChangesOnlyThatField(d: FormData, f: Field, v: string)
    ensures d.Set(f, v).Get(f) == v
    ensures forall g :: g != f ==> d.Set(f, v).Get(g) == d.Get(g)
  {
  }

  /** The form's initial state: every field empty except type, which is "Farmer". */
  function InitialForm(): FormData {
    FormData("", "", "", "", "", "", "Farmer", "", "", "", "", "", "", "", "", "", "", "", "", "")
  }

  const RequiredFields: set<Field> :=
    {FullName, Age, Gender, ContactNumber, Email, Barangay, Kind, CivilStatus, NationalId}

  /** The message stored under a required field that fails its check (optional fields have none). */
  function Message(f: Field): string {
    match f
    case FullName => "Full name is required"
    case Age => "Age is required"
    case Gender => "Gender is required"
    case ContactNumber => "Contact number is required"
    case Email => "Email is required"
    case Barangay => "Barangay is required"
    case Kind => "Type is required"
    case CivilStatus => "Civil status is required"
    case NationalId => "ID number is required"
    case _ => ""
  }

  /**
   * A required check fails: full name, contact number, email and ID number
   * when empty after trimming (see `TrimEmptyIffBlank`), the other five only
   * when exactly empty; optional fields never fail.
   */
  predicate Fails(d: FormData, f: Field) {
    match f
    case FullName => IsBlank(d.fullName)
    case Age => d.age == []
    case Gender => d.gender == []
    case ContactNumber => IsBlank(d.contactNumber)
    case Email => IsBlank(d.email)
    case Barangay => d.barangay == []
    case Kind => d.kind == []
    case CivilStatus => d.civilStatus == []
    case NationalId => IsBlank(d.nationalId)
    case _ => false
  }

  /** The error dictionary a validation of `d` produces: each failing required field with its message. */
  function RequiredErrors(d: FormData): (errors: map<Field, string>)
    ensures forall f :: f in errors <==> f in RequiredFields && Fails(d, f)
    ensures forall f :: f in errors ==> errors[f] == Message(f) && errors[f] != ""
  {
    map f | f in RequiredFields && Fails(d, f) :: Message(f)
  }

  /** The field of the validator's `k`-th check. */
  function CheckAt(k: nat): (f: Field)
    requires k < 9
    ensures f in RequiredFields
  {
    match k
    case 0 => FullName
    case 1 => Age
    case 2 => Gender
    case 3 => ContactNumber
    case 4 => Email
    case 5 => Barangay
    case 6 => Kind
    case 7 => CivilStatus
    case 8 => NationalId
  }

  /** One check of the validator: a failing field `f` gets its message in `e`. */
  function Step(d: FormData, f: Field, e: map<Field, string>): map<Field, string> {
    if Fails(d, f) then e[f := Message(f)] else e
  }

  /** The dictionary after the first `k` checks. */
  ghost function ErrorsAfter(d: FormData, k: nat): map<Field, string>
    requires k <= 9
  {
    if k == 0 then map[] else Step(d, CheckAt(k - 1), ErrorsAfter(d, k - 1))
  }

  /** The nine checks in the order `validateForm` makes them. */
  ghost function ChainErrors(d: FormData): map<Field, string> {
    var e0 := map[];
    var e1 := Step(d, FullName, e0);
    var e2 := Step(d, Age, e1);
    var e3 := Step(d, Gender, e2);
    var e4 := Step(d, ContactNumber, e3);
    var e5 := Step(d, Email, e4);
    var e6 := Step(d, Barangay, e5);
    var e7 := Step(d, Kind, e6);
    var e8 := Step(d, CivilStatus, e7);
    Step(d, NationalId, e8)
  }

  /** One more check is one more `Step`. */
  lemma ErrorsAfterStep(d: FormData, k: nat)
    requires 0 < k <= 9
    ensures ErrorsAfter(d, k) == Step(d, CheckAt(k - 1), ErrorsAfter(d, k - 1))
  {
  }

  /** The validator's nine checks, in their order, give `RequiredErrors`. */
  lemma ChainIsRequiredErrors(d: FormData)
    ensures ChainErrors(d) == RequiredErrors(d)
  {
    ErrorsAfterStep(d, 1);
    ErrorsAfterStep(d, 2);
    ErrorsAfterStep(d, 3);
    ErrorsAfterStep(d, 4);
    ErrorsAfterStep(d, 5);
    ErrorsAfterStep(d, 6);
    ErrorsAfterStep(d, 7);
    ErrorsAfterStep(d, 8);
    ErrorsAfterStep(d, 9);
    AllChecksGiveRequiredErrors(d);
  }

  /** Where each required field's check comes in the validator's order; 9 for the optional fields. */
  function Position(f: Field): nat {
    match f
    case FullName => 0
    case Age => 1
    case Gender => 2
    case ContactNumber => 3
    case Email => 4
    case Barangay => 5
    case Kind => 6
    case CivilStatus => 7
    case NationalId => 8
    case _ => 9
  }

  /** `Position` and `CheckAt` are inverse on the nine required fields. */
  lemma CheckAtPosition(f: Field)
    requires Position(f) < 9
    ensures CheckAt(Position(f)) == f
  {
  }

  lemma PositionOfCheckAt(k: nat)
    requires k < 9
    ensures Position(CheckAt(k)) == k
  {
  }

  /** What the first `k` checks have gathered: the failing fields among them, each with its message. */
  lemma {:induction false} ErrorsAfterContents(d: FormData, k: nat)
    requires k <= 9
    ensures forall f :: f in ErrorsAfter(d, k) <==> Position(f) < k && Fails(d, f)
    ensures forall f :: f in ErrorsAfter(d, k) ==> ErrorsAfter(d, k)[f] == Message(f)
  {
    if k > 0 {
      ErrorsAfterContents(d, k - 1);
      PositionOfCheckAt(k - 1);
      forall f | Position(f) == k - 1
        ensures f == CheckAt(k - 1)
      {
        CheckAtPosition(f);
      }
    }
  }

  /** After all nine checks the dictionary is `RequiredErrors`. */
  lemma AllChecksGiveRequiredErrors(d: FormData)
    ensures ErrorsAfter(d, 9) == RequiredErrors(d)
  {
    ErrorsAfterContents(d, 9);
  }

  /** No optional field ever gets an error. */
  lemma OptionalFieldsNeverFail(d: FormData, f: Field)
    requires f !in RequiredFields
    ensures f !in RequiredErrors(d)
  {
  }

  /** The dictionary is empty exactly when every required check passes. */
  lemma NoErrorsIffAllChecksPass(d: FormData)
    ensures RequiredErrors(d) == map[] <==> forall f :: f in RequiredFields ==> !Fails(d, f)
  {
    if exists f :: f in RequiredFields && Fails(d, f) {
      var f :| f in RequiredFields && Fails(d, f);
      assert f in RequiredErrors(d);
    }
  }

  /** Whitespace-only age passes; the same whitespace as full name fails. */
  lemma WhitespaceAgePassesWhitespaceNameFails(d: FormData)
    requires d.age == " " && d.fullName == " "
    ensures Age !in RequiredErrors(d)
    ensures FullName in RequiredErrors(d)
  {
    assert IsBlank(d.fullName[1..]);
  }

  /** Submitting the untouched form flags the eight required fields other than type. */
  lemma InitialFormErrors()
    ensures RequiredErrors(InitialForm()).Keys == RequiredFields - {Kind}
  {
  }

  /** The test `!s.trim()`. */
  method TrimsToEmpty(s: string) returns (empty: bool)
    ensures empty <==> IsBlank(s)
  {
    TrimEmptyIffBlank(s);
    empty := Trim(s) == [];
  }

  /**
   * One `if` of `validateForm`: the test for field `f` (trimmed for the four
   * free-text fields, exact emptiness for the other five) and, when it fails,
   * the field's message. Optional fields have no test.
   */
  method Check(d: FormData, f: Field, e: map<Field, string>) returns (e': map<Field, string>)
    ensures e' == Step(d, f, e)
  {
    var failed: bool;
    match f {
      case FullName => failed := TrimsToEmpty(d.fullName);
      case Age => failed := d.age == [];
      case Gender => failed := d.gender == [];
      case ContactNumber => failed := TrimsToEmpty(d.contactNumber);
      case Email => failed := TrimsToEmpty(d.email);
      case Barangay => failed := d.barangay == [];
      case Kind => failed := d.kind == [];
      case CivilStatus => failed := d.civilStatus == [];
      case NationalId => failed := TrimsToEmpty(d.nationalId);
      case _ => failed := false;
    }
    e' := if failed then e[f := Message(f)] else e;
  }

  /** The body of `validateForm` up to `setErrors`: the nine checks in order, on a fresh dictionary. */
  method CollectErrors(d: FormData) returns (newErrors: map<Field, string>)
    ensures newErrors == RequiredErrors(d)
  {
    newErrors := map[];
    newErrors := Check(d, FullName, newErrors);
    newErrors := Check(d, Age, newErrors);
    newErrors := Check(d, Gender, newErrors);
    newErrors := Check(d, ContactNumber, newErrors);
    newErrors := Check(d, Email, newErrors);
    newErrors := Check(d, Barangay, newErrors);
    newErrors := Check(d, Kind, newErrors);
    newErrors := Check(d, CivilStatus, newErrors);
    newErrors := Check(d, NationalId, newErrors);
    ChainIsRequiredErrors(d);
  }

  class RegistrationForm {
    var formData: FormData
    var errors: map<Field, string>

    constructor ()
      ensures formData == InitialForm() && errors == map[]
    {
      formData := InitialForm();
      errors := map[];
    }

    /** `validateForm`: the fresh dictionary replaces `errors`; the result says whether it is empty. */
    method Validate() returns (ok: bool)
      modifies this`errors
      ensures errors == RequiredErrors(formData)
      ensures ok <==> errors == map[]
    {
      var newErrors := CollectErrors(formData);
      errors := newErrors;
      ok := |newErrors| == 0;
    }

    /** `handleSubmit`: validate, and hand the current data on only when that passes. */
    method HandleSubmit() returns (submitted: Option<FormData>)
      modifies this`errors
      ensures errors == RequiredErrors(formData)
      ensures submitted == if errors == map[] then Some(formData) else None
    {
      var ok := Validate();
      submitted := if ok then Some(formData) else None;
    }

    /** `handleChange`: set one field; blank its error only if it had a non-empty one. */
    method HandleChange(field: Field, value: string)
      modifies this
      ensures formData == old(formData).Set(field, value)
      ensures errors == if field in old(errors) && old(errors)[field] != [] then old(errors)[field := ""]
                        else old(errors)
    {
      formData := formData.Set(field, value);
      if field in errors && errors[field] != [] {
        errors := errors[field := ""];
      }
    }
  }
}
