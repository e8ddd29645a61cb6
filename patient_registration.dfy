/**
 * The patient registration form: five text fields, of which name and id are required; a
 * submitted form adds the patient to the user's list and is cleared.
 */
module PatientRegistration {
  import opened Wrappers
  import opened Types
  import opened JsStrings
  import opened DataContext

  /** The form's five inputs, by their `name` attribute. */
  datatype Field = Name | Id | Age | Contact | History

  datatype FormData = FormData(name: string, id: string, age: string, contact: string, history: string)

  const EmptyForm: FormData := FormData("", "", "", "", "")
  const RequiredFieldsMessage: string := "Please fill in required fields."
  const RegisteredMessage: string := "Patient registered successfully!"

  /** The text of one input. */
  function FieldValue(f: FormData, field: Field): string {
    match field
    case Name => f.name
    case Id => f.id
    case Age => f.age
    case Contact => f.contact
    case History => f.history
  }

  /** `{ ...formData, [name]: value }`: that input takes the value, the others keep theirs. */
  function WithField(f: FormData, field: Field, value: string): (r: FormData)
    ensures FieldValue(r, field) == value
    ensures forall other :: other != field ==> FieldValue(r, other) == FieldValue(f, other)
  {
    match field
    case Name => f.(name := value)
    case Id => f.(id := value)
    case Age => f.(age := value)
    case Contact => f.(contact := value)
    case History => f.(history := value)
  }

  /** `parseInt(age) || 0`: the parsed number, or 0 when the text does not start with one. */
  function AgeValue(age: string): (a: int)
    ensures ParseInt(age).None? ==> a == 0
    ensures ParseInt(age).Some? ==> a == ParseInt(age).value
  {
    ParseInt(age).GetOr(0)
  }

  /** A typed non-negative age is stored as that number; an empty field as 0. */
  lemma AgeOfDecimal(n: nat)
    ensures AgeValue(DecimalString(n)) == n
    ensures AgeValue("") == 0
  {
    ParseDecimalString(n, "");
    assert DecimalString(n) + "" == DecimalString(n);
  }

  /** `!formData.name || !formData.id`. */
  predicate MissingRequired(f: FormData) {
    f.name == "" || f.id == ""
  }

  /** The patient data a complete form hands to `addPatient`. */
  function SubmittedPatient(f: FormData): (d: PatientData)
    ensures d.id == f.id && d.name == f.name && d.contact == f.contact && d.history == f.history
    ensures d.age == AgeValue(f.age)
  {
    PatientData(f.id, f.name, AgeValue(f.age), f.contact, f.history)
  }

  class RegistrationForm {
    const data: DataProvider
    var formData: FormData
    var notification: Option<string>

    constructor (data: DataProvider)
      ensures this.data == data && formData == EmptyForm && notification.None?
    {
      this.data := data;
      formData := EmptyForm;
      notification := None;
    }

    /** `handleChange`: one input's new text. */
    method HandleChange(field: Field, value: string)
      modifies this`formData
      ensures formData == WithField(old(formData), field, value)
    {
      formData := WithField(formData, field, value);
    }

    /**
     * `handleSubmit`: a missing name or id only raises a notification; otherwise the patient
     * is added, registered `today`, and the form is cleared.
     */
    method HandleSubmit(today: string)
      modifies this`formData, this`notification, data`patients
      ensures MissingRequired(old(formData)) ==>
        && notification == Some(RequiredFieldsMessage)
        && formData == old(formData) && data.patients == old(data.patients)
      ensures !MissingRequired(old(formData)) ==>
        && data.patients == old(data.patients) + [NewPatient(SubmittedPatient(old(formData)), today)]
        && GetPatient(data.patients, old(formData).id).Some?
        && notification == Some(RegisteredMessage) && formData == EmptyForm
    {
      if MissingRequired(formData) {
        notification := Some(RequiredFieldsMessage);
        return;
      }
      data.AddPatient(SubmittedPatient(formData), today);
      notification := Some(RegisteredMessage);
      formData := EmptyForm;
    }
  }
}
