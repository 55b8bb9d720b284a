/** The registration dialog: a six-field form whose submit checks the four
    required fields, then resets the form and closes the dialog. It does not
    report the registration back to the event list. */
module Registration {
  import opened Common
  import opened Catalog

  datatype RegistrationData = RegistrationData(
    name: string,
    email: string,
    phone: string,
    studentId: string,
    year: string,
    department: string)

  const EmptyRegistration := RegistrationData("", "", "", "", "", "")

  /** The `name` attributes of the dialog's inputs. */
  datatype RegistrationField = Name | Email | Phone | StudentId | Year | Department

  function FieldValue(d: RegistrationData, f: RegistrationField): string
  {
    match f
    case Name => d.name
    case Email => d.email
    case Phone => d.phone
    case StudentId => d.studentId
    case Year => d.year
    case Department => d.department
  }

  /** `{ ...formData, [name]: value }`: the named field takes the value and
      every other field keeps its own. */
  function WithField(d: RegistrationData, f: RegistrationField, v: string): (r: RegistrationData)
    ensures FieldValue(r, f) == v
    ensures forall g :: g != f ==> FieldValue(r, g) == FieldValue(d, g)
  {
    match f
    case Name => d.(name := v)
    case Email => d.(email := v)
    case Phone => d.(phone := v)
    case StudentId => d.(studentId := v)
    case Year => d.(year := v)
    case Department => d.(department := v)
  }

  /** Name, email, phone and student id are required; year and department
      are optional. */
  predicate RequiredFilled(d: RegistrationData)
  {
    d.name != "" && d.email != "" && d.phone != "" && d.studentId != ""
  }

  lemma RequiredFilledIff(d: RegistrationData)
    ensures RequiredFilled(d) <==>
      forall f :: f in {Name, Email, Phone, StudentId} ==> FieldValue(d, f) != ""
  {
    assert FieldValue(d, Name) == d.name && FieldValue(d, Email) == d.email;
    assert FieldValue(d, Phone) == d.phone && FieldValue(d, StudentId) == d.studentId;
  }

  /** The dialog for one event. */
  class EventRegistration {
    const event: Event
    var formData: RegistrationData

    constructor (event: Event)
      ensures this.event == event && formData == EmptyRegistration
    {
      this.event := event;
      formData := EmptyRegistration;
    }

    /** `handleInputChange`: only the field the input names changes. */
    method HandleInputChange(f: RegistrationField, v: string)
      modifies this
      ensures formData == WithField(old(formData), f, v)
    {
      formData := WithField(formData, f, v);
    }

    /** `handleSubmit`: rejected with the form unchanged when a required
      field is empty; otherwise the form is cleared and the dialog asks to
      be closed (`closed`). The count of the event is not touched. */
    method HandleSubmit() returns (closed: bool)
      modifies this
      ensures closed <==> RequiredFilled(old(formData))
      ensures formData == if closed then EmptyRegistration else old(formData)
    {
      if !RequiredFilled(formData) {
        return false;
      }
      formData := EmptyRegistration;
      closed := true;
    }
  }

  /** The dialog's own colour table is keyed by capitalised category names. */
  const RegistrationColors: map<string, string> := map[
    "Workshop" := WorkshopColor,
    "Cultural" := CulturalColor,
    "Competition" := CompetitionColor,
    "Career" := CareerColor]

  const GrayColor := "bg-gray-100 text-gray-800 dark:bg-gray-700 dark:text-gray-200"

  /** Badge colour in the dialog: the capitalised table's entry, or gray. */
  function RegistrationCategoryColor(category: string): (color: string)
    ensures category in RegistrationColors ==> color == RegistrationColors[category]
    ensures category !in RegistrationColors ==> color == GrayColor
  {
    if category in RegistrationColors then RegistrationColors[category] else GrayColor
  }

  /** Every category the rest of the site stores is lower case, so in the
      dialog every one of them is shown gray. */
  lemma StoredCategoriesShowGray(category: string)
    requires category in CategoryColors
    ensures RegistrationCategoryColor(category) == GrayColor
  {
  }

  /** "spots remaining" is `event.spots - event.registered`; when either
      field is missing the subtraction is `NaN`, written `None`. */
  function SpotsRemaining(e: Event): (r: Option<int>)
    ensures r.Some? <==> e.spots.Some? && e.registered.Some?
    ensures r.Some? ==> r.value + e.registered.value == e.spots.value
  {
    if e.spots.Some? && e.registered.Some? then Some(e.spots.value - e.registered.value) else None
  }

  /** The figure ignores the participant count: registrations never move it. */
  lemma SpotsIgnoreRegistrations(s: seq<Event>, id: string, k: nat)
    requires k < |s|
    ensures SpotsRemaining(IncrementById(s, id)[k]) == SpotsRemaining(s[k])
  {
  }

  /** Every record the event list seeds shows 20 spots remaining, whatever
      its count and limit; every record the dashboard seeds shows `NaN`. */
  lemma DefaultSpotsRemaining()
    ensures forall i :: 0 <= i < |ListDefaults| ==> SpotsRemaining(ListDefaults[i]) == Some(20)
    ensures forall i :: 0 <= i < |AdminDefaults| ==> SpotsRemaining(AdminDefaults[i]) == None
  {
  }
}
