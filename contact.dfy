/** The contact form: four fields, of which name, email and message are
    required; a valid submission only clears the form. */
module Contact {

  datatype ContactData = ContactData(name: string, email: string, subject: string, message: string)

  const EmptyContact := ContactData("", "", "", "")

  /** The `name` attributes of the form's inputs. */
  datatype ContactField = Name | Email | Subject | MessageBody

  function FieldValue(d: ContactData, f: ContactField): string
  {
    match f
    case Name => d.name
    case Email => d.email
    case Subject => d.subject
    case MessageBody => d.message
  }

  /** `{ ...formData, [name]: value }`: the named field takes the value and
      every other field keeps its own. */
  function WithField(d: ContactData, f: ContactField, v: string): (r: ContactData)
    ensures FieldValue(r, f) == v
    ensures forall g :: g != f ==> FieldValue(r, g) == FieldValue(d, g)
  {
    match f
    case Name => d.(name := v)
    case Email => d.(email := v)
    case Subject => d.(subject := v)
    case MessageBody => d.(message := v)
  }

  /** Name, email and message are required; the subject is optional. */
  predicate RequiredFilled(d: ContactData)
  {
    d.name != "" && d.email != "" && d.message != ""
  }

  /** Only the subject may be left empty. */
  lemma RequiredFilledIff(d: ContactData)
    ensures RequiredFilled(d) <==> forall f :: f != Subject ==> FieldValue(d, f) != ""
  {
    assert FieldValue(d, Name) == d.name && FieldValue(d, Email) == d.email;
    assert FieldValue(d, MessageBody) == d.message;
  }

  /** Typing in the subject never changes whether the form can be sent. */
  lemma SubjectIrrelevant(d: ContactData, v: string)
    ensures RequiredFilled(WithField(d, Subject, v)) == RequiredFilled(d)
  {
    assert FieldValue(WithField(d, Subject, v), Name) == d.name;
    assert FieldValue(WithField(d, Subject, v), Email) == d.email;
    assert FieldValue(WithField(d, Subject, v), MessageBody) == d.message;
  }

  class ContactSection {
    var formData: ContactData

    constructor ()
      ensures formData == EmptyContact
    {
      formData := EmptyContact;
    }

    /** `handleInputChange`: only the field the input names changes. */
    method HandleInputChange(f: ContactField, v: string)
      modifies this
      ensures formData == WithField(old(formData), f, v)
    {
      formData := WithField(formData, f, v);
    }

    /** `handleSubmit`: rejected with the form unchanged when a required
        field is empty; otherwise (the message is not sent anywhere) all four
        fields are cleared. */
    method HandleSubmit() returns (sent: bool)
      modifies this
      ensures sent <==> RequiredFilled(old(formData))
      ensures formData == if sent then EmptyContact else old(formData)
    {
      if !RequiredFilled(formData) {
        return false;
      }
      formData := EmptyContact;
      sent := true;
    }
  }
}
