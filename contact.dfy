/** The contact form: a three-field draft edited one field at a time and
    cleared on submit. Submitting sends nothing; it shows a success toast,
    recorded here in a ghost log. */
module Contact {

  datatype ContactForm = ContactForm(name: string, email: string, message: string)

  /** The three inputs of the form. */
  datatype Field = Name | Email | Message

  const EmptyForm := ContactForm("", "", "")

  const SuccessMessage: string := "Message sent successfully!"

  /** The value of one field. */
  function Get(f: ContactForm, k: Field): string
  {
    match k
    case Name => f.name
    case Email => f.email
    case Message => f.message
  }

  /** `{ ...formData, [k]: value }`: field `k` takes `value`. */
  function With(f: ContactForm, k: Field, value: string): (r: ContactForm)
    ensures Get(r, k) == value
    ensures forall other: Field :: other != k ==> Get(r, other) == Get(f, other)
  {
    match k
    case Name => f.(name := value)
    case Email => f.(email := value)
    case Message => f.(message := value)
  }

  /** Typing into the same input twice keeps only the second value. */
  lemma WithOverwrites(f: ContactForm, k: Field, v: string, w: string)
    ensures With(With(f, k, v), k, w) == With(f, k, w)
  {
  }

  /** Edits of two different inputs give the same form in either order. */
  lemma WithCommutes(f: ContactForm, k: Field, v: string, j: Field, w: string)
    requires j != k
    ensures With(With(f, k, v), j, w) == With(With(f, j, w), k, v)
  {
  }

  /** The browser's check of the `required` inputs: the submit event
      reaches the handler only when every field is non-empty. */
  predicate FilledIn(f: ContactForm)
  {
    f.name != "" && f.email != "" && f.message != ""
  }

  class ContactSection {
    var formData: ContactForm
    /** The toasts shown so far. */
    ghost var notifications: seq<string>

    /** The form starts with every field empty. */
    constructor ()
      ensures formData == EmptyForm && notifications == []
    {
      formData := EmptyForm;
      notifications := [];
    }

    /** The `onChange` of input `k`. */
    method HandleChange(k: Field, value: string)
      modifies this`formData
      ensures formData == With(old(formData), k, value)
      ensures Get(formData, k) == value
      ensures forall other: Field :: other != k ==> Get(formData, other) == Get(old(formData), other)
    {
      formData := With(formData, k, value);
    }

    /** `handleSubmit`: shows the success toast and clears every field. The
        handler itself checks nothing and has no failure path; the browser's
        check of the inputs runs before it (see `SubmitEvent`). */
    method HandleSubmit()
      modifies this
      ensures formData == EmptyForm
      ensures notifications == old(notifications) + [SuccessMessage]
    {
      notifications := notifications + [SuccessMessage];
      formData := EmptyForm;
    }

    /** The "Send Message" button: a form with an empty field is stopped by
        the browser and nothing changes; otherwise `handleSubmit` runs. */
    method SubmitEvent()
      modifies this
      ensures FilledIn(old(formData)) ==>
        formData == EmptyForm && notifications == old(notifications) + [SuccessMessage]
      ensures !FilledIn(old(formData)) ==>
        formData == old(formData) && notifications == old(notifications)
    {
      if FilledIn(formData) {
        HandleSubmit();
      }
    }
  }
}
