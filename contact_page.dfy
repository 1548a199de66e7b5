/** The contact form: an ordered chain of checks, then a simulated send. */
module ContactPage {
  import opened Js
  import Text

  const NameRequired := "Name is required."
  const EmailInvalid := "Please enter a valid email address."
  const MessageRequired := "Message cannot be empty."
  const TermsRequired := "You must accept the terms before submitting."
  const Sent := "Message sent successfully!"

  datatype ContactForm = ContactForm(firstName: string, email: string, message: string, acceptTerms: bool)

  const EmptyForm := ContactForm("", "", "", false)

  /** The message of the first check that fails, in the order name, email, message,
      terms; nothing when all pass. */
  function FirstFailure(f: ContactForm): (r: Option<string>)
    ensures r.None? <==>
      !Text.Blank(f.firstName) && Text.EmailPattern(f.email) && !Text.Blank(f.message) && f.acceptTerms
    ensures Text.Blank(f.firstName) ==> r == Some(NameRequired)
    ensures !Text.Blank(f.firstName) && !Text.EmailPattern(f.email) ==> r == Some(EmailInvalid)
    ensures !Text.Blank(f.firstName) && Text.EmailPattern(f.email) && Text.Blank(f.message) ==>
      r == Some(MessageRequired)
    ensures !Text.Blank(f.firstName) && Text.EmailPattern(f.email) && !Text.Blank(f.message) && !f.acceptTerms ==>
      r == Some(TermsRequired)
  {
    Text.TrimEmptyIffBlank(f.firstName);
    Text.TrimEmptyIffBlank(f.message);
    if Text.Trim(f.firstName) == "" then Some(NameRequired)
    else if !Text.EmailPattern(f.email) then Some(EmailInvalid)
    else if Text.Trim(f.message) == "" then Some(MessageRequired)
    else if !f.acceptTerms then Some(TermsRequired)
    else None
  }

  /** A toast shown to the user. */
  datatype Toast = ErrorToast(text: string) | SuccessToast(text: string)

  class Contact {
    var form: ContactForm
    var loading: bool

    constructor ()
      ensures form == EmptyForm && !loading
    {
      form := EmptyForm;
      loading := false;
    }

    /** `handleSubmit`: the first failing check is reported and nothing else
        happens; when all pass, loading starts. */
    method HandleSubmit() returns (toast: Option<Toast>)
      modifies this`loading
      ensures FirstFailure(form).Some? ==>
        toast == Some(ErrorToast(FirstFailure(form).value)) && loading == old(loading)
      ensures FirstFailure(form).None? ==> toast.None? && loading
    {
      var failure := FirstFailure(form);
      if failure.Some? {
        return Some(ErrorToast(failure.value));
      }
      loading := true;
      toast := None;
    }

    /** The timer callback after a successful submit: loading stops and the form is
        reset. */
    method MessageSent() returns (toast: Toast)
      modifies this`loading, this`form
      ensures toast == SuccessToast(Sent) && !loading && form == EmptyForm
    {
      loading := false;
      form := EmptyForm;
      toast := SuccessToast(Sent);
    }
  }

  /** The empty form fails the first check, and a reset form is blocked again until
      it is filled in. */
  lemma EmptyFormRejected()
    ensures FirstFailure(EmptyForm) == Some(NameRequired)
  {
    assert Text.Blank(EmptyForm.firstName);
  }
}
