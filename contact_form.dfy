/** The single-page contact form (ContactForm): its answers, the error map its
    validation produces, and the change and submit handlers. */
module ContactForm {
  import opened Text

  /** The inputs of the form, by their `name` attribute. */
  datatype ContactField = NameField | EmailField | PhoneField | CompanyField | InterestField | MessageField

  /** `FormState`: the answers, the interest being the value of the router
      dropdown. */
  datatype Answers = Answers(name: string, email: string, phone: string, company: string,
                             interest: string, message: string)
  {
    /** `form[field]` */
    function Get(field: ContactField): string {
      match field
      case NameField => name
      case EmailField => email
      case PhoneField => phone
      case CompanyField => company
      case InterestField => interest
      case MessageField => message
    }

    /** `{ ...form, [field]: value }` */
    function With(field: ContactField, value: string): (r: Answers)
      ensures r.Get(field) == value
      ensures forall other :: other != field ==> r.Get(other) == Get(other)
    {
      match field
      case NameField => this.(name := value)
      case EmailField => this.(email := value)
      case PhoneField => this.(phone := value)
      case CompanyField => this.(company := value)
      case InterestField => this.(interest := value)
      case MessageField => this.(message := value)
    }
  }

  const NameRequired: string := "Name is required"
  const EmailRequired: string := "Email is required"
  const EmailInvalid: string := "Please enter a valid email"
  const MessageRequired: string := "Message is required"

  /** The interest selected when the page gives none. */
  const DefaultInterest: string := "general"

  /** The errors `validateForm` finds: a blank name, a blank or malformed e-mail
      (the pattern is tested on the untrimmed text), a blank message. The phone,
      the company and the interest are never in error. */
  function ErrorsOf(a: Answers): (r: map<ContactField, string>)
    ensures forall f :: f in r ==> f == NameField || f == EmailField || f == MessageField
    ensures NameField in r <==> IsBlank(a.name)
    ensures MessageField in r <==> IsBlank(a.message)
    ensures EmailField in r <==> !MatchesEmailPattern(a.email)
    ensures NameField in r ==> r[NameField] == NameRequired
    ensures MessageField in r ==> r[MessageField] == MessageRequired
    ensures EmailField in r ==> r[EmailField] == if IsBlank(a.email) then EmailRequired else EmailInvalid
  {
    assert MatchesEmailPattern(a.email) ==> !IsBlank(a.email) by {
      if MatchesEmailPattern(a.email) {
        EmailPatternNotBlank(a.email);
      }
    }
    var withName := if IsBlank(a.name) then map[NameField := NameRequired] else map[];
    var withEmail :=
      if IsBlank(a.email) then withName[EmailField := EmailRequired]
      else if !MatchesEmailPattern(a.email) then withName[EmailField := EmailInvalid]
      else withName;
    if IsBlank(a.message) then withEmail[MessageField := MessageRequired] else withEmail
  }

  /** The form passes validation exactly when the name and the message are not
      blank and the e-mail matches the pattern. */
  lemma ValidIff(a: Answers)
    ensures ErrorsOf(a) == map[] <==> !IsBlank(a.name) && MatchesEmailPattern(a.email) && !IsBlank(a.message)
  {
    var r := ErrorsOf(a);
    if !IsBlank(a.name) && MatchesEmailPattern(a.email) && !IsBlank(a.message) {
      assert r.Keys == {};
    }
    if r == map[] {
      assert NameField !in r && EmailField !in r && MessageField !in r;
    }
  }

  /** Editing the phone, the company or the interest never changes the
      validation's verdict. */
  lemma UncheckedFieldsIgnored(a: Answers, field: ContactField, value: string)
    requires field in {PhoneField, CompanyField, InterestField}
    ensures ErrorsOf(a.With(field, value)) == ErrorsOf(a)
  {
    var b := a.With(field, value);
    assert b.name == a.name && b.email == a.email && b.message == a.message by {
      assert b.Get(NameField) == a.Get(NameField);
      assert b.Get(EmailField) == a.Get(EmailField);
      assert b.Get(MessageField) == a.Get(MessageField);
    }
  }

  class Form {
    var form: Answers
    /** The shown errors; a field without an entry has none. */
    var errors: map<ContactField, string>
    var isSubmitting: bool
    var isSubmitted: bool

    /** Every stored error is a message, so a field with an entry shows it. */
    ghost predicate Valid()
      reads this
    {
      forall f :: f in errors ==> errors[f] != ""
    }

    constructor (defaultInterest: string)
      ensures form == Answers("", "", "", "", defaultInterest, "")
      ensures Valid() && errors == map[] && !isSubmitting && !isSubmitted
    {
      form := Answers("", "", "", "", defaultInterest, "");
      errors := map[];
      isSubmitting := false;
      isSubmitted := false;
    }

    /** `validateForm`: the errors are collected check by check, stored, and the
        form is valid when there are none. */
    method Validate() returns (ok: bool)
      modifies this`errors
      ensures Valid() && errors == ErrorsOf(form)
      ensures ok <==> errors == map[]
    {
      var a := form;
      var newErrors: map<ContactField, string> := map[];
      if IsBlank(a.name) {
        newErrors := newErrors[NameField := NameRequired];
      }
      if IsBlank(a.email) {
        newErrors := newErrors[EmailField := EmailRequired];
      } else if !MatchesEmailPattern(a.email) {
        newErrors := newErrors[EmailField := EmailInvalid];
      }
      if IsBlank(a.message) {
        newErrors := newErrors[MessageField := MessageRequired];
      }
      assert newErrors == ErrorsOf(a);
      errors := newErrors;
      ok := newErrors == map[];
    }

    /** `handleSubmit`: an invalid form only shows its errors; a valid one is
        sent (the network call is simulated) and the form is marked as
        submitted. */
    method Submit()
      requires !isSubmitting
      modifies this`errors, this`isSubmitting, this`isSubmitted
      ensures Valid() && errors == ErrorsOf(form) && !isSubmitting
      ensures isSubmitted == (old(isSubmitted) || ErrorsOf(form) == map[])
    {
      var ok := Validate();
      if !ok {
        return;
      }
      isSubmitting := true;
      isSubmitting := false;
      isSubmitted := true;
    }

    /** `handleChange`: the edited answer is replaced and only that field's
        error is cleared. */
    method Change(field: ContactField, value: string)
      requires Valid()
      modifies this`form, this`errors
      ensures Valid()
      ensures form == old(form).With(field, value)
      ensures field !in errors
      ensures forall other :: other != field ==>
        (other in errors <==> other in old(errors)) && (other in errors ==> errors[other] == old(errors)[other])
    {
      form := form.With(field, value);
      if field in errors && errors[field] != "" {
        errors := errors - {field};
      }
    }
  }
}
