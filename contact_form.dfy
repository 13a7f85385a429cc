/** The contact form: its initial values, the validation that decides
    whether the form is submitted, and the effect of editing one field. */
module ContactForm {
  import opened Text
  import opened Js
  import ContactService

  /** The fields of the form. */
  datatype Field = Company | ContactPerson | Email | Phone | Industry | Notes

  const AllFields: set<Field> := {Company, ContactPerson, Email, Phone, Industry, Notes}

  /** The fields validation reads. */
  const CheckedFields: set<Field> := {Company, ContactPerson, Email, Phone, Industry}

  /** The key of a field in the form's data and in its error map. */
  function FieldName(f: Field): string {
    match f
    case Company => "company"
    case ContactPerson => "contactPerson"
    case Email => "email"
    case Phone => "phone"
    case Industry => "industry"
    case Notes => "notes"
  }

  /** The storage key the contact service maps each form field to. */
  function StorageKey(f: Field): string {
    match f
    case Company => "company_c"
    case ContactPerson => "contact_person_c"
    case Email => "email_c"
    case Phone => "phone_c"
    case Industry => "industry_c"
    case Notes => "notes_c"
  }

  /** Form values: one text per field. */
  type FormData = map<Field, string>

  /** No whitespace strictly between positions `i` and `j` of `s`. */
  predicate NoSpaceBetween(s: string, i: int, j: int)
    requires 0 <= i <= j <= |s|
  {
    forall k | i < k < j :: !IsSpace(s[k])
  }

  /** The regular expression `\S+@\S+\.\S+`, unanchored: somewhere in `s` a
      non-space character, an `@`, one or more non-space characters, a `.`
      and a non-space character follow one another. */
  predicate EmailShape(s: string) {
    exists at, dot | 0 < at && at + 1 < dot && dot + 1 < |s| ::
      s[at] == '@' && s[dot] == '.' && !IsSpace(s[at - 1]) && !IsSpace(s[dot + 1]) && NoSpaceBetween(s, at, dot)
  }

  /** An address the pattern accepts has an `@`, a later `.` and at least five characters. */
  lemma EmailShapeNeeds(s: string)
    requires EmailShape(s)
    ensures '@' in s && '.' in s && |s| >= 5 && !IsBlank(s)
  {
    var at, dot :| 0 < at && at + 1 < dot && dot + 1 < |s| && s[at] == '@' && s[dot] == '.' && !IsSpace(s[at - 1]);
    assert s[at] in s && s[dot] in s;
  }

  /** The check `validateForm` makes on one field: the message it records,
      or `None` when the field passes. */
  function FieldError(form: FormData, f: Field): Option<string>
    requires CheckedFields <= form.Keys
  {
    match f
    case Company => if Trim(form[Company]) == "" then Some("Company name is required") else None
    case ContactPerson => if Trim(form[ContactPerson]) == "" then Some("Contact person is required") else None
    case Email =>
      if Trim(form[Email]) == "" then Some("Email is required")
      else if !EmailShape(form[Email]) then Some("Email format is invalid")
      else None
    case Phone => if Trim(form[Phone]) == "" then Some("Phone number is required") else None
    case Industry => if form[Industry] == "" then Some("Industry is required") else None
    case Notes => None
  }

  /** The errors the checks of the fields `fs` record. */
  function ErrorsOf(form: FormData, fs: set<Field>): map<Field, string>
    requires CheckedFields <= form.Keys
  {
    map f | f in fs && FieldError(form, f).Some? :: FieldError(form, f).value
  }

  /** The error map `validateForm` returns for form values `form`. */
  function ValidationErrors(form: FormData): map<Field, string>
    requires CheckedFields <= form.Keys
  {
    ErrorsOf(form, CheckedFields)
  }

  /** Running the check of one more field adds its message, if any. */
  lemma ErrorsOfAdd(form: FormData, fs: set<Field>, f: Field)
    requires CheckedFields <= form.Keys
    ensures ErrorsOf(form, fs + {f}) ==
      if FieldError(form, f).Some? then ErrorsOf(form, fs)[f := FieldError(form, f).value] else ErrorsOf(form, fs)
  {
  }

  /** The form is acceptable: no required field is blank, the email has the
      expected shape and an industry is chosen. */
  predicate FormIsValid(form: FormData)
    requires CheckedFields <= form.Keys
  {
    && !IsBlank(form[Company]) && !IsBlank(form[ContactPerson])
    && !IsBlank(form[Email]) && EmailShape(form[Email])
    && !IsBlank(form[Phone]) && form[Industry] != ""
  }

  /** Only the checked fields can get an error; notes never do. */
  lemma ErrorKeys(form: FormData)
    requires CheckedFields <= form.Keys
    ensures ValidationErrors(form).Keys <= CheckedFields
    ensures Notes !in ValidationErrors(form)
  {
  }

  /** A required text field gets its error exactly when it is blank or
      whitespace only, and the industry exactly when none is chosen. */
  lemma RequiredFieldErrors(form: FormData)
    requires CheckedFields <= form.Keys
    ensures var e := ValidationErrors(form);
      && (Company in e <==> IsBlank(form[Company]))
      && (Company in e ==> e[Company] == "Company name is required")
      && (ContactPerson in e <==> IsBlank(form[ContactPerson]))
      && (ContactPerson in e ==> e[ContactPerson] == "Contact person is required")
      && (Phone in e <==> IsBlank(form[Phone]))
      && (Phone in e ==> e[Phone] == "Phone number is required")
      && (Industry in e <==> form[Industry] == "")
      && (Industry in e ==> e[Industry] == "Industry is required")
  {
    TrimEmptyIffBlank(form[Company]);
    TrimEmptyIffBlank(form[ContactPerson]);
    TrimEmptyIffBlank(form[Phone]);
  }

  /** The email gets an error exactly when it is blank or has not the
      expected shape: "required" for a blank one, "invalid" otherwise, never both. */
  lemma EmailErrors(form: FormData)
    requires CheckedFields <= form.Keys
    ensures var e := ValidationErrors(form);
      && (Email in e <==> IsBlank(form[Email]) || !EmailShape(form[Email]))
      && (Email in e ==> (e[Email] == "Email is required" <==> IsBlank(form[Email])))
      && (Email in e ==> (e[Email] == "Email format is invalid" <==> !IsBlank(form[Email])))
  {
    TrimEmptyIffBlank(form[Email]);
  }

  /** Every check passes. */
  predicate AllPass(form: FormData)
    requires CheckedFields <= form.Keys
  {
    && FieldError(form, Company).None? && FieldError(form, ContactPerson).None?
    && FieldError(form, Email).None? && FieldError(form, Phone).None? && FieldError(form, Industry).None?
  }

  /** The form is valid exactly when every check passes. */
  lemma ValidIffAllPass(form: FormData)
    requires CheckedFields <= form.Keys
    ensures FormIsValid(form) <==> AllPass(form)
  {
    TrimEmptyIffBlank(form[Company]);
    TrimEmptyIffBlank(form[ContactPerson]);
    TrimEmptyIffBlank(form[Email]);
    TrimEmptyIffBlank(form[Phone]);
  }

  /** The error map is empty exactly when the form is valid. */
  lemma NoErrorsIffValid(form: FormData)
    requires CheckedFields <= form.Keys
    ensures ValidationErrors(form) == map[] <==> FormIsValid(form)
  {
    var e := ValidationErrors(form);
    ValidIffAllPass(form);
    if e != map[] {
      var k :| k in e;
      assert FieldError(form, k).Some?;
    } else {
      assert Company !in e && ContactPerson !in e && Email !in e && Phone !in e && Industry !in e;
    }
  }

  /** `validateForm()`: one check after another, each adding its message. */
  method ValidateForm(form: FormData) returns (e: map<Field, string>)
    requires CheckedFields <= form.Keys
    ensures e == ValidationErrors(form)
    ensures e == map[] <==> FormIsValid(form)
  {
    e := map[];
    ghost var done: set<Field> := {};
    assert e == ErrorsOf(form, done);
    if Trim(form[Company]) == "" {
      e := e[Company := "Company name is required"];
    }
    ErrorsOfAdd(form, done, Company);
    done := done + {Company};
    if Trim(form[ContactPerson]) == "" {
      e := e[ContactPerson := "Contact person is required"];
    }
    ErrorsOfAdd(form, done, ContactPerson);
    done := done + {ContactPerson};
    if Trim(form[Email]) == "" {
      e := e[Email := "Email is required"];
    } else if !EmailShape(form[Email]) {
      e := e[Email := "Email format is invalid"];
    }
    ErrorsOfAdd(form, done, Email);
    done := done + {Email};
    if Trim(form[Phone]) == "" {
      e := e[Phone := "Phone number is required"];
    }
    ErrorsOfAdd(form, done, Phone);
    done := done + {Phone};
    if form[Industry] == "" {
      e := e[Industry := "Industry is required"];
    }
    ErrorsOfAdd(form, done, Industry);
    done := done + {Industry};
    assert done == CheckedFields;
    NoErrorsIffValid(form);
  }

  /** The text a record field holds, "" when it is missing or empty. */
  function FieldText(contact: Value, key: string): string {
    TextOf(Or(Prop(contact, key), Str("")))
  }

  /** The initial form values as the component writes them: it reads the
      form's own keys (`contact?.company`) from the contact it is given. */
  function InitialFormAsWritten(contact: Value): (form: FormData)
    ensures form.Keys == AllFields
    ensures forall f :: f in form ==> form[f] == FieldText(contact, FieldName(f))
  {
    map f | f in AllFields :: FieldText(contact, FieldName(f))
  }

  /** A record as the service returns it: none of its keys is a form key. */
  predicate StoredShape(contact: Value) {
    contact.Object? && forall f :: f in AllFields ==> FieldName(f) !in contact.fields
  }

  /** As written, editing a stored contact opens a blank form, and
      submitting it unchanged is refused for a missing company. */
  lemma InitialFormAsWrittenIsBlank(contact: Value)
    requires StoredShape(contact)
    ensures var form := InitialFormAsWritten(contact);
      && (forall f :: f in AllFields ==> form[f] == "")
      && Company in ValidationErrors(form)
  {
    var form := InitialFormAsWritten(contact);
    RequiredFieldErrors(form);
  }

  /** A stored contact with company "Acme" opens with an empty company as
      written, and with "Acme" once the stored key is read. */
  lemma StoredCompanyExample()
    ensures var c := Object(map["company_c" := Str("Acme")]);
      && InitialFormAsWritten(c)[Company] == ""
      && InitialForm(c)[Company] == "Acme"
      && Company in ValidationErrors(InitialFormAsWritten(c))
  {
    var c := Object(map["company_c" := Str("Acme")]);
    assert StoredShape(c);
    InitialFormAsWrittenIsBlank(c);
    assert InitialForm(c)[Company] == FieldText(c, "company_c");
  }

  /** The initial form values read from the stored keys of the contact
      being edited, or empty for a new contact. */
  function InitialForm(contact: Value): (form: FormData)
    ensures form.Keys == AllFields
    ensures forall f :: f in form ==> form[f] == FieldText(contact, StorageKey(f))
  {
    map f | f in AllFields :: FieldText(contact, StorageKey(f))
  }

  /** The corrected form opens a filled stored contact with its values. */
  lemma InitialFormFilled(contact: Value)
    requires FilledRecord(contact)
    ensures forall f :: f in AllFields ==> InitialForm(contact)[f] == Prop(contact, StorageKey(f)).s
  {
  }

  /** The form values as the record handed to the service. */
  function AsRecord(form: FormData): (d: Obj)
    ensures forall f :: f in form ==> FieldName(f) in d && d[FieldName(f)] == Str(form[f])
  {
    map k | k in FieldNames(form) :: Str(form[NameField(k)])
  }

  function FieldNames(form: FormData): set<string> {
    set f | f in form :: FieldName(f)
  }

  /** The field a form key names; the inverse of `FieldName`. */
  function NameField(k: string): (f: Field)
    requires exists f :: FieldName(f) == k
    ensures FieldName(f) == k
  {
    match k
    case "company" => Company
    case "contactPerson" => ContactPerson
    case "email" => Email
    case "phone" => Phone
    case "industry" => Industry
    case _ => Notes
  }

  /** A stored record whose mapped fields are non-empty strings. */
  predicate FilledRecord(contact: Value) {
    forall f :: f in AllFields ==> Prop(contact, StorageKey(f)).Str? && Prop(contact, StorageKey(f)).s != ""
  }

  /** Opening a filled contact for editing and submitting the form
      unchanged sends back, for each field, exactly the stored value. */
  lemma InitialFormRoundTrip(contact: Value, f: Field)
    requires FilledRecord(contact)
    ensures var sent := ContactService.AliasFields(AsRecord(InitialForm(contact)));
      StorageKey(f) in sent && sent[StorageKey(f)] == Prop(contact, StorageKey(f))
  {
    var d := AsRecord(InitialForm(contact));
    var sent := ContactService.AliasFields(d);
    assert ContactService.TakesAlias(d, sent, StorageKey(f), FieldName(f)) by {
      assert ContactService.MapsAliases(d, sent);
      match f
      case Company =>
      case ContactPerson =>
      case Email =>
      case Phone =>
      case Industry =>
      case Notes =>
    }
    assert Get(d, FieldName(f)) == Str(FieldText(contact, StorageKey(f)));
  }

  /** The form state. */
  class Form {
    var formData: FormData
    var errors: map<Field, string>
    var isSubmitting: bool

    predicate Valid()
      reads this
    {
      AllFields <= formData.Keys
    }

    /** The form opened on `contact` (`null` for a new contact). */
    constructor (contact: Value)
      ensures Valid()
      ensures formData == InitialForm(contact) && errors == map[] && !isSubmitting
    {
      formData := InitialForm(contact);
      errors := map[];
      isSubmitting := false;
    }

    /** `handleSubmit`: a form with errors shows them and is not submitted;
        a valid form clears the errors and is handed to `onSubmit`, whose
        failure is only logged. */
    method HandleSubmit() returns (submitted: bool)
      requires Valid()
      modifies this
      ensures Valid()
      ensures submitted <==> FormIsValid(formData)
      ensures !submitted ==> errors == ValidationErrors(formData) && isSubmitting == old(isSubmitting)
      ensures submitted ==> errors == map[] && !isSubmitting
      ensures formData == old(formData)
    {
      var newErrors := ValidateForm(formData);
      if newErrors != map[] {
        errors := newErrors;
        return false;
      }
      isSubmitting := true;
      errors := map[];
      isSubmitting := false;
      return true;
    }

    /** `handleChange(field, value)`: sets that one field, and blanks its
        error only when one is shown. */
    method HandleChange(field: Field, value: string)
      requires Valid()
      modifies this
      ensures Valid()
      ensures formData == old(formData)[field := value]
      ensures field in old(errors) && old(errors)[field] != "" ==> errors == old(errors)[field := ""]
      ensures !(field in old(errors) && old(errors)[field] != "") ==> errors == old(errors)
      ensures isSubmitting == old(isSubmitting)
    {
      formData := formData[field := value];
      if field in errors && errors[field] != "" {
        errors := errors[field := ""];
      }
    }
  }
}
