/** The create-customer dialog: its form, the error record `validateForm`
    fills field by field, and the effect that pre-fills the full name. */
module CustomerForm {
  import opened Wrappers
  import opened Js
  import NewRentalModal

  /** `CreateCustomerRequest` */
  datatype CustomerRequest = CustomerRequest(fullName: string, dni: int, phone: string, email: string)

  /** The four inputs, by their `name` attribute. */
  datatype CustomerField = FullNameField | DniField | PhoneField | EmailField

  const AllFields: set<CustomerField> := {FullNameField, DniField, PhoneField, EmailField}

  const EmptyRequest := CustomerRequest("", 0, "", "")

  const FullNameRequired := "El nombre completo es requerido"
  const DniRequired := "El DNI es requerido y debe ser válido"
  const PhoneRequired := "El teléfono es requerido"
  const EmailRequired := "El email es requerido"
  const EmailInvalid := "El email debe ser válido"

  /** `/\S+@\S+\.\S+/.test(s)`: somewhere in `s` a non-space character, an
      `@`, a run of non-space characters, a `.` and a non-space character
      follow each other (the pattern is not anchored, so one character on
      each outer side is enough). */
  predicate EmailPattern(s: string) {
    exists at, dot :: 1 <= at && at + 2 <= dot && dot + 1 < |s| && EmailShape(s, at, dot)
  }

  predicate EmailShape(s: string, at: int, dot: int)
    requires 1 <= at && at + 2 <= dot && dot + 1 < |s|
  {
    s[at] == '@' && s[dot] == '.' && !IsSpace(s[at - 1]) && !IsSpace(s[dot + 1]) &&
    forall k :: at < k < dot ==> !IsSpace(s[k])
  }

  /** The error one field of the form gets, if any. */
  function FieldError(f: CustomerRequest, field: CustomerField): Option<string> {
    match field
    case FullNameField => if AllSpace(f.fullName) then Some(FullNameRequired) else None
    case DniField => if f.dni <= 0 then Some(DniRequired) else None
    case PhoneField => if AllSpace(f.phone) then Some(PhoneRequired) else None
    case EmailField =>
      if AllSpace(f.email) then Some(EmailRequired)
      else if !EmailPattern(f.email) then Some(EmailInvalid)
      else None
  }

  /** The error record of a form: each field with an error, and its message. */
  function FormErrors(f: CustomerRequest): (e: map<CustomerField, string>)
    ensures forall field :: field in e <==> FieldError(f, field).Some?
    ensures forall field :: field in e ==> e[field] == FieldError(f, field).value
  {
    forall field: CustomerField ensures field in AllFields {
      assert field.FullNameField? || field.DniField? || field.PhoneField? || field.EmailField?;
    }
    map field | field in AllFields && FieldError(f, field).Some? :: FieldError(f, field).value
  }

  /** `parseInt(value) || 0`: text without a leading integer, and zero, give 0. */
  function DniOf(value: string): int {
    match ParseInt(value)
    case None => 0
    case Some(n) => n
  }

  /** The form after `handleChange` writes one input. */
  function SetField(f: CustomerRequest, field: CustomerField, value: string): CustomerRequest {
    match field
    case FullNameField => f.(fullName := value)
    case DniField => f.(dni := DniOf(value))
    case PhoneField => f.(phone := value)
    case EmailField => f.(email := value)
  }

  /** The name effect as written: it depends on the full name as well as on
      `initialName`, so it runs after every edit of the name. */
  function InitialNameEffectAsWritten(f: CustomerRequest, initialName: string): (g: CustomerRequest)
    ensures g.(fullName := f.fullName) == f
    ensures initialName != "" ==> g.fullName == initialName
    ensures initialName == "" ==> g == f
  {
    if initialName != "" && initialName != f.fullName then f.(fullName := initialName) else f
  }

  /** The name effect as its comment describes it: the name follows
      `initialName` when that prop changes (`previous` is the value the
      effect last ran for). */
  function InitialNameEffect(f: CustomerRequest, initialName: string, previous: Option<string>): (g: CustomerRequest)
    ensures g.(fullName := f.fullName) == f
    ensures previous == Some(initialName) || initialName == "" ==> g == f
    ensures previous != Some(initialName) && initialName != "" ==> g.fullName == initialName
  {
    if previous != Some(initialName) && initialName != "" && initialName != f.fullName
    then f.(fullName := initialName)
    else f
  }

  /** The effect has settled: either there is no `initialName`, or the name
      already equals it. */
  predicate NameSettled(f: CustomerRequest, initialName: string) {
    initialName == "" || f.fullName == initialName
  }

  /** The dialog's state. `initialName` is the prop; the name effect of lines
      29-34 depends on it and on `formData.fullName`, so it runs again after
      every handler that changes either of them. */
  class CustomerDialog {
    var form: CustomerRequest
    var errors: map<CustomerField, string>
    var initialName: string

    constructor(initialName: string)
      ensures form == EmptyRequest.(fullName := initialName) && errors == map[]
      ensures this.initialName == initialName
      ensures NameSettled(form, this.initialName)
    {
      form := EmptyRequest.(fullName := initialName);
      errors := map[];
      this.initialName := initialName;
    }

    /** A new `initialName` prop, and the effect it triggers. */
    method SyncInitialName(p: string)
      modifies this
      ensures initialName == p && errors == old(errors)
      ensures form == InitialNameEffectAsWritten(old(form), p)
      ensures NameSettled(form, initialName)
    {
      initialName := p;
      if initialName != "" && initialName != form.fullName {
        form := form.(fullName := initialName);
      }
    }

    /** `handleChange`: writes the input and clears that input's error if it
        shows one; then the name effect runs, because the name may have
        changed. A settled name is left alone by that run (`SettledEffectIsNoOp`),
        so running it after an edit of another input is harmless. */
    method HandleChange(field: CustomerField, value: string)
      modifies this
      ensures form == InitialNameEffectAsWritten(SetField(old(form), field, value), initialName)
      ensures errors == if field in old(errors) && old(errors)[field] != "" then old(errors)[field := ""] else old(errors)
      ensures initialName == old(initialName)
      ensures NameSettled(form, initialName)
    {
      match field {
        case FullNameField => form := form.(fullName := value);
        case DniField =>
          var parsed := ParseInt(value);
          form := form.(dni := if parsed.Some? then parsed.value else 0);
        case PhoneField => form := form.(phone := value);
        case EmailField => form := form.(email := value);
      }
      if field in errors && errors[field] != "" {
        errors := errors[field := ""];
      }
      if initialName != "" && initialName != form.fullName {
        form := form.(fullName := initialName);
      }
    }

    /** `validateForm`: fills a fresh error record field by field, stores it,
        and reports whether it stayed empty. */
    method ValidateForm() returns (valid: bool)
      modifies this
      ensures errors == FormErrors(form)
      ensures valid <==> FormErrors(form) == map[]
      ensures form == old(form) && initialName == old(initialName)
    {
      var newErrors := CollectErrors(form);
      errors := newErrors;
      valid := |newErrors.Keys| == 0;
      if valid {
        assert newErrors.Keys == {};
        assert newErrors == map[];
      } else {
        assert newErrors.Keys != {};
      }
    }

    /** `handleClose`: the empty form and no errors; then the name effect
        runs, which puts a non-empty `initialName` back into the name. */
    method HandleClose()
      modifies this
      ensures form == EmptyRequest.(fullName := initialName) && errors == map[]
      ensures initialName == old(initialName)
    {
      form := EmptyRequest;
      errors := map[];
      if initialName != "" && initialName != form.fullName {
        form := form.(fullName := initialName);
      }
    }

    /** `handleSubmit`; `created` is what the create mutation answers. Returns
        the request sent to the mutation, the customer handed to
        `onCustomerCreated` and whether the dialog closed. */
    method HandleSubmit(created: Result<NewRentalModal.Customer, string>)
      returns (sent: Option<CustomerRequest>, delivered: Option<NewRentalModal.Customer>, closed: bool)
      modifies this
      ensures sent.Some? <==> FormErrors(old(form)) == map[]
      ensures sent.Some? ==> sent.value == old(form)
      ensures delivered.Some? <==> sent.Some? && created.Success?
      ensures delivered.Some? ==> delivered.value == created.value
      ensures closed <==> delivered.Some?
      ensures closed ==> form == EmptyRequest.(fullName := initialName) && errors == map[]
      ensures !closed ==> form == old(form) && errors == FormErrors(old(form))
      ensures initialName == old(initialName)
    {
      sent, delivered, closed := None, None, false;
      var valid := ValidateForm();
      if !valid {
        return;
      }
      sent := Some(form);
      if created.Success? {
        delivered := Some(created.value);
        HandleClose();
        closed := true;
      }
    }
  }

  /** The body of `validateForm`: one `if` per field, each adding that
      field's message to the record. */
  method CollectErrors(f: CustomerRequest) returns (newErrors: map<CustomerField, string>)
    ensures newErrors == FormErrors(f)
  {
    newErrors := map[];
    var nameBlank := Trim(f.fullName) == "";
    var phoneBlank := Trim(f.phone) == "";
    var emailBlank := Trim(f.email) == "";
    var emailShaped := EmailPattern(f.email);
    TrimEmptyIffBlank(f.fullName);
    TrimEmptyIffBlank(f.phone);
    TrimEmptyIffBlank(f.email);
    if nameBlank {
      newErrors := newErrors[FullNameField := FullNameRequired];
    }
    ghost var e1 := newErrors;
    if f.dni == 0 || f.dni <= 0 {
      newErrors := newErrors[DniField := DniRequired];
    }
    ghost var e2 := newErrors;
    if phoneBlank {
      newErrors := newErrors[PhoneField := PhoneRequired];
    }
    ghost var e3 := newErrors;
    if emailBlank {
      newErrors := newErrors[EmailField := EmailRequired];
    } else if !emailShaped {
      newErrors := newErrors[EmailField := EmailInvalid];
    }
    ErrorsFromSteps(f, nameBlank, phoneBlank, emailBlank, emailShaped, e1, e2, e3, newErrors);
  }

  /** The record `validateForm` builds, one field at a time, is the error
      record of the form. */
  lemma ErrorsFromSteps(f: CustomerRequest, nameBlank: bool, phoneBlank: bool, emailBlank: bool, emailShaped: bool,
                        e1: map<CustomerField, string>, e2: map<CustomerField, string>,
                        e3: map<CustomerField, string>, m: map<CustomerField, string>)
    requires nameBlank == AllSpace(f.fullName) && phoneBlank == AllSpace(f.phone)
    requires emailBlank == AllSpace(f.email) && emailShaped == EmailPattern(f.email)
    requires e1 == if nameBlank then map[FullNameField := FullNameRequired] else map[]
    requires e2 == if f.dni <= 0 then e1[DniField := DniRequired] else e1
    requires e3 == if phoneBlank then e2[PhoneField := PhoneRequired] else e2
    requires m == if emailBlank then e3[EmailField := EmailRequired]
      else if !emailShaped then e3[EmailField := EmailInvalid] else e3
    ensures m == FormErrors(f)
  {
    var e := FormErrors(f);
    forall field ensures field in m <==> field in e {
      assert field.FullNameField? || field.DniField? || field.PhoneField? || field.EmailField?;
    }
  }

  // ------------------------------------------------------------ lemmas

  /** The full name and the phone are required: blank or white space only. */
  lemma RequiredTextFields(f: CustomerRequest)
    ensures FullNameField in FormErrors(f) <==> Trim(f.fullName) == ""
    ensures PhoneField in FormErrors(f) <==> Trim(f.phone) == ""
  {
    TrimEmptyIffBlank(f.fullName);
    TrimEmptyIffBlank(f.phone);
  }

  /** A DNI error exactly for a DNI that is not positive. */
  lemma DniMustBePositive(f: CustomerRequest)
    ensures DniField in FormErrors(f) <==> f.dni <= 0
  {
  }

  /** The email gets one message at most: "required" for a blank address,
      "invalid" for one without the pattern. */
  lemma EmailMessages(f: CustomerRequest)
    ensures EmailField in FormErrors(f) ==>
      (FormErrors(f)[EmailField] == EmailRequired <==> Trim(f.email) == "")
    ensures EmailField in FormErrors(f) ==>
      (FormErrors(f)[EmailField] == EmailInvalid <==> Trim(f.email) != "" && !EmailPattern(f.email))
    ensures EmailField !in FormErrors(f) <==> EmailPattern(f.email)
  {
    TrimEmptyIffBlank(f.email);
    if EmailPattern(f.email) {
      var at, dot :| 1 <= at && at + 2 <= dot && dot + 1 < |f.email| && EmailShape(f.email, at, dot);
      assert !IsSpace(f.email[at - 1]);
    }
  }

  /** A typical address passes and a bare name does not; a shape such as
      `a@b.c` inside a longer text is enough. */
  lemma EmailExamples()
    ensures EmailPattern("ana@mail.com")
    ensures EmailPattern("x a@b.c y")
    ensures !EmailPattern("ana@mail")
  {
    assert EmailShape("ana@mail.com", 3, 8);
    assert EmailShape("x a@b.c y", 3, 5);
    var s := "ana@mail";
    forall at, dot | 1 <= at && at + 2 <= dot && dot + 1 < |s| ensures !EmailShape(s, at, dot) {
      assert s[dot] != '.';
    }
  }

  /** The DNI input reads back every integer typed in decimal, and gives 0
      for text without digits. */
  lemma DniInput(n: int)
    ensures DniOf(IntToString(n)) == n
    ensures DniOf("") == 0 && DniOf("abc") == 0
  {
    ParseIntOfIntToString(n);
    assert TrimStart("abc") == "abc" by { assert !IsSpace('a'); }
    assert DigitPrefix("abc", 10) == [] by { assert DigitValue('a') == 10; }
    assert ParseInt("abc") == None;
  }

  /** A valid form has a name, a positive DNI, a phone, and an address with
      an `@` followed later by a `.`. */
  lemma ValidFormShape(f: CustomerRequest)
    requires FormErrors(f) == map[]
    ensures !AllSpace(f.fullName) && f.dni > 0 && !AllSpace(f.phone)
    ensures exists i, j :: 0 <= i < j < |f.email| && f.email[i] == '@' && f.email[j] == '.'
  {
    assert FieldError(f, EmailField).None?;
    assert FieldError(f, FullNameField).None?;
    assert FieldError(f, DniField).None?;
    assert FieldError(f, PhoneField).None?;
    var at, dot :| 1 <= at && at + 2 <= dot && dot + 1 < |f.email| && EmailShape(f.email, at, dot);
    assert f.email[at] == '@' && f.email[dot] == '.';
  }

  /** As written, a non-empty `initialName` wins over every edit of the name:
      the effect runs again after the edit and puts the prop back. */
  lemma NameEditRevertedAsWritten(f: CustomerRequest, initialName: string, typed: string)
    requires initialName != ""
    ensures InitialNameEffectAsWritten(SetField(f, FullNameField, typed), initialName).fullName == initialName
  {
  }

  /** The effect as written always leaves a settled name, and a settled
      name is a fixed point of it: running it again changes nothing. */
  lemma SettledEffectIsNoOp(f: CustomerRequest, initialName: string)
    ensures NameSettled(InitialNameEffectAsWritten(f, initialName), initialName)
    ensures NameSettled(f, initialName) <==> InitialNameEffectAsWritten(f, initialName) == f
    ensures InitialNameEffectAsWritten(f, initialName).(fullName := f.fullName) == f
  {
  }

  /** The concrete case: prefilled with "Juan", typing "Juan Perez" leaves
      "Juan". */
  lemma NameEditRevertedExample()
    ensures InitialNameEffectAsWritten(SetField(EmptyRequest.(fullName := "Juan"), FullNameField, "Juan Perez"), "Juan").fullName == "Juan"
  {
  }

  /** With the effect keyed on the prop, an edit survives while the prop
      stays the same, and a new prop still replaces the name. */
  lemma NameEditKept(f: CustomerRequest, initialName: string, typed: string, previous: string)
    ensures InitialNameEffect(SetField(f, FullNameField, typed), initialName, Some(initialName)).fullName == typed
    ensures previous != initialName && initialName != "" ==>
      InitialNameEffect(f, initialName, Some(previous)).fullName == initialName
  {
  }
}
