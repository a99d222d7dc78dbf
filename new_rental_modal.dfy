/** The new-rental dialog: a customer picker filtered by name or DNI, a
    form whose submission needs every required field, and the reset that
    follows a submission. */
module NewRentalModal {
  import opened Wrappers
  import opened Js

  /** A customer as listed by the backend. */
  datatype Customer = Customer(id: string, fullName: string, dni: int, phone: string, email: string)

  /** `formData` */
  datatype RentalForm = RentalForm(
    customerId: string,
    nombreVendedor: string,
    fechaInicio: string,
    fechaFin: string,
    monto: string,
    status: bool)

  /** The text inputs `handleChange` writes through `e.target.name`. */
  datatype TextField = CustomerIdInput | NombreVendedorInput | FechaInicioInput | FechaFinInput | MontoInput

  /** What `onSubmit` receives; `monto` is `parseFloat` of the text, an input
      of this model. */
  datatype RentalRequest = RentalRequest(
    customerId: string,
    nombreVendedor: string,
    fechaInicio: string,
    fechaFin: string,
    monto: JsNumber,
    status: bool)

  const EmptyForm := RentalForm("", "", "", "", "", true)

  /** The search rule: the lowercased full name contains the lowercased
      query, or the decimal DNI contains the query as typed. */
  predicate Matches(c: Customer, query: string) {
    Includes(ToLower(c.fullName), ToLower(query)) || Includes(IntToString(c.dni), query)
  }

  /** `filteredCustomers` */
  function FilteredCustomers(customers: seq<Customer>, query: string): (r: seq<Customer>)
    ensures |r| <= |customers|
    ensures forall c :: c in r <==> c in customers && Matches(c, query)
  {
    if customers == [] then []
    else
      var rest := FilteredCustomers(customers[1..], query);
      assert forall c :: c in customers <==> c == customers[0] || c in customers[1..];
      if Matches(customers[0], query) then [customers[0]] + rest else rest
  }

  /** The required fields are all non-empty. */
  predicate Complete(f: RentalForm) {
    f.customerId != "" && f.nombreVendedor != "" && f.fechaInicio != "" && f.fechaFin != "" && f.monto != ""
  }

  /** `formData[name] = value` for one text input. */
  function SetField(f: RentalForm, field: TextField, value: string): RentalForm {
    match field
    case CustomerIdInput => f.(customerId := value)
    case NombreVendedorInput => f.(nombreVendedor := value)
    case FechaInicioInput => f.(fechaInicio := value)
    case FechaFinInput => f.(fechaFin := value)
    case MontoInput => f.(monto := value)
  }

  /** The dialog's state. */
  class NewRentalDialog {
    var form: RentalForm
    var customerSearchQuery: string
    var showCustomerDropdown: bool

    constructor()
      ensures form == EmptyForm && customerSearchQuery == "" && !showCustomerDropdown
    {
      form := EmptyForm;
      customerSearchQuery := "";
      showCustomerDropdown := false;
    }

    /** The effect that fills in the seller from the logged-in user. */
    method SyncSeller(userName: Option<string>)
      modifies this
      ensures form == if userName.Some? && userName.value != "" then old(form).(nombreVendedor := userName.value) else old(form)
      ensures customerSearchQuery == old(customerSearchQuery) && showCustomerDropdown == old(showCustomerDropdown)
    {
      if userName.Some? && userName.value != "" {
        form := form.(nombreVendedor := userName.value);
      }
    }

    /** `handleChange` */
    method HandleChange(field: TextField, value: string)
      modifies this
      ensures form == SetField(old(form), field, value)
      ensures customerSearchQuery == old(customerSearchQuery) && showCustomerDropdown == old(showCustomerDropdown)
    {
      form := SetField(form, field, value);
    }

    /** `handleSubmit`: `userName` is the logged-in user's name and
        `montoNumber` what `parseFloat` makes of the amount text. Returns what
        `onSubmit` was called with, if it was. */
    method HandleSubmit(userName: Option<string>, montoNumber: JsNumber) returns (submitted: Option<RentalRequest>)
      modifies this
      ensures submitted.Some? <==> Complete(old(form))
      ensures submitted.Some? ==>
        submitted.value == RentalRequest(old(form).customerId, old(form).nombreVendedor, old(form).fechaInicio,
                                         old(form).fechaFin, montoNumber, old(form).status)
      ensures submitted.Some? ==>
        form == EmptyForm.(nombreVendedor := if userName.Some? then userName.value else "") &&
        customerSearchQuery == ""
      ensures submitted.None? ==> form == old(form) && customerSearchQuery == old(customerSearchQuery)
      ensures showCustomerDropdown == old(showCustomerDropdown)
    {
      if form.customerId != "" && form.nombreVendedor != "" && form.fechaInicio != "" && form.fechaFin != "" && form.monto != "" {
        submitted := Some(RentalRequest(form.customerId, form.nombreVendedor, form.fechaInicio, form.fechaFin, montoNumber, form.status));
        form := RentalForm("", if userName.Some? && userName.value != "" then userName.value else "", "", "", "", true);
        customerSearchQuery := "";
      } else {
        submitted := None;
      }
    }

    /** `handleCustomerSearch` */
    method HandleCustomerSearch(value: string)
      modifies this
      ensures customerSearchQuery == value
      ensures showCustomerDropdown <==> |value| > 0
      ensures form == if |value| == 0 then old(form).(customerId := "") else old(form)
    {
      customerSearchQuery := value;
      showCustomerDropdown := |value| > 0;
      if |value| == 0 {
        form := form.(customerId := "");
      }
    }

    /** `handleCustomerSelect` */
    method HandleCustomerSelect(c: Customer)
      modifies this
      ensures form == old(form).(customerId := c.id)
      ensures customerSearchQuery == c.fullName && !showCustomerDropdown
    {
      form := form.(customerId := c.id);
      customerSearchQuery := c.fullName;
      showCustomerDropdown := false;
    }

    /** The status switch. */
    method ToggleStatus()
      modifies this
      ensures form == old(form).(status := !old(form).status)
      ensures customerSearchQuery == old(customerSearchQuery) && showCustomerDropdown == old(showCustomerDropdown)
    {
      form := form.(status := !form.status);
    }
  }

  // ------------------------------------------------------------ lemmas

  /** Every string contains the empty string, so an empty query lists every
      customer, in order. */
  lemma {:induction false} EmptyQueryMatchesAll(customers: seq<Customer>)
    ensures FilteredCustomers(customers, "") == customers
  {
    if customers != [] {
      assert OccursAt(ToLower(customers[0].fullName), ToLower(""), 0);
      EmptyQueryMatchesAll(customers[1..]);
    }
  }

  /** The filter keeps the customers' relative order: it is the list with
      the non-matching customers taken out. */
  lemma {:induction false} FilterSplits(customers: seq<Customer>, query: string, k: int)
    requires 0 <= k <= |customers|
    ensures FilteredCustomers(customers, query) ==
      FilteredCustomers(customers[..k], query) + FilteredCustomers(customers[k..], query)
  {
    assert customers == customers[..k] + customers[k..];
    FilterConcat(customers[..k], customers[k..], query);
  }

  lemma {:induction false} FilterConcat(a: seq<Customer>, b: seq<Customer>, query: string)
    ensures FilteredCustomers(a + b, query) == FilteredCustomers(a, query) + FilteredCustomers(b, query)
  {
    if a == [] {
      assert a + b == b;
    } else {
      assert (a + b)[0] == a[0];
      assert (a + b)[1..] == a[1..] + b;
      FilterConcat(a[1..], b, query);
      FilterCons(a + b, query);
      FilterCons(a, query);
    }
  }

  lemma FilterCons(customers: seq<Customer>, query: string)
    requires customers != []
    ensures FilteredCustomers(customers, query) ==
      (if Matches(customers[0], query) then [customers[0]] else []) + FilteredCustomers(customers[1..], query)
  {
  }

  /** Two queries that lower-case to the same text select the same
      customers, in the same order: the name test sees only the lower-cased
      query, and a query with a letter in it never occurs in a DNI's digits. */
  lemma {:induction false} QueryCaseIrrelevant(customers: seq<Customer>, q1: string, q2: string)
    requires ToLower(q1) == ToLower(q2)
    ensures FilteredCustomers(customers, q1) == FilteredCustomers(customers, q2)
  {
    if customers != [] {
      MatchCaseIrrelevant(customers[0], q1, q2);
      QueryCaseIrrelevant(customers[1..], q1, q2);
      FilterCons(customers, q1);
      FilterCons(customers, q2);
    }
  }

  lemma MatchCaseIrrelevant(c: Customer, q1: string, q2: string)
    requires ToLower(q1) == ToLower(q2)
    ensures Matches(c, q1) == Matches(c, q2)
  {
    if q1 != q2 {
      assert |q1| == |q2|;
      var i :| 0 <= i < |q1| && q1[i] != q2[i];
      assert LowerChar(q1[i]) == LowerChar(q2[i]);
      NoLetterInDni(c.dni, q1, i);
      NoLetterInDni(c.dni, q2, i);
    }
  }

  /** A query whose `i`-th character is a letter does not occur in a DNI. */
  lemma NoLetterInDni(dni: int, q: string, i: int)
    requires 0 <= i < |q| && !IsDecimalDigit(q[i]) && q[i] != '-'
    ensures !Includes(IntToString(dni), q)
  {
    var s := IntToString(dni);
    assert forall j :: OccursAt(s, q, j) ==> s[j + i] == s[j..j + |q|][i];
  }

  /** A dialog that submitted is ready for the next rental by the same
      seller: it is empty again except for the seller, and cannot be
      submitted again until a customer, dates and amount are entered. */
  lemma ResetIsIncomplete(userName: Option<string>)
    ensures !Complete(EmptyForm.(nombreVendedor := if userName.Some? then userName.value else ""))
  {
  }
}
