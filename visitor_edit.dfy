/** The edit-visitor dialog of the museum: the form is filled from the
    entrance being edited, and saving sends only the fields that changed. */
module VisitorEdit {
  import opened Wrappers
  import opened Js
  import opened VisitorCreate

  /** The entrance being edited, with the fields the dialog reads. The
      quantity may be missing from a record. */
  datatype Entrance = Entrance(
    id: string,
    typePersonId: string,
    saleChannel: string,
    paymentMethod: string,
    saleDate: string,
    cantidad: Option<int>,
    totalSale: JsNumber,
    free: bool)

  /** `Partial<Omit<Entrance, 'id'>>`: a field is present or absent. */
  datatype EditPayload = EditPayload(
    typePersonId: Option<string>,
    saleChannel: Option<string>,
    paymentMethod: Option<string>,
    saleDate: Option<string>,
    cantidad: Option<int>,
    totalSale: Option<JsNumber>,
    free: Option<bool>)

  const NoChange := EditPayload(None, None, None, None, None, None, None)

  /** How a save ends: refused for a missing "free" answer, refused for an
      empty diff, or handed to `onSave` (and the dialog closed). */
  datatype EditOutcome = GratisMissing | NoChanges | Saved(payload: EditPayload)

  /** `Object.keys(payload).length` */
  function KeyCount(p: EditPayload): (n: nat)
    ensures n == 0 <==> p == NoChange
    ensures n <= 7
  {
    (if p.typePersonId.Some? then 1 else 0) + (if p.saleChannel.Some? then 1 else 0) +
    (if p.paymentMethod.Some? then 1 else 0) + (if p.saleDate.Some? then 1 else 0) +
    (if p.cantidad.Some? then 1 else 0) + (if p.totalSale.Some? then 1 else 0) +
    (if p.free.Some? then 1 else 0)
  }

  /** The form the populate effect leaves: the entrance's values, or the
      empty form when there is none. With an entrance, the amount is left for
      the amount effect to recompute. */
  function Populated(f: VisitorForm, initial: Option<Entrance>): (g: VisitorForm)
    ensures initial.Some? ==> g.monto == f.monto && g.gratis in {"Si", "No"} && g.tipoVisitante == initial.value.typePersonId
    ensures initial.Some? && initial.value.cantidad.Some? ==> g.cantidad == initial.value.cantidad.value
    ensures initial.Some? && initial.value.cantidad.None? ==> g.cantidad == 1
    ensures initial.None? ==> g == VisitorForm("", "", "", "", 1, "", "")
  {
    match initial
    case Some(e) =>
      VisitorForm(e.typePersonId, e.saleChannel, e.paymentMethod, e.saleDate, e.cantidad.GetOr(1), f.monto,
                  if e.free then "Si" else "No")
    case None => VisitorForm("", "", "", "", 1, "", "")
  }

  /** The amount the amount effect leaves. */
  function MontoAfterEffect(f: VisitorForm, initial: Option<Entrance>, selectedTotal: Option<string>,
                            initialTotalText: string): (m: string)
    ensures f.gratis == "Si" ==> m == "0.00"
    ensures f.gratis != "Si" && selectedTotal.Some? ==> m == selectedTotal.value
    ensures f.gratis != "Si" && selectedTotal.None? ==> m == (if initial.Some? then initialTotalText else "")
  {
    if f.gratis == "Si" then "0.00"
    else if selectedTotal.Some? then selectedTotal.value
    else if initial.Some? then initialTotalText
    else ""
  }

  /** `montoNum`: what `parseFloat(monto)` gave (`parsedMonto`), NaN for an
      empty amount. */
  function MontoNumber(f: VisitorForm, parsedMonto: JsNumber): JsNumber {
    if f.monto == "" then NaN else parsedMonto
  }

  /** The diff against an entrance: a text field when it is non-empty and
      differs, the quantity when non-zero and different, the amount when it
      is a number and different, `free` when it differs. */
  predicate DiffAgainst(f: VisitorForm, e: Entrance, parsedMonto: JsNumber, p: EditPayload): (b: bool)
    ensures b ==> (p.typePersonId.Some? ==> p.typePersonId.value != "" && p.typePersonId.value != e.typePersonId)
    ensures b ==> (p.saleChannel.Some? ==> p.saleChannel.value != "" && p.saleChannel.value != e.saleChannel)
    ensures b ==> (p.paymentMethod.Some? ==> p.paymentMethod.value != "" && p.paymentMethod.value != e.paymentMethod)
    ensures b ==> (p.saleDate.Some? ==> p.saleDate.value != "" && p.saleDate.value != e.saleDate)
    ensures b ==> (p.cantidad.Some? ==> p.cantidad.value != 0 && Some(p.cantidad.value) != e.cantidad)
    ensures b ==> (p.free.Some? ==> p.free.value != e.free)
  {
    (p.typePersonId.Some? <==> f.tipoVisitante != "" && f.tipoVisitante != e.typePersonId) &&
    (p.typePersonId.Some? ==> p.typePersonId.value == f.tipoVisitante) &&
    (p.saleChannel.Some? <==> f.canalVenta != "" && f.canalVenta != e.saleChannel) &&
    (p.saleChannel.Some? ==> p.saleChannel.value == f.canalVenta) &&
    (p.paymentMethod.Some? <==> f.tipoPago != "" && f.tipoPago != e.paymentMethod) &&
    (p.paymentMethod.Some? ==> p.paymentMethod.value == f.tipoPago) &&
    (p.saleDate.Some? <==> f.fecha != "" && f.fecha != e.saleDate) &&
    (p.saleDate.Some? ==> p.saleDate.value == f.fecha) &&
    (p.cantidad.Some? <==> f.cantidad != 0 && Some(f.cantidad) != e.cantidad) &&
    (p.cantidad.Some? ==> p.cantidad.value == f.cantidad) &&
    (p.totalSale.Some? <==>
      !MontoNumber(f, parsedMonto).NaN? && !StrictEquals(MontoNumber(f, parsedMonto), e.totalSale)) &&
    (p.totalSale.Some? ==> p.totalSale.value == MontoNumber(f, parsedMonto)) &&
    (p.free == if (f.gratis == "Si") != e.free then Some(f.gratis == "Si") else None)
  }

  /** The full payload sent when there is no entrance. */
  function FullPayload(f: VisitorForm, parsedMonto: JsNumber): EditPayload {
    EditPayload(Some(f.tipoVisitante), Some(f.canalVenta), Some(f.tipoPago), Some(f.fecha), Some(f.cantidad),
                Some(if f.monto == "" then Finite(0.0) else parsedMonto), Some(f.gratis == "Si"))
  }

  /** An entrance with the payload's present fields written over it. */
  function Apply(e: Entrance, p: EditPayload): Entrance {
    Entrance(e.id,
             p.typePersonId.GetOr(e.typePersonId), p.saleChannel.GetOr(e.saleChannel),
             p.paymentMethod.GetOr(e.paymentMethod), p.saleDate.GetOr(e.saleDate),
             if p.cantidad.Some? then p.cantidad else e.cantidad,
             p.totalSale.GetOr(e.totalSale), p.free.GetOr(e.free))
  }

  /** The field-by-field comparison of `handleSubmit` when there is an
      entrance. */
  method BuildDiff(f: VisitorForm, e: Entrance, parsedMonto: JsNumber) returns (payload: EditPayload)
    ensures DiffAgainst(f, e, parsedMonto, payload)
  {
    var typePersonId := None;
    if f.tipoVisitante != "" && f.tipoVisitante != e.typePersonId { typePersonId := Some(f.tipoVisitante); }
    var saleChannel := None;
    if f.canalVenta != "" && f.canalVenta != e.saleChannel { saleChannel := Some(f.canalVenta); }
    var paymentMethod := None;
    if f.tipoPago != "" && f.tipoPago != e.paymentMethod { paymentMethod := Some(f.tipoPago); }
    var saleDate := None;
    if f.fecha != "" && f.fecha != e.saleDate { saleDate := Some(f.fecha); }
    var cantidad := None;
    if f.cantidad != 0 && Some(f.cantidad) != e.cantidad { cantidad := Some(f.cantidad); }
    var montoNum := if f.monto == "" then NaN else parsedMonto;
    var totalSale := None;
    if !montoNum.NaN? && !StrictEquals(montoNum, e.totalSale) { totalSale := Some(montoNum); }
    var freeValue := f.gratis == "Si";
    var free := None;
    if freeValue != e.free { free := Some(freeValue); }
    payload := EditPayload(typePersonId, saleChannel, paymentMethod, saleDate, cantidad, totalSale, free);
  }

  /** The dialog's state. */
  class VisitorEditDialog {
    var form: VisitorForm

    constructor()
      ensures form == VisitorForm("", "", "", "", 1, "", "")
    {
      form := VisitorForm("", "", "", "", 1, "", "");
    }

    /** The effect that fills the form when `initialData` changes. */
    method Populate(initial: Option<Entrance>)
      modifies this
      ensures form == Populated(old(form), initial)
    {
      if initial.Some? {
        var e := initial.value;
        form := form.(tipoVisitante := e.typePersonId, canalVenta := e.saleChannel, tipoPago := e.paymentMethod,
                      fecha := e.saleDate, cantidad := if e.cantidad.Some? then e.cantidad.value else 1,
                      gratis := if e.free then "Si" else "No");
      } else {
        form := VisitorForm("", "", "", "", 1, "", "");
      }
    }

    /** The same quantity clamp as the create dialog, as written. */
    method HandleCantidadChange(v: JsNumber)
      modifies this
      ensures form == old(form).(cantidad := ClampQuantityAsWritten(v))
    {
      var n := if v.Finite? && v.value > 0.0 then v.value.Floor else 1;
      form := form.(cantidad := n);
    }

    /** `handleGratisChange` */
    method HandleGratisChange(value: string)
      modifies this
      ensures form == old(form).(gratis := value)
    {
      form := form.(gratis := value);
    }

    /** The amount effect: "0.00" when free; else the selected visitor type's
        total (`selectedTotal`, the `toFixed(2)` of price times quantity);
        else, when editing, the entrance's own total (`initialTotalText`, its
        `toFixed(2)`); else empty. */
    method RecomputeMonto(initial: Option<Entrance>, selectedTotal: Option<string>, initialTotalText: string)
      modifies this
      ensures form == old(form).(monto := MontoAfterEffect(old(form), initial, selectedTotal, initialTotalText))
    {
      if form.gratis == "Si" {
        form := form.(monto := "0.00");
        return;
      }
      if selectedTotal.Some? {
        form := form.(monto := selectedTotal.value);
      } else if initial.Some? {
        form := form.(monto := initialTotalText);
      } else {
        form := form.(monto := "");
      }
    }

    /** `handleSubmit`: builds the payload field by field and saves it unless
        it is empty. `parsedMonto` is `parseFloat(monto)`. */
    method HandleSubmit(initial: Option<Entrance>, parsedMonto: JsNumber) returns (r: EditOutcome)
      ensures r.GratisMissing? <==> form.gratis == ""
      ensures r.NoChanges? ==> initial.Some? && DiffAgainst(form, initial.value, parsedMonto, NoChange)
      ensures r.Saved? ==> r.payload != NoChange
      ensures r.Saved? && initial.Some? ==> DiffAgainst(form, initial.value, parsedMonto, r.payload)
      ensures r.Saved? && initial.None? ==> r.payload == FullPayload(form, parsedMonto)
      ensures form.gratis != "" && initial.None? ==> r.Saved?
    {
      if form.gratis == "" {
        return GratisMissing;
      }
      var payload := NoChange;
      var f := form;
      if initial.Some? {
        payload := BuildDiff(f, initial.value, parsedMonto);
      } else {
        payload := payload.(typePersonId := Some(f.tipoVisitante), saleChannel := Some(f.canalVenta),
                            paymentMethod := Some(f.tipoPago), saleDate := Some(f.fecha), cantidad := Some(f.cantidad),
                            totalSale := Some(if f.monto == "" then Finite(0.0) else parsedMonto),
                            free := Some(f.gratis == "Si"));
      }
      if KeyCount(payload) == 0 {
        return NoChanges;
      }
      return Saved(payload);
    }
  }

  // ------------------------------------------------------------ lemmas

  /** As written, a fraction below one typed into the quantity stores 0,
      which the diff's `cantidad &&` then drops: the save leaves the
      entrance's quantity as it was. */
  lemma FractionQuantityDropped(f: VisitorForm, e: Entrance, parsedMonto: JsNumber, v: JsNumber, p: EditPayload)
    requires v.Finite? && 0.0 < v.value < 1.0
    requires DiffAgainst(f.(cantidad := ClampQuantityAsWritten(v)), e, parsedMonto, p)
    ensures p.cantidad.None?
    ensures Apply(e, p).cantidad == e.cantidad
  {
  }

  /** With an entrance, the populated form shows "Si" or "No" from `free`
      and the quantity defaults to 1; without one, every field is reset. */
  lemma PopulateShapes(f: VisitorForm, e: Entrance)
    ensures Populated(f, Some(e)).gratis == (if e.free then "Si" else "No")
    ensures Populated(f, Some(e)).cantidad == (if e.cantidad.Some? then e.cantidad.value else 1)
    ensures Populated(f, None) == VisitorForm("", "", "", "", 1, "", "")
  {
  }

  /** The diff is determined: two payloads that are both the diff of the
      same form against the same entrance are equal. */
  lemma DiffUnique(f: VisitorForm, e: Entrance, parsedMonto: JsNumber, p: EditPayload, q: EditPayload)
    requires DiffAgainst(f, e, parsedMonto, p) && DiffAgainst(f, e, parsedMonto, q)
    ensures p == q
  {
  }

  /** Writing the diff over the entrance gives the form's values wherever
      the form has one, and keeps the entrance's value elsewhere. */
  lemma ApplyDiff(f: VisitorForm, e: Entrance, parsedMonto: JsNumber, p: EditPayload)
    requires DiffAgainst(f, e, parsedMonto, p)
    ensures Apply(e, p).typePersonId == if f.tipoVisitante != "" then f.tipoVisitante else e.typePersonId
    ensures Apply(e, p).saleChannel == if f.canalVenta != "" then f.canalVenta else e.saleChannel
    ensures Apply(e, p).paymentMethod == if f.tipoPago != "" then f.tipoPago else e.paymentMethod
    ensures Apply(e, p).saleDate == if f.fecha != "" then f.fecha else e.saleDate
    ensures Apply(e, p).cantidad == if f.cantidad != 0 then Some(f.cantidad) else e.cantidad
    ensures Apply(e, p).free == (f.gratis == "Si")
    ensures !MontoNumber(f, parsedMonto).NaN? ==> Apply(e, p).totalSale == MontoNumber(f, parsedMonto)
    ensures Apply(e, p).id == e.id
  {
  }

  /** Saving a form the populate effect just filled, with the amount still
      equal to the entrance's, finds no change when the entrance has a
      quantity. */
  lemma UntouchedFormNoChange(f: VisitorForm, e: Entrance, parsedMonto: JsNumber)
    requires e.cantidad.Some?
    requires MontoNumber(Populated(f, Some(e)), parsedMonto).NaN? ||
             StrictEquals(MontoNumber(Populated(f, Some(e)), parsedMonto), e.totalSale)
    ensures DiffAgainst(Populated(f, Some(e)), e, parsedMonto, NoChange)
  {
  }

  /** An entrance without a quantity is populated with 1, and saving it
      untouched still sends `cantidad: 1`. */
  lemma MissingQuantitySent(f: VisitorForm, e: Entrance, parsedMonto: JsNumber, p: EditPayload)
    requires e.cantidad.None?
    requires DiffAgainst(Populated(f, Some(e)), e, parsedMonto, p)
    ensures p.cantidad == Some(1) && p != NoChange
  {
  }

  /** A free entrance, once populated and its amount recomputed, saves
      without touching `free` or the amount when its total is 0. */
  lemma FreeEntranceKeepsFree(f: VisitorForm, e: Entrance, selectedTotal: Option<string>,
                              parsedZero: JsNumber, p: EditPayload)
    requires e.free && e.totalSale == Finite(0.0) && parsedZero == Finite(0.0)
    requires var g := Populated(f, Some(e));
      DiffAgainst(g.(monto := MontoAfterEffect(g, Some(e), selectedTotal, "0.00")), e, parsedZero, p)
    ensures p.free.None? && p.totalSale.None?
  {
  }
}
