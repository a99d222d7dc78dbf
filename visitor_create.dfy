/** The create-visitor dialog of the museum: the quantity clamp, the user id
    resolved from the store, the token and the user list, the ordered
    required-field checks, the entrance payload and the reset after a
    successful save. */
module VisitorCreate {
  import opened Wrappers
  import opened Js
  import opened EntranceSchema

  /** The dialog's form fields. */
  datatype VisitorForm = VisitorForm(
    tipoVisitante: string,
    canalVenta: string,
    tipoPago: string,
    fecha: string,
    cantidad: int,
    monto: string,
    gratis: string)

  /** The checks of `handleSubmit`, in the order they run. */
  datatype VisitorCheck =
    | TipoVisitanteCheck | CanalVentaCheck | TipoPagoCheck | FechaCheck
    | CantidadCheck | MontoCheck | GratisCheck

  const CheckOrder: seq<VisitorCheck> :=
    [TipoVisitanteCheck, CanalVentaCheck, TipoPagoCheck, FechaCheck, CantidadCheck, MontoCheck, GratisCheck]

  /** How a submission ends. */
  datatype SubmitOutcome =
    | NoUser
    | Invalid(check: VisitorCheck)
    | Sent(payload: EntrancePayload, created: bool)

  /** `handleCantidadChange` as written: `Math.floor` of any finite positive
      value, else 1. It never stores a negative quantity, but stores 0
      exactly for a value strictly between 0 and 1. */
  function ClampQuantityAsWritten(v: JsNumber): (n: int)
    ensures n >= 0
    ensures v.Finite? && v.value > 0.0 ==> n as real <= v.value < n as real + 1.0
    ensures !(v.Finite? && v.value > 0.0) ==> n == 1
    ensures n == 0 <==> v.Finite? && 0.0 < v.value < 1.0
  {
    if v.Finite? && v.value > 0.0 then v.value.Floor else 1
  }

  /** The quantity clamp as intended: the whole part of a finite value of at
      least 1, and 1 for anything else. */
  function ClampQuantity(v: JsNumber): (n: int)
    ensures n >= 1
    ensures v.Finite? && v.value >= 1.0 ==> n == v.value.Floor && n as real <= v.value < n as real + 1.0
    ensures !(v.Finite? && v.value >= 1.0) ==> n == 1
  {
    if v.Finite? && v.value >= 1.0 then v.value.Floor else 1
  }

  /** A string that `!s` does not reject. */
  predicate Filled(s: Option<string>) {
    s.Some? && s.value != ""
  }

  /** The user id `handleSubmit` ends up with; `None` when it gives up.
      `tokenUserId` is the claim read from the stored token (its decoding is
      not modelled) and `users` the ids of the loaded user list, `None`
      while it is loading or not an array. */
  function ResolvedUserId(storeUserId: Option<string>, tokenUserId: Option<string>, users: Option<seq<string>>): (r: Option<string>)
    ensures users.Some? ==> (r.None? <==> users.value == [])
    ensures users.Some? && r.Some? ==> r.value in users.value
    ensures users.None? && r.Some? ==> r.value != ""
  {
    var fromStore := if !Filled(storeUserId) && tokenUserId.Some? then tokenUserId else storeUserId;
    match users
    case Some(ids) =>
      if Filled(fromStore) && fromStore.value in ids then fromStore
      else if |ids| > 0 then Some(ids[0])
      else None
    case None =>
      if Filled(fromStore) then fromStore else None
  }

  /** Whether one check stops the submission; `parsedMonto` is
      `parseFloat(monto)`. */
  predicate Fails(f: VisitorForm, parsedMonto: JsNumber, c: VisitorCheck) {
    match c
    case TipoVisitanteCheck => f.tipoVisitante == ""
    case CanalVentaCheck => f.canalVenta == ""
    case TipoPagoCheck => f.tipoPago == ""
    case FechaCheck => f.fecha == ""
    case CantidadCheck => f.cantidad <= 0
    case MontoCheck => f.monto == "" || parsedMonto.NaN? || IsNegative(parsedMonto)
    case GratisCheck => f.gratis == ""
  }

  /** The first of `checks` that fails. */
  function FirstFailure(f: VisitorForm, parsedMonto: JsNumber, checks: seq<VisitorCheck>): Option<VisitorCheck> {
    if checks == [] then None
    else if Fails(f, parsedMonto, checks[0]) then Some(checks[0])
    else FirstFailure(f, parsedMonto, checks[1..])
  }

  /** The payload `createEntrance` receives; `now` is `Date.now()`. */
  function PayloadOf(f: VisitorForm, userId: string, parsedMonto: JsNumber, now: nat): (p: EntrancePayload)
    ensures p.free <==> f.gratis == "Si"
    ensures p.userId == userId && p.typePersonId == f.tipoVisitante && p.saleDate == f.fecha
    ensures p.saleChannel == f.canalVenta && p.paymentMethod == f.tipoPago
    ensures p.cantidad == Finite(f.cantidad as real) && p.totalSale == parsedMonto
    ensures p.saleNumber == "V-" + NatToString(now)
  {
    EntrancePayload(userId, f.tipoVisitante, f.fecha, Finite(f.cantidad as real), "V-" + NatToString(now),
                    f.canalVenta, parsedMonto, f.tipoPago, f.gratis == "Si")
  }

  /** The form after a successful save: the date is kept, the quantity is 1
      and every other field is cleared. */
  function Reset(f: VisitorForm): VisitorForm {
    VisitorForm("", "", "", f.fecha, 1, "", "")
  }

  /** The dialog's state. */
  class VisitorCreateDialog {
    var form: VisitorForm

    /** `today` is the ISO date the dialog starts with. */
    constructor(today: string)
      ensures form == VisitorForm("", "", "", today, 1, "", "")
    {
      form := VisitorForm("", "", "", today, 1, "", "");
    }

    /** `handleCantidadChange`, with the clamp as written. */
    method HandleCantidadChange(v: JsNumber)
      modifies this
      ensures form == old(form).(cantidad := ClampQuantityAsWritten(v))
    {
      var n := if v.Finite? && v.value > 0.0 then v.value.Floor else 1;
      form := form.(cantidad := n);
    }

    /** `handleGratisChange`: only the "free" answer changes. */
    method HandleGratisChange(value: string)
      modifies this
      ensures form == old(form).(gratis := value)
    {
      form := form.(gratis := value);
    }

    /** The effect that recomputes the amount. `selectedTotal` is the
        `toFixed(2)` text of price times quantity for the selected visitor
        type, `None` when that type is not in the list. */
    method RecomputeMonto(selectedTotal: Option<string>)
      modifies this
      ensures form == old(form).(monto := if old(form).gratis == "Si" then "0.00"
                                         else if selectedTotal.Some? then selectedTotal.value else "")
    {
      if form.gratis == "Si" {
        form := form.(monto := "0.00");
        return;
      }
      if selectedTotal.Some? {
        form := form.(monto := selectedTotal.value);
      } else {
        form := form.(monto := "");
      }
    }

    /** `handleSubmit`: resolves the user id, runs the checks in order, posts
        the payload and, if `createSucceeds`, resets the form. */
    method HandleSubmit(storeUserId: Option<string>, tokenUserId: Option<string>, users: Option<seq<string>>,
                        parsedMonto: JsNumber, now: nat, createSucceeds: bool)
      returns (outcome: SubmitOutcome)
      modifies this
      ensures outcome.NoUser? <==> ResolvedUserId(storeUserId, tokenUserId, users).None?
      ensures outcome.Invalid? <==>
        ResolvedUserId(storeUserId, tokenUserId, users).Some? && FirstFailure(old(form), parsedMonto, CheckOrder).Some?
      ensures outcome.Invalid? ==> outcome.check == FirstFailure(old(form), parsedMonto, CheckOrder).value
      ensures outcome.Sent? ==>
        ResolvedUserId(storeUserId, tokenUserId, users).Some? &&
        outcome.payload == PayloadOf(old(form), ResolvedUserId(storeUserId, tokenUserId, users).value, parsedMonto, now) &&
        outcome.created == createSucceeds
      ensures form == if outcome.Sent? && createSucceeds then Reset(old(form)) else old(form)
    {
      var userId := ResolveUserId(storeUserId, tokenUserId, users);
      if userId.None? {
        return NoUser;
      }
      var failed := RunChecks(form, parsedMonto);
      if failed.Some? {
        return Invalid(failed.value);
      }
      var f := form;
      var payload := EntrancePayload(userId.value, f.tipoVisitante, f.fecha, Finite(f.cantidad as real),
                                     "V-" + NatToString(now), f.canalVenta, parsedMonto, f.tipoPago, f.gratis == "Si");
      if createSucceeds {
        form := VisitorForm("", "", "", form.fecha, 1, "", "");
      }
      return Sent(payload, createSucceeds);
    }
  }

  /** Step 1 and 2 of `handleSubmit`: the store id, else the token's claim,
      checked against the user list when it is loaded. */
  method ResolveUserId(storeUserId: Option<string>, tokenUserId: Option<string>, users: Option<seq<string>>)
    returns (r: Option<string>)
    ensures r == ResolvedUserId(storeUserId, tokenUserId, users)
  {
    var userId := storeUserId;
    if !(userId.Some? && userId.value != "") {
      if tokenUserId.Some? {
        userId := tokenUserId;
      }
    }
    if users.Some? {
      var found := userId.Some? && userId.value != "" && userId.value in users.value;
      if !found {
        if |users.value| > 0 {
          userId := Some(users.value[0]);
        } else {
          return None;
        }
      }
    } else {
      if !(userId.Some? && userId.value != "") {
        return None;
      }
    }
    return userId;
  }

  /** The validation chain of `handleSubmit`: the first failing check, in
      the order the alerts are raised. */
  method RunChecks(f: VisitorForm, parsedMonto: JsNumber) returns (failed: Option<VisitorCheck>)
    ensures failed == FirstFailure(f, parsedMonto, CheckOrder)
  {
    FirstFailureStep(f, parsedMonto, 0);
    if f.tipoVisitante == "" { return Some(TipoVisitanteCheck); }
    FirstFailureStep(f, parsedMonto, 1);
    assert FirstFailure(f, parsedMonto, CheckOrder) == FirstFailure(f, parsedMonto, CheckOrder[1..]);
    if f.canalVenta == "" { return Some(CanalVentaCheck); }
    FirstFailureStep(f, parsedMonto, 2);
    assert FirstFailure(f, parsedMonto, CheckOrder) == FirstFailure(f, parsedMonto, CheckOrder[2..]);
    if f.tipoPago == "" { return Some(TipoPagoCheck); }
    FirstFailureStep(f, parsedMonto, 3);
    assert FirstFailure(f, parsedMonto, CheckOrder) == FirstFailure(f, parsedMonto, CheckOrder[3..]);
    if f.fecha == "" { return Some(FechaCheck); }
    FirstFailureStep(f, parsedMonto, 4);
    assert FirstFailure(f, parsedMonto, CheckOrder) == FirstFailure(f, parsedMonto, CheckOrder[4..]);
    if f.cantidad <= 0 { return Some(CantidadCheck); }
    FirstFailureStep(f, parsedMonto, 5);
    assert FirstFailure(f, parsedMonto, CheckOrder) == FirstFailure(f, parsedMonto, CheckOrder[5..]);
    if f.monto == "" || parsedMonto.NaN? || IsNegative(parsedMonto) { return Some(MontoCheck); }
    FirstFailureStep(f, parsedMonto, 6);
    assert FirstFailure(f, parsedMonto, CheckOrder) == FirstFailure(f, parsedMonto, CheckOrder[6..]);
    if f.gratis == "" { return Some(GratisCheck); }
    assert CheckOrder[7..] == [];
    return None;
  }

  /** Running the checks from position `k` on: the check there decides, or
      the rest do. */
  lemma FirstFailureStep(f: VisitorForm, parsedMonto: JsNumber, k: nat)
    requires k < |CheckOrder|
    ensures FirstFailure(f, parsedMonto, CheckOrder[k..]) ==
      if Fails(f, parsedMonto, CheckOrder[k]) then Some(CheckOrder[k])
      else FirstFailure(f, parsedMonto, CheckOrder[k + 1..])
  {
    assert CheckOrder[k..][1..] == CheckOrder[k + 1..];
  }

  // ------------------------------------------------------------ lemmas

  /** The position of a check in the order. */
  function Rank(c: VisitorCheck): nat {
    match c
    case TipoVisitanteCheck => 0
    case CanalVentaCheck => 1
    case TipoPagoCheck => 2
    case FechaCheck => 3
    case CantidadCheck => 4
    case MontoCheck => 5
    case GratisCheck => 6
  }

  /** The check reported is one that fails, and every check before it in
      `checks` passes; no report means every check passes. */
  lemma {:induction false} FirstFailureIsFirst(f: VisitorForm, parsedMonto: JsNumber, checks: seq<VisitorCheck>)
    ensures FirstFailure(f, parsedMonto, checks).None? <==> forall i :: 0 <= i < |checks| ==> !Fails(f, parsedMonto, checks[i])
    ensures FirstFailure(f, parsedMonto, checks).Some? ==>
      exists i :: 0 <= i < |checks| && checks[i] == FirstFailure(f, parsedMonto, checks).value &&
                  Fails(f, parsedMonto, checks[i]) &&
                  forall j :: 0 <= j < i ==> !Fails(f, parsedMonto, checks[j])
  {
    if checks != [] && !Fails(f, parsedMonto, checks[0]) {
      FirstFailureIsFirst(f, parsedMonto, checks[1..]);
      assert forall i :: 1 <= i < |checks| ==> checks[i] == checks[1..][i - 1];
      var r := FirstFailure(f, parsedMonto, checks[1..]);
      if r.Some? {
        var i :| 0 <= i < |checks[1..]| && checks[1..][i] == r.value && Fails(f, parsedMonto, checks[1..][i]) &&
          forall j :: 0 <= j < i ==> !Fails(f, parsedMonto, checks[1..][j]);
        forall j | 0 <= j < i + 1 ensures !Fails(f, parsedMonto, checks[j]) {
          if j > 0 { assert checks[j] == checks[1..][j - 1]; }
        }
        assert checks[i + 1] == checks[1..][i];
      }
    }
  }

  /** In the dialog's order: the reported check fails and every check
      ranked before it passes. */
  lemma ChecksInOrder(f: VisitorForm, parsedMonto: JsNumber)
    ensures var r := FirstFailure(f, parsedMonto, CheckOrder);
      r.Some? ==> Fails(f, parsedMonto, r.value) && forall c :: Rank(c) < Rank(r.value) ==> !Fails(f, parsedMonto, c)
    ensures FirstFailure(f, parsedMonto, CheckOrder).None? <==> forall c :: !Fails(f, parsedMonto, c)
  {
    FirstFailureIsFirst(f, parsedMonto, CheckOrder);
    assert forall i | 0 <= i < |CheckOrder| :: Rank(CheckOrder[i]) == i;
    if FirstFailure(f, parsedMonto, CheckOrder).None? {
      forall c ensures !Fails(f, parsedMonto, c) {
        assert CheckOrder[Rank(c)] == c;
      }
    }
    var r := FirstFailure(f, parsedMonto, CheckOrder);
    if r.Some? {
      forall c | Rank(c) < Rank(r.value) ensures !Fails(f, parsedMonto, c) {
        assert CheckOrder[Rank(c)] == c;
      }
    }
  }

  /** The user id: a store or token id found in the loaded list is kept; one
      not found is replaced by the first user; with an empty list, or with
      the list not loaded and no id, the submission stops. */
  lemma UserIdFallback(storeUserId: Option<string>, tokenUserId: Option<string>, ids: seq<string>)
    ensures Filled(storeUserId) && storeUserId.value in ids ==>
      ResolvedUserId(storeUserId, tokenUserId, Some(ids)) == storeUserId
    ensures !Filled(storeUserId) && Filled(tokenUserId) && tokenUserId.value in ids ==>
      ResolvedUserId(storeUserId, tokenUserId, Some(ids)) == tokenUserId
    ensures Filled(storeUserId) && storeUserId.value !in ids && |ids| > 0 ==>
      ResolvedUserId(storeUserId, tokenUserId, Some(ids)) == Some(ids[0])
    ensures ResolvedUserId(storeUserId, tokenUserId, Some([])) == None
    ensures !Filled(storeUserId) && !Filled(tokenUserId) ==> ResolvedUserId(storeUserId, tokenUserId, None) == None
    ensures Filled(storeUserId) ==> ResolvedUserId(storeUserId, tokenUserId, None) == storeUserId
  {
  }

  /** A resolved id always comes from the store, the token or the list. */
  lemma ResolvedIdOrigin(storeUserId: Option<string>, tokenUserId: Option<string>, users: Option<seq<string>>)
    ensures var r := ResolvedUserId(storeUserId, tokenUserId, users);
      r.Some? ==> r == storeUserId || r == tokenUserId || (users.Some? && r.value in users.value)
  {
  }

  /** The intended clamp never stores less than 1, while the written one
      stores 0 for a quantity of one half. */
  lemma QuantityBelowOne()
    ensures ClampQuantityAsWritten(Finite(0.5)) == 0
    ensures ClampQuantity(Finite(0.5)) == 1
  {
    assert (0.5).Floor == 0;
  }

  /** As written, the quantity check of `handleSubmit` is reachable from the
      quantity input: it fails after a change exactly when the value typed
      lies strictly between 0 and 1. */
  lemma FractionFailsQuantityCheck(f: VisitorForm, v: JsNumber, parsedMonto: JsNumber)
    ensures Fails(f.(cantidad := ClampQuantityAsWritten(v)), parsedMonto, CantidadCheck) <==>
      v.Finite? && 0.0 < v.value < 1.0
  {
  }

  /** Both clamps agree on every input of at least 1 and on every input the
      written one already maps to 1. */
  lemma ClampsAgree(v: JsNumber)
    requires !(v.Finite? && 0.0 < v.value < 1.0)
    ensures ClampQuantity(v) == ClampQuantityAsWritten(v)
  {
  }

  /** A payload that passed every check meets every constraint of the
      entrance schema except the UUID shape of the two ids. */
  lemma AcceptedPayloadMeetsSchema(f: VisitorForm, userId: string, parsedMonto: JsNumber, now: nat)
    requires FirstFailure(f, parsedMonto, CheckOrder).None?
    ensures var p := PayloadOf(f, userId, parsedMonto, now);
      forall field :: field != UserIdField && field != TypePersonIdField ==> FieldValid(p, field)
  {
    ChecksInOrder(f, parsedMonto);
    assert !Fails(f, parsedMonto, CantidadCheck) && !Fails(f, parsedMonto, MontoCheck);
    assert !Fails(f, parsedMonto, TipoPagoCheck) && !Fails(f, parsedMonto, CanalVentaCheck);
    assert !Fails(f, parsedMonto, FechaCheck);
    assert (f.cantidad as real).Floor == f.cantidad;
  }
}
