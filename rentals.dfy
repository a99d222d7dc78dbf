/** Rental creation: the payload is checked field by field, every failing
    field is reported in a fixed order, and only a clean payload is turned
    into the six-field body that is posted. */
module Rentals {
  import opened Wrappers
  import opened Js

  /** What the rental form hands to `createRental`. */
  datatype CreateRentalPayload = CreateRentalPayload(
    customerId: string,
    placeId: string,
    userId: string,
    startDate: JsDate,
    endDate: JsDate,
    amount: JsNumber,
    status: Option<bool>)

  /** The body posted to the backend. Dates are sent as ISO-8601 strings;
      here they are kept as the time values they encode. */
  datatype BackendRentalPayload = BackendRentalPayload(
    customerId: string,
    placeId: string,
    userId: string,
    startDate: int,
    endDate: int,
    amount: JsNumber)

  /** The fields that can fail validation, in the order they are reported. */
  datatype RentalField = CustomerIdField | PlaceIdField | UserIdField | StartDateField | EndDateField | AmountField

  const FieldOrder: seq<RentalField> :=
    [CustomerIdField, PlaceIdField, UserIdField, StartDateField, EndDateField, AmountField]

  /** An HTTP failure of the post. */
  datatype HttpError = HttpError(status: Option<int>, message: string)

  /** The outcome of `createRental`: the validation error it throws, or the
      body it posts together with what the post gave back (a rejected post
      is rethrown unchanged). */
  datatype CreateOutcome =
    | Rejected(errors: seq<RentalField>)
    | Posted(body: BackendRentalPayload, response: Result<Json, HttpError>)

  /** Whether one field passes its check. */
  predicate FieldValid(p: CreateRentalPayload, f: RentalField) {
    match f
    case CustomerIdField => IsUuid(p.customerId)
    case PlaceIdField => IsUuid(p.placeId)
    case UserIdField => IsUuid(p.userId)
    case StartDateField => p.startDate.TimeValue?
    case EndDateField => p.endDate.TimeValue?
    case AmountField => IsPositive(p.amount)
  }

  /** The failing fields among `fields`, in their order. */
  function FailingFields(p: CreateRentalPayload, fields: seq<RentalField>): (r: seq<RentalField>)
    ensures |r| <= |fields|
    ensures forall i :: 0 <= i < |r| ==> !FieldValid(p, r[i])
  {
    if fields == [] then []
    else FailingFields(p, fields[..|fields| - 1]) + Item(p, fields[|fields| - 1])
  }

  /** The error list `createRental` collects. */
  function ValidationErrors(p: CreateRentalPayload): (r: seq<RentalField>)
    ensures |r| <= |FieldOrder|
    ensures forall i :: 0 <= i < |r| ==> !FieldValid(p, r[i])
  {
    FailingFields(p, FieldOrder)
  }

  /** `backendPayload` */
  function BackendPayload(p: CreateRentalPayload): BackendRentalPayload
    requires p.startDate.TimeValue? && p.endDate.TimeValue?
  {
    BackendRentalPayload(p.customerId, p.placeId, p.userId, p.startDate.ms, p.endDate.ms, p.amount)
  }

  /** `createRental`; `post` is what the backend answers to the posted body. */
  method CreateRental(p: CreateRentalPayload, post: Result<Json, HttpError>) returns (r: CreateOutcome)
    ensures r.Rejected? <==> ValidationErrors(p) != []
    ensures r.Rejected? ==> r.errors == ValidationErrors(p)
    ensures r.Posted? ==>
      p.startDate.TimeValue? && p.endDate.TimeValue? &&
      r.body == BackendPayload(p) && r.response == post
  {
    var customerIdOk := IsUuid(p.customerId);
    var placeIdOk := IsUuid(p.placeId);
    var userIdOk := IsUuid(p.userId);
    var startDateOk := p.startDate.TimeValue?;
    var endDateOk := p.endDate.TimeValue?;
    var amountOk := IsPositive(p.amount);
    var errors: seq<RentalField> := [];
    assert errors == FailingFields(p, FieldOrder[..0]);
    if !customerIdOk { errors := errors + [CustomerIdField]; }
    ErrorsStep(p, 1);
    assert errors == FailingFields(p, FieldOrder[..1]);
    if !placeIdOk { errors := errors + [PlaceIdField]; }
    ErrorsStep(p, 2);
    assert errors == FailingFields(p, FieldOrder[..2]);
    if !userIdOk { errors := errors + [UserIdField]; }
    ErrorsStep(p, 3);
    assert errors == FailingFields(p, FieldOrder[..3]);
    if !startDateOk { errors := errors + [StartDateField]; }
    ErrorsStep(p, 4);
    assert errors == FailingFields(p, FieldOrder[..4]);
    if !endDateOk { errors := errors + [EndDateField]; }
    ErrorsStep(p, 5);
    assert errors == FailingFields(p, FieldOrder[..5]);
    if !amountOk { errors := errors + [AmountField]; }
    ErrorsLast(p);
    assert errors == ValidationErrors(p);
    if |errors| > 0 {
      return Rejected(errors);
    }
    ReportedIffInvalid(p, StartDateField);
    ReportedIffInvalid(p, EndDateField);
    var body := BackendRentalPayload(p.customerId, p.placeId, p.userId, p.startDate.ms, p.endDate.ms, p.amount);
    return Posted(body, post);
  }

  /** The error one field contributes. */
  function Item(p: CreateRentalPayload, f: RentalField): seq<RentalField> {
    if FieldValid(p, f) then [] else [f]
  }

  /** The whole list is the first five fields' errors and the amount's. */
  lemma ErrorsLast(p: CreateRentalPayload)
    ensures ValidationErrors(p) == FailingFields(p, FieldOrder[..5]) + Item(p, AmountField)
  {
  }

  /** One more field of the reporting order adds its own error, if any. */
  lemma ErrorsStep(p: CreateRentalPayload, k: nat)
    requires 0 < k <= |FieldOrder|
    ensures FailingFields(p, FieldOrder[..k]) == FailingFields(p, FieldOrder[..k - 1]) + Item(p, FieldOrder[k - 1])
  {
    assert FieldOrder[..k][..k - 1] == FieldOrder[..k - 1];
  }

  // ------------------------------------------------------------ lemmas

  /** The position of a field in the reporting order. */
  function Rank(f: RentalField): nat {
    match f
    case CustomerIdField => 0
    case PlaceIdField => 1
    case UserIdField => 2
    case StartDateField => 3
    case EndDateField => 4
    case AmountField => 5
  }

  /** The failing fields are exactly the listed fields whose check fails. */
  lemma {:induction false} FailingMembers(p: CreateRentalPayload, fields: seq<RentalField>)
    ensures forall f :: f in FailingFields(p, fields) <==> f in fields && !FieldValid(p, f)
  {
    if fields != [] {
      var init := fields[..|fields| - 1];
      FailingMembers(p, init);
      assert fields == init + [fields[|fields| - 1]];
    }
  }

  /** Filtering keeps the relative order of the listed fields. */
  lemma {:induction false} FailingInOrder(p: CreateRentalPayload, fields: seq<RentalField>)
    requires forall i, j :: 0 <= i < j < |fields| ==> Rank(fields[i]) < Rank(fields[j])
    ensures forall i, j :: 0 <= i < j < |FailingFields(p, fields)| ==>
      Rank(FailingFields(p, fields)[i]) < Rank(FailingFields(p, fields)[j])
  {
    if fields != [] {
      var init := fields[..|fields| - 1];
      var last := fields[|fields| - 1];
      FailingInOrder(p, init);
      FailingMembers(p, init);
      var e0 := FailingFields(p, init);
      assert forall i, j :: 0 <= i < j < |e0| ==> Rank(e0[i]) < Rank(e0[j]);
      forall i | 0 <= i < |e0| ensures Rank(e0[i]) < Rank(last) {
        assert e0[i] in init;
        var k :| 0 <= k < |init| && init[k] == e0[i];
        assert fields[k] == init[k];
      }
      var e := FailingFields(p, fields);
      if !FieldValid(p, last) {
        assert e == e0 + [last];
        forall i, j | 0 <= i < j < |e| ensures Rank(e[i]) < Rank(e[j]) {
          if j == |e0| {
            assert e[i] == e0[i];
          } else {
            assert e[i] == e0[i] && e[j] == e0[j];
          }
        }
      } else {
        assert e == e0;
      }
    }
  }

  /** Payloads whose checks agree report the same errors. */
  lemma {:induction false} SameChecksSameErrors(p: CreateRentalPayload, q: CreateRentalPayload, fields: seq<RentalField>)
    requires forall f :: FieldValid(p, f) == FieldValid(q, f)
    ensures FailingFields(p, fields) == FailingFields(q, fields)
  {
    if fields != [] {
      SameChecksSameErrors(p, q, fields[..|fields| - 1]);
    }
  }

  /** A field is reported iff its check fails. */
  lemma ReportedIffInvalid(p: CreateRentalPayload, f: RentalField)
    ensures f in ValidationErrors(p) <==> !FieldValid(p, f)
  {
    FailingMembers(p, FieldOrder);
    assert f in FieldOrder by { assert FieldOrder[Rank(f)] == f; }
  }

  /** Errors come in the fixed order, each at most once. */
  lemma ErrorsInOrder(p: CreateRentalPayload)
    ensures forall i, j :: 0 <= i < j < |ValidationErrors(p)| ==>
      Rank(ValidationErrors(p)[i]) < Rank(ValidationErrors(p)[j])
  {
    assert forall i | 0 <= i < |FieldOrder| :: Rank(FieldOrder[i]) == i;
    FailingInOrder(p, FieldOrder);
  }

  /** The amount must be strictly positive: zero, a negative amount and NaN
      are all rejected. */
  lemma AmountMustBePositive(p: CreateRentalPayload)
    requires p.amount == Finite(0.0) || IsNegative(p.amount) || p.amount.NaN?
    ensures AmountField in ValidationErrors(p)
  {
    ReportedIffInvalid(p, AmountField);
  }

  /** A posted body exists only for a payload that passes every check, and
      it carries no `status`, whatever the form sent. */
  lemma PostedOnlyWhenValid(p: CreateRentalPayload, q: CreateRentalPayload)
    requires ValidationErrors(p) == []
    requires q == p.(status := if p.status.Some? then None else Some(true))
    ensures forall f :: FieldValid(p, f)
    ensures p.startDate.TimeValue? && p.endDate.TimeValue? && ValidationErrors(q) == [] &&
      BackendPayload(q) == BackendPayload(p)
  {
    forall f ensures FieldValid(p, f) { ReportedIffInvalid(p, f); }
    assert FieldValid(p, StartDateField) && FieldValid(p, EndDateField);
    SameChecksSameErrors(p, q, FieldOrder);
  }
}
