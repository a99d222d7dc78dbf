/** The museum entrance schema: the constraint on each field of an entrance
    payload, and the issues a payload raises. */
module EntranceSchema {
  import opened Js

  /** `EntrancePayload` */
  datatype EntrancePayload = EntrancePayload(
    userId: string,
    typePersonId: string,
    saleDate: string,
    cantidad: JsNumber,
    saleNumber: string,
    saleChannel: string,
    totalSale: JsNumber,
    paymentMethod: string,
    free: bool)

  /** The constrained fields, in the schema's order. `free` is only required
      to be a boolean, which its type already guarantees. */
  datatype EntranceField =
    | UserIdField | TypePersonIdField | SaleDateField | CantidadField
    | SaleNumberField | SaleChannelField | TotalSaleField | PaymentMethodField

  const SchemaOrder: seq<EntranceField> :=
    [UserIdField, TypePersonIdField, SaleDateField, CantidadField,
     SaleNumberField, SaleChannelField, TotalSaleField, PaymentMethodField]

  /** `z.number().int().nonnegative()`: a finite whole number, at least 0. */
  predicate NonNegativeInteger(n: JsNumber) {
    n.Finite? && n.value.Floor as real == n.value && n.value >= 0.0
  }

  /** `z.number().nonnegative()`: any number but NaN that is not below 0. */
  predicate NonNegative(n: JsNumber) {
    n.PosInfinity? || (n.Finite? && n.value >= 0.0)
  }

  /** One field's constraint: `.uuid()` for the two ids, `.min(1)` for the
      other strings. */
  predicate FieldValid(p: EntrancePayload, f: EntranceField) {
    match f
    case UserIdField => IsUuid(p.userId)
    case TypePersonIdField => IsUuid(p.typePersonId)
    case SaleDateField => |p.saleDate| >= 1
    case CantidadField => NonNegativeInteger(p.cantidad)
    case SaleNumberField => |p.saleNumber| >= 1
    case SaleChannelField => |p.saleChannel| >= 1
    case TotalSaleField => NonNegative(p.totalSale)
    case PaymentMethodField => |p.paymentMethod| >= 1
  }

  /** `entranceSchema.safeParse(p).success` */
  predicate Valid(p: EntrancePayload) {
    forall f :: FieldValid(p, f)
  }

  /** The fields among `fields` whose constraint fails, in their order: the
      issues the schema reports. */
  function Issues(p: EntrancePayload, fields: seq<EntranceField>): (r: seq<EntranceField>)
    ensures |r| <= |fields|
    ensures forall f :: f in r <==> f in fields && !FieldValid(p, f)
  {
    if fields == [] then []
    else
      var rest := Issues(p, fields[1..]);
      assert forall f :: f in fields <==> f == fields[0] || f in fields[1..];
      if FieldValid(p, fields[0]) then rest else [fields[0]] + rest
  }

  // ------------------------------------------------------------ lemmas

  /** A payload passes the schema exactly when it raises no issue. */
  lemma ValidIffNoIssues(p: EntrancePayload)
    ensures Valid(p) <==> Issues(p, SchemaOrder) == []
  {
    forall f ensures f in SchemaOrder {
      match f
      case UserIdField => assert SchemaOrder[0] == f;
      case TypePersonIdField => assert SchemaOrder[1] == f;
      case SaleDateField => assert SchemaOrder[2] == f;
      case CantidadField => assert SchemaOrder[3] == f;
      case SaleNumberField => assert SchemaOrder[4] == f;
      case SaleChannelField => assert SchemaOrder[5] == f;
      case TotalSaleField => assert SchemaOrder[6] == f;
      case PaymentMethodField => assert SchemaOrder[7] == f;
    }
    if !Valid(p) {
      var f :| !FieldValid(p, f);
      assert f in Issues(p, SchemaOrder);
    }
    var issues := Issues(p, SchemaOrder);
    if issues != [] {
      assert issues[0] in issues;
      assert !FieldValid(p, issues[0]);
    }
  }

  /** A quantity of 0 passes but a fraction or a negative count does not;
      a total of 0 passes, NaN and negative totals do not. */
  lemma NumberConstraints()
    ensures NonNegativeInteger(Finite(0.0)) && !NonNegativeInteger(Finite(1.5)) && !NonNegativeInteger(Finite(-1.0))
    ensures !NonNegativeInteger(PosInfinity) && !NonNegativeInteger(NaN)
    ensures NonNegative(Finite(0.0)) && !NonNegative(NaN) && !NonNegative(Finite(-0.5)) && !NonNegative(NegInfinity)
  {
    assert (1.5).Floor == 1;
  }
}
