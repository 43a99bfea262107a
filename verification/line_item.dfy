/**
 * The `InvoiceLineItem` schema: three strictly positive numeric fields and a
 * cross-field check that the line total matches quantity times unit price
 * within an inclusive tolerance of 0.01.
 *
 * Numbers are modelled as `real` (ideal arithmetic, not IEEE-754 doubles).
 */
module LineItems {
  import opened Wrappers

  /** A candidate line item, exactly as handed to the schema. */
  datatype LineItem = LineItem(description: string, quantity: real, unitPrice: real, total: real)

  /** The numeric fields that carry a constraint. */
  datatype LineField = Quantity | UnitPrice | Total

  /** One violation, as the schema reports it. */
  datatype Issue =
    | NotPositive(field: LineField)                 // a `gt=0` field constraint failed
    | TotalMismatch(given: real, expected: real)    // the `validate_total` check raised

  /** Largest accepted distance between `total` and `quantity * unitPrice`. */
  const Tolerance: real := 0.01

  function Abs(x: real): real {
    if x < 0.0 then -x else x
  }

  /** The acceptance condition of a line item, stated directly. */
  predicate ValidLineItem(item: LineItem) {
    && item.quantity > 0.0
    && item.unitPrice > 0.0
    && item.total > 0.0
    && Abs(item.total - item.quantity * item.unitPrice) <= Tolerance
  }

  /**
   * The violations reported for `item`, in field declaration order.  Each
   * field constraint is checked independently.  The total check runs only
   * once `total > 0` has passed, and it reads a sibling field as 0 when that
   * sibling itself failed its constraint.
   */
  function LineItemIssues(item: LineItem): (r: seq<Issue>)
    ensures |r| == 0 <==> ValidLineItem(item)
    ensures |r| <= 3
  {
    var quantityOk := item.quantity > 0.0;
    var priceOk := item.unitPrice > 0.0;
    // A factor that failed its own constraint is read as 0, which makes the product 0.
    var expected := if quantityOk && priceOk then item.quantity * item.unitPrice else 0.0;
    (if quantityOk then [] else [NotPositive(Quantity)])
    + (if priceOk then [] else [NotPositive(UnitPrice)])
    + (if item.total <= 0.0 then [NotPositive(Total)]
       else if Abs(item.total - expected) > Tolerance then [TotalMismatch(item.total, expected)]
       else [])
  }

  /**
   * What is reported for each field: a field constraint violation exactly
   * when that field is not positive, quantity before unit price, and a
   * total check that reads a failed quantity or unit price as 0.
   */
  lemma LineItemIssuesByField(item: LineItem)
    ensures var r := LineItemIssues(item);
            && (NotPositive(Quantity) in r <==> item.quantity <= 0.0)
            && (NotPositive(UnitPrice) in r <==> item.unitPrice <= 0.0)
            && (NotPositive(Total) in r <==> item.total <= 0.0)
            && (item.quantity <= 0.0 ==> r[0] == NotPositive(Quantity))
            && (item.quantity > 0.0 && item.unitPrice <= 0.0 ==> r[0] == NotPositive(UnitPrice))
            && (item.quantity <= 0.0 && item.total > Tolerance ==> r[|r| - 1] == TotalMismatch(item.total, 0.0))
            && (item.unitPrice <= 0.0 && item.total > Tolerance ==> r[|r| - 1] == TotalMismatch(item.total, 0.0))
            && (item.quantity > 0.0 && item.unitPrice > 0.0 && item.total > 0.0 ==>
                  r == [] || r == [TotalMismatch(item.total, item.quantity * item.unitPrice)])
  {
    if item.quantity > 0.0 && item.unitPrice > 0.0 && item.total > 0.0 {
      PositiveFieldsReportOnlyMismatch(item);
    }
  }

  /** With all three numeric fields positive, the only possible violation is the mismatch. */
  lemma PositiveFieldsReportOnlyMismatch(item: LineItem)
    requires item.quantity > 0.0 && item.unitPrice > 0.0 && item.total > 0.0
    ensures var expected := item.quantity * item.unitPrice;
            LineItemIssues(item) == if Abs(item.total - expected) > Tolerance then [TotalMismatch(item.total, expected)] else []
  {
  }

  /** Constructs a line item: the candidate unchanged when it is valid, its violations otherwise. */
  function ParseLineItem(item: LineItem): (r: Result<LineItem, seq<Issue>>)
    ensures r.Success? <==> ValidLineItem(item)
    ensures r.Success? ==> r.value == item
    ensures r.Failure? ==> |r.error| > 0
  {
    var issues := LineItemIssues(item);
    if |issues| == 0 then Success(item) else Failure(issues)
  }

  /** A total exactly equal to quantity times unit price is accepted, whatever the (positive) factors. */
  lemma ExactTotalAccepted(description: string, quantity: real, unitPrice: real)
    requires quantity > 0.0 && unitPrice > 0.0
    ensures ParseLineItem(LineItem(description, quantity, unitPrice, quantity * unitPrice))
            == Success(LineItem(description, quantity, unitPrice, quantity * unitPrice))
  {
  }

  /** The tolerance is inclusive: a distance of exactly 0.01 is accepted, anything beyond is a mismatch. */
  lemma ToleranceIsInclusive(item: LineItem)
    requires item.quantity > 0.0 && item.unitPrice > 0.0 && item.total > 0.0
    ensures Abs(item.total - item.quantity * item.unitPrice) == Tolerance ==> ParseLineItem(item) == Success(item)
    ensures Abs(item.total - item.quantity * item.unitPrice) > Tolerance ==>
              ParseLineItem(item) == Failure([TotalMismatch(item.total, item.quantity * item.unitPrice)])
  {
    PositiveFieldsReportOnlyMismatch(item);
  }

  /** The boundary on concrete values: 1 x 1 with total 1.01 passes, with total 1.011 it fails. */
  lemma ToleranceBoundaryExample()
    ensures ParseLineItem(LineItem("item", 1.0, 1.0, 1.01)).Success?
    ensures ParseLineItem(LineItem("item", 1.0, 1.0, 1.011))
            == Failure([TotalMismatch(1.011, 1.0)])
  {
    LineItemIssuesByField(LineItem("item", 1.0, 1.0, 1.011));
  }

  /** A non-positive quantity or unit price rejects the item whatever its total. */
  lemma NonPositiveFactorRejects(item: LineItem)
    requires item.quantity <= 0.0 || item.unitPrice <= 0.0
    ensures ParseLineItem(item).Failure?
    ensures item.quantity <= 0.0 ==> ParseLineItem(item).error[0] == NotPositive(Quantity)
  {
    LineItemIssuesByField(item);
  }

  /** Quantity 0, unit price 5, total 0: the quantity violation is reported first. */
  lemma ZeroQuantityExample()
    ensures ParseLineItem(LineItem("item", 0.0, 5.0, 0.0))
            == Failure([NotPositive(Quantity), NotPositive(Total)])
  {
    var item := LineItem("item", 0.0, 5.0, 0.0);
    assert LineItemIssues(item) == [NotPositive(Quantity)] + [] + [NotPositive(Total)];
    assert [NotPositive(Quantity)] + [] + [NotPositive(Total)] == [NotPositive(Quantity), NotPositive(Total)];
  }

  /** Re-validating an accepted line item accepts it again, unchanged. */
  lemma ParseLineItemIdempotent(item: LineItem)
    requires ParseLineItem(item).Success?
    ensures ParseLineItem(ParseLineItem(item).value) == ParseLineItem(item)
  {
  }
}
