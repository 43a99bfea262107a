/**
 * The mock `/parse/invoice` handler: whatever file is uploaded, it builds and
 * returns one constant invoice with a single consulting line item.  Reading
 * the upload is I/O and is represented only by the unused `upload` argument.
 */
module MockParser {
  import opened Wrappers
  import opened LineItems
  import opened Invoices

  /** The single line item of the mock invoice (the integer quantity 1 is coerced to 1.0). */
  const MockLineItem: LineItem := LineItem("Servizio di consulenza", 1.0, 123.45, 123.45)

  /** The field values the handler passes to the `Invoice` constructor. */
  const MockInput: InvoiceInput :=
    InvoiceInput("INV-2024-001", "2024-05-12", "ACME SRL", 123.45, Some("EUR"), [MockLineItem])

  /** The handler's result: the constant invoice, validated; the upload's bytes are never inspected. */
  function ParseInvoiceResponse(upload: seq<bv8>): (r: Result<Invoice, seq<InvoiceIssue>>)
    ensures r.Success? && ValidInvoice(r.value)
    ensures r.value.currency == "EUR" && r.value.totalAmount == 123.45
    ensures r.value.lineItems == [LineItem("Servizio di consulenza", 1.0, 123.45, 123.45)]
  {
    assert ValidLineItem(MockLineItem);
    assert ValidCurrency("EUR") by {
      assert forall i :: 0 <= i < 3 ==> IsUpperAscii("EUR"[i]);
    }
    ParseInvoice(MockInput)
  }

  /** The mock line item passes its own constructor unchanged. */
  lemma MockLineItemAccepted()
    ensures ParseLineItem(MockLineItem) == Success(MockLineItem)
  {
  }

  /** Two uploads, whatever their content, get the same response. */
  lemma ResponseIgnoresUpload(a: seq<bv8>, b: seq<bv8>)
    ensures ParseInvoiceResponse(a) == ParseInvoiceResponse(b)
  {
  }

  /** Serializing the response against the `Invoice` response model validates it again, unchanged. */
  lemma ResponseModelRevalidates(upload: seq<bv8>)
    ensures ParseInvoice(Serialize(ParseInvoiceResponse(upload).value)) == ParseInvoiceResponse(upload)
  {
  }

  /** The mock's total amount happens to equal its single line total, though nothing checks it. */
  lemma MockTotalsAgree(upload: seq<bv8>)
    ensures var inv := ParseInvoiceResponse(upload).value;
            inv.totalAmount == LineTotalsSum(inv.lineItems)
  {
  }
}
