# Invoice validator model

A Dafny model of the invoice schema of the DataBridge AI mock invoice-parsing
service. The service is a small FastAPI app. Its only logic is two Pydantic
models: `InvoiceLineItem` and `Invoice`. Its `/parse/invoice` endpoint always
returns one constant invoice built from those models.

- `wrappers.dfy`, module `Wrappers`: `Option` for an omitted field, and `Result` for "accepted value, or every violation found".
- `line_item.dfy`, module `LineItems`: the `InvoiceLineItem` schema.
  - `quantity`, `unit_price` and `total` must each be strictly positive.
  - The `validate_total` check accepts `total` only if it lies within 0.01 of `quantity * unit_price`, boundary included.
  - `ValidLineItem` states these conditions directly.
  - `LineItemIssues` models the violations the schema reports, in field declaration order.
  - `LineItemIssuesByField` states what is reported for each field. This includes how the total check reads a failed quantity or unit price as 0.
- `invoice.dfy`, module `Invoices`: the `Invoice` schema.
  - The currency code must match `^[A-Z]{3}$`. An omitted code defaults to `"EUR"`.
  - Every line item must be valid.
  - Nothing else is checked. `total_amount` is never compared with the line totals.
  - `ItemsIssues` checks every element of the line-item list and numbers each violation by the item's position.
  - `ParseInvoice` is the reference definition of the schema. `ValidateInvoice` is a scanning implementation proved equal to it, and `MatchCurrency` models the pattern match.
- `mock.dfy`, module `MockParser`: the invoice the endpoint returns, and the proof that it passes validation.

Numbers are Dafny `real`, so arithmetic is exact rather than IEEE-754 `float`.
Strings are `seq<char>`.

Points where the schema is looser than one might expect:

- Pydantic checks every line item and reports all violations, in field and list order. It does not stop at the first failing item.
- `description` accepts any string, including the empty one.
- `date` is any string. Its `YYYY-MM-DD` shape is a description only and is never checked.

## Model

| member | source | states |
|---|---|---|
| LineItems.LineItemIssues | main.py:20-34 | no violation is reported exactly when quantity > 0, unit_price > 0, total > 0 and abs(total - quantity*unit_price) <= 0.01; at most three violations are reported |
| LineItems.LineItemIssuesByField | main.py:22-33 | a quantity, unit price or total violation is reported iff that field is <= 0; a non-positive quantity is reported first, then a non-positive unit price; a failed quantity or unit price is read as 0 by the total check, so a total above 0.01 is then also reported as a mismatch against 0; with all three fields positive, the only possible report is a mismatch between total and quantity*unit_price |
| LineItems.PositiveFieldsReportOnlyMismatch | main.py:28-33 | with all three fields positive, the report is exactly one mismatch carrying the given total and quantity*unit_price when they differ by more than 0.01, and empty otherwise |
| LineItems.ParseLineItem | main.py:20-34 | a line item is accepted iff quantity > 0, unit_price > 0, total > 0 and abs(total - quantity*unit_price) <= 0.01; an accepted item carries exactly the given values; a rejection carries at least one violation |
| LineItems.ExactTotalAccepted | main.py:22-34 | for any positive quantity and unit price, a total equal to their product is accepted unchanged |
| LineItems.ToleranceIsInclusive | main.py:31-33 | with positive fields, an item whose total is exactly 0.01 away from quantity*unit_price is accepted unchanged, and one further away is rejected with exactly one mismatch against quantity*unit_price |
| LineItems.ToleranceBoundaryExample | main.py:31-33 | quantity 1, price 1, total 1.01 is accepted; total 1.011 is rejected with a mismatch against the expected 1 |
| LineItems.NonPositiveFactorRejects | main.py:22-23 | a non-positive quantity or unit price rejects the item whatever its total, and a non-positive quantity is the first violation reported |
| LineItems.ZeroQuantityExample | main.py:22-33 | quantity 0, price 5, total 0 is rejected for quantity and then for total; no mismatch is reported because the total check runs only after total > 0 passes |
| LineItems.ParseLineItemIdempotent | main.py:28-34 | an accepted line item is accepted again, unchanged, when validated a second time |
| Invoices.ResolveCurrency | main.py:42 | a given currency is kept as given; an omitted currency becomes "EUR", a code that satisfies the pattern |
| Invoices.CurrencyIssues | main.py:42 | a currency violation is reported exactly when the resolved currency breaks `^[A-Z]{3}$`, and only currency violations come from this field |
| Invoices.MatchCurrency | main.py:42 | the pattern matcher answers true iff the string has three characters, all in 'A'..'Z' |
| Invoices.ItemsIssuesEmptyIff | main.py:43 | the line items produce no violation iff every line item is valid |
| Invoices.ItemsIssuesSound | main.py:43 | every reported line-item violation names a position within the list whose item is invalid |
| Invoices.ItemsIssuesComplete | main.py:43 | every invalid line item is reported at its own position; checking does not stop at the first failure |
| Invoices.ItemsIssuesAppend | main.py:43 | checking two lists one after the other reports exactly what checking their concatenation reports, with positions shifted |
| Invoices.InvoiceIssues | main.py:37-43 | an invoice has no violation iff its resolved currency matches the pattern and every line item is valid |
| Invoices.ParseInvoice | main.py:37-43 | an invoice is accepted iff the currency is omitted or matches the pattern and every line item is valid; an accepted invoice is valid, keeps every given field, and has currency "EUR" when it was omitted |
| Invoices.ValidateInvoice | main.py:37-43 | checking the currency and then every line item in order gives the same accept/reject result and the same violation list as the reference definition |
| Invoices.SerializeRoundTrip | main.py:37-43 | serializing a valid invoice and validating it again yields the same invoice |
| Invoices.SerializeAcceptedIffValid | main.py:37-43 | a serialized invoice is accepted on re-validation iff it is valid |
| Invoices.ParseInvoiceIdempotent | main.py:37-43 | validate, then serialize, then validate again gives the first result |
| Invoices.OmittedCurrencyDefaults | main.py:42 | with the currency omitted and valid line items, the invoice is accepted with currency "EUR", and "EUR" satisfies the pattern |
| Invoices.CurrencyExamples | main.py:42 | "eur", "EU" and "EURO" break the pattern; "EUR" and "USD" meet it |
| Invoices.LowerCaseCurrencyRejected | main.py:42 | currency "eur" rejects the invoice, and the currency violation is reported first |
| Invoices.EmptyLineItemsAccepted | main.py:42-43 | an invoice with an empty line-item list is accepted whenever its currency is omitted or matches the pattern |
| Invoices.HeaderFieldsUnconstrained | main.py:37-43 | changing invoice_number, date, vendor_name or total_amount never changes whether the schema accepts a candidate invoice |
| Invoices.TotalAmountNotChecked | main.py:41-43 | the schema accepts an invoice whose total_amount differs from the sum of its line totals |
| MockParser.ParseInvoiceResponse | main.py:57-82 | the endpoint's invoice is accepted and valid, has currency "EUR" and total amount 123.45, and holds the single line item "Servizio di consulenza", 1 x 123.45 = 123.45 |
| MockParser.MockLineItemAccepted | main.py:75-80 | the mock line item passes its own constructor unchanged |
| MockParser.ResponseIgnoresUpload | main.py:58-68 | the response does not depend on the uploaded bytes |
| MockParser.ResponseModelRevalidates | main.py:57 | validating the returned invoice again against the `Invoice` response model accepts it unchanged |
| MockParser.MockTotalsAgree | main.py:72-80 | the mock's total amount equals the sum of its line totals, although the schema does not require it |

## Left out

- The FastAPI app object, the `/health` endpoint and reading the uploaded file (main.py:10-14, 49-66) are HTTP and I/O plumbing. The upload is only an unused argument of `MockParser.ParseInvoiceResponse`.
- IEEE-754 doubles. Quantities are exact reals, so NaN, infinities and rounding of `quantity * unit_price` are not modelled. Under doubles the literals 1.01 and 0.01 both round, and 1.01 - 1.0 comes out just above the double nearest 0.01. So the accepted boundary case of `LineItems.ToleranceBoundaryExample` holds in the real-number model only.
- Pydantic lax-mode coercion is not modelled. Examples are the integer `1` accepted as `1.0`, and numeric strings. Inputs are already typed values.
- Type errors for wrongly typed or missing fields are not modelled, for the same reason.
- Error message text and Pydantic's error type names are not modelled. A violation records only its kind and the values involved.
- The validation error raised when constructing the invoice in the mock handler is not modelled as an HTTP response, because the mock invoice is proved valid.
