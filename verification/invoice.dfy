/**
 * The `Invoice` schema: a currency code of exactly three upper-case ASCII
 * letters (defaulting to "EUR" when omitted) and a list of line items that
 * must each be valid.  No other field is constrained: in particular
 * `totalAmount` is never compared with the line totals.
 */
module Invoices {
  import opened Wrappers
  import opened LineItems

  /** A validated invoice. */
  datatype Invoice = Invoice(
    invoiceNumber: string,
    date: string,
    vendorName: string,
    totalAmount: real,
    currency: string,
    lineItems: seq<LineItem>)

  /** A candidate invoice as handed to the schema; `currency` may be omitted. */
  datatype InvoiceInput = InvoiceInput(
    invoiceNumber: string,
    date: string,
    vendorName: string,
    totalAmount: real,
    currency: Option<string>,
    lineItems: seq<LineItem>)

  /** One violation, located at the invoice field or the line item it concerns. */
  datatype InvoiceIssue =
    | CurrencyPattern(value: string)
    | LineItemIssue(index: nat, issue: Issue)

  const DefaultCurrency: string := "EUR"

  predicate IsUpperAscii(c: char) {
    'A' <= c <= 'Z'
  }

  /** The currency pattern `^[A-Z]{3}$`: exactly three characters, each in 'A'..'Z'. */
  predicate ValidCurrency(s: string) {
    |s| == 3 && forall i :: 0 <= i < |s| ==> IsUpperAscii(s[i])
  }

  predicate AllLineItemsValid(items: seq<LineItem>) {
    forall i :: 0 <= i < |items| ==> ValidLineItem(items[i])
  }

  /** The acceptance condition of an invoice, stated directly. */
  predicate ValidInvoice(inv: Invoice) {
    ValidCurrency(inv.currency) && AllLineItemsValid(inv.lineItems)
  }

  /** The currency an invoice ends up with: the given code, or the default when omitted. */
  function ResolveCurrency(currency: Option<string>): (r: string)
    ensures currency.Some? ==> r == currency.value
    ensures currency.None? ==> r == DefaultCurrency && ValidCurrency(r)
  {
    match currency
    case Some(code) => code
    case None => DefaultCurrency
  }

  /**
   * The currency violations.  An omitted currency takes the default without
   * the pattern being re-checked.
   */
  function CurrencyIssues(currency: Option<string>): (r: seq<InvoiceIssue>)
    ensures |r| == 0 <==> ValidCurrency(ResolveCurrency(currency))
    ensures forall k :: 0 <= k < |r| ==> r[k].CurrencyPattern?
  {
    match currency
    case Some(code) => if ValidCurrency(code) then [] else [CurrencyPattern(code)]
    case None => []
  }

  /** The violations of one line item, tagged with the item's position. */
  function AtIndex(index: nat, issues: seq<Issue>): seq<InvoiceIssue> {
    seq(|issues|, k requires 0 <= k < |issues| => LineItemIssue(index, issues[k]))
  }

  predicate ReportsItem(x: InvoiceIssue, index: nat) {
    x.LineItemIssue? && x.index == index
  }

  /**
   * The violations of every line item of `items`, numbered from `from`, in
   * list order.  Every item is checked; nothing stops at the first failure.
   */
  function ItemsIssues(items: seq<LineItem>, from: nat): seq<InvoiceIssue>
    decreases |items|
  {
    if |items| == 0 then []
    else AtIndex(from, LineItemIssues(items[0])) + ItemsIssues(items[1..], from + 1)
  }

  /** The line items produce no violation exactly when every one of them is valid. */
  lemma {:induction false} ItemsIssuesEmptyIff(items: seq<LineItem>, from: nat)
    ensures |ItemsIssues(items, from)| == 0 <==> AllLineItemsValid(items)
    decreases |items|
  {
    if |items| > 0 {
      ItemsIssuesEmptyIff(items[1..], from + 1);
      assert AllLineItemsValid(items) <==> ValidLineItem(items[0]) && AllLineItemsValid(items[1..]) by {
        if ValidLineItem(items[0]) && AllLineItemsValid(items[1..]) {
          forall i | 0 <= i < |items| ensures ValidLineItem(items[i]) {
            if i > 0 { assert items[i] == items[1..][i - 1]; }
          }
        }
      }
    }
  }

  /** Every violation in `r` names an invalid item of `items`, numbered from `from`. */
  predicate OnlyInvalidReported(items: seq<LineItem>, from: nat, r: seq<InvoiceIssue>) {
    forall k :: 0 <= k < |r| ==>
      r[k].LineItemIssue? && from <= r[k].index < from + |items|
      && !ValidLineItem(items[r[k].index - from])
  }

  /** Every invalid item of `items`, numbered from `from`, has a violation in `r`. */
  predicate EveryInvalidReported(items: seq<LineItem>, from: nat, r: seq<InvoiceIssue>) {
    forall i :: 0 <= i < |items| && !ValidLineItem(items[i]) ==>
      exists k :: 0 <= k < |r| && ReportsItem(r[k], from + i)
  }

  /** Every reported line-item violation names an item that is indeed invalid. */
  lemma {:induction false} ItemsIssuesSound(items: seq<LineItem>, from: nat)
    ensures OnlyInvalidReported(items, from, ItemsIssues(items, from))
    decreases |items|
  {
    if |items| > 0 {
      var head := AtIndex(from, LineItemIssues(items[0]));
      var rest := ItemsIssues(items[1..], from + 1);
      var r := ItemsIssues(items, from);
      assert r == head + rest;
      ItemsIssuesSound(items[1..], from + 1);
      forall k | 0 <= k < |r|
        ensures r[k].LineItemIssue? && from <= r[k].index < from + |items|
        ensures !ValidLineItem(items[r[k].index - from])
      {
        if k < |head| {
          assert r[k] == head[k];
        } else {
          var j := k - |head|;
          assert r[k] == rest[j];
          assert items[1..][rest[j].index - (from + 1)] == items[rest[j].index - from];
        }
      }
    }
  }

  /** Every invalid line item is reported at its position. */
  lemma {:induction false} ItemsIssuesComplete(items: seq<LineItem>, from: nat)
    ensures EveryInvalidReported(items, from, ItemsIssues(items, from))
    decreases |items|
  {
    if |items| > 0 {
      var head := AtIndex(from, LineItemIssues(items[0]));
      var rest := ItemsIssues(items[1..], from + 1);
      var r := ItemsIssues(items, from);
      assert r == head + rest;
      ItemsIssuesComplete(items[1..], from + 1);
      forall i | 0 <= i < |items| && !ValidLineItem(items[i])
        ensures exists k :: 0 <= k < |r| && ReportsItem(r[k], from + i)
      {
        if i == 0 {
          assert r[0] == head[0];
        } else {
          assert items[1..][i - 1] == items[i];
          var k :| 0 <= k < |rest| && ReportsItem(rest[k], from + 1 + (i - 1));
          assert r[|head| + k] == rest[k];
        }
      }
    }
  }

  /** Every violation of a candidate invoice, in field declaration order. */
  function InvoiceIssues(input: InvoiceInput): (r: seq<InvoiceIssue>)
    ensures |r| == 0 <==>
              ValidCurrency(ResolveCurrency(input.currency)) && AllLineItemsValid(input.lineItems)
  {
    ItemsIssuesEmptyIff(input.lineItems, 0);
    CurrencyIssues(input.currency) + ItemsIssues(input.lineItems, 0)
  }

  /** The invoice a candidate becomes once accepted. */
  function ToInvoice(input: InvoiceInput): Invoice {
    Invoice(input.invoiceNumber, input.date, input.vendorName, input.totalAmount,
            ResolveCurrency(input.currency), input.lineItems)
  }

  /** Constructs an invoice: accepted with every given value kept, or rejected with all its violations. */
  function ParseInvoice(input: InvoiceInput): (r: Result<Invoice, seq<InvoiceIssue>>)
    ensures r.Success? <==>
              (input.currency.None? || ValidCurrency(input.currency.value))
              && AllLineItemsValid(input.lineItems)
    ensures r.Success? ==> ValidInvoice(r.value)
    ensures r.Success? ==>
              && r.value.invoiceNumber == input.invoiceNumber
              && r.value.date == input.date
              && r.value.vendorName == input.vendorName
              && r.value.totalAmount == input.totalAmount
              && r.value.lineItems == input.lineItems
              && r.value.currency == (if input.currency.Some? then input.currency.value else "EUR")
    ensures r.Failure? ==> |r.error| > 0
  {
    var issues := InvoiceIssues(input);
    if |issues| == 0 then Success(ToInvoice(input)) else Failure(issues)
  }

  /** The external representation of an invoice, as a candidate with every field present. */
  function Serialize(inv: Invoice): InvoiceInput {
    InvoiceInput(inv.invoiceNumber, inv.date, inv.vendorName, inv.totalAmount,
                 Some(inv.currency), inv.lineItems)
  }

  /**
   * Validates a candidate invoice by scanning its fields in order and
   * collecting every violation, as the schema does.
   */
  method ValidateInvoice(input: InvoiceInput) returns (r: Result<Invoice, seq<InvoiceIssue>>)
    ensures r == ParseInvoice(input)
  {
    var currencyIssues: seq<InvoiceIssue> := [];
    if input.currency.Some? {
      var ok := MatchCurrency(input.currency.value);
      if !ok {
        currencyIssues := [CurrencyPattern(input.currency.value)];
      }
    }
    var items := input.lineItems;
    var itemIssues: seq<InvoiceIssue> := [];
    var i := 0;
    while i < |items|
      invariant 0 <= i <= |items|
      invariant itemIssues == ItemsIssues(items[..i], 0)
    {
      ItemsIssuesSnoc(items, i);
      itemIssues := itemIssues + AtIndex(i, LineItemIssues(items[i]));
      i := i + 1;
    }
    assert items[..|items|] == items;
    var issues := currencyIssues + itemIssues;
    assert issues == InvoiceIssues(input);
    if |issues| == 0 {
      r := Success(ToInvoice(input));
    } else {
      r := Failure(issues);
    }
  }

  /** Checking one more item appends that item's violations, numbered by its position. */
  lemma ItemsIssuesSnoc(items: seq<LineItem>, i: nat)
    requires i < |items|
    ensures ItemsIssues(items[..i + 1], 0) == ItemsIssues(items[..i], 0) + AtIndex(i, LineItemIssues(items[i]))
  {
    ItemsIssuesAppend(items[..i], [items[i]], 0);
    assert items[..i + 1] == items[..i] + [items[i]];
    assert ItemsIssues([items[i]], i) == AtIndex(i, LineItemIssues(items[i])) + ItemsIssues([], i + 1);
  }

  /** Matches `code` against `^[A-Z]{3}$` one character at a time. */
  method MatchCurrency(code: string) returns (ok: bool)
    ensures ok <==> ValidCurrency(code)
  {
    if |code| != 3 {
      return false;
    }
    var i := 0;
    while i < |code|
      invariant 0 <= i <= |code|
      invariant forall j :: 0 <= j < i ==> IsUpperAscii(code[j])
    {
      if !IsUpperAscii(code[i]) {
        return false;
      }
      i := i + 1;
    }
    return true;
  }

  /** Checking two lists one after the other reports exactly what checking their concatenation does. */
  lemma {:induction false} ItemsIssuesAppend(a: seq<LineItem>, b: seq<LineItem>, from: nat)
    ensures ItemsIssues(a + b, from) == ItemsIssues(a, from) + ItemsIssues(b, from + |a|)
    decreases |a|
  {
    if |a| == 0 {
      assert a + b == b;
    } else {
      var head := AtIndex(from, LineItemIssues(a[0]));
      assert (a + b)[0] == a[0];
      assert (a + b)[1..] == a[1..] + b;
      calc {
        ItemsIssues(a + b, from);
        head + ItemsIssues(a[1..] + b, from + 1);
        { ItemsIssuesAppend(a[1..], b, from + 1); }
        head + (ItemsIssues(a[1..], from + 1) + ItemsIssues(b, from + |a|));
        (head + ItemsIssues(a[1..], from + 1)) + ItemsIssues(b, from + |a|);
        ItemsIssues(a, from) + ItemsIssues(b, from + |a|);
      }
    }
  }

  /** Serializing a valid invoice and validating it again yields the same invoice. */
  lemma SerializeRoundTrip(inv: Invoice)
    requires ValidInvoice(inv)
    ensures ParseInvoice(Serialize(inv)) == Success(inv)
  {
  }

  /** An invoice survives serialization and re-validation exactly when it is valid. */
  lemma SerializeAcceptedIffValid(inv: Invoice)
    ensures ParseInvoice(Serialize(inv)).Success? <==> ValidInvoice(inv)
  {
  }

  /** Validating, serializing and validating again changes nothing. */
  lemma ParseInvoiceIdempotent(input: InvoiceInput)
    requires ParseInvoice(input).Success?
    ensures ParseInvoice(Serialize(ParseInvoice(input).value)) == ParseInvoice(input)
  {
  }

  /** Omitting the currency yields "EUR", which itself satisfies the pattern. */
  lemma OmittedCurrencyDefaults(input: InvoiceInput)
    requires input.currency.None? && AllLineItemsValid(input.lineItems)
    ensures ParseInvoice(input).Success?
    ensures ParseInvoice(input).value.currency == "EUR"
    ensures ValidCurrency(DefaultCurrency)
  {
  }

  /** "eur", "EU" and "EURO" break the pattern; "EUR" and "USD" meet it. */
  lemma CurrencyExamples()
    ensures !ValidCurrency("eur") && !ValidCurrency("EU") && !ValidCurrency("EURO")
    ensures ValidCurrency("EUR") && ValidCurrency("USD")
  {
    assert !IsUpperAscii("eur"[0]);
  }

  /** A lower-case currency is rejected, and reported as a currency violation first. */
  lemma LowerCaseCurrencyRejected(input: InvoiceInput)
    requires input.currency == Some("eur")
    ensures ParseInvoice(input).Failure?
    ensures ParseInvoice(input).error[0] == CurrencyPattern("eur")
  {
    assert !IsUpperAscii("eur"[0]);
  }

  /** An invoice with no line items is valid as soon as its currency is. */
  lemma EmptyLineItemsAccepted(input: InvoiceInput)
    requires input.lineItems == [] && (input.currency.None? || ValidCurrency(input.currency.value))
    ensures ParseInvoice(input).Success?
  {
  }

  /**
   * Date, number, vendor and total amount are unconstrained: changing them
   * never changes whether a candidate invoice is accepted.
   */
  lemma HeaderFieldsUnconstrained(input: InvoiceInput, number: string, date: string, vendor: string, amount: real)
    ensures ParseInvoice(input).Success? <==>
            ParseInvoice(input.(invoiceNumber := number, date := date, vendorName := vendor, totalAmount := amount)).Success?
  {
  }

  /** The sum of the line totals, which the schema never compares with `totalAmount`. */
  function LineTotalsSum(items: seq<LineItem>): real {
    if |items| == 0 then 0.0 else items[0].total + LineTotalsSum(items[1..])
  }

  /** An invoice is accepted even though its `totalAmount` differs from the sum of its line totals. */
  lemma TotalAmountNotChecked()
    ensures var input := InvoiceInput("1", "2024-01-01", "V", 0.0, Some("EUR"), [LineItem("x", 2.0, 3.0, 6.0)]);
            ParseInvoice(input).Success? && input.totalAmount != LineTotalsSum(input.lineItems)
  {
  }
}
