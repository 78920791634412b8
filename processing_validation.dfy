/** The private `ValidateInvoice` of InvoiceProcessingService
    (BillingExtractor.Infrastructure/Services/InvoiceProcessingService.cs):
    an older rule set than InvoiceValidator, with its own codes and
    thresholds. Missing line items are only a warning, a zero unit price is
    allowed and the customer is not checked. The method grows both lists as
    the source does and is proved equal to the function `Validation`. */
module ProcessingValidation {
  import opened Text
  import opened Dtos
  import opened MoneyValue

  /** The required-field errors, in source order. */
  function RequiredErrors(invoice: InvoiceDto): seq<ValidationErrorDto> {
    (if IsBlank(invoice.invoiceNumber) then [ValidationErrorDto("MISSING_INVOICE_NUMBER", "Invoice number is required")] else [])
    + (if IsBlank(invoice.vendorName) then [ValidationErrorDto("MISSING_VENDOR_NAME", "Vendor name is required")] else [])
    + (if invoice.totalAmount <= 0.0 then [ValidationErrorDto("INVALID_TOTAL_AMOUNT", "Total amount must be greater than zero")] else [])
  }

  /** The three per-item rules. */
  datatype ItemRule = MissingDescription | InvalidQuantity | NegativePrice

  function RuleCode(k: ItemRule): string {
    match k
    case MissingDescription => "MISSING_DESCRIPTION"
    case InvalidQuantity => "INVALID_QUANTITY"
    case NegativePrice => "NEGATIVE_PRICE"
  }

  function RuleText(k: ItemRule): string {
    match k
    case MissingDescription => "is missing description"
    case InvalidQuantity => "has invalid quantity"
    case NegativePrice => "has negative unit price"
  }

  /** Whether the item breaks rule k: a blank description, a quantity that is
      not positive, a negative unit price (zero passes). */
  predicate Fails(k: ItemRule, item: LineItemDto) {
    match k
    case MissingDescription => IsBlank(item.description)
    case InvalidQuantity => item.quantity <= 0.0
    case NegativePrice => item.unitPrice < 0.0
  }

  /** The error rule k reports for the item at zero-based index i; the
      message numbers items from 1. */
  function RuleError(k: ItemRule, i: nat): ValidationErrorDto {
    ValidationErrorDto(RuleCode(k), "Line item " + NatToString(i + 1) + " " + RuleText(k))
  }

  function ItemErrors(i: nat, item: LineItemDto): seq<ValidationErrorDto> {
    (if Fails(MissingDescription, item) then [RuleError(MissingDescription, i)] else [])
    + (if Fails(InvalidQuantity, item) then [RuleError(InvalidQuantity, i)] else [])
    + (if Fails(NegativePrice, item) then [RuleError(NegativePrice, i)] else [])
  }

  /** The item errors of the first n items. */
  function ItemErrorsUpTo(items: seq<LineItemDto>, n: nat): seq<ValidationErrorDto>
    requires n <= |items|
  {
    if n == 0 then [] else ItemErrorsUpTo(items, n - 1) + ItemErrors(n - 1, items[n - 1])
  }

  const NoLineItems := ValidationWarningDto("NO_LINE_ITEMS", "Invoice has no line items")
  const AmountMismatch := ValidationWarningDto("AMOUNT_MISMATCH", "Calculated total doesn't match invoice total")

  /** `ValidateInvoice`'s (errors, warnings) pair. */
  function Validation(invoice: InvoiceDto): (seq<ValidationErrorDto>, seq<ValidationWarningDto>) {
    var items := invoice.lineItems;
    var errors := RequiredErrors(invoice) + (if items == [] then [] else ItemErrorsUpTo(items, |items|));
    var warnings :=
      if items == [] then [NoLineItems]
      else if Abs(SumDtoLineTotals(items) - invoice.totalAmount) > Tolerance then [AmountMismatch]
      else [];
    (errors, warnings)
  }

  /** `ValidateInvoice`: the required-field checks, the item loop and the
      amount check, each stage in a method of its own below. */
  method ValidateInvoice(invoice: InvoiceDto) returns (errors: seq<ValidationErrorDto>, warnings: seq<ValidationWarningDto>)
    ensures (errors, warnings) == Validation(invoice)
  {
    errors := CheckRequiredFields(invoice);
    warnings := [];
    var items := invoice.lineItems;
    if items == [] {
      warnings := warnings + [NoLineItems];
      assert errors == errors + [];
    } else {
      var itemErrors := CheckLineItems(items);
      errors := errors + itemErrors;
    }
    if items != [] {
      var calculatedTotal := SumDtoLineTotals(items);
      if Abs(calculatedTotal - invoice.totalAmount) > Tolerance {
        warnings := warnings + [AmountMismatch];
      }
    }
    assert errors == Validation(invoice).0;
    assert warnings == Validation(invoice).1;
  }

  method CheckRequiredFields(invoice: InvoiceDto) returns (errors: seq<ValidationErrorDto>)
    ensures errors == RequiredErrors(invoice)
  {
    errors := [];
    if IsBlank(invoice.invoiceNumber) {
      errors := errors + [ValidationErrorDto("MISSING_INVOICE_NUMBER", "Invoice number is required")];
    }
    if IsBlank(invoice.vendorName) {
      errors := errors + [ValidationErrorDto("MISSING_VENDOR_NAME", "Vendor name is required")];
    }
    if invoice.totalAmount <= 0.0 {
      errors := errors + [ValidationErrorDto("INVALID_TOTAL_AMOUNT", "Total amount must be greater than zero")];
    }
  }

  method CheckLineItems(items: seq<LineItemDto>) returns (errors: seq<ValidationErrorDto>)
    ensures errors == ItemErrorsUpTo(items, |items|)
  {
    errors := [];
    for i := 0 to |items|
      invariant errors == ItemErrorsUpTo(items, i)
    {
      errors := CheckItem(i, items[i], errors);
    }
  }

  /** The three checks of one item, at zero-based index i, appended in
      order after the errors found so far. */
  method CheckItem(i: nat, item: LineItemDto, before: seq<ValidationErrorDto>) returns (errors: seq<ValidationErrorDto>)
    ensures errors == before + ItemErrors(i, item)
  {
    errors := before;
    if IsBlank(item.description) {
      errors := errors + [RuleError(MissingDescription, i)];
    }
    if item.quantity <= 0.0 {
      errors := errors + [RuleError(InvalidQuantity, i)];
    }
    if item.unitPrice < 0.0 {
      errors := errors + [RuleError(NegativePrice, i)];
    }
  }

  /** The number in an item message is recovered from the message. */
  lemma ItemNumberSplit(x: string, y: string, t: string)
    requires forall i :: 0 <= i < |x| ==> IsDigit(x[i])
    requires forall i :: 0 <= i < |y| ==> IsDigit(y[i])
    requires "Line item " + x + " " + t == "Line item " + y + " " + t
    ensures x == y
  {
    var p := "Line item ";
    var m := p + x + " " + t;
    assert m[|p|..] == x + [' '] + t;
    assert m[|p|..] == y + [' '] + t;
    SplitAtSeparator(x, y, t, t, ' ');
  }

  /** Different (rule, index) pairs give different errors. */
  lemma RuleErrorInjective(k: ItemRule, i: nat, l: ItemRule, j: nat)
    requires RuleError(k, i) == RuleError(l, j)
    ensures k == l && i == j
  {
    assert RuleCode(k) == RuleCode(l);
    ItemNumberSplit(NatToString(i + 1), NatToString(j + 1), RuleText(k));
    NatToStringInjective(i + 1, j + 1);
  }

  /** The rules of the item at index j report rule k for index i exactly when
      i == j and the item breaks k. */
  lemma ItemErrorsContain(j: nat, item: LineItemDto, k: ItemRule, i: nat)
    ensures RuleError(k, i) in ItemErrors(j, item) <==> i == j && Fails(k, item)
  {
    var e := RuleError(k, i);
    if e in ItemErrors(j, item) {
      var l: ItemRule :| l in {MissingDescription, InvalidQuantity, NegativePrice} && e == RuleError(l, j) && Fails(l, item);
      RuleErrorInjective(k, i, l, j);
    }
  }

  /** Every item error comes from one of the three rules. */
  lemma {:induction false} ItemErrorsUpToFromRules(items: seq<LineItemDto>, n: nat, e: ValidationErrorDto)
    requires n <= |items| && e in ItemErrorsUpTo(items, n)
    ensures exists k: ItemRule, i: nat :: i < n && e == RuleError(k, i) && Fails(k, items[i])
  {
    if e in ItemErrorsUpTo(items, n - 1) {
      ItemErrorsUpToFromRules(items, n - 1, e);
    } else {
      var item := items[n - 1];
      var k: ItemRule :| k in {MissingDescription, InvalidQuantity, NegativePrice} && e == RuleError(k, n - 1) && Fails(k, item);
      assert e == RuleError(k, n - 1);
    }
  }

  lemma BrokenRuleReported(j: nat, item: LineItemDto, k: ItemRule)
    requires Fails(k, item)
    ensures RuleError(k, j) in ItemErrors(j, item)
  {
  }

  /** A rule an item breaks is reported for that item's index. */
  lemma {:induction false} ReportedWhenBroken(items: seq<LineItemDto>, n: nat, k: ItemRule, i: nat)
    requires i < n <= |items| && Fails(k, items[i])
    ensures RuleError(k, i) in ItemErrorsUpTo(items, n)
  {
    if i == n - 1 {
      BrokenRuleReported(i, items[i], k);
    } else {
      ReportedWhenBroken(items, n - 1, k, i);
    }
  }

  /** Among the first n items, rule k is reported for index i exactly when
      i < n and item i breaks k. */
  lemma ItemErrorsUpToContain(items: seq<LineItemDto>, n: nat, k: ItemRule, i: nat)
    requires n <= |items|
    ensures RuleError(k, i) in ItemErrorsUpTo(items, n) <==> i < n && Fails(k, items[i])
  {
    var e := RuleError(k, i);
    if e in ItemErrorsUpTo(items, n) {
      ItemErrorsUpToFromRules(items, n, e);
      var l: ItemRule, j: nat :| j < n && e == RuleError(l, j) && Fails(l, items[j]);
      RuleErrorInjective(k, i, l, j);
    }
    if i < n && Fails(k, items[i]) {
      ReportedWhenBroken(items, n, k, i);
    }
  }

  /** Item errors never carry a required-field code. */
  lemma ItemCodesAreRuleCodes(items: seq<LineItemDto>, e: ValidationErrorDto)
    requires e in ItemErrorsUpTo(items, |items|)
    ensures e.code in {"MISSING_DESCRIPTION", "INVALID_QUANTITY", "NEGATIVE_PRICE"}
  {
    ItemErrorsUpToFromRules(items, |items|, e);
  }

  /** A blank number, a blank vendor and a total that is not positive each
      yield their error, and only then; nothing is checked about the
      customer. */
  lemma RequiredFieldErrorsIff(invoice: InvoiceDto)
    ensures (ValidationErrorDto("MISSING_INVOICE_NUMBER", "Invoice number is required") in Validation(invoice).0)
              <==> IsBlank(invoice.invoiceNumber)
    ensures (ValidationErrorDto("MISSING_VENDOR_NAME", "Vendor name is required") in Validation(invoice).0)
              <==> IsBlank(invoice.vendorName)
    ensures (ValidationErrorDto("INVALID_TOTAL_AMOUNT", "Total amount must be greater than zero") in Validation(invoice).0)
              <==> invoice.totalAmount <= 0.0
  {
    var items := invoice.lineItems;
    if items != [] {
      forall e | e in ItemErrorsUpTo(items, |items|)
        ensures e.code in {"MISSING_DESCRIPTION", "INVALID_QUANTITY", "NEGATIVE_PRICE"}
      {
        ItemCodesAreRuleCodes(items, e);
      }
    }
  }

  /** The customer name and the invoice date play no part. */
  lemma CustomerAndDateIgnored(invoice: InvoiceDto, customerName: string, invoiceDate: nat)
    ensures Validation(invoice.(customerName := customerName, invoiceDate := invoiceDate)) == Validation(invoice)
  {
  }

  /** For every index i and rule k, the error naming item i + 1 under rule k
      is reported exactly when item i exists and breaks k; in particular a
      zero unit price passes. */
  lemma ItemRuleErrorsIff(invoice: InvoiceDto, k: ItemRule, i: nat)
    ensures RuleError(k, i) in Validation(invoice).0 <==>
              i < |invoice.lineItems| && Fails(k, invoice.lineItems[i])
  {
    var items := invoice.lineItems;
    if items != [] {
      ItemErrorsUpToContain(items, |items|, k, i);
    }
  }

  /** No line items: only the NO_LINE_ITEMS warning, and no item error; with
      line items that warning is never given. */
  lemma NoLineItemsIff(invoice: InvoiceDto)
    ensures NoLineItems in Validation(invoice).1 <==> invoice.lineItems == []
    ensures invoice.lineItems == [] ==>
              Validation(invoice) == (RequiredErrors(invoice), [NoLineItems])
  {
    assert RequiredErrors(invoice) + [] == RequiredErrors(invoice);
  }

  /** AMOUNT_MISMATCH is warned exactly when there are line items and their
      totals differ from the stated total by more than 0.01. */
  lemma AmountMismatchIff(invoice: InvoiceDto)
    ensures AmountMismatch in Validation(invoice).1 <==>
              invoice.lineItems != [] && Abs(SumDtoLineTotals(invoice.lineItems) - invoice.totalAmount) > Tolerance
  {
  }

  /** A mismatch never adds an error: among positive stated totals the
      errors do not depend on the total. */
  lemma MismatchIsNoError(invoice: InvoiceDto, total: real)
    requires invoice.totalAmount > 0.0 && total > 0.0
    ensures Validation(invoice.(totalAmount := total)).0 == Validation(invoice).0
  {
  }

  /** Items 2 x 30 = 60 and 1 x 30 = 30 of a complete invoice. */
  function ExampleInvoice(total: real): InvoiceDto {
    EmptyInvoiceDto.(invoiceNumber := "INV-001", invoiceDate := 1, vendorName := "Test Vendor",
                     customerName := "Test Customer", totalAmount := total, currency := "USD",
                     lineItems := [LineItemDto(1, "Item 1", 2.0, "EA", 30.0, 60.0),
                                   LineItemDto(2, "Item 2", 1.0, "EA", 30.0, 30.0)])
  }

  lemma ExampleTextNotBlank()
    ensures !IsBlank("INV-001") && !IsBlank("Test Vendor") && !IsBlank("Item 1") && !IsBlank("Item 2")
  {
    assert !IsWhiteSpace("INV-001"[0]);
    assert !IsWhiteSpace("Test Vendor"[0]);
    assert !IsWhiteSpace("Item 1"[0]);
    assert !IsWhiteSpace("Item 2"[0]);
  }

  /** Against a stated 100 the items sum to 90: no error, one AMOUNT_MISMATCH
      warning. Against 90: no error and no warning. */
  lemma AmountMismatchExamples()
    ensures Validation(ExampleInvoice(100.0)) == ([], [AmountMismatch])
    ensures Validation(ExampleInvoice(90.0)) == ([], [])
  {
    ExampleTextNotBlank();
    var items := ExampleInvoice(90.0).lineItems;
    assert SumDtoLineTotals(items) == 90.0 by {
      assert items[..1] == [items[0]];
    }
    assert ItemErrorsUpTo(items, 2) == [];
  }
}
