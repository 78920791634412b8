/** InvoiceValidator (BillingExtractor.Infrastructure/Services/InvoiceValidator.cs):
    required-field rules, per-line-item rules indexed by position, a warning
    per repeated description and a warning when the line totals stray more
    than 0.01 from the stated total. `ValidateInvoiceAsync` is proved equal to
    the function `Validate`, whose properties are the lemmas below. */
module InvoiceValidation {
  import opened Results
  import opened Text
  import opened Clock
  import opened Dtos
  import opened MoneyValue
  import opened Invoices
  import opened Repositories
  import VR = ValidationResults
  import opened Seqs

  /** The required-field rules, in source order; each code is the name of the
      property it checks. */
  function RequiredFieldErrors(invoice: InvoiceDto): seq<ValidationErrorDto> {
    (if IsBlank(invoice.invoiceNumber) then [ValidationErrorDto("InvoiceNumber", "Invoice number is required")] else [])
    + (if invoice.invoiceDate == MinValue then [ValidationErrorDto("InvoiceDate", "Invoice date is required")] else [])
    + (if invoice.totalAmount <= 0.0 then [ValidationErrorDto("TotalAmount", "Total amount must be greater than zero")] else [])
    + (if IsBlank(invoice.vendorName) then [ValidationErrorDto("VendorName", "Vendor name is required")] else [])
    + (if IsBlank(invoice.customerName) then [ValidationErrorDto("CustomerName", "Customer name is required")] else [])
  }

  /** `$"LineItem[{i}].{field}"`. */
  function ItemCode(i: nat, field: string): string {
    "LineItem[" + NatToString(i) + "]." + field
  }

  /** The three rules for the item at zero-based index i. */
  function ItemErrors(i: nat, item: LineItemDto): seq<ValidationErrorDto> {
    (if IsBlank(item.description) then [ValidationErrorDto(ItemCode(i, "Description"), "Line item description is required")] else [])
    + (if item.quantity <= 0.0 then [ValidationErrorDto(ItemCode(i, "Quantity"), "Line item quantity must be greater than zero")] else [])
    + (if item.unitPrice <= 0.0 then [ValidationErrorDto(ItemCode(i, "UnitPrice"), "Line item unit price must be greater than zero")] else [])
  }

  /** The item errors of the first n items. */
  function ItemErrorsUpTo(items: seq<LineItemDto>, n: nat): seq<ValidationErrorDto>
    requires n <= |items|
  {
    if n == 0 then [] else ItemErrorsUpTo(items, n - 1) + ItemErrors(n - 1, items[n - 1])
  }

  /** No items is one `LineItems` error; otherwise the per-item errors. */
  function LineItemErrors(items: seq<LineItemDto>): seq<ValidationErrorDto> {
    if items == [] then [ValidationErrorDto("LineItems", "At least one line item is required")]
    else ItemErrorsUpTo(items, |items|)
  }

  function Descriptions(items: seq<LineItemDto>): (ds: seq<string>)
    ensures |ds| == |items| && forall i :: 0 <= i < |items| ==> ds[i] == items[i].description
  {
    seq(|items|, i requires 0 <= i < |items| => items[i].description)
  }

  predicate Distinct(s: seq<string>) {
    forall i, j :: 0 <= i < j < |s| ==> s[i] != s[j]
  }

  /** The keys of `GroupBy`, in order of first occurrence. */
  function GroupKeys(ds: seq<string>): (r: seq<string>)
    ensures forall d :: d in r <==> d in ds
    ensures Distinct(r)
  {
    if ds == [] then []
    else
      var keys := GroupKeys(ds[..|ds| - 1]);
      var d := ds[|ds| - 1];
      assert ds == ds[..|ds| - 1] + [d];
      if d in keys then keys else keys + [d]
  }

  /** The keys whose group has more than one member, in the same order. */
  function RepeatedKeys(keys: seq<string>, ds: seq<string>): (r: seq<string>)
    ensures forall d :: d in r <==> d in keys && multiset(ds)[d] > 1
    ensures Distinct(keys) ==> Distinct(r)
  {
    if keys == [] then []
    else
      var rest := RepeatedKeys(keys[..|keys| - 1], ds);
      var k := keys[|keys| - 1];
      assert keys == keys[..|keys| - 1] + [k];
      if multiset(ds)[k] > 1 then rest + [k] else rest
  }

  /** `GroupBy(x => x.Description).Where(g => g.Count() > 1)`, by key. */
  function RepeatedDescriptions(items: seq<LineItemDto>): (r: seq<string>)
    ensures forall d :: d in r <==> multiset(Descriptions(items))[d] > 1
    ensures Distinct(r)
  {
    var ds := Descriptions(items);
    RepeatedKeys(GroupKeys(ds), ds)
  }

  function DuplicateMessage(description: string): string {
    "Multiple line items with description '" + description + "'"
  }

  /** One `LineItems` warning per repeated description, in group order. */
  function DuplicateWarnings(descriptions: seq<string>): (r: seq<ValidationWarningDto>)
    ensures |r| == |descriptions|
    ensures forall k :: 0 <= k < |r| ==> r[k] == ValidationWarningDto("LineItems", DuplicateMessage(descriptions[k]))
  {
    if descriptions == [] then []
    else DuplicateWarnings(descriptions[..|descriptions| - 1])
         + [ValidationWarningDto("LineItems", DuplicateMessage(descriptions[|descriptions| - 1]))]
  }

  /** `show` is the default decimal-to-string conversion of the message. */
  function AmountMismatchWarning(show: real -> string, calculated: real, stated: real): ValidationWarningDto {
    ValidationWarningDto("AMOUNT_MISMATCH",
      "Sum of line items (" + show(calculated) + ") does not match invoice total (" + show(stated) + ").")
  }

  function AmountWarnings(invoice: InvoiceDto, show: real -> string): seq<ValidationWarningDto> {
    var calculated := SumDtoLineTotals(invoice.lineItems);
    if invoice.lineItems != [] && Abs(calculated - invoice.totalAmount) > Tolerance then
      [AmountMismatchWarning(show, calculated, invoice.totalAmount)]
    else []
  }

  /** What `ValidateInvoiceAsync` answers for an invoice. */
  function Validate(invoice: InvoiceDto, show: real -> string): (r: VR.ValidationResult)
    ensures VR.Consistent(r)
  {
    var errors := RequiredFieldErrors(invoice) + LineItemErrors(invoice.lineItems);
    var warnings := DuplicateWarnings(RepeatedDescriptions(invoice.lineItems)) + AmountWarnings(invoice, show);
    VR.ValidationResult(errors == [], warnings, errors)
  }

  /** `ValidateInvoiceAsync`: builds the error and warning lists step by step
      as the source does (the three stages are split into the methods
      below). */
  method ValidateInvoiceAsync(invoice: InvoiceDto, show: real -> string) returns (result: VR.ValidationResult)
    ensures result == Validate(invoice, show)
  {
    var errors := CheckRequiredFields(invoice);
    var itemErrors := CheckLineItems(invoice.lineItems);
    errors := errors + itemErrors;
    var warnings := CollectWarnings(invoice, show);
    return VR.ValidationResult(errors == [], warnings, errors);
  }

  method CheckRequiredFields(invoice: InvoiceDto) returns (errors: seq<ValidationErrorDto>)
    ensures errors == RequiredFieldErrors(invoice)
  {
    var number := if IsBlank(invoice.invoiceNumber) then [ValidationErrorDto("InvoiceNumber", "Invoice number is required")] else [];
    var date := if invoice.invoiceDate == MinValue then [ValidationErrorDto("InvoiceDate", "Invoice date is required")] else [];
    var total := if invoice.totalAmount <= 0.0 then [ValidationErrorDto("TotalAmount", "Total amount must be greater than zero")] else [];
    var vendor := if IsBlank(invoice.vendorName) then [ValidationErrorDto("VendorName", "Vendor name is required")] else [];
    errors := [];
    if IsBlank(invoice.invoiceNumber) {
      errors := errors + [ValidationErrorDto("InvoiceNumber", "Invoice number is required")];
    }
    assert errors == number;
    if invoice.invoiceDate == MinValue {
      errors := errors + [ValidationErrorDto("InvoiceDate", "Invoice date is required")];
    }
    assert errors == number + date;
    if invoice.totalAmount <= 0.0 {
      errors := errors + [ValidationErrorDto("TotalAmount", "Total amount must be greater than zero")];
    }
    assert errors == number + date + total;
    if IsBlank(invoice.vendorName) {
      errors := errors + [ValidationErrorDto("VendorName", "Vendor name is required")];
    }
    assert errors == number + date + total + vendor;
    if IsBlank(invoice.customerName) {
      errors := errors + [ValidationErrorDto("CustomerName", "Customer name is required")];
    }
  }

  method CheckLineItems(items: seq<LineItemDto>) returns (errors: seq<ValidationErrorDto>)
    ensures errors == LineItemErrors(items)
  {
    if items == [] {
      return [ValidationErrorDto("LineItems", "At least one line item is required")];
    }
    errors := [];
    for i := 0 to |items|
      invariant errors == ItemErrorsUpTo(items, i)
    {
      var before := errors;
      var item := items[i];
      if IsBlank(item.description) {
        errors := errors + [ValidationErrorDto(ItemCode(i, "Description"), "Line item description is required")];
      }
      if item.quantity <= 0.0 {
        errors := errors + [ValidationErrorDto(ItemCode(i, "Quantity"), "Line item quantity must be greater than zero")];
      }
      if item.unitPrice <= 0.0 {
        errors := errors + [ValidationErrorDto(ItemCode(i, "UnitPrice"), "Line item unit price must be greater than zero")];
      }
      assert errors == before + ItemErrors(i, item);
    }
  }

  method CollectWarnings(invoice: InvoiceDto, show: real -> string) returns (warnings: seq<ValidationWarningDto>)
    ensures warnings == DuplicateWarnings(RepeatedDescriptions(invoice.lineItems)) + AmountWarnings(invoice, show)
  {
    warnings := WarnRepeated(RepeatedDescriptions(invoice.lineItems));
    if invoice.lineItems != [] {
      var calculated := SumDtoLineTotals(invoice.lineItems);
      if Abs(calculated - invoice.totalAmount) > Tolerance {
        warnings := warnings + [AmountMismatchWarning(show, calculated, invoice.totalAmount)];
      }
    }
  }

  /** The `foreach` over the repeated descriptions. */
  method WarnRepeated(groups: seq<string>) returns (warnings: seq<ValidationWarningDto>)
    ensures warnings == DuplicateWarnings(groups)
  {
    warnings := [];
    for j := 0 to |groups|
      invariant warnings == DuplicateWarnings(groups[..j])
    {
      assert groups[..j + 1][..j] == groups[..j];
      warnings := warnings + [ValidationWarningDto("LineItems", DuplicateMessage(groups[j]))];
    }
    assert groups[..|groups|] == groups;
  }

  /** `IsDuplicateAsync`: the repository's `ExistsAsync` for the invoice's
      number, vendor and date. */
  function IsDuplicate(invoices: seq<InvoiceRecord>, invoice: InvoiceDto): (r: bool)
    ensures r <==> FindSimilar(invoices, invoice.invoiceNumber, invoice.vendorName, invoice.invoiceDate) != []
  {
    ExistsIffSimilarFound(invoices, invoice.invoiceNumber, invoice.vendorName, invoice.invoiceDate);
    Exists(invoices, invoice.invoiceNumber, invoice.vendorName, invoice.invoiceDate)
  }

  predicate HasErrorCode(errors: seq<ValidationErrorDto>, code: string) {
    exists k :: 0 <= k < |errors| && errors[k].code == code
  }

  predicate HasWarningCode(warnings: seq<ValidationWarningDto>, code: string) {
    exists k :: 0 <= k < |warnings| && warnings[k].code == code
  }

  lemma HasErrorCodeAppend(a: seq<ValidationErrorDto>, b: seq<ValidationErrorDto>, code: string)
    ensures HasErrorCode(a + b, code) <==> HasErrorCode(a, code) || HasErrorCode(b, code)
  {
    if HasErrorCode(a, code) {
      var k :| 0 <= k < |a| && a[k].code == code;
      assert (a + b)[k] == a[k];
    }
    if HasErrorCode(b, code) {
      var k :| 0 <= k < |b| && b[k].code == code;
      assert (a + b)[|a| + k] == b[k];
    }
    if HasErrorCode(a + b, code) {
      var k :| 0 <= k < |a + b| && (a + b)[k].code == code;
      if k >= |a| {
        assert b[k - |a|] == (a + b)[k];
      }
    }
  }

  /** The codes of the required-field rules. */
  predicate IsFieldCode(code: string) {
    code == "InvoiceNumber" || code == "InvoiceDate" || code == "TotalAmount"
    || code == "VendorName" || code == "CustomerName" || code == "LineItems"
  }

  /** An item code is never a field code nor AMOUNT_MISMATCH. */
  lemma ItemCodeNotFieldCode(i: nat, field: string)
    ensures !IsFieldCode(ItemCode(i, field)) && ItemCode(i, field) != "AMOUNT_MISMATCH"
  {
    var c := ItemCode(i, field);
    assert c[0] == 'L' && c[8] == '[';
  }

  /** Different (index, field) pairs give different item codes. */
  lemma ItemCodeInjective(i: nat, f: string, j: nat, g: string)
    requires ItemCode(i, f) == ItemCode(j, g)
    ensures i == j && f == g
  {
    var x, y := NatToString(i), NatToString(j);
    var c := ItemCode(i, f);
    assert c[9..] == x + "]" + ("." + f);
    assert c[9..] == y + "]" + ("." + g);
    SplitAtSeparator(x, y, "." + f, "." + g, ']');
    NatToStringInjective(i, j);
    assert f == ("." + f)[1..];
    assert g == ("." + g)[1..];
  }

  /** Item errors never carry a field code or AMOUNT_MISMATCH. */
  lemma ItemErrorsNoFieldCode(items: seq<LineItemDto>, n: nat, code: string)
    requires n <= |items|
    requires IsFieldCode(code) || code == "AMOUNT_MISMATCH"
    ensures !HasErrorCode(ItemErrorsUpTo(items, n), code)
  {
    var f := ErrorsAt(items);
    ItemErrorsUpToJoined(items, n);
    JoinedHasCode(f, n, code);
    forall j | 0 <= j < n
      ensures !HasErrorCode(f(j), code)
    {
      assert f(j) == ItemErrors(j, items[j]);
      OneItemNoFieldCode(j, items[j], code);
    }
  }

  lemma OneItemNoFieldCode(j: nat, item: LineItemDto, code: string)
    requires IsFieldCode(code) || code == "AMOUNT_MISMATCH"
    ensures !HasErrorCode(ItemErrors(j, item), code)
  {
    ItemCodeNotFieldCode(j, "Description");
    ItemCodeNotFieldCode(j, "Quantity");
    ItemCodeNotFieldCode(j, "UnitPrice");
    var d := if IsBlank(item.description) then [ValidationErrorDto(ItemCode(j, "Description"), "Line item description is required")] else [];
    var q := if item.quantity <= 0.0 then [ValidationErrorDto(ItemCode(j, "Quantity"), "Line item quantity must be greater than zero")] else [];
    var u := if item.unitPrice <= 0.0 then [ValidationErrorDto(ItemCode(j, "UnitPrice"), "Line item unit price must be greater than zero")] else [];
    assert ItemErrors(j, item) == d + q + u;
    AtMostOneError(d, code);
    AtMostOneError(q, code);
    AtMostOneError(u, code);
    HasErrorCodeAppend(d, q, code);
    HasErrorCodeAppend(d + q, u, code);
  }

  /** The rules of item j report `LineItem[i].<field>` only for i == j, and
      then exactly when that rule fails. */
  lemma ItemErrorsCodes(j: nat, item: LineItemDto, i: nat)
    ensures HasErrorCode(ItemErrors(j, item), ItemCode(i, "Description")) <==> i == j && IsBlank(item.description)
    ensures HasErrorCode(ItemErrors(j, item), ItemCode(i, "Quantity")) <==> i == j && item.quantity <= 0.0
    ensures HasErrorCode(ItemErrors(j, item), ItemCode(i, "UnitPrice")) <==> i == j && item.unitPrice <= 0.0
  {
    var d := if IsBlank(item.description) then [ValidationErrorDto(ItemCode(j, "Description"), "Line item description is required")] else [];
    var q := if item.quantity <= 0.0 then [ValidationErrorDto(ItemCode(j, "Quantity"), "Line item quantity must be greater than zero")] else [];
    var u := if item.unitPrice <= 0.0 then [ValidationErrorDto(ItemCode(j, "UnitPrice"), "Line item unit price must be greater than zero")] else [];
    assert ItemErrors(j, item) == d + q + u;
    forall c | c in [ItemCode(i, "Description"), ItemCode(i, "Quantity"), ItemCode(i, "UnitPrice")]
      ensures HasErrorCode(d, c) <==> d != [] && d[0].code == c
      ensures HasErrorCode(q, c) <==> q != [] && q[0].code == c
      ensures HasErrorCode(u, c) <==> u != [] && u[0].code == c
    {
    }
    ItemCodesDiffer(j);
    ItemFieldCodes(j, i, "Description");
    ItemFieldCodes(j, i, "Quantity");
    ItemFieldCodes(j, i, "UnitPrice");
    HasErrorCodeAppend(d + q, u, ItemCode(i, "Description"));
    HasErrorCodeAppend(d, q, ItemCode(i, "Description"));
    HasErrorCodeAppend(d + q, u, ItemCode(i, "Quantity"));
    HasErrorCodeAppend(d, q, ItemCode(i, "Quantity"));
    HasErrorCodeAppend(d + q, u, ItemCode(i, "UnitPrice"));
    HasErrorCodeAppend(d, q, ItemCode(i, "UnitPrice"));
  }

  /** Item codes of two indices with the same field agree only when the
      indices do; codes with different fields never agree. */
  lemma ItemFieldCodes(j: nat, i: nat, f: string)
    ensures ItemCode(j, f) == ItemCode(i, f) <==> i == j
    ensures f != "Description" ==> ItemCode(j, "Description") != ItemCode(i, f)
    ensures f != "Quantity" ==> ItemCode(j, "Quantity") != ItemCode(i, f)
    ensures f != "UnitPrice" ==> ItemCode(j, "UnitPrice") != ItemCode(i, f)
  {
    if ItemCode(j, f) == ItemCode(i, f) {
      ItemCodeInjective(j, f, i, f);
    }
    if ItemCode(j, "Description") == ItemCode(i, f) {
      ItemCodeInjective(j, "Description", i, f);
    }
    if ItemCode(j, "Quantity") == ItemCode(i, f) {
      ItemCodeInjective(j, "Quantity", i, f);
    }
    if ItemCode(j, "UnitPrice") == ItemCode(i, f) {
      ItemCodeInjective(j, "UnitPrice", i, f);
    }
  }

  /** Among the first n items, `LineItem[i].Description` (resp. Quantity,
      UnitPrice) is reported exactly when item i is one of them and its
      description is blank (resp. quantity, unit price not positive). */
  lemma ItemErrorsUpToCodes(items: seq<LineItemDto>, n: nat, i: nat)
    requires n <= |items|
    ensures HasErrorCode(ItemErrorsUpTo(items, n), ItemCode(i, "Description")) <==> i < n && IsBlank(items[i].description)
    ensures HasErrorCode(ItemErrorsUpTo(items, n), ItemCode(i, "Quantity")) <==> i < n && items[i].quantity <= 0.0
    ensures HasErrorCode(ItemErrorsUpTo(items, n), ItemCode(i, "UnitPrice")) <==> i < n && items[i].unitPrice <= 0.0
  {
    var f := ErrorsAt(items);
    ItemErrorsUpToJoined(items, n);
    JoinedHasCode(f, n, ItemCode(i, "Description"));
    JoinedHasCode(f, n, ItemCode(i, "Quantity"));
    JoinedHasCode(f, n, ItemCode(i, "UnitPrice"));
    forall j | 0 <= j < n
      ensures HasErrorCode(f(j), ItemCode(i, "Description")) <==> i == j && IsBlank(items[j].description)
      ensures HasErrorCode(f(j), ItemCode(i, "Quantity")) <==> i == j && items[j].quantity <= 0.0
      ensures HasErrorCode(f(j), ItemCode(i, "UnitPrice")) <==> i == j && items[j].unitPrice <= 0.0
    {
      assert f(j) == ItemErrors(j, items[j]);
      ItemErrorsCodes(j, items[j], i);
    }
  }

  /** The item errors as a function of the index, no errors past the end. */
  function ErrorsAt(items: seq<LineItemDto>): nat -> seq<ValidationErrorDto> {
    (j: nat) => if j < |items| then ItemErrors(j, items[j]) else []
  }

  lemma {:induction false} ItemErrorsUpToJoined(items: seq<LineItemDto>, n: nat)
    requires n <= |items|
    ensures ItemErrorsUpTo(items, n) == Joined(ErrorsAt(items), n)
  {
    if n > 0 {
      ItemErrorsUpToJoined(items, n - 1);
      assert ErrorsAt(items)(n - 1) == ItemErrors(n - 1, items[n - 1]);
    }
  }

  /** A code is among the joined lists exactly when it is in one of them. */
  lemma {:induction false} JoinedHasCode(f: nat -> seq<ValidationErrorDto>, n: nat, c: string)
    ensures HasErrorCode(Joined(f, n), c) <==> exists j :: 0 <= j < n && HasErrorCode(f(j), c)
  {
    if n > 0 {
      JoinedHasCode(f, n - 1, c);
      HasErrorCodeAppend(Joined(f, n - 1), f(n - 1), c);
    }
  }

  /** The three item codes of one index are distinct. */
  lemma ItemCodesDiffer(i: nat)
    ensures ItemCode(i, "Description") != ItemCode(i, "Quantity")
    ensures ItemCode(i, "Description") != ItemCode(i, "UnitPrice")
    ensures ItemCode(i, "Quantity") != ItemCode(i, "UnitPrice")
  {
    if ItemCode(i, "Description") == ItemCode(i, "Quantity") {
      ItemCodeInjective(i, "Description", i, "Quantity");
    }
    if ItemCode(i, "Description") == ItemCode(i, "UnitPrice") {
      ItemCodeInjective(i, "Description", i, "UnitPrice");
    }
    if ItemCode(i, "Quantity") == ItemCode(i, "UnitPrice") {
      ItemCodeInjective(i, "Quantity", i, "UnitPrice");
    }
  }

  /** A list of at most one error has a code exactly when its only error does. */
  lemma AtMostOneError(e: seq<ValidationErrorDto>, c: string)
    requires |e| <= 1
    ensures HasErrorCode(e, c) <==> e != [] && e[0].code == c
  {
  }

  /** `HasErrorCodeAppend` for every code at once. */
  lemma HasErrorCodeConcat(a: seq<ValidationErrorDto>, b: seq<ValidationErrorDto>)
    ensures forall c :: HasErrorCode(a + b, c) <==> HasErrorCode(a, c) || HasErrorCode(b, c)
  {
    forall c ensures HasErrorCode(a + b, c) <==> HasErrorCode(a, c) || HasErrorCode(b, c) {
      HasErrorCodeAppend(a, b, c);
    }
  }

  /** The required-field rule behind `code` fails for this invoice. */
  predicate FieldRuleFails(invoice: InvoiceDto, code: string) {
    || (code == "InvoiceNumber" && IsBlank(invoice.invoiceNumber))
    || (code == "InvoiceDate" && invoice.invoiceDate == MinValue)
    || (code == "TotalAmount" && invoice.totalAmount <= 0.0)
    || (code == "VendorName" && IsBlank(invoice.vendorName))
    || (code == "CustomerName" && IsBlank(invoice.customerName))
  }

  /** The required-field rules report a code exactly when the rule behind
      that code fails. */
  lemma RequiredFieldCode(invoice: InvoiceDto, c: string)
    ensures HasErrorCode(RequiredFieldErrors(invoice), c) <==> FieldRuleFails(invoice, c)
  {
    var r1 := if IsBlank(invoice.invoiceNumber) then [ValidationErrorDto("InvoiceNumber", "Invoice number is required")] else [];
    var r2 := if invoice.invoiceDate == MinValue then [ValidationErrorDto("InvoiceDate", "Invoice date is required")] else [];
    var r3 := if invoice.totalAmount <= 0.0 then [ValidationErrorDto("TotalAmount", "Total amount must be greater than zero")] else [];
    var r4 := if IsBlank(invoice.vendorName) then [ValidationErrorDto("VendorName", "Vendor name is required")] else [];
    var r5 := if IsBlank(invoice.customerName) then [ValidationErrorDto("CustomerName", "Customer name is required")] else [];
    assert RequiredFieldErrors(invoice) == r1 + r2 + r3 + r4 + r5;
    AtMostOneError(r1, c);
    AtMostOneError(r2, c);
    AtMostOneError(r3, c);
    AtMostOneError(r4, c);
    AtMostOneError(r5, c);
    HasErrorCodeAppend(r1, r2, c);
    HasErrorCodeAppend(r1 + r2, r3, c);
    HasErrorCodeAppend(r1 + r2 + r3, r4, c);
    HasErrorCodeAppend(r1 + r2 + r3 + r4, r5, c);
  }

  /** Each required-field code is reported exactly when its rule fails; the
      `LineItems` code never comes from these rules. */
  lemma RequiredFieldCodes(invoice: InvoiceDto)
    ensures HasErrorCode(RequiredFieldErrors(invoice), "InvoiceNumber") <==> IsBlank(invoice.invoiceNumber)
    ensures HasErrorCode(RequiredFieldErrors(invoice), "InvoiceDate") <==> invoice.invoiceDate == MinValue
    ensures HasErrorCode(RequiredFieldErrors(invoice), "TotalAmount") <==> invoice.totalAmount <= 0.0
    ensures HasErrorCode(RequiredFieldErrors(invoice), "VendorName") <==> IsBlank(invoice.vendorName)
    ensures HasErrorCode(RequiredFieldErrors(invoice), "CustomerName") <==> IsBlank(invoice.customerName)
    ensures !HasErrorCode(RequiredFieldErrors(invoice), "LineItems")
    ensures forall c :: HasErrorCode(RequiredFieldErrors(invoice), c) ==> IsFieldCode(c)
  {
    RequiredFieldCode(invoice, "InvoiceNumber");
    RequiredFieldCode(invoice, "InvoiceDate");
    RequiredFieldCode(invoice, "TotalAmount");
    RequiredFieldCode(invoice, "VendorName");
    RequiredFieldCode(invoice, "CustomerName");
    RequiredFieldCode(invoice, "LineItems");
    forall c | HasErrorCode(RequiredFieldErrors(invoice), c) ensures IsFieldCode(c) {
      RequiredFieldCode(invoice, c);
    }
  }

  /** `IsValid` holds exactly when there is no error, and for each
      required-field rule the error with that field's code is reported
      exactly when the rule fails: a blank number, vendor or customer, the
      minimal date, a total that is not positive, and no line items. */
  lemma ValidateFieldCodes(invoice: InvoiceDto, show: real -> string)
    ensures Validate(invoice, show).isValid <==> Validate(invoice, show).errors == []
    ensures HasErrorCode(Validate(invoice, show).errors, "InvoiceNumber") <==> IsBlank(invoice.invoiceNumber)
    ensures HasErrorCode(Validate(invoice, show).errors, "InvoiceDate") <==> invoice.invoiceDate == MinValue
    ensures HasErrorCode(Validate(invoice, show).errors, "TotalAmount") <==> invoice.totalAmount <= 0.0
    ensures HasErrorCode(Validate(invoice, show).errors, "VendorName") <==> IsBlank(invoice.vendorName)
    ensures HasErrorCode(Validate(invoice, show).errors, "CustomerName") <==> IsBlank(invoice.customerName)
    ensures HasErrorCode(Validate(invoice, show).errors, "LineItems") <==> invoice.lineItems == []
  {
    var items := invoice.lineItems;
    RequiredFieldCodes(invoice);
    HasErrorCodeConcat(RequiredFieldErrors(invoice), LineItemErrors(items));
    if items == [] {
      forall c ensures HasErrorCode(LineItemErrors(items), c) <==> c == "LineItems" {
        AtMostOneError(LineItemErrors(items), c);
      }
    } else {
      forall c | IsFieldCode(c) ensures !HasErrorCode(LineItemErrors(items), c) {
        ItemErrorsNoFieldCode(items, |items|, c);
      }
    }
  }

  /** For every index i, `LineItem[i].Description`, `LineItem[i].Quantity` and
      `LineItem[i].UnitPrice` are reported exactly when there is an item at
      index i whose description is blank, quantity is not positive, or unit
      price is not positive, respectively. */
  lemma ValidateItemCodes(invoice: InvoiceDto, show: real -> string, i: nat)
    ensures HasErrorCode(Validate(invoice, show).errors, ItemCode(i, "Description")) <==>
              i < |invoice.lineItems| && IsBlank(invoice.lineItems[i].description)
    ensures HasErrorCode(Validate(invoice, show).errors, ItemCode(i, "Quantity")) <==>
              i < |invoice.lineItems| && invoice.lineItems[i].quantity <= 0.0
    ensures HasErrorCode(Validate(invoice, show).errors, ItemCode(i, "UnitPrice")) <==>
              i < |invoice.lineItems| && invoice.lineItems[i].unitPrice <= 0.0
  {
    var items := invoice.lineItems;
    RequiredFieldCodes(invoice);
    HasErrorCodeConcat(RequiredFieldErrors(invoice), LineItemErrors(items));
    ItemCodeNotFieldCode(i, "Description");
    ItemCodeNotFieldCode(i, "Quantity");
    ItemCodeNotFieldCode(i, "UnitPrice");
    if items != [] {
      ItemErrorsUpToCodes(items, |items|, i);
    } else {
      forall c ensures HasErrorCode(LineItemErrors(items), c) <==> c == "LineItems" {
        AtMostOneError(LineItemErrors(items), c);
      }
    }
  }

  /** Different descriptions give different duplicate messages. */
  lemma DuplicateMessageInjective(a: string, b: string)
    requires DuplicateMessage(a) == DuplicateMessage(b)
    ensures a == b
  {
    var prefix := "Multiple line items with description '";
    var m := DuplicateMessage(a);
    assert a == m[|prefix|..|m| - 1];
    assert b == DuplicateMessage(b)[|prefix|..|m| - 1];
  }

  /** For every description d, the warning naming d is reported exactly when
      more than one item carries d, and no two duplicate warnings are the
      same. */
  lemma ValidateDuplicateWarnings(invoice: InvoiceDto, show: real -> string, d: string)
    ensures ValidationWarningDto("LineItems", DuplicateMessage(d)) in Validate(invoice, show).warnings
            <==> multiset(Descriptions(invoice.lineItems))[d] > 1
    ensures var w := DuplicateWarnings(RepeatedDescriptions(invoice.lineItems));
            forall i, j :: 0 <= i < j < |w| ==> w[i] != w[j]
  {
    var groups := RepeatedDescriptions(invoice.lineItems);
    var dup := DuplicateWarnings(groups);
    var amount := AmountWarnings(invoice, show);
    var w := ValidationWarningDto("LineItems", DuplicateMessage(d));
    assert w !in amount;
    assert w in dup + amount <==> w in dup;
    if w in dup {
      var k :| 0 <= k < |dup| && dup[k] == w;
      DuplicateMessageInjective(groups[k], d);
    }
    if d in groups {
      var k :| 0 <= k < |groups| && groups[k] == d;
      assert dup[k] == w;
    }
    forall i, j | 0 <= i < j < |dup| ensures dup[i] != dup[j] {
      if dup[i] == dup[j] {
        DuplicateMessageInjective(groups[i], groups[j]);
      }
    }
  }

  lemma HasWarningCodeAppend(a: seq<ValidationWarningDto>, b: seq<ValidationWarningDto>, code: string)
    ensures HasWarningCode(a + b, code) <==> HasWarningCode(a, code) || HasWarningCode(b, code)
  {
    if HasWarningCode(a, code) {
      var k :| 0 <= k < |a| && a[k].code == code;
      assert (a + b)[k] == a[k];
    }
    if HasWarningCode(b, code) {
      var k :| 0 <= k < |b| && b[k].code == code;
      assert (a + b)[|a| + k] == b[k];
    }
    if HasWarningCode(a + b, code) {
      var k :| 0 <= k < |a + b| && (a + b)[k].code == code;
      if k >= |a| {
        assert b[k - |a|] == (a + b)[k];
      }
    }
  }

  /** Duplicate warnings all carry the `LineItems` code. */
  lemma DuplicateWarningsCode(descriptions: seq<string>)
    ensures !HasWarningCode(DuplicateWarnings(descriptions), "AMOUNT_MISMATCH")
  {
    var w := DuplicateWarnings(descriptions);
    forall k | 0 <= k < |w| ensures w[k].code != "AMOUNT_MISMATCH" {
    }
  }

  /** The amount rule reports AMOUNT_MISMATCH exactly when it fires. */
  lemma AmountWarningsCode(invoice: InvoiceDto, show: real -> string)
    ensures HasWarningCode(AmountWarnings(invoice, show), "AMOUNT_MISMATCH") <==>
              invoice.lineItems != [] && Abs(SumDtoLineTotals(invoice.lineItems) - invoice.totalAmount) > Tolerance
  {
    var a := AmountWarnings(invoice, show);
    if a != [] {
      assert a[0].code == "AMOUNT_MISMATCH";
    }
  }

  /** AMOUNT_MISMATCH is warned exactly when there are line items and their
      totals differ from the stated total by more than 0.01. */
  lemma ValidateAmountWarning(invoice: InvoiceDto, show: real -> string)
    ensures HasWarningCode(Validate(invoice, show).warnings, "AMOUNT_MISMATCH") <==>
              invoice.lineItems != [] && Abs(SumDtoLineTotals(invoice.lineItems) - invoice.totalAmount) > Tolerance
  {
    var dup := DuplicateWarnings(RepeatedDescriptions(invoice.lineItems));
    DuplicateWarningsCode(RepeatedDescriptions(invoice.lineItems));
    AmountWarningsCode(invoice, show);
    HasWarningCodeAppend(dup, AmountWarnings(invoice, show), "AMOUNT_MISMATCH");
  }

  /** AMOUNT_MISMATCH is never an error code. */
  lemma AmountMismatchNeverError(invoice: InvoiceDto, show: real -> string)
    ensures !HasErrorCode(Validate(invoice, show).errors, "AMOUNT_MISMATCH")
  {
    var items := invoice.lineItems;
    RequiredFieldCode(invoice, "AMOUNT_MISMATCH");
    HasErrorCodeAppend(RequiredFieldErrors(invoice), LineItemErrors(items), "AMOUNT_MISMATCH");
    if items != [] {
      ItemErrorsNoFieldCode(items, |items|, "AMOUNT_MISMATCH");
    }
  }

  /** An item that breaks none of the three item rules. */
  predicate ItemPasses(item: LineItemDto) {
    !IsBlank(item.description) && item.quantity > 0.0 && item.unitPrice > 0.0
  }

  /** The first n items report no error exactly when each of them passes. */
  lemma {:induction false} ItemErrorsUpToEmpty(items: seq<LineItemDto>, n: nat)
    requires n <= |items|
    ensures ItemErrorsUpTo(items, n) == [] <==> forall i :: 0 <= i < n ==> ItemPasses(items[i])
  {
    if n > 0 {
      ItemErrorsUpToEmpty(items, n - 1);
    }
  }

  /** An invoice is valid exactly when every required field is present, there
      is at least one line item and every line item passes its rules. */
  lemma ValidateIsValid(invoice: InvoiceDto, show: real -> string)
    ensures Validate(invoice, show).isValid <==>
              && !IsBlank(invoice.invoiceNumber) && invoice.invoiceDate != MinValue
              && invoice.totalAmount > 0.0 && !IsBlank(invoice.vendorName) && !IsBlank(invoice.customerName)
              && invoice.lineItems != []
              && forall i :: 0 <= i < |invoice.lineItems| ==> ItemPasses(invoice.lineItems[i])
  {
    ItemErrorsUpToEmpty(invoice.lineItems, |invoice.lineItems|);
  }

  /** There is no warning exactly when no description repeats and, when there
      are items, their totals agree with the stated total within 0.01. */
  lemma ValidateNoWarnings(invoice: InvoiceDto, show: real -> string)
    ensures Validate(invoice, show).warnings == [] <==>
              && (forall d :: multiset(Descriptions(invoice.lineItems))[d] <= 1)
              && (invoice.lineItems == [] || Abs(SumDtoLineTotals(invoice.lineItems) - invoice.totalAmount) <= Tolerance)
  {
    var groups := RepeatedDescriptions(invoice.lineItems);
    var amount := AmountWarnings(invoice, show);
    assert Validate(invoice, show).warnings == DuplicateWarnings(groups) + amount;
    NoRepeatsIff(invoice.lineItems);
    assert |DuplicateWarnings(groups)| == |groups|;
    AmountWarningsEmpty(invoice, show);
  }

  lemma AmountWarningsEmpty(invoice: InvoiceDto, show: real -> string)
    ensures AmountWarnings(invoice, show) == [] <==>
              invoice.lineItems == [] || Abs(SumDtoLineTotals(invoice.lineItems) - invoice.totalAmount) <= Tolerance
  {
  }

  /** No description repeats exactly when no group is reported. */
  lemma NoRepeatsIff(items: seq<LineItemDto>)
    ensures RepeatedDescriptions(items) == [] <==> forall d :: multiset(Descriptions(items))[d] <= 1
  {
    var groups := RepeatedDescriptions(items);
    if groups != [] {
      assert groups[0] in groups;
    }
  }
}
