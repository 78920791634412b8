/** Invoice (BillingExtractor.Domain/Entities/Invoice.cs): the aggregate root.
    Its fields change in place through the Add*, MarkAs* and Set* methods, so
    it is a class; `InvoiceRecord` is the value of all its fields at one
    moment, which is what the repository keeps and what the contracts of the
    methods compare. */
module Invoices {
  import opened Results
  import opened Text
  import opened Clock
  import opened MoneyValue
  import opened LineItems
  import opened ValidationWarnings
  import opened ValidationErrors

  datatype ProcessingStatus = Pending | Processing | Completed | Failed

  /** The enum member's name, as `Status.ToString()` writes it. */
  function StatusName(s: ProcessingStatus): (r: string)
    ensures r != []
  {
    match s
    case Pending => "Pending"
    case Processing => "Processing"
    case Completed => "Completed"
    case Failed => "Failed"
  }

  /** Distinct statuses have distinct names. */
  lemma StatusNameInjective(a: ProcessingStatus, b: ProcessingStatus)
    ensures StatusName(a) == StatusName(b) <==> a == b
  {
  }

  /** Every field of an Invoice. `id` is the Guid EntityBase draws. */
  datatype InvoiceRecord = InvoiceRecord(
    id: nat,
    invoiceNumber: string,
    invoiceDate: nat,
    dueDate: Option<nat>,
    vendorName: string,
    customerName: string,
    totalAmount: Money,
    taxAmount: Option<Money>,
    subtotal: Option<Money>,
    originalFileName: string,
    fileHash: string,
    filePath: string,
    status: ProcessingStatus,
    processedAt: nat,
    processingError: Option<string>,
    lineItems: seq<LineItem>,
    validationWarnings: seq<ValidationWarning>,
    validationErrors: seq<ValidationError>)
  {
    /** The `Currency` property. */
    function Currency(): string {
      totalAmount.currencyCode
    }

    /** Every line total is in the invoice's currency: what `AddLineItem`
        enforces. */
    predicate LineCurrenciesMatch() {
      forall i :: 0 <= i < |lineItems| ==> lineItems[i].lineTotal.currencyCode == Currency()
    }
  }

  /** `_lineItems.Sum(item => item.LineTotal.Amount)`, adding from the left. */
  function SumLineTotals(items: seq<LineItem>): real {
    if items == [] then 0.0 else SumLineTotals(items[..|items| - 1]) + items[|items| - 1].lineTotal.amount
  }

  /** Line totals built by `LineItem.Create` are never negative, so neither is
      their sum. */
  lemma {:induction false} SumLineTotalsNonNegative(items: seq<LineItem>)
    requires forall i :: 0 <= i < |items| ==> items[i].lineTotal.Valid()
    ensures SumLineTotals(items) >= 0.0
  {
    if items != [] {
      SumLineTotalsNonNegative(items[..|items| - 1]);
    }
  }

  /** The sum of two concatenated lists is the sum of the sums. */
  lemma {:induction false} SumLineTotalsAppend(a: seq<LineItem>, b: seq<LineItem>)
    ensures SumLineTotals(a + b) == SumLineTotals(a) + SumLineTotals(b)
    decreases |b|
  {
    if b != [] {
      assert (a + b)[..|a + b| - 1] == a + b[..|b| - 1];
      SumLineTotalsAppend(a, b[..|b| - 1]);
    } else {
      assert a + b == a;
    }
  }

  /** The test `IsDuplicateOf` applies to two non-null invoices. */
  predicate NearDuplicate(a: InvoiceRecord, b: InvoiceRecord) {
    && a.invoiceNumber == b.invoiceNumber
    && a.vendorName == b.vendorName
    && Abs(a.totalAmount.amount - b.totalAmount.amount) < Tolerance
    && Day(a.invoiceDate) == Day(b.invoiceDate)
  }

  /** Being a near duplicate is symmetric and reflexive. */
  lemma NearDuplicateSymmetric(a: InvoiceRecord, b: InvoiceRecord)
    ensures NearDuplicate(a, b) <==> NearDuplicate(b, a)
    ensures NearDuplicate(a, a)
  {
  }

  /** ... but not transitive: totals 0.00, 0.006 and 0.012 on the same day. */
  lemma NearDuplicateNotTransitive(r: InvoiceRecord)
    ensures NearDuplicate(r.(totalAmount := Money(0.0, "USD")), r.(totalAmount := Money(0.006, "USD")))
    ensures NearDuplicate(r.(totalAmount := Money(0.006, "USD")), r.(totalAmount := Money(0.012, "USD")))
    ensures !NearDuplicate(r.(totalAmount := Money(0.0, "USD")), r.(totalAmount := Money(0.012, "USD")))
  {
  }

  /** The text of the AMOUNT_MISMATCH warning `ValidateAmounts` adds; `fmt` is
      the "F2" decimal format. */
  function AmountMismatchMessage(fmt: real -> string, total: real, calculated: real, difference: real): string {
    "Invoice total " + fmt(total) + " doesn't match sum of line items " + fmt(calculated)
    + ". Difference: " + fmt(difference)
  }

  /** The state `ValidateAmounts` leaves and the value it returns. */
  function CheckAmounts(r: InvoiceRecord, fmt: real -> string): (InvoiceRecord, bool) {
    if r.lineItems == [] then (r, true)
    else
      var calculated := SumLineTotals(r.lineItems);
      var difference := Abs(r.totalAmount.amount - calculated);
      if difference > Tolerance then
        (r.(validationWarnings := r.validationWarnings
              + [ValidationWarning("AMOUNT_MISMATCH", AmountMismatchMessage(fmt, r.totalAmount.amount, calculated, difference))]),
         false)
      else (r, true)
  }

  /** `ValidateAmounts` answers true, changing nothing, when there are no
      line items or the total is within 0.01 of their sum; otherwise it answers
      false and appends exactly one AMOUNT_MISMATCH warning, touching no other
      field. */
  lemma CheckAmountsSpec(r: InvoiceRecord, fmt: real -> string)
    ensures CheckAmounts(r, fmt).1 <==>
              r.lineItems == [] || Abs(r.totalAmount.amount - SumLineTotals(r.lineItems)) <= Tolerance
    ensures CheckAmounts(r, fmt).1 ==> CheckAmounts(r, fmt).0 == r
    ensures !CheckAmounts(r, fmt).1 ==>
              && CheckAmounts(r, fmt).0.(validationWarnings := r.validationWarnings) == r
              && |CheckAmounts(r, fmt).0.validationWarnings| == |r.validationWarnings| + 1
              && CheckAmounts(r, fmt).0.validationWarnings[..|r.validationWarnings|] == r.validationWarnings
              && CheckAmounts(r, fmt).0.validationWarnings[|r.validationWarnings|].code == "AMOUNT_MISMATCH"
  {
    var (s, ok) := CheckAmounts(r, fmt);
    if !ok {
      assert s.validationWarnings[..|r.validationWarnings|] == r.validationWarnings;
    }
  }

  class Invoice {
    const id: nat
    var invoiceNumber: string
    var invoiceDate: nat
    var dueDate: Option<nat>
    var vendorName: string
    var customerName: string
    var totalAmount: Money
    var taxAmount: Option<Money>
    var subtotal: Option<Money>
    var originalFileName: string
    var fileHash: string
    var filePath: string
    var status: ProcessingStatus
    var processedAt: nat
    var processingError: Option<string>
    var lineItems: seq<LineItem>
    var validationWarnings: seq<ValidationWarning>
    var validationErrors: seq<ValidationError>

    /** The invoice's fields as one value. */
    function Snapshot(): InvoiceRecord
      reads this
    {
      InvoiceRecord(id, invoiceNumber, invoiceDate, dueDate, vendorName, customerName, totalAmount,
                    taxAmount, subtotal, originalFileName, fileHash, filePath, status, processedAt,
                    processingError, lineItems, validationWarnings, validationErrors)
    }

    /** The object initialiser of `Create`; every other field keeps its
        default. */
    constructor (id: nat, invoiceNumber: string, invoiceDate: nat, vendorName: string,
                 customerName: string, totalAmount: Money, originalFileName: string,
                 fileHash: string, now: nat)
      ensures Snapshot() == InvoiceRecord(id, invoiceNumber, invoiceDate, None, vendorName, customerName,
                                          totalAmount, None, None, originalFileName, fileHash, "",
                                          Pending, now, None, [], [], [])
    {
      this.id := id;
      this.invoiceNumber := invoiceNumber;
      this.invoiceDate := invoiceDate;
      this.dueDate := None;
      this.vendorName := vendorName;
      this.customerName := customerName;
      this.totalAmount := totalAmount;
      this.taxAmount := None;
      this.subtotal := None;
      this.originalFileName := originalFileName;
      this.fileHash := fileHash;
      this.filePath := "";
      this.status := Pending;
      this.processedAt := now;
      this.processingError := None;
      this.lineItems := [];
      this.validationWarnings := [];
      this.validationErrors := [];
    }

    /** `Invoice.Create`: refuses a blank number, then a blank vendor; stores
        number, vendor and customer trimmed (a null customer as ""), status
        Pending, no line items, warnings or errors, and `now` as ProcessedAt.
        `id` stands for the fresh Guid and `now` for DateTime.UtcNow. */
    static method Create(id: nat, invoiceNumber: string, invoiceDate: nat, vendorName: string,
                         customerName: Option<string>, totalAmount: Money, originalFileName: string,
                         fileHash: string, now: nat) returns (r: Result<Invoice>)
      ensures IsBlank(invoiceNumber) ==> r == Failure(ArgumentMessage("Invoice number is required", "invoiceNumber"))
      ensures !IsBlank(invoiceNumber) && IsBlank(vendorName) ==>
                r == Failure(ArgumentMessage("Vendor name is required", "vendorName"))
      ensures r.Success? <==> !IsBlank(invoiceNumber) && !IsBlank(vendorName)
      ensures r.Success? ==> fresh(r.value)
      ensures r.Success? ==>
                r.value.Snapshot()
                == InvoiceRecord(id, Trim(invoiceNumber), invoiceDate, None, Trim(vendorName),
                                 Trim(if customerName.Some? then customerName.value else ""),
                                 totalAmount, None, None, originalFileName, fileHash, "",
                                 Pending, now, None, [], [], [])
      ensures r.Success? ==> !IsBlank(r.value.invoiceNumber) && !IsBlank(r.value.vendorName)
    {
      if IsBlank(invoiceNumber) {
        return Failure(ArgumentMessage("Invoice number is required", "invoiceNumber"));
      }
      if IsBlank(vendorName) {
        return Failure(ArgumentMessage("Vendor name is required", "vendorName"));
      }
      TrimNotBlank(invoiceNumber);
      TrimNotBlank(vendorName);
      var customer := if customerName.Some? then customerName.value else "";
      var invoice := new Invoice(id, Trim(invoiceNumber), invoiceDate, Trim(vendorName), Trim(customer),
                                 totalAmount, originalFileName, fileHash, now);
      return Success(invoice);
    }

    /** `AddLineItem`: a line total in another currency is refused with the
        list unchanged; otherwise the item is appended and nothing else
        changes. Either way the line currencies keep matching. */
    method AddLineItem(item: LineItem) returns (o: Outcome)
      modifies this
      ensures item.lineTotal.currencyCode != old(totalAmount.currencyCode) ==>
                && o == Fail("Line item currency " + item.lineTotal.currencyCode
                             + " must match invoice currency " + totalAmount.currencyCode)
                && Snapshot() == old(Snapshot())
      ensures item.lineTotal.currencyCode == old(totalAmount.currencyCode) ==>
                o == Pass && Snapshot() == old(Snapshot()).(lineItems := old(lineItems) + [item])
      ensures old(Snapshot().LineCurrenciesMatch()) ==> Snapshot().LineCurrenciesMatch()
    {
      if item.lineTotal.currencyCode != totalAmount.currencyCode {
        return Fail("Line item currency " + item.lineTotal.currencyCode
                    + " must match invoice currency " + totalAmount.currencyCode);
      }
      lineItems := lineItems + [item];
      return Pass;
    }

    /** `AddValidationWarning`: appends the pair as given; the status stays. */
    method AddValidationWarning(code: string, message: string)
      modifies this
      ensures Snapshot() == old(Snapshot()).(validationWarnings := old(validationWarnings) + [ValidationWarning(code, message)])
    {
      validationWarnings := validationWarnings + [ValidationWarning(code, message)];
    }

    /** `AddValidationError`: appends the pair as given and fails the invoice. */
    method AddValidationError(code: string, message: string)
      modifies this
      ensures Snapshot() == old(Snapshot()).(validationErrors := old(validationErrors) + [ValidationError(code, message)],
                                             status := Failed)
    {
      validationErrors := validationErrors + [ValidationError(code, message)];
      status := Failed;
    }

    method MarkAsProcessing()
      modifies this
      ensures Snapshot() == old(Snapshot()).(status := Processing)
    {
      status := Processing;
    }

    /** `MarkAsCompleted`; `now` stands for DateTime.UtcNow. */
    method MarkAsCompleted(now: nat)
      modifies this
      ensures Snapshot() == old(Snapshot()).(status := Completed, processedAt := now)
    {
      status := Completed;
      processedAt := now;
    }

    method MarkAsFailed(error: string)
      modifies this
      ensures Snapshot() == old(Snapshot()).(status := Failed, processingError := Some(error))
    {
      status := Failed;
      processingError := Some(error);
    }

    method SetDueDate(date: nat)
      modifies this
      ensures Snapshot() == old(Snapshot()).(dueDate := Some(date))
    {
      dueDate := Some(date);
    }

    method SetTaxAmount(amount: Money)
      modifies this
      ensures Snapshot() == old(Snapshot()).(taxAmount := Some(amount))
    {
      taxAmount := Some(amount);
    }

    method SetSubtotal(amount: Money)
      modifies this
      ensures Snapshot() == old(Snapshot()).(subtotal := Some(amount))
    {
      subtotal := Some(amount);
    }

    method SetFilePath(path: string)
      modifies this
      ensures Snapshot() == old(Snapshot()).(filePath := path)
    {
      filePath := path;
    }

    /** `IsDuplicateOf`: false for null, otherwise the near-duplicate test. */
    predicate IsDuplicateOf(other: Invoice?)
      reads this, other
    {
      other != null && NearDuplicate(Snapshot(), other.Snapshot())
    }

    /** `ValidateAmounts`, with `fmt` for the "F2" format of the message. */
    method ValidateAmounts(fmt: real -> string) returns (ok: bool)
      modifies this
      ensures (Snapshot(), ok) == CheckAmounts(old(Snapshot()), fmt)
    {
      if lineItems == [] {
        return true;
      }
      var calculated := SumLineTotals(lineItems);
      var difference := Abs(totalAmount.amount - calculated);
      if difference > Tolerance {
        AddValidationWarning("AMOUNT_MISMATCH", AmountMismatchMessage(fmt, totalAmount.amount, calculated, difference));
        return false;
      }
      return true;
    }
  }

  /** `a.IsDuplicateOf(b)` and `b.IsDuplicateOf(a)` always agree, and an
      invoice is a duplicate of itself; null is never a duplicate. */
  lemma IsDuplicateOfSymmetric(a: Invoice, b: Invoice)
    ensures a.IsDuplicateOf(b) <==> b.IsDuplicateOf(a)
    ensures a.IsDuplicateOf(a)
    ensures !a.IsDuplicateOf(null)
  {
    NearDuplicateSymmetric(a.Snapshot(), b.Snapshot());
  }
}
