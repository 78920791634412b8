/** InvoiceProcessingService (BillingExtractor.Infrastructure/Services/InvoiceProcessingService.cs):
    the single-file pipeline `ProcessInvoiceAsync` (content hash, storage,
    extraction, domain invoice, persistence, failure record) and the two
    batch loops over it.

    The hash, the file store and the extractor are the `Services` oracles; a
    Failure from one of them is the exception it throws. What the pipeline
    asks of storage and of the extractor is logged in `effects`, so that the
    model can say which of them ran. The fresh Guids and the clock reading of
    each call are the `Fresh` parameter. */
module ProcessingService {
  import opened Results
  import opened Text
  import opened MoneyValue
  import LineItems
  import opened ValidationWarnings
  import opened ValidationErrors
  import opened Invoices
  import opened Repositories
  import opened Dtos
  import opened ProcessingValidation

  datatype Services = Services(
    hashOf: seq<bv8> -> string,
    saveFile: (string, seq<bv8>) -> Result<string>,
    extract: (string, seq<bv8>) -> Result<InvoiceDto>)

  /** The Guid of the invoice, the Guid of a failure record and DateTime.UtcNow. */
  datatype Fresh = Fresh(id: nat, failedId: nat, now: nat)

  /** A request the pipeline made of the outside world. */
  datatype Effect = SaveFile(fileName: string) | Extract(fileName: string)

  /** One call of `ProcessInvoiceAsync`: its outcome, the repository
      afterwards and the requests made. */
  datatype Step = Step(result: Result<nat>, invoices: seq<InvoiceRecord>, effects: seq<Effect>)

  function DomainErrors(es: seq<ValidationErrorDto>): (r: seq<ValidationError>)
    ensures |r| == |es| && forall i :: 0 <= i < |es| ==> r[i] == ValidationError(es[i].code, es[i].message)
  {
    seq(|es|, i requires 0 <= i < |es| => ValidationError(es[i].code, es[i].message))
  }

  function DomainWarnings(ws: seq<ValidationWarningDto>): (r: seq<ValidationWarning>)
    ensures |r| == |ws| && forall i :: 0 <= i < |ws| ==> r[i] == ValidationWarning(ws[i].code, ws[i].message)
  {
    seq(|ws|, i requires 0 <= i < |ws| => ValidationWarning(ws[i].code, ws[i].message))
  }

  /** The Money for an optional amount, failing as `new Money` does. */
  function OptionalMoney(amount: Option<real>, currency: string): Result<Option<Money>> {
    if amount.None? then Success(None)
    else
      var m := NewMoney(amount.value, currency);
      if m.Failure? then Failure(m.error) else Success(Some(m.value))
  }

  /** The invoice as created from the extracted data: the Money arguments
      are built first (total, tax, subtotal), then `Invoice.Create` checks
      number and vendor; tax, subtotal and due date are set when present. */
  function Header(dto: InvoiceDto, id: nat, fileName: string, hash: string, now: nat): Result<InvoiceRecord> {
    var total := NewMoney(dto.totalAmount, dto.currency);
    var tax := OptionalMoney(dto.taxAmount, dto.currency);
    var subtotal := OptionalMoney(dto.subtotal, dto.currency);
    if total.Failure? then Failure(total.error)
    else if tax.Failure? then Failure(tax.error)
    else if subtotal.Failure? then Failure(subtotal.error)
    else if IsBlank(dto.invoiceNumber) then Failure(ArgumentMessage("Invoice number is required", "invoiceNumber"))
    else if IsBlank(dto.vendorName) then Failure(ArgumentMessage("Vendor name is required", "vendorName"))
    else
      Success(InvoiceRecord(id, Trim(dto.invoiceNumber), dto.invoiceDate, dto.dueDate, Trim(dto.vendorName),
                            Trim(dto.customerName), total.value, tax.value, subtotal.value, fileName, hash, "",
                            Pending, now, None, [], [], []))
  }

  /** The rule-set errors, each appended by `AddValidationError` (which marks
      the invoice Failed). */
  function WithErrors(r: InvoiceRecord, es: seq<ValidationErrorDto>): InvoiceRecord {
    r.(validationErrors := r.validationErrors + DomainErrors(es), status := if es == [] then r.status else Failed)
  }

  function WithWarnings(r: InvoiceRecord, ws: seq<ValidationWarningDto>): InvoiceRecord {
    r.(validationWarnings := r.validationWarnings + DomainWarnings(ws))
  }

  /** One extracted line item: its unit price in the invoice's currency,
      `LineItem.Create`, then `AddLineItem`. */
  function AddItem(r: InvoiceRecord, li: LineItemDto, currency: string): Result<InvoiceRecord> {
    var price := NewMoney(li.unitPrice, currency);
    if price.Failure? then Failure(price.error)
    else
      var item := LineItems.Create(li.lineNumber, li.description, li.quantity, li.unit, price.value, r.id);
      if item.Failure? then Failure(item.error)
      else if item.value.lineTotal.currencyCode != r.totalAmount.currencyCode then
        Failure("Line item currency " + item.value.lineTotal.currencyCode
                + " must match invoice currency " + r.totalAmount.currencyCode)
      else Success(r.(lineItems := r.lineItems + [item.value]))
  }

  /** The line items in order; the first failure stops the loop. */
  function AddItems(r: InvoiceRecord, lis: seq<LineItemDto>, currency: string): Result<InvoiceRecord> {
    if lis == [] then Success(r)
    else
      var prev := AddItems(r, lis[..|lis| - 1], currency);
      if prev.Failure? then prev else AddItem(prev.value, lis[|lis| - 1], currency)
  }

  function SimilarMessage(invoiceNumber: string, vendorName: string): string {
    "Similar invoice(s) with number " + invoiceNumber + " already exist for vendor " + vendorName
  }

  /** The DUPLICATE_POSSIBLE warning when the repository holds a similar
      invoice. */
  function FlagSimilar(r: InvoiceRecord, invoices: seq<InvoiceRecord>): InvoiceRecord {
    if FindSimilar(invoices, r.invoiceNumber, r.vendorName, r.invoiceDate) != [] then
      r.(validationWarnings := r.validationWarnings
           + [ValidationWarning("DUPLICATE_POSSIBLE", SimilarMessage(r.invoiceNumber, r.vendorName))])
    else r
  }

  /** The body of the `try` after extraction: the invoice that is stored, or
      the failure that is caught. */
  function Pipeline(invoices: seq<InvoiceRecord>, dto: InvoiceDto, given: Fresh, fileName: string,
                    hash: string, path: string): Result<InvoiceRecord> {
    var header := Header(dto, given.id, fileName, hash, given.now);
    if header.Failure? then Failure(header.error)
    else
      var results := Validation(dto);
      var validated := WithWarnings(WithErrors(header.value.(filePath := path, status := Completed, processedAt := given.now),
                                               results.0), results.1);
      var withItems := AddItems(validated, dto.lineItems, dto.currency);
      if withItems.Failure? then withItems
      else Success(FlagSimilar(withItems.value, invoices))
  }

  /** The record the `catch` block stores. */
  function FailedRecord(given: Fresh, fileName: string, hash: string, path: string, error: string): InvoiceRecord {
    InvoiceRecord(given.failedId, "PROCESSING_FAILED", given.now, None, "Unknown", "Unknown", Money(0.0, "USD"),
                  None, None, fileName, hash, path, Failed, given.now, Some(error), [], [], [])
  }

  function DuplicateContentMessage(invoiceNumber: string): string {
    "Invoice with the same content already exists: " + invoiceNumber
  }

  /** What `ProcessInvoiceAsync` does to a repository holding `invoices`. */
  function Process(invoices: seq<InvoiceRecord>, file: FileUpload, given: Fresh, s: Services): Step {
    var hash := s.hashOf(file.content);
    var existing := GetByFileHash(invoices, hash);
    if existing.Some? then
      Step(Failure(DuplicateContentMessage(existing.value.invoiceNumber)), invoices, [])
    else
      var saved := s.saveFile(file.fileName, file.content);
      if saved.Failure? then Step(Failure(saved.error), invoices, [SaveFile(file.fileName)])
      else
        var effects := [SaveFile(file.fileName), Extract(file.fileName)];
        var extracted := s.extract(file.fileName, file.content);
        var outcome := if extracted.Failure? then Failure(extracted.error)
                       else Pipeline(invoices, extracted.value, given, file.fileName, hash, saved.value);
        if outcome.Success? then Step(Success(given.id), invoices + [outcome.value], effects)
        else Step(Failure(outcome.error),
                  invoices + [FailedRecord(given, file.fileName, hash, saved.value, outcome.error)], effects)
  }

  /** `ProcessInvoiceAsync` with its services fixed, as the loops use it. */
  function ProcessWith(s: Services): (seq<InvoiceRecord>, FileUpload, Fresh) -> Step {
    (invoices: seq<InvoiceRecord>, file: FileUpload, given: Fresh) => Process(invoices, file, given, s)
  }

  /** The loop of `ProcessInvoicesAsListAsync` over the first n files, for
      any single-file step: the ids of the files that went through, the
      repository and the requests made. */
  function Fold(invoices: seq<InvoiceRecord>, files: seq<FileUpload>, given: seq<Fresh>,
                step: (seq<InvoiceRecord>, FileUpload, Fresh) -> Step, n: nat)
    : (seq<nat>, seq<InvoiceRecord>, seq<Effect>)
    requires n <= |files| == |given|
  {
    if n == 0 then ([], invoices, [])
    else
      var (ids, repo, effects) := Fold(invoices, files, given, step, n - 1);
      var turn := step(repo, files[n - 1], given[n - 1]);
      (if turn.result.Success? then ids + [turn.result.value] else ids, turn.invoices, effects + turn.effects)
  }

  /** `ProcessInvoicesAsListAsync` over the first n files. */
  function ProcessAll(invoices: seq<InvoiceRecord>, files: seq<FileUpload>, given: seq<Fresh>, s: Services, n: nat)
    : (seq<nat>, seq<InvoiceRecord>, seq<Effect>)
    requires n <= |files| == |given|
  {
    Fold(invoices, files, given, ProcessWith(s), n)
  }

  /** One more file extends the fold by that file's step. */
  lemma ProcessAllStep(invoices: seq<InvoiceRecord>, files: seq<FileUpload>, given: seq<Fresh>, s: Services, i: nat,
                       ids: seq<nat>, requests: seq<Effect>, step: Step)
    requires i < |files| == |given|
    requires var prev := ProcessAll(invoices, files, given, s, i);
             prev.0 == ids && prev.2 == requests && step == Process(prev.1, files[i], given[i], s)
    ensures ProcessAll(invoices, files, given, s, i + 1)
            == (if step.result.Success? then ids + [step.result.value] else ids, step.invoices, requests + step.effects)
  {
    var prev := ProcessAll(invoices, files, given, s, i);
    assert ProcessWith(s)(prev.1, files[i], given[i]) == step;
  }

  /** `ProcessInvoicesAsync` over the first n files: the extracted DTOs and
      the error lines. */
  function ExtractAll(files: seq<FileUpload>, s: Services, n: nat): (seq<InvoiceDto>, seq<string>)
    requires n <= |files|
  {
    if n == 0 then ([], [])
    else
      var (results, errors) := ExtractAll(files, s, n - 1);
      var file := files[n - 1];
      var extracted := s.extract(file.fileName, file.content);
      if extracted.Success? then (results + [extracted.value], errors)
      else (results, errors + ["Failed to process " + file.fileName + ": " + extracted.error])
  }

  function ExtractRequests(files: seq<FileUpload>): (r: seq<Effect>)
    ensures |r| == |files| && forall i :: 0 <= i < |files| ==> r[i] == Extract(files[i].fileName)
  {
    seq(|files|, i requires 0 <= i < |files| => Extract(files[i].fileName))
  }

  /** The response of `ProcessInvoicesAsync`; the two flags play no part. */
  function BatchResponse(files: seq<FileUpload>, s: Services): ProcessInvoicesResponse {
    var (results, errors) := ExtractAll(files, s, |files|);
    EmptyResponse.(success := errors == [], invoices := results, errors := errors,
                   totalProcessed := |results|, totalFailed := |errors|)
  }

  class InvoiceProcessingService {
    const repository: InvoiceRepository
    const services: Services
    var effects: seq<Effect>

    constructor (repository: InvoiceRepository, services: Services)
      ensures this.repository == repository && this.services == services && effects == []
    {
      this.repository := repository;
      this.services := services;
      effects := [];
    }

    /** `ProcessInvoiceAsync`. */
    method ProcessInvoiceAsync(file: FileUpload, given: Fresh) returns (r: Result<nat>)
      modifies this, repository
      ensures var step := Process(old(repository.invoices), file, given, services);
              r == step.result && repository.invoices == step.invoices && effects == old(effects) + step.effects
    {
      var hash := services.hashOf(file.content);
      var existing := GetByFileHash(repository.invoices, hash);
      if existing.Some? {
        return Failure(DuplicateContentMessage(existing.value.invoiceNumber));
      }
      effects := effects + [SaveFile(file.fileName)];
      var saved := services.saveFile(file.fileName, file.content);
      if saved.Failure? {
        return Failure(saved.error);
      }
      var path := saved.value;
      effects := effects + [Extract(file.fileName)];
      var extracted := services.extract(file.fileName, file.content);
      var outcome: Result<InvoiceRecord>;
      if extracted.Failure? {
        outcome := Failure(extracted.error);
      } else {
        outcome := BuildInvoice(repository.invoices, extracted.value, given, file.fileName, hash, path);
      }
      if outcome.Success? {
        var _ := repository.Add(outcome.value);
        return Success(given.id);
      }
      var failed := RecordFailure(given, file.fileName, hash, path, outcome.error);
      var _ := repository.Add(failed);
      return Failure(outcome.error);
    }

    /** `ProcessInvoicesAsListAsync`: a failing file is skipped. */
    method ProcessInvoicesAsListAsync(files: seq<FileUpload>, given: seq<Fresh>) returns (results: seq<nat>)
      requires |files| == |given|
      modifies this, repository
      ensures var (ids, repo, requests) := ProcessAll(old(repository.invoices), files, given, services, |files|);
              results == ids && repository.invoices == repo && effects == old(effects) + requests
    {
      results := [];
      ghost var requests: seq<Effect> := [];
      ghost var start := repository.invoices;
      ghost var startEffects := effects;
      for i := 0 to |files|
        invariant results == ProcessAll(start, files, given, services, i).0
        invariant repository.invoices == ProcessAll(start, files, given, services, i).1
        invariant requests == ProcessAll(start, files, given, services, i).2
        invariant effects == startEffects + requests
      {
        ghost var before := (results, requests);
        ghost var step;
        results, step := ProcessAndCollect(files[i], given[i], results);
        requests := requests + step.effects;
        ProcessAllStep(start, files, given, services, i, before.0, before.1, step);
      }
    }

    /** One turn of the list loop: process the file and keep its id when it
        went through; `step` is the turn's outcome. */
    method ProcessAndCollect(file: FileUpload, given: Fresh, ids: seq<nat>) returns (results: seq<nat>, ghost step: Step)
      modifies this, repository
      ensures step == Process(old(repository.invoices), file, given, services)
      ensures results == (if step.result.Success? then ids + [step.result.value] else ids)
      ensures repository.invoices == step.invoices && effects == old(effects) + step.effects
    {
      step := Process(repository.invoices, file, given, services);
      var r := ProcessInvoiceAsync(file, given);
      results := ids;
      if r.Success? {
        results := results + [r.value];
      }
    }

    /** `ProcessInvoicesAsync`: one extraction per file; a failure becomes an
        error line. */
    method ProcessInvoicesAsync(files: seq<FileUpload>, validate: bool, checkDuplicates: bool)
      returns (response: ProcessInvoicesResponse)
      modifies this
      ensures response == BatchResponse(files, services)
      ensures effects == old(effects) + ExtractRequests(files)
    {
      var results: seq<InvoiceDto> := [];
      var errors: seq<string> := [];
      ghost var startEffects := effects;
      for i := 0 to |files|
        invariant (results, errors) == ExtractAll(files, services, i)
        invariant effects == startEffects + ExtractRequests(files[..i])
      {
        var file := files[i];
        effects := effects + [Extract(file.fileName)];
        assert ExtractRequests(files[..i + 1]) == ExtractRequests(files[..i]) + [Extract(file.fileName)];
        var extracted := services.extract(file.fileName, file.content);
        if extracted.Success? {
          results := results + [extracted.value];
        } else {
          errors := errors + ["Failed to process " + file.fileName + ": " + extracted.error];
        }
      }
      assert files[..|files|] == files;
      response := EmptyResponse.(success := errors == [], invoices := results, errors := errors,
                                 totalProcessed := |results|, totalFailed := |errors|);
    }
  }

  /** The `try` block after extraction, on a fresh invoice. */
  method BuildInvoice(invoices: seq<InvoiceRecord>, dto: InvoiceDto, given: Fresh, fileName: string,
                      hash: string, path: string) returns (r: Result<InvoiceRecord>)
    ensures r == Pipeline(invoices, dto, given, fileName, hash, path)
  {
    var header := CreateInvoice(dto, given.id, fileName, hash, given.now);
    if header.Failure? {
      return Failure(header.error);
    }
    var invoice := header.value;
    var errors, warnings := ValidateInvoice(dto);
    invoice.SetFilePath(path);
    invoice.MarkAsCompleted(given.now);
    AddValidationResults(invoice, errors, warnings);
    var added := AddLineItems(invoice, dto.lineItems, dto.currency);
    if added.Fail? {
      return Failure(added.error);
    }
    var similar := FindSimilar(invoices, invoice.invoiceNumber, invoice.vendorName, invoice.invoiceDate);
    if similar != [] {
      invoice.AddValidationWarning("DUPLICATE_POSSIBLE", SimilarMessage(invoice.invoiceNumber, invoice.vendorName));
    }
    return Success(invoice.Snapshot());
  }

  /** The Money arguments and `Invoice.Create`, then the setters standing for
      the tax, subtotal and due-date arguments. */
  method CreateInvoice(dto: InvoiceDto, id: nat, fileName: string, hash: string, now: nat) returns (r: Result<Invoice>)
    ensures Header(dto, id, fileName, hash, now).Failure? ==>
              r.Failure? && r.error == Header(dto, id, fileName, hash, now).error
    ensures Header(dto, id, fileName, hash, now).Success? ==>
              r.Success? && fresh(r.value) && r.value.Snapshot() == Header(dto, id, fileName, hash, now).value
  {
    var total := NewMoney(dto.totalAmount, dto.currency);
    if total.Failure? {
      return Failure(total.error);
    }
    var tax := OptionalMoney(dto.taxAmount, dto.currency);
    if tax.Failure? {
      return Failure(tax.error);
    }
    var subtotal := OptionalMoney(dto.subtotal, dto.currency);
    if subtotal.Failure? {
      return Failure(subtotal.error);
    }
    var created := Invoice.Create(id, dto.invoiceNumber, dto.invoiceDate, dto.vendorName, Some(dto.customerName),
                                  total.value, fileName, hash, now);
    if created.Failure? {
      return Failure(created.error);
    }
    var invoice := created.value;
    if tax.value.Some? {
      invoice.SetTaxAmount(tax.value.value);
    }
    if subtotal.value.Some? {
      invoice.SetSubtotal(subtotal.value.value);
    }
    if dto.dueDate.Some? {
      invoice.SetDueDate(dto.dueDate.value);
    }
    return Success(invoice);
  }

  /** The two `foreach` loops over the rule-set errors and warnings. */
  method AddValidationResults(invoice: Invoice, errors: seq<ValidationErrorDto>, warnings: seq<ValidationWarningDto>)
    modifies invoice
    ensures invoice.Snapshot() == WithWarnings(WithErrors(old(invoice.Snapshot()), errors), warnings)
  {
    ghost var start := invoice.Snapshot();
    for i := 0 to |errors|
      invariant invoice.Snapshot() == WithErrors(start, errors[..i])
    {
      invoice.AddValidationError(errors[i].code, errors[i].message);
      assert DomainErrors(errors[..i + 1]) == DomainErrors(errors[..i]) + [ValidationError(errors[i].code, errors[i].message)];
    }
    assert errors[..|errors|] == errors;
    ghost var middle := invoice.Snapshot();
    for i := 0 to |warnings|
      invariant invoice.Snapshot() == WithWarnings(middle, warnings[..i])
    {
      invoice.AddValidationWarning(warnings[i].code, warnings[i].message);
      assert DomainWarnings(warnings[..i + 1]) == DomainWarnings(warnings[..i]) + [ValidationWarning(warnings[i].code, warnings[i].message)];
    }
    assert warnings[..|warnings|] == warnings;
  }

  /** The `foreach` over the extracted line items; the invoice is left as it
      was when an item fails. */
  method AddLineItems(invoice: Invoice, lis: seq<LineItemDto>, currency: string) returns (o: Outcome)
    modifies invoice
    ensures var expected := AddItems(old(invoice.Snapshot()), lis, currency);
            (o.Pass? <==> expected.Success?)
            && (o.Pass? ==> invoice.Snapshot() == expected.value)
            && (o.Fail? ==> o.error == expected.error)
  {
    ghost var start := invoice.Snapshot();
    for i := 0 to |lis|
      invariant invoice.id == start.id
      invariant AddItems(start, lis[..i], currency) == Success(invoice.Snapshot())
    {
      assert lis[..i + 1][..i] == lis[..i];
      var li := lis[i];
      var price := NewMoney(li.unitPrice, currency);
      if price.Failure? {
        AddItemsStops(start, lis, currency, i + 1);
        return Fail(price.error);
      }
      var item := LineItems.Create(li.lineNumber, li.description, li.quantity, li.unit, price.value, invoice.id);
      if item.Failure? {
        AddItemsStops(start, lis, currency, i + 1);
        return Fail(item.error);
      }
      o := invoice.AddLineItem(item.value);
      if o.Fail? {
        AddItemsStops(start, lis, currency, i + 1);
        return o;
      }
    }
    assert lis[..|lis|] == lis;
    return Pass;
  }

  /** Once the first k items fail, the whole list fails the same way. */
  lemma {:induction false} AddItemsStops(r: InvoiceRecord, lis: seq<LineItemDto>, currency: string, k: nat)
    requires k <= |lis| && AddItems(r, lis[..k], currency).Failure?
    ensures AddItems(r, lis, currency) == AddItems(r, lis[..k], currency)
  {
    if k < |lis| {
      var init := lis[..|lis| - 1];
      assert init[..k] == lis[..k];
      AddItemsStops(r, init, currency, k);
    } else {
      assert lis[..k] == lis;
    }
  }

  /** The `catch` block's `Invoice.Create` and updates. */
  method RecordFailure(given: Fresh, fileName: string, hash: string, path: string, error: string)
    returns (r: InvoiceRecord)
    ensures r == FailedRecord(given, fileName, hash, path, error)
  {
    ZeroDollars();
    var usd := NewMoney(0.0, "USD");
    // The constant texts of the failure record are already trimmed.
    TrimmedWord("PROCESSING_FAILED");
    TrimmedWord("Unknown");
    var failed := CreatePlaceholder(given, "PROCESSING_FAILED", "Unknown", usd.value, fileName, hash);
    FailInvoice(failed, path, error);
    r := failed.Snapshot();
  }

  /** The `Invoice.Create` call of the failure path: nothing to trim, so the
      new invoice holds the arguments as given. */
  method CreatePlaceholder(given: Fresh, number: string, unknown: string, total: Money, fileName: string,
                           hash: string) returns (invoice: Invoice)
    requires !IsBlank(number) && Trim(number) == number
    requires !IsBlank(unknown) && Trim(unknown) == unknown
    ensures fresh(invoice)
    ensures invoice.Snapshot() == InvoiceRecord(given.failedId, number, given.now, None, unknown, unknown, total,
                                                None, None, fileName, hash, "", Pending, given.now, None, [], [], [])
  {
    var created := Invoice.Create(given.failedId, number, given.now, unknown, Some(unknown),
                                  total, fileName, hash, given.now);
    invoice := created.value;
  }

  /** `SetFileMetadata` followed by `MarkAsFailed`. */
  method FailInvoice(invoice: Invoice, path: string, error: string)
    modifies invoice
    ensures invoice.Snapshot() == old(invoice.Snapshot()).(filePath := path, status := Failed, processingError := Some(error))
  {
    invoice.SetFilePath(path);
    invoice.MarkAsFailed(error);
  }

  /** `new Money(0, "USD")` is zero dollars. */
  lemma ZeroDollars()
    ensures NewMoney(0.0, "USD") == Success(Money(0.0, "USD"))
  {
    LineItems.UsdValid(0.0);
    NewMoneyWithValidCode(0.0, Money(0.0, "USD"));
  }
}
