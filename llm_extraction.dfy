/** The provider-independent part of the LLM extractors
    (BillingExtractor.Infrastructure/LLM/BaseLLMService.cs): the batch loop
    `ExtractInvoicesAsync`, the failed-extraction DTO, and the defaulting that
    turns a decoded model reply into an `InvoiceDto`. The provider call
    (`ExtractInvoiceAsync`), the JSON decoder and `DateTime.TryParse` are
    oracles; Guids and clock readings are parameters. */
module LlmExtraction {
  import opened Results
  import opened Text
  import opened Clock
  import opened Dtos
  import InvoiceValidation

  const ExtractionFailedNumber := "EXTRACTION_FAILED"
  const ExtractionErrorCode := "EXTRACTION_ERROR"
  const ParseFailurePrefix := "Failed to parse LLM response: "
  /** The message of the exception thrown when the decoder yields null. */
  const NullReplyMessage := "Failed to parse LLM response"
  /** The message of the NullReferenceException raised when the projection
      reads a field of a null entry of the `lineItems` array. */
  const NullReferenceMessage := "Object reference not set to an instance of an object."

  /** One entry of the reply's `lineItems` array; absent JSON fields are None. */
  datatype LineItemResult = LineItemResult(
    description: Option<string>,
    quantity: Option<real>,
    unit: Option<string>,
    unitPrice: Option<real>,
    lineTotal: Option<real>)

  /** The decoded reply. */
  datatype ExtractionResult = ExtractionResult(
    invoiceNumber: Option<string>,
    invoiceDate: Option<string>,
    dueDate: Option<string>,
    vendorName: Option<string>,
    customerName: Option<string>,
    currency: Option<string>,
    totalAmount: Option<real>,
    taxAmount: Option<real>,
    subtotal: Option<real>,
    lineItems: Option<seq<Option<LineItemResult>>>)

  /** Every entry of a present `lineItems` array is an object, not null. */
  predicate ItemsNonNull(x: ExtractionResult) {
    x.lineItems.Some? ==> forall i :: 0 <= i < |x.lineItems.value| ==> x.lineItems.value[i].Some?
  }

  /** What `ParseLLMResponse` draws from the environment: the new invoice id,
      the first eight characters of a second new Guid, and the two readings of
      DateTime.UtcNow (the invoice-date fallback and `ProcessedAt`). */
  datatype ParseFresh = ParseFresh(id: nat, guidPrefix: string, dateNow: nat, processedAt: nat)

  /** The shape every failed extraction has. */
  predicate IsFailedDto(d: InvoiceDto) {
    && d.invoiceNumber == ExtractionFailedNumber
    && d.status == "Failed"
    && d.totalAmount == 0.0
    && d.processingError.Some?
    && |d.validationErrors| == 1
    && d.validationErrors[0].code == ExtractionErrorCode
  }

  function ExtractionErrorMessage(fileName: string, error: string): string {
    "Failed to extract invoice from " + fileName + ": " + error
  }

  /** `CreateFailedInvoiceDto`; `now` is the DateTime.UtcNow it reads. */
  function CreateFailedInvoiceDto(fileName: string, error: string, now: nat): (r: InvoiceDto)
    ensures IsFailedDto(r) && r.processingError == Some(error)
    ensures r.validationErrors[0].message == ExtractionErrorMessage(fileName, error)
    ensures r.lineItems == [] && r.invoiceDate == MinValue
  {
    EmptyInvoiceDto.(
      invoiceNumber := ExtractionFailedNumber,
      vendorName := "Unknown",
      customerName := "Unknown",
      currency := "USD",
      totalAmount := 0.0,
      status := "Failed",
      processedAt := now,
      processingError := Some(error),
      validationErrors := [ValidationErrorDto(ExtractionErrorCode, ExtractionErrorMessage(fileName, error))])
  }

  /** A failed DTO never passes `InvoiceValidator`: its date is the minimal
      one, its total is zero and it has no line items. */
  lemma FailedDtoIsInvalid(fileName: string, error: string, now: nat, show: real -> string)
    ensures var v := InvoiceValidation.Validate(CreateFailedInvoiceDto(fileName, error, now), show);
            && !v.isValid
            && InvoiceValidation.HasErrorCode(v.errors, "InvoiceDate")
            && InvoiceValidation.HasErrorCode(v.errors, "TotalAmount")
            && InvoiceValidation.HasErrorCode(v.errors, "LineItems")
  {
    InvoiceValidation.ValidateFieldCodes(CreateFailedInvoiceDto(fileName, error, now), show);
  }

  /** `ParseDate`: blank text is no date; otherwise whatever TryParse finds. */
  function ParseDate(text: Option<string>, tryParse: string -> Option<nat>): (r: Option<nat>)
    ensures r.Some? ==> text.Some? && !IsBlank(text.value) && tryParse(text.value) == r
    ensures text.Some? && !IsBlank(text.value) ==> r == tryParse(text.value)
  {
    match text
    case None => None
    case Some(t) => if IsBlank(t) then None else tryParse(t)
  }

  /** `item.Quantity * item.UnitPrice` on nullable decimals: null when either is. */
  function LiftedProduct(a: Option<real>, b: Option<real>): Option<real> {
    if a.Some? && b.Some? then Some(a.value * b.value) else None
  }

  function OrElse<T>(o: Option<T>, fallback: T): T {
    if o.Some? then o.value else fallback
  }

  function DefaultDescription(index: nat): string {
    "Item " + NatToString(index + 1)
  }

  /** The `Select` projection of the item at position `index`. */
  function ToLineItem(item: LineItemResult, index: nat): LineItemDto {
    LineItemDto(
      index + 1,
      OrElse(item.description, DefaultDescription(index)),
      OrElse(item.quantity, 1.0),
      OrElse(item.unit, ""),
      OrElse(item.unitPrice, 0.0),
      OrElse(item.lineTotal, OrElse(LiftedProduct(item.quantity, item.unitPrice), 0.0)))
  }

  /** `LineItems?.Select(...).ToList()`, the first n items, none of them null. */
  function ToLineItems(items: seq<Option<LineItemResult>>, n: nat): seq<LineItemDto>
    requires n <= |items| && forall i :: 0 <= i < n ==> items[i].Some?
  {
    if n == 0 then [] else ToLineItems(items, n - 1) + [ToLineItem(items[n - 1].value, n - 1)]
  }

  function LineItemsOf(x: ExtractionResult): seq<LineItemDto>
    requires ItemsNonNull(x)
  {
    if x.lineItems.Some? then ToLineItems(x.lineItems.value, |x.lineItems.value|) else []
  }

  /** The object expression of a successful parse: one with no null entry in
      `lineItems`, since the projection dereferences every entry. */
  function ToInvoiceDto(x: ExtractionResult, tryParse: string -> Option<nat>, drawn: ParseFresh): InvoiceDto
    requires ItemsNonNull(x)
  {
    InvoiceDto(
      drawn.id,
      OrElse(x.invoiceNumber, "UNKNOWN_" + drawn.guidPrefix),
      OrElse(ParseDate(x.invoiceDate, tryParse), drawn.dateNow),
      ParseDate(x.dueDate, tryParse),
      OrElse(x.vendorName, "Unknown Vendor"),
      OrElse(x.customerName, ""),
      if x.currency.Some? then ToUpper(x.currency.value) else "USD",
      OrElse(x.totalAmount, 0.0),
      x.taxAmount,
      x.subtotal,
      "Extracted",
      drawn.processedAt,
      LineItemsOf(x),
      [],
      [],
      None)
  }

  /** `ParseLLMResponse`: `deserialize` is the JSON decoder, which answers a
      decoded reply, null (None), or the exception's message. */
  function ParseLLMResponse(
    json: string, fileName: string,
    deserialize: string -> Result<Option<ExtractionResult>>,
    tryParse: string -> Option<nat>, drawn: ParseFresh): InvoiceDto
  {
    match deserialize(json)
    case Failure(message) =>
      CreateFailedInvoiceDto(fileName, ParseFailurePrefix + message, drawn.processedAt)
    case Success(None) =>
      CreateFailedInvoiceDto(fileName, ParseFailurePrefix + NullReplyMessage, drawn.processedAt)
    case Success(Some(x)) =>
      if !ItemsNonNull(x) then
        CreateFailedInvoiceDto(fileName, ParseFailurePrefix + NullReferenceMessage, drawn.processedAt)
      else ToInvoiceDto(x, tryParse, drawn)
  }

  /** The parse succeeds, with status "Extracted", exactly when the decoder
      yields a reply whose `lineItems` array has no null entry; otherwise the
      result is the failed DTO whose error is the decoder's message, the
      null-reply message, or the null-reference message behind the parse
      prefix. */
  lemma ParseOutcome(
    json: string, fileName: string,
    deserialize: string -> Result<Option<ExtractionResult>>,
    tryParse: string -> Option<nat>, drawn: ParseFresh)
    ensures var r := ParseLLMResponse(json, fileName, deserialize, tryParse, drawn);
            && (r.status == "Extracted" <==>
                  deserialize(json).Success? && deserialize(json).value.Some? && ItemsNonNull(deserialize(json).value.value))
            && (r.status == "Extracted" || IsFailedDto(r))
            && (deserialize(json).Failure? ==>
                  r.processingError == Some(ParseFailurePrefix + deserialize(json).error))
            && (deserialize(json) == Success(None) ==>
                  r.processingError == Some(ParseFailurePrefix + NullReplyMessage))
            && (deserialize(json).Success? && deserialize(json).value.Some? && !ItemsNonNull(deserialize(json).value.value) ==>
                  r.processingError == Some(ParseFailurePrefix + NullReferenceMessage))
  {
  }

  /** The header defaults of a successful parse: a present field is kept
      (the currency upper-cased), a missing one takes its default; tax and
      subtotal pass through, absent or not; the result carries no warnings,
      errors or processing error. */
  lemma ParsedHeader(x: ExtractionResult, tryParse: string -> Option<nat>, drawn: ParseFresh)
    requires ItemsNonNull(x)
    ensures var r := ToInvoiceDto(x, tryParse, drawn);
            && r.id == drawn.id && r.status == "Extracted" && r.processedAt == drawn.processedAt
            && (x.invoiceNumber.Some? ==> r.invoiceNumber == x.invoiceNumber.value)
            && (x.invoiceNumber.None? ==> r.invoiceNumber == "UNKNOWN_" + drawn.guidPrefix)
            && (x.vendorName.Some? ==> r.vendorName == x.vendorName.value)
            && (x.vendorName.None? ==> r.vendorName == "Unknown Vendor")
            && (x.customerName.Some? ==> r.customerName == x.customerName.value)
            && (x.customerName.None? ==> r.customerName == "")
            && (x.currency.None? ==> r.currency == "USD")
            && (x.currency.Some? ==> r.currency == ToUpper(x.currency.value))
            && (x.currency.Some? ==> |r.currency| == |x.currency.value|)
            && ToUpper(r.currency) == r.currency
            && (x.totalAmount.None? ==> r.totalAmount == 0.0)
            && (x.totalAmount.Some? ==> r.totalAmount == x.totalAmount.value)
            && r.taxAmount == x.taxAmount && r.subtotal == x.subtotal
            && r.validationWarnings == [] && r.validationErrors == [] && r.processingError == None
  {
    if x.currency.Some? {
      ToUpperIdempotent(x.currency.value);
    }
    assert ToUpper("USD") == "USD";
  }

  /** The dates: the invoice date is the parsed date, or "now" when the text
      is missing, blank or unparsable; the due date is the parsed date or
      none. */
  lemma ParsedDates(x: ExtractionResult, tryParse: string -> Option<nat>, drawn: ParseFresh)
    requires ItemsNonNull(x)
    ensures var r := ToInvoiceDto(x, tryParse, drawn);
            && (x.invoiceDate.None? || IsBlank(x.invoiceDate.value) ==> r.invoiceDate == drawn.dateNow)
            && (x.invoiceDate.Some? && !IsBlank(x.invoiceDate.value) ==>
                  r.invoiceDate == OrElse(tryParse(x.invoiceDate.value), drawn.dateNow))
            && (x.dueDate.None? || IsBlank(x.dueDate.value) ==> r.dueDate == None)
            && (x.dueDate.Some? && !IsBlank(x.dueDate.value) ==> r.dueDate == tryParse(x.dueDate.value))
            && (r.dueDate.Some? ==> tryParse(x.dueDate.value) == r.dueDate)
  {
  }

  /** The projection keeps the count and order of the items, numbering them
      from 1 and filling each one's defaults. */
  lemma {:induction false} ToLineItemsAt(items: seq<Option<LineItemResult>>, n: nat)
    requires n <= |items| && forall i :: 0 <= i < n ==> items[i].Some?
    ensures |ToLineItems(items, n)| == n
    ensures forall i :: 0 <= i < n ==> ToLineItems(items, n)[i] == ToLineItem(items[i].value, i)
  {
    if n > 0 {
      ToLineItemsAt(items, n - 1);
    }
  }

  /** Per item: line number index + 1; description "Item <index + 1>",
      quantity 1, unit "" and unit price 0 when missing; the line total as
      given, else the product of the quantity and unit price as given when
      both are, else 0. */
  lemma LineItemDefaults(x: ExtractionResult, tryParse: string -> Option<nat>, drawn: ParseFresh)
    requires ItemsNonNull(x)
    ensures var r := ToInvoiceDto(x, tryParse, drawn);
            && (x.lineItems.None? ==> r.lineItems == [])
            && (x.lineItems.Some? ==> |r.lineItems| == |x.lineItems.value|)
            && forall i :: 0 <= i < |r.lineItems| ==>
                 var item, li := x.lineItems.value[i].value, r.lineItems[i];
                 && li.lineNumber == i + 1
                 && li.description == (if item.description.Some? then item.description.value else "Item " + NatToString(i + 1))
                 && li.quantity == (if item.quantity.Some? then item.quantity.value else 1.0)
                 && li.unit == (if item.unit.Some? then item.unit.value else "")
                 && li.unitPrice == (if item.unitPrice.Some? then item.unitPrice.value else 0.0)
                 && li.lineTotal == (if item.lineTotal.Some? then item.lineTotal.value
                                     else if item.quantity.Some? && item.unitPrice.Some?
                                     then item.quantity.value * item.unitPrice.value
                                     else 0.0)
  {
    if x.lineItems.Some? {
      ToLineItemsAt(x.lineItems.value, |x.lineItems.value|);
    }
  }

  /** The line total is filled from the given quantity and price, not from
      their defaults: an item with only a unit price of 5 gets quantity 1 but
      line total 0. */
  lemma MissingQuantityGivesZeroTotal()
    ensures var li := ToLineItem(LineItemResult(Some("Widget"), None, None, Some(5.0), None), 0);
            li.quantity == 1.0 && li.unitPrice == 5.0 && li.lineTotal == 0.0
  {
  }

  /** Default descriptions never collide: two items that both lack a
      description get different ones. */
  lemma DefaultDescriptionsDistinct(i: nat, j: nat)
    requires i != j
    ensures DefaultDescription(i) != DefaultDescription(j)
  {
    if DefaultDescription(i) == DefaultDescription(j) {
      var p := "Item ";
      assert NatToString(i + 1) == DefaultDescription(i)[|p|..];
      assert NatToString(j + 1) == DefaultDescription(j)[|p|..];
      NatToStringInjective(i + 1, j + 1);
    }
  }

  /** One file's entry of `ExtractInvoicesAsync`: the provider's DTO, or the
      failed DTO built from the exception's message. */
  function ExtractOne(file: FileUpload, extract: FileUpload -> Result<InvoiceDto>, now: nat): InvoiceDto {
    match extract(file)
    case Success(dto) => dto
    case Failure(message) => CreateFailedInvoiceDto(file.fileName, message, now)
  }

  /** The entries for the first n files. */
  function Extracted(files: seq<FileUpload>, extract: FileUpload -> Result<InvoiceDto>, nows: seq<nat>, n: nat): seq<InvoiceDto>
    requires n <= |files| == |nows|
  {
    if n == 0 then [] else Extracted(files, extract, nows, n - 1) + [ExtractOne(files[n - 1], extract, nows[n - 1])]
  }

  /** `ExtractInvoicesAsync`: `extract` is the provider's
      `ExtractInvoiceAsync` (Failure for an exception) and `nows[i]` the clock
      reading a failure of file i would use. */
  method ExtractInvoicesAsync(files: seq<FileUpload>, extract: FileUpload -> Result<InvoiceDto>, nows: seq<nat>)
    returns (results: seq<InvoiceDto>)
    requires |nows| == |files|
    ensures results == Extracted(files, extract, nows, |files|)
  {
    results := [];
    for i := 0 to |files|
      invariant results == Extracted(files, extract, nows, i)
    {
      var outcome := extract(files[i]);
      match outcome {
        case Success(invoice) =>
          results := results + [invoice];
        case Failure(message) =>
          results := results + [CreateFailedInvoiceDto(files[i].fileName, message, nows[i])];
      }
    }
  }

  /** One entry per file, in file order: the provider's DTO when it answers,
      and otherwise a failed DTO carrying the exception's message. */
  lemma {:induction false} ExtractedAt(files: seq<FileUpload>, extract: FileUpload -> Result<InvoiceDto>, nows: seq<nat>, n: nat)
    requires n <= |files| == |nows|
    ensures |Extracted(files, extract, nows, n)| == n
    ensures forall i :: 0 <= i < n ==>
              var r := Extracted(files, extract, nows, n)[i];
              && (extract(files[i]).Success? ==> r == extract(files[i]).value)
              && (extract(files[i]).Failure? ==>
                    IsFailedDto(r) && r.processingError == Some(extract(files[i]).error)
                    && r.validationErrors[0].message == ExtractionErrorMessage(files[i].fileName, extract(files[i]).error))
  {
    if n > 0 {
      ExtractedAt(files, extract, nows, n - 1);
    }
  }
}
