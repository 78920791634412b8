/** GetInvoiceByIdQueryHandler
    (BillingExtractor.Application/Queries/Handlers/GetInvoiceByIdQueryHandler.cs):
    looks an invoice up by id in the repository and projects the entity to
    an `InvoiceDto`. */
module InvoiceQueries {
  import opened Results
  import opened MoneyValue
  import opened LineItems
  import opened ValidationWarnings
  import opened ValidationErrors
  import opened Invoices
  import opened Repositories
  import opened Dtos

  function LineItemToDto(li: LineItem): LineItemDto {
    LineItemDto(li.lineNumber, li.description, li.quantity, li.unit, li.unitPrice.amount, li.lineTotal.amount)
  }

  /** `LineItems.Select(...)`, built from the left. */
  function LineItemsToDtos(items: seq<LineItem>): seq<LineItemDto> {
    if items == [] then [] else LineItemsToDtos(items[..|items| - 1]) + [LineItemToDto(items[|items| - 1])]
  }

  function WarningsToDtos(warnings: seq<ValidationWarning>): seq<ValidationWarningDto> {
    if warnings == [] then []
    else WarningsToDtos(warnings[..|warnings| - 1]) + [ValidationWarningDto(warnings[|warnings| - 1].code, warnings[|warnings| - 1].message)]
  }

  function ErrorsToDtos(errors: seq<ValidationError>): seq<ValidationErrorDto> {
    if errors == [] then []
    else ErrorsToDtos(errors[..|errors| - 1]) + [ValidationErrorDto(errors[|errors| - 1].code, errors[|errors| - 1].message)]
  }

  function AmountOf(m: Option<Money>): Option<real> {
    if m.Some? then Some(m.value.amount) else None
  }

  /** `MapToDto`. */
  function MapToDto(x: InvoiceRecord): InvoiceDto {
    InvoiceDto(
      x.id, x.invoiceNumber, x.invoiceDate, x.dueDate, x.vendorName, x.customerName, x.Currency(),
      x.totalAmount.amount, AmountOf(x.taxAmount), AmountOf(x.subtotal),
      StatusName(x.status), x.processedAt,
      LineItemsToDtos(x.lineItems), WarningsToDtos(x.validationWarnings), ErrorsToDtos(x.validationErrors),
      x.processingError)
  }

  /** `Handle`: null when the repository has no invoice with the id. */
  function GetInvoiceById(invoices: seq<InvoiceRecord>, id: nat): Option<InvoiceDto> {
    match GetById(invoices, id)
    case None => None
    case Some(x) => Some(MapToDto(x))
  }

  /** The answer is null exactly when no stored invoice has the id; otherwise
      it is the projection of a stored invoice with that id. */
  lemma GetInvoiceByIdIff(invoices: seq<InvoiceRecord>, id: nat)
    ensures GetInvoiceById(invoices, id).None? <==> forall i :: 0 <= i < |invoices| ==> invoices[i].id != id
    ensures GetInvoiceById(invoices, id).Some? ==>
              GetInvoiceById(invoices, id).value.id == id
              && exists x :: x in invoices && x.id == id && GetInvoiceById(invoices, id).value == MapToDto(x)
  {
  }

  lemma {:induction false} LineItemsToDtosAt(items: seq<LineItem>)
    ensures |LineItemsToDtos(items)| == |items|
    ensures forall i :: 0 <= i < |items| ==> LineItemsToDtos(items)[i] == LineItemToDto(items[i])
  {
    if items != [] {
      LineItemsToDtosAt(items[..|items| - 1]);
    }
  }

  lemma {:induction false} WarningsToDtosAt(warnings: seq<ValidationWarning>)
    ensures |WarningsToDtos(warnings)| == |warnings|
    ensures forall i :: 0 <= i < |warnings| ==>
              WarningsToDtos(warnings)[i] == ValidationWarningDto(warnings[i].code, warnings[i].message)
  {
    if warnings != [] {
      WarningsToDtosAt(warnings[..|warnings| - 1]);
    }
  }

  lemma {:induction false} ErrorsToDtosAt(errors: seq<ValidationError>)
    ensures |ErrorsToDtos(errors)| == |errors|
    ensures forall i :: 0 <= i < |errors| ==>
              ErrorsToDtos(errors)[i] == ValidationErrorDto(errors[i].code, errors[i].message)
  {
    if errors != [] {
      ErrorsToDtosAt(errors[..|errors| - 1]);
    }
  }

  /** The projection: scalars copied, the total as its amount, the status as
      its name, tax and subtotal null exactly when absent and otherwise their
      amounts; line items, warnings and errors one for one and in order. */
  lemma MapToDtoProjects(x: InvoiceRecord)
    ensures var d := MapToDto(x);
            && d.id == x.id && d.invoiceNumber == x.invoiceNumber && d.invoiceDate == x.invoiceDate
            && d.dueDate == x.dueDate && d.vendorName == x.vendorName && d.customerName == x.customerName
            && d.currency == x.totalAmount.currencyCode && d.totalAmount == x.totalAmount.amount
            && (d.taxAmount.None? <==> x.taxAmount.None?)
            && (x.taxAmount.Some? ==> d.taxAmount.value == x.taxAmount.value.amount)
            && (d.subtotal.None? <==> x.subtotal.None?)
            && (x.subtotal.Some? ==> d.subtotal.value == x.subtotal.value.amount)
            && d.status == StatusName(x.status) && d.processedAt == x.processedAt
            && d.processingError == x.processingError
    ensures var d := MapToDto(x);
            && |d.lineItems| == |x.lineItems|
            && (forall i :: 0 <= i < |x.lineItems| ==>
                  var li, ld := x.lineItems[i], d.lineItems[i];
                  && ld.lineNumber == li.lineNumber && ld.description == li.description
                  && ld.quantity == li.quantity && ld.unit == li.unit
                  && ld.unitPrice == li.unitPrice.amount && ld.lineTotal == li.lineTotal.amount)
            && |d.validationWarnings| == |x.validationWarnings|
            && (forall i :: 0 <= i < |x.validationWarnings| ==>
                  d.validationWarnings[i].code == x.validationWarnings[i].code
                  && d.validationWarnings[i].message == x.validationWarnings[i].message)
            && |d.validationErrors| == |x.validationErrors|
            && (forall i :: 0 <= i < |x.validationErrors| ==>
                  d.validationErrors[i].code == x.validationErrors[i].code
                  && d.validationErrors[i].message == x.validationErrors[i].message)
  {
    LineItemsToDtosAt(x.lineItems);
    WarningsToDtosAt(x.validationWarnings);
    ErrorsToDtosAt(x.validationErrors);
  }

  /** `Enum.Parse` of a status name, the inverse of `StatusName`. */
  function ParseStatus(name: string): (r: Option<ProcessingStatus>)
    ensures r.Some? ==> StatusName(r.value) == name
  {
    if name == "Pending" then Some(Pending)
    else if name == "Processing" then Some(Processing)
    else if name == "Completed" then Some(Completed)
    else if name == "Failed" then Some(Failed)
    else None
  }

  /** The status survives the projection: the DTO's status text parses back
      to the entity's status. */
  lemma StatusRoundTrip(x: InvoiceRecord)
    ensures ParseStatus(MapToDto(x).status) == Some(x.status)
  {
  }

  /** The projection keeps the sum of the line totals, so the DTO's line
      totals add up to what the entity's do. */
  lemma {:induction false} ProjectionKeepsLineSum(items: seq<LineItem>)
    ensures SumDtoLineTotals(LineItemsToDtos(items)) == SumLineTotals(items)
  {
    if items != [] {
      var init := items[..|items| - 1];
      ProjectionKeepsLineSum(init);
      var ds := LineItemsToDtos(items);
      assert ds[..|ds| - 1] == LineItemsToDtos(init);
    }
  }
}
