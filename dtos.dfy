/** The data-transfer shapes of BillingExtractor.Application/DTOs/InvoiceDto.cs
    and the batch command of BillingExtractor.Application/Commands/ProcessInvoicesCommand.cs.
    They carry data only. */
module Dtos {
  import opened Results

  datatype LineItemDto = LineItemDto(
    lineNumber: int,
    description: string,
    quantity: real,
    unit: string,
    unitPrice: real,
    lineTotal: real)

  datatype ValidationWarningDto = ValidationWarningDto(code: string, message: string)

  datatype ValidationErrorDto = ValidationErrorDto(code: string, message: string)

  datatype InvoiceDto = InvoiceDto(
    id: nat,
    invoiceNumber: string,
    invoiceDate: nat,
    dueDate: Option<nat>,
    vendorName: string,
    customerName: string,
    currency: string,
    totalAmount: real,
    taxAmount: Option<real>,
    subtotal: Option<real>,
    status: string,
    processedAt: nat,
    lineItems: seq<LineItemDto>,
    validationWarnings: seq<ValidationWarningDto>,
    validationErrors: seq<ValidationErrorDto>,
    processingError: Option<string>)

  /** `new InvoiceDto()`: every property at its initial value (the empty Guid
      is 0, DateTime.MinValue is 0). */
  const EmptyInvoiceDto: InvoiceDto :=
    InvoiceDto(0, "", 0, None, "", "", "", 0.0, None, None, "", 0, [], [], [], None)

  datatype ProcessInvoicesResponse = ProcessInvoicesResponse(
    success: bool,
    invoices: seq<InvoiceDto>,
    errors: seq<string>,
    totalProcessed: nat,
    totalFailed: nat,
    totalDuplicates: nat)

  /** `new ProcessInvoicesResponse()`. */
  const EmptyResponse: ProcessInvoicesResponse := ProcessInvoicesResponse(false, [], [], 0, 0, 0)

  /** An uploaded file (IFormFile): its name and its bytes; `Length` is the
      number of bytes. */
  datatype FileUpload = FileUpload(fileName: string, content: seq<bv8>)

  datatype ProcessInvoicesCommand = ProcessInvoicesCommand(
    files: seq<FileUpload>,
    enableValidation: bool,
    enableDuplicateDetection: bool)

  /** `LineItems.Sum(li => li.LineTotal)`, adding from the left. */
  function SumDtoLineTotals(items: seq<LineItemDto>): real {
    if items == [] then 0.0 else SumDtoLineTotals(items[..|items| - 1]) + items[|items| - 1].lineTotal
  }
}
