# billing-extractor, modelled in Dafny

billing-extractor is an invoice-extraction web API. A user uploads PDF or image
files. A language model turns each file into an `InvoiceDto`. The DTO is
validated, checked for duplicates, turned into an `Invoice` aggregate and
stored. This project models the deterministic logic between the model call and
the database, and proves what that logic promises.

- **Value objects and entities.** `Money` (`money.dfy`, module `MoneyValue`),
  `LineItem` (`line_item.dfy`, module `LineItems`), `ValidationWarning` and
  `ValidationError` (`validation_warning.dfy`, `validation_error.dfy`), and
  the `Invoice` aggregate (`invoice.dfy`). `Invoice` is a class whose methods
  update its fields in place. `InvoiceRecord` is the value of all its fields
  at one moment; the repository stores these.
- **The two validators.** `InvoiceValidator.ValidateInvoiceAsync`
  (`invoice_validator.dfy`) and the older `InvoiceProcessingService.ValidateInvoice`
  (`processing_validation.dfy`). They use different codes and thresholds and
  are kept apart. Each is a method with loops, proved equal to a functional
  specification. The rule-by-rule properties are proved about that function.
- **The single-file pipeline.** `InvoiceProcessingService.ProcessInvoiceAsync`
  and its two batch loops (`processing_service.dfy`, with properties in
  `processing_steps.dfy` and `processing_properties.dfy`).
- **The batch command handler.** `ProcessInvoicesCommandHandler.Handle`
  (`command_handler.dfy`): file-type screening, one extraction call, then one
  outcome per extracted invoice with the response counters.
- **The LLM service base class.** `BaseLLMService` (`llm_extraction.dfy`):
  `ExtractInvoicesAsync`, `CreateFailedInvoiceDto`, the defaulting in
  `ParseLLMResponse`, and `ParseDate`.
- **Predicates and queries.** `FileProcessor.IsValidFileType` and
  `GetMimeType` (`file_types.dfy`), the request rules of
  `ProcessInvoicesCommandValidator` (`command_validator.dfy`), the repository
  queries and updates over an in-memory sequence (`repository.dfy`), and the
  entity-to-DTO projection of `GetInvoiceByIdQueryHandler` (`query_handler.dfy`).
- **Shared modules.** `results.dfy` (Option and Result), `text.dfy` (trimming,
  casing, `Path.GetExtension`, number formatting), `clock.dfy` (DateTime as
  ticks), `dtos.dfy` (the DTO and command shapes), `validation_result.dfy`
  (`ValidationResult` and its factories) and `seqs.dfy`.

Types are mapped as follows:

- `decimal` is `real`, so it is exact and `0.01m` is `1/100`.
- `DateTime` is a `nat` tick count, `DateTime.MinValue` is 0, and `.Date`
  compares `Day(t) = t / TicksPerDay`.
- A `Guid` is a `nat`.
- An exception is the `Failure` case of a `Result` carrying its message.
  A C# `null` is `None`.
- New Guids and `DateTime.UtcNow` readings are parameters: `Fresh`,
  `ParseFresh`, `now`.
- The extractor, the JSON decoder, `DateTime.TryParse`, the file store, the
  hash and the validator as seen by the handler are function parameters.

## Model

Source paths are relative to the repository root.

| member | source | states |
|---|---|---|
| MoneyValue.NewMoney | BillingExtractor.Domain/ValueObjects/Money.cs:8-18 | A negative amount fails with "Amount cannot be negative". Otherwise a blank currency code fails with "Currency code is required". Construction succeeds exactly when neither holds. The result keeps the amount and stores the code trimmed and upper-cased. |
| MoneyValue.NormalizedCodeValid | BillingExtractor.Domain/ValueObjects/Money.cs:17 | The stored code of a non-blank input is non-empty, trimmed and already upper-case. |
| MoneyValue.NewMoneyWithValidCode | BillingExtractor.Domain/ValueObjects/Money.cs:16-17 | Re-constructing with an already stored code keeps that code, which is what `+` and `-` rely on. |
| MoneyValue.Add | BillingExtractor.Domain/ValueObjects/Money.cs:20-26 | Mismatched currencies fail with the source's message. Between valid values of one currency, the result is the sum in that currency and is itself a valid Money. |
| MoneyValue.Subtract | BillingExtractor.Domain/ValueObjects/Money.cs:28-38 | Mismatched currencies fail first. Then right > left fails with "Result cannot be negative". Otherwise the result is left − right in the same currency. |
| MoneyValue.SubtractThenAdd | BillingExtractor.Domain/ValueObjects/Money.cs:25-37 | Whenever `x - y` succeeds, `(x - y) + y == x`. |
| MoneyValue.AddThenSubtract | BillingExtractor.Domain/ValueObjects/Money.cs:25-37 | Whenever `x + y` succeeds, `(x + y) - y == x`. |
| MoneyValue.EqualityIsValueEquality | BillingExtractor.Domain/ValueObjects/Money.cs:40-69 | `==` holds exactly when amount and code are equal, with two nulls equal and a null never equal to a value. `!=` is its negation and `==` is symmetric. |
| MoneyValue.NormalizeExample | BillingExtractor.Tests/Domain/ValueObjects/MoneyTests.cs:9-21 | `new Money(100.50, " usd ")` is 100.50 USD. |
| MoneyValue.ArithmeticExamples | BillingExtractor.Tests/Domain/ValueObjects/MoneyTests.cs:72-135 | 100.50 − 25.25 USD = 75.25 USD. 25.25 − 100.50 fails as negative. Adding USD to EUR fails. |
| LineItems.Create | BillingExtractor.Domain/Entities/LineItem.cs:22-51 | A blank description fails first, then quantity ≤ 0. With a valid unit price it succeeds exactly when neither holds. LineTotal is quantity × unit price in the price's currency and is a valid, non-negative Money. Description and unit are stored trimmed. Line number, quantity, price and invoice id are copied. |
| LineItems.LineTotalOf | BillingExtractor.Domain/Entities/LineItem.cs:33-39 | With quantity > 0 and a non-negative price, the line total is non-negative and its Money construction succeeds. |
| LineItems.LineTotalExample | BillingExtractor.Tests/Domain/Entities/LineItemTests.cs:146-162 | 3 × 15.75 USD gives a line total of 47.25 USD. |
| LineItems.EmptyUnitExample | BillingExtractor.Tests/Domain/Entities/LineItemTests.cs:102-117 | An empty unit is accepted and stays empty. |
| ValidationWarnings.Create | BillingExtractor.Domain/Entities/ValidationWarning.cs:11-24 | A blank code fails first, then a blank message. Creation succeeds exactly when both are non-blank. It stores both trimmed, so both are non-blank. |
| ValidationWarnings.CreateTrimmed | BillingExtractor.Domain/Entities/ValidationWarning.cs:19-23 | Already-trimmed non-blank inputs are stored unchanged. |
| ValidationWarnings.CreateIdempotent | BillingExtractor.Domain/Entities/ValidationWarning.cs:19-23 | Creating again from a created warning's code and message gives the same warning. |
| ValidationErrors.Create | BillingExtractor.Domain/Entities/ValidationError.cs:11-24 | The same guards and trimming as for warnings. |
| ValidationErrors.CreateTrimmed | BillingExtractor.Domain/Entities/ValidationError.cs:19-23 | Already-trimmed non-blank inputs are stored unchanged. |
| ValidationErrors.CreateIdempotent | BillingExtractor.Domain/Entities/ValidationError.cs:19-23 | Creating again from a created error's fields gives the same error. |
| Invoices.StatusNameInjective | BillingExtractor.Domain/Entities/Invoice.cs:160-166 | Distinct statuses have distinct `ToString` names. |
| Invoices.Invoice.Create | BillingExtractor.Domain/Entities/Invoice.cs:48-79 | A blank number fails first, then a blank vendor; otherwise it succeeds. Number, vendor and customer are stored trimmed, with a null customer as "". Status is Pending, ProcessedAt is `now`, and there are no line items, warnings or errors. |
| Invoices.Invoice.constructor | BillingExtractor.Domain/Entities/Invoice.cs:63-74 | The object initialiser: the given fields, and every other field at its default. |
| Invoices.Invoice.AddLineItem | BillingExtractor.Domain/Entities/Invoice.cs:82-91 | A line total in another currency fails with the source's message and changes nothing. Otherwise the item is appended and nothing else changes. It preserves "every line total is in the invoice currency". |
| Invoices.Invoice.AddValidationWarning | BillingExtractor.Domain/Entities/Invoice.cs:93-97 | Appends exactly one (code, message) and changes nothing else, status included. |
| Invoices.Invoice.AddValidationError | BillingExtractor.Domain/Entities/Invoice.cs:99-104 | Appends exactly one (code, message), sets the status to Failed, and changes nothing else. |
| Invoices.Invoice.MarkAsProcessing | BillingExtractor.Domain/Entities/Invoice.cs:106-110 | Only the status changes, to Processing. |
| Invoices.Invoice.MarkAsCompleted | BillingExtractor.Domain/Entities/Invoice.cs:112-117 | Only status (to Completed) and ProcessedAt (to now) change. |
| Invoices.Invoice.MarkAsFailed | BillingExtractor.Domain/Entities/Invoice.cs:119-124 | Only status (to Failed) and ProcessingError (to the error) change. |
| Invoices.Invoice.SetDueDate | BillingExtractor.Domain/Entities/Invoice.cs:126 | Only DueDate changes. |
| Invoices.Invoice.SetTaxAmount | BillingExtractor.Domain/Entities/Invoice.cs:127 | Only TaxAmount changes. |
| Invoices.Invoice.SetSubtotal | BillingExtractor.Domain/Entities/Invoice.cs:128 | Only Subtotal changes. |
| Invoices.Invoice.SetFilePath | BillingExtractor.Domain/Entities/Invoice.cs:129 | Only FilePath changes. |
| Invoices.NearDuplicateSymmetric | BillingExtractor.Domain/Entities/Invoice.cs:132-140 | The duplicate test is symmetric and reflexive. |
| Invoices.NearDuplicateNotTransitive | BillingExtractor.Domain/Entities/Invoice.cs:138 | The duplicate test is not transitive: totals 0, 0.006 and 0.012 on the same day. |
| Invoices.IsDuplicateOfSymmetric | BillingExtractor.Domain/Entities/Invoice.cs:132-140 | `a.IsDuplicateOf(b) == b.IsDuplicateOf(a)`, an invoice is a duplicate of itself, and null never is. |
| Invoices.SumLineTotalsNonNegative | BillingExtractor.Domain/Entities/Invoice.cs:146 | The sum of valid line totals is non-negative. |
| Invoices.SumLineTotalsAppend | BillingExtractor.Domain/Entities/Invoice.cs:146 | The sum over `a + b` is the sum over `a` plus the sum over `b`. |
| Invoices.CheckAmountsSpec | BillingExtractor.Domain/Entities/Invoice.cs:142-157 | The answer is true exactly when there are no line items or the total is within 0.01 of their sum, and then nothing changes. Otherwise exactly one AMOUNT_MISMATCH warning is appended after the existing ones, and no other field changes. |
| Invoices.Invoice.ValidateAmounts | BillingExtractor.Domain/Entities/Invoice.cs:142-157 | The method's answer and new state are those `CheckAmounts` gives for the old state. |
| ValidationResults.Default | BillingExtractor.Application/Interfaces/IServices.cs:24-28 | A new result is invalid with empty lists. |
| ValidationResults.Success | BillingExtractor.Application/Interfaces/IServices.cs:30 | Valid, with no warnings and no errors. |
| ValidationResults.WithWarnings | BillingExtractor.Application/Interfaces/IServices.cs:31 | Valid, with the given warnings and no errors. |
| ValidationResults.WithErrors | BillingExtractor.Application/Interfaces/IServices.cs:32 | Invalid, with the given errors and no warnings. |
| ValidationResults.FactoriesAndConsistency | BillingExtractor.Application/Interfaces/IServices.cs:24-32 | `Success` and `WithWarnings` always satisfy "valid iff no errors". `WithErrors(e)` satisfies it exactly when e is non-empty. `WithErrors([])` and the default result break it. |
| InvoiceValidation.ValidateInvoiceAsync | BillingExtractor.Infrastructure/Services/InvoiceValidator.cs:20-98 | The method's result equals `Validate`. |
| InvoiceValidation.CheckRequiredFields | BillingExtractor.Infrastructure/Services/InvoiceValidator.cs:27-40 | The five required-field rules, in source order. |
| InvoiceValidation.CheckLineItems | BillingExtractor.Infrastructure/Services/InvoiceValidator.cs:43-61 | The loop's errors equal the per-item errors of every index, in order, or one LineItems error for an empty list. |
| InvoiceValidation.CollectWarnings | BillingExtractor.Infrastructure/Services/InvoiceValidator.cs:64-88 | One duplicate-description warning per repeated description, then the amount warning. |
| InvoiceValidation.WarnRepeated | BillingExtractor.Infrastructure/Services/InvoiceValidator.cs:67-70 | The `foreach` emits one LineItems warning per group, in group order. |
| InvoiceValidation.DuplicateWarnings | BillingExtractor.Infrastructure/Services/InvoiceValidator.cs:67-70 | One LineItems warning per repeated description, in order, naming that description. |
| InvoiceValidation.Validate | BillingExtractor.Infrastructure/Services/InvoiceValidator.cs:90-92 | The result is valid exactly when it has no errors. |
| InvoiceValidation.ValidateFieldCodes | BillingExtractor.Infrastructure/Services/InvoiceValidator.cs:27-46 | Each code has an error exactly when its rule fails: InvoiceNumber (blank), InvoiceDate (MinValue), TotalAmount (≤ 0), VendorName (blank), CustomerName (blank), LineItems (no items). Validity is the absence of errors. |
| InvoiceValidation.RequiredFieldCodes | BillingExtractor.Infrastructure/Services/InvoiceValidator.cs:27-40 | The same iff for each required field. These rules produce no LineItems code and only field codes. |
| InvoiceValidation.ValidateItemCodes | BillingExtractor.Infrastructure/Services/InvoiceValidator.cs:49-60 | `LineItem[i].Description`, `.Quantity` and `.UnitPrice` errors appear exactly when item i exists and has a blank description, quantity ≤ 0 or unit price ≤ 0. So an empty list has no per-item errors. |
| InvoiceValidation.ItemErrorsUpToCodes | BillingExtractor.Infrastructure/Services/InvoiceValidator.cs:49-60 | The same iff for the loop after its first n turns. |
| InvoiceValidation.ItemErrorsCodes | BillingExtractor.Infrastructure/Services/InvoiceValidator.cs:51-59 | One item's turn reports exactly its own failing rules under its own index. |
| InvoiceValidation.ItemErrorsNoFieldCode | BillingExtractor.Infrastructure/Services/InvoiceValidator.cs:49-60 | The item loop never emits a required-field code or AMOUNT_MISMATCH. |
| InvoiceValidation.ItemCodeInjective | BillingExtractor.Infrastructure/Services/InvoiceValidator.cs:53-59 | `LineItem[i].F` codes are distinct for distinct (i, F). |
| InvoiceValidation.ItemErrorsUpToEmpty | BillingExtractor.Infrastructure/Services/InvoiceValidator.cs:49-60 | The loop reports nothing exactly when every item passes all three rules. |
| InvoiceValidation.ValidateIsValid | BillingExtractor.Infrastructure/Services/InvoiceValidator.cs:20-92 | An invoice is valid exactly when all required fields are present, it has line items, and every item passes. |
| InvoiceValidation.RepeatedDescriptions | BillingExtractor.Infrastructure/Services/InvoiceValidator.cs:64 | The groups are the descriptions occurring more than once, each listed once. |
| InvoiceValidation.GroupKeys | BillingExtractor.Infrastructure/Services/InvoiceValidator.cs:64 | The `GroupBy` keys are the distinct descriptions. |
| InvoiceValidation.ValidateDuplicateWarnings | BillingExtractor.Infrastructure/Services/InvoiceValidator.cs:64-71 | The warning for description d is present exactly when d occurs more than once. No two duplicate warnings are equal, so there is exactly one per repeated description. |
| InvoiceValidation.ValidateAmountWarning | BillingExtractor.Infrastructure/Services/InvoiceValidator.cs:74-88 | AMOUNT_MISMATCH is a warning exactly when there are items and \|Σ LineTotal − TotalAmount\| > 0.01. |
| InvoiceValidation.AmountMismatchNeverError | BillingExtractor.Infrastructure/Services/InvoiceValidator.cs:74-88 | AMOUNT_MISMATCH is never an error. |
| InvoiceValidation.ValidateNoWarnings | BillingExtractor.Infrastructure/Services/InvoiceValidator.cs:63-88 | There are no warnings exactly when no description repeats and the amounts agree (or there are no items). |
| InvoiceValidation.NoRepeatsIff | BillingExtractor.Infrastructure/Services/InvoiceValidator.cs:64-65 | There are no groups exactly when every description occurs at most once. |
| InvoiceValidation.IsDuplicate | BillingExtractor.Infrastructure/Services/InvoiceValidator.cs:100-110 | `IsDuplicateAsync` is true exactly when the repository holds an invoice with that number and vendor on that calendar day. |
| ProcessingValidation.ValidateInvoice | BillingExtractor.Infrastructure/Services/InvoiceProcessingService.cs:208-268 | The method's errors and warnings equal `Validation`. |
| ProcessingValidation.CheckRequiredFields | BillingExtractor.Infrastructure/Services/InvoiceProcessingService.cs:213-227 | The three required-field rules, in order. |
| ProcessingValidation.CheckLineItems | BillingExtractor.Infrastructure/Services/InvoiceProcessingService.cs:236-254 | The loop's errors are the per-item errors of every index, in order. |
| ProcessingValidation.CheckItem | BillingExtractor.Infrastructure/Services/InvoiceProcessingService.cs:238-253 | One turn appends that item's errors. |
| ProcessingValidation.RequiredFieldErrorsIff | BillingExtractor.Infrastructure/Services/InvoiceProcessingService.cs:214-227 | MISSING_INVOICE_NUMBER, MISSING_VENDOR_NAME and INVALID_TOTAL_AMOUNT are present exactly when the number is blank, the vendor is blank, or the total is ≤ 0. |
| ProcessingValidation.CustomerAndDateIgnored | BillingExtractor.Infrastructure/Services/InvoiceProcessingService.cs:208-268 | Customer name and invoice date never affect the result. |
| ProcessingValidation.ItemRuleErrorsIff | BillingExtractor.Infrastructure/Services/InvoiceProcessingService.cs:236-254 | The error for rule k at item i is present exactly when item i exists and breaks k. The rules are a blank description, quantity ≤ 0, and unit price < 0 (zero passes). |
| ProcessingValidation.ItemErrorsUpToContain | BillingExtractor.Infrastructure/Services/InvoiceProcessingService.cs:236-254 | The same iff for the loop after n turns. |
| ProcessingValidation.ItemErrorsContain | BillingExtractor.Infrastructure/Services/InvoiceProcessingService.cs:240-253 | One turn reports exactly its own failing rules. |
| ProcessingValidation.RuleErrorInjective | BillingExtractor.Infrastructure/Services/InvoiceProcessingService.cs:242-252 | Rule errors with different rule or item number differ, because the message carries the number i + 1. |
| ProcessingValidation.ItemCodesAreRuleCodes | BillingExtractor.Infrastructure/Services/InvoiceProcessingService.cs:240-253 | Every item error has one of the three item codes. |
| ProcessingValidation.NoLineItemsIff | BillingExtractor.Infrastructure/Services/InvoiceProcessingService.cs:230-233 | NO_LINE_ITEMS is a warning exactly when there are no items, and then it is the only warning and there are no item errors. |
| ProcessingValidation.AmountMismatchIff | BillingExtractor.Infrastructure/Services/InvoiceProcessingService.cs:258-265 | AMOUNT_MISMATCH is a warning exactly when there are items and \|Σ LineTotal − total\| > 0.01. |
| ProcessingValidation.MismatchIsNoError | BillingExtractor.Infrastructure/Services/InvoiceProcessingService.cs:258-265 | Changing a positive total to another positive total leaves the errors unchanged. |
| ProcessingValidation.AmountMismatchExamples | BillingExtractor.Tests/Infrastructure/Services/InvoiceProcessingServiceValidationTests.cs:16-133 | Items 60 + 30 against total 100 give only the warning; against 90, nothing. |
| ProcessingService.InvoiceProcessingService.constructor | BillingExtractor.Infrastructure/Services/InvoiceProcessingService.cs:17-27 | Keeps the collaborators, with no requests made yet. |
| ProcessingService.InvoiceProcessingService.ProcessInvoiceAsync | BillingExtractor.Infrastructure/Services/InvoiceProcessingService.cs:29-144 | The outcome, the repository afterwards and the requests made are those of `Process`. |
| ProcessingService.InvoiceProcessingService.ProcessInvoicesAsListAsync | BillingExtractor.Infrastructure/Services/InvoiceProcessingService.cs:187-206 | The ids, the repository and the requests are those of folding `Process` over the files. |
| ProcessingService.InvoiceProcessingService.ProcessAndCollect | BillingExtractor.Infrastructure/Services/InvoiceProcessingService.cs:193-202 | One turn of the batch loop: a success appends its id, a failure is swallowed. |
| ProcessingService.InvoiceProcessingService.ProcessInvoicesAsync | BillingExtractor.Infrastructure/Services/InvoiceProcessingService.cs:146-185 | The response is `BatchResponse`, whatever the validate and checkDuplicates flags are. The only requests are one extraction per file. |
| ProcessingService.BuildInvoice | BillingExtractor.Infrastructure/Services/InvoiceProcessingService.cs:50-112 | The try block up to persistence equals `Pipeline`. |
| ProcessingService.CreateInvoice | BillingExtractor.Infrastructure/Services/InvoiceProcessingService.cs:56-69 | The Money values and `Invoice.Create` fail or succeed as `Header` does, and on success produce a new invoice holding `Header`'s value. |
| ProcessingService.AddValidationResults | BillingExtractor.Infrastructure/Services/InvoiceProcessingService.cs:71-80 | Appends every error, then every warning, in order. |
| ProcessingService.AddLineItems | BillingExtractor.Infrastructure/Services/InvoiceProcessingService.cs:82-99 | Passes or fails, with the same message and the same new state, as `AddItems`. |
| ProcessingService.AddItemsStops | BillingExtractor.Infrastructure/Services/InvoiceProcessingService.cs:85-98 | The first failing item decides the outcome; later items do not matter. |
| ProcessingService.RecordFailure | BillingExtractor.Infrastructure/Services/InvoiceProcessingService.cs:127-137 | The catch block's record is `FailedRecord`. |
| ProcessingService.CreatePlaceholder | BillingExtractor.Infrastructure/Services/InvoiceProcessingService.cs:127-133 | `Invoice.Create` with already-trimmed texts stores them as given. |
| ProcessingService.FailInvoice | BillingExtractor.Infrastructure/Services/InvoiceProcessingService.cs:135-137 | Only file path, status (Failed) and processing error change. |
| ProcessingService.DomainErrors | BillingExtractor.Infrastructure/Services/InvoiceProcessingService.cs:72-75 | One domain error per DTO error, code and message copied, in order. |
| ProcessingService.DomainWarnings | BillingExtractor.Infrastructure/Services/InvoiceProcessingService.cs:77-80 | One domain warning per DTO warning, in order. |
| ProcessingService.ExtractRequests | BillingExtractor.Infrastructure/Services/InvoiceProcessingService.cs:151-156 | One extraction request per file, in order. |
| ProcessingService.ProcessAllStep | BillingExtractor.Infrastructure/Services/InvoiceProcessingService.cs:191-203 | The fold after i + 1 files is the fold after i, extended by file i's step. |
| ProcessingSteps.KnownHashShortCircuits | BillingExtractor.Infrastructure/Services/InvoiceProcessingService.cs:34-42 | A known hash fails with the existing invoice's number, before any save or extraction, and stores nothing. |
| ProcessingSteps.SaveFailureStoresNothing | BillingExtractor.Infrastructure/Services/InvoiceProcessingService.cs:44-47 | A failed save, which happens outside the try block, propagates and records nothing. |
| ProcessingSteps.StoresAtMostOne | BillingExtractor.Infrastructure/Services/InvoiceProcessingService.cs:29-144 | The file is saved exactly when the hash is new, and extracted exactly when the save succeeded. Exactly one record is appended once extraction is reached, carrying the file's hash, name and path. Earlier records are untouched. |
| ProcessingSteps.SucceedsIff | BillingExtractor.Infrastructure/Services/InvoiceProcessingService.cs:47-121 | The call succeeds exactly when extraction is reached and succeeds, the header is acceptable and every line item is accepted. On success it returns the new id and appends the `Pipeline` record. |
| ProcessingSteps.FailureIsRecorded | BillingExtractor.Infrastructure/Services/InvoiceProcessingService.cs:122-143 | Any failure inside the try block appends one PROCESSING_FAILED record. It has status Failed, the failure's message, the same hash and file name, and the failure id. |
| ProcessingSteps.KeepsHashesUnique | BillingExtractor.Infrastructure/Services/InvoiceProcessingService.cs:34-42 | If the stored hashes are unique before a call, they are unique after it, which matches the unique FileHash index. |
| ProcessingSteps.SameContentTwice | BillingExtractor.Infrastructure/Services/InvoiceProcessingService.cs:34-42 | Uploading the same content again fails without any request and stores nothing, whatever happened the first time. |
| ProcessingSteps.ProcessTurns | BillingExtractor.Infrastructure/Services/InvoiceProcessingService.cs:29-144 | A step appends at most one record, keeps hashes unique, and returns the fresh id on success. |
| ProcessingSteps.FoldRepository | BillingExtractor.Infrastructure/Services/InvoiceProcessingService.cs:191-203 | Over n files the repository grows by at most n, keeps its prefix, and keeps hashes unique. |
| ProcessingSteps.FoldIds | BillingExtractor.Infrastructure/Services/InvoiceProcessingService.cs:191-203 | At most n ids are returned, each one of the fresh ids handed to the calls. |
| ProcessingSteps.FoldIdsAreSuccesses | BillingExtractor.Infrastructure/Services/InvoiceProcessingService.cs:191-203 | For any step that answers with the id it was given, the loop returns exactly the ids of the turns that succeeded, in file order. |
| ProcessingSteps.ProcessAllIds | BillingExtractor.Infrastructure/Services/InvoiceProcessingService.cs:187-206 | The ids the batch returns are exactly the fresh ids of the files whose turn succeeded, each against the repository the earlier files left, in file order. |
| ProcessingSteps.ProcessAllInvariant | BillingExtractor.Infrastructure/Services/InvoiceProcessingService.cs:187-206 | The batch swallows every per-file failure. It keeps earlier records, adds at most one per file, keeps hashes unique, and returns at most one id per file. |
| ProcessingSteps.ExtractAllCounts | BillingExtractor.Infrastructure/Services/InvoiceProcessingService.cs:151-177 | Every file gives either a result or an error string. There are no errors exactly when every extraction succeeds. |
| ProcessingSteps.BatchResponseCounts | BillingExtractor.Infrastructure/Services/InvoiceProcessingService.cs:179-184 | TotalProcessed + TotalFailed = number of files, with TotalProcessed the results and TotalFailed the errors. Success holds exactly when there are no errors, that is when every extraction succeeds. |
| ProcessingProperties.HeaderIff | BillingExtractor.Infrastructure/Services/InvoiceProcessingService.cs:56-66 | The header is built exactly when the Money values and `Invoice.Create` accept the DTO. It holds the id, hash, file name, trimmed number and vendor, the date and the normalised total, with empty lists. |
| ProcessingProperties.PipelineIff | BillingExtractor.Infrastructure/Services/InvoiceProcessingService.cs:50-112 | The try block succeeds exactly when the header and every line item are accepted. The record then holds the stored items, the validator's errors, and status Failed exactly when there are errors (Completed otherwise). |
| ProcessingProperties.DuplicatePossibleIff | BillingExtractor.Infrastructure/Services/InvoiceProcessingService.cs:101-112 | DUPLICATE_POSSIBLE is present exactly when `FindSimilar` is non-empty, and then exactly one is appended after the validator's warnings. |
| ProcessingProperties.FlagSimilarIff | BillingExtractor.Infrastructure/Services/InvoiceProcessingService.cs:102-112 | Only the warnings change, by exactly one DUPLICATE_POSSIBLE when similar invoices exist. |
| ProcessingProperties.RuleWarningsNotDuplicate | BillingExtractor.Infrastructure/Services/InvoiceProcessingService.cs:229-265 | `ValidateInvoice` never emits DUPLICATE_POSSIBLE. |
| ProcessingProperties.AddItemsAccepted | BillingExtractor.Infrastructure/Services/InvoiceProcessingService.cs:83-99 | Adding the DTO items succeeds exactly when every item is accepted, and then appends their domain versions in order. |
| ProcessingProperties.AddItemAccepted | BillingExtractor.Infrastructure/Services/InvoiceProcessingService.cs:87-97 | One item is added exactly when it is accepted: non-blank description, quantity > 0, non-negative price. |
| ProcessingProperties.ItemRefused | BillingExtractor.Domain/Entities/LineItem.cs:30-37 | `LineItem.Create` with a valid price succeeds exactly when the item is accepted. |
| ProcessingProperties.PriceOf | BillingExtractor.Infrastructure/Services/InvoiceProcessingService.cs:87 | The unit-price Money is built exactly when the price is non-negative. |
| ProcessingProperties.StoredItemsAt | BillingExtractor.Infrastructure/Services/InvoiceProcessingService.cs:85-98 | The stored items are one per DTO item, in order. |
| CommandHandling.Handle | BillingExtractor.Application/Commands/Handlers/ProcessInvoicesCommandHandler.cs:27-122 | The method's response equals `Handled`. |
| CommandHandling.HandleInvoice | BillingExtractor.Application/Commands/Handlers/ProcessInvoicesCommandHandler.cs:59-110 | One turn of the invoice loop equals `Turn`. |
| CommandHandling.TurnSteps | BillingExtractor.Application/Commands/Handlers/ProcessInvoicesCommandHandler.cs:61-110 | Each turn appends the invoice, with only its status, lists and error changed. It counts exactly one of processed or failed, a duplicate only together with processed, and only appends errors. |
| CommandHandling.CheckDuplicateSteps | BillingExtractor.Application/Commands/Handlers/ProcessInvoicesCommandHandler.cs:81-97 | The duplicate branch is such a step. |
| CommandHandling.TurnsCount | BillingExtractor.Application/Commands/Handlers/ProcessInvoicesCommandHandler.cs:59-111 | After n invoices, processed + failed has grown by n, duplicates by at most the processed count, and errors only by appending. |
| CommandHandling.TurnsList | BillingExtractor.Application/Commands/Handlers/ProcessInvoicesCommandHandler.cs:59-111 | Every extracted invoice appears exactly once in the response, in extraction order. |
| CommandHandling.ScreenedCount | BillingExtractor.Application/Commands/Handlers/ProcessInvoicesCommandHandler.cs:37-48 | Every file is either sent to extraction or rejected. |
| CommandHandling.AcceptedExactly | BillingExtractor.Application/Commands/Handlers/ProcessInvoicesCommandHandler.cs:37-48 | Exactly the files of a valid type are sent to extraction. |
| CommandHandling.AcceptedEmpty | BillingExtractor.Application/Commands/Handlers/ProcessInvoicesCommandHandler.cs:37-50 | Nothing is sent exactly when no file has a valid type. |
| CommandHandling.RejectionsEmpty | BillingExtractor.Application/Commands/Handlers/ProcessInvoicesCommandHandler.cs:37-44 | There are no "Invalid file type" errors exactly when every file has a valid type. |
| CommandHandling.HandledCounts | BillingExtractor.Application/Commands/Handlers/ProcessInvoicesCommandHandler.cs:27-122 | Success holds exactly when TotalProcessed > 0, and TotalDuplicates ≤ TotalProcessed. The invalid-type errors come first. With no valid file it ends with "No valid files to process" and nothing processed. A failing extraction call ends with the batch error. Otherwise processed + failed = rejected files + extracted invoices, and each extracted invoice is kept in order. |
| CommandHandling.EveryFileCounted | BillingExtractor.Application/Commands/Handlers/ProcessInvoicesCommandHandler.cs:37-105 | With `BaseLLMService.ExtractInvoicesAsync` as the extractor, TotalProcessed + TotalFailed is the number of uploaded files. |
| CommandHandling.InvalidSkipsDuplicateCheck | BillingExtractor.Application/Commands/Handlers/ProcessInvoicesCommandHandler.cs:64-78 | An invoice the validator rejects is counted as failed, not processed. It keeps its status and gains the validator's warnings and errors. The duplicate check is never consulted. |
| CommandHandling.DuplicateHitCounted | BillingExtractor.Application/Commands/Handlers/ProcessInvoicesCommandHandler.cs:81-97 | A duplicate hit appends one DUPLICATE warning, marks the invoice "Processed", and raises both TotalDuplicates and TotalProcessed by one. |
| CommandHandling.TurnsIgnoreValidator | BillingExtractor.Application/Commands/Handlers/ProcessInvoicesCommandHandler.cs:64-78 | With validation off, the invoice loop does not depend on the validator. |
| CommandHandling.HandledIgnoresValidator | BillingExtractor.Application/Commands/Handlers/ProcessInvoicesCommandHandler.cs:64-78 | With validation off, the response does not depend on the validator. |
| CommandHandling.NoValidFilesIgnoresExtractor | BillingExtractor.Application/Commands/Handlers/ProcessInvoicesCommandHandler.cs:50-54 | With no valid file, the extractor is never consulted and Success is false. |
| CommandHandling.UncheckedTurnsProcessAll | BillingExtractor.Application/Commands/Handlers/ProcessInvoicesCommandHandler.cs:59-111 | With both checks off, every extracted invoice is processed with status "Processed", failed extractions included, and nothing fails. |
| CommandHandling.ValidatedFailedExtractionFails | BillingExtractor.Application/Commands/Handlers/ProcessInvoicesCommandHandler.cs:64-77 | With validation on and `InvoiceValidator` as the validator, a failed-extraction DTO is counted as failed. It keeps status "Failed" and its EXTRACTION_ERROR, and gains validation errors. |
| LlmExtraction.ExtractInvoicesAsync | BillingExtractor.Infrastructure/LLM/BaseLLMService.cs:19-39 | The loop's results equal `Extracted`. |
| LlmExtraction.ExtractedAt | BillingExtractor.Infrastructure/LLM/BaseLLMService.cs:19-39 | There is exactly one result per file, in order. A success is the extractor's DTO. A failure is a failed DTO carrying the error and the "Failed to extract invoice from" message. |
| LlmExtraction.CreateFailedInvoiceDto | BillingExtractor.Infrastructure/LLM/BaseLLMService.cs:41-58 | The DTO has number EXTRACTION_FAILED, status "Failed", total 0, ProcessingError = error, and exactly one EXTRACTION_ERROR error with the file's message. It has no line items and the MinValue date. |
| LlmExtraction.FailedDtoIsInvalid | BillingExtractor.Infrastructure/LLM/BaseLLMService.cs:41-58 | `InvoiceValidator` rejects a failed DTO with InvoiceDate, TotalAmount and LineItems errors. |
| LlmExtraction.ParseDate | BillingExtractor.Infrastructure/LLM/BaseLLMService.cs:146-155 | Null or blank text gives null. Otherwise the result is what `TryParse` gives, null when it fails. |
| LlmExtraction.ParseOutcome | BillingExtractor.Infrastructure/LLM/BaseLLMService.cs:97-144 | The status is "Extracted" exactly when the decoder returns a record. Otherwise the result is a failed DTO whose error is "Failed to parse LLM response: " followed by the decoder's message, or by the null-record message. A reply whose `lineItems` array holds a null entry fails too, with the null-reference message after the same prefix. |
| LlmExtraction.ParsedHeader | BillingExtractor.Infrastructure/LLM/BaseLLMService.cs:114-127 | Each header field is kept or defaulted: number to "UNKNOWN_" + Guid prefix, vendor to "Unknown Vendor", customer to "", currency upper-cased (exactly `ToUpper` of the extracted text) or "USD", total to 0. Tax and subtotal pass through, null included. |
| LlmExtraction.ParsedDates | BillingExtractor.Infrastructure/LLM/BaseLLMService.cs:118-119 | A missing, blank or unparsable invoice date falls back to now. The due date is null when missing or blank, otherwise exactly the `TryParse` result. |
| LlmExtraction.LineItemDefaults | BillingExtractor.Infrastructure/LLM/BaseLLMService.cs:128-136 | For a reply with no null entry, line items keep count and order, with LineNumber = index + 1, and a missing array gives none. Per item: description "Item {index+1}", quantity 1, unit "", price 0. LineTotal is the given value, else raw quantity × raw price when both are present, else 0. |
| LlmExtraction.ToLineItemsAt | BillingExtractor.Infrastructure/LLM/BaseLLMService.cs:128-136 | The `Select` maps item i to entry i. |
| LlmExtraction.MissingQuantityGivesZeroTotal | BillingExtractor.Infrastructure/LLM/BaseLLMService.cs:132-135 | A missing quantity gives line total 0, not the unit price, even though Quantity defaults to 1. |
| LlmExtraction.DefaultDescriptionsDistinct | BillingExtractor.Infrastructure/LLM/BaseLLMService.cs:131 | Default descriptions of different items differ, so defaulting alone never triggers a duplicate-description warning. |
| FileTypes.IsValidFileType | BillingExtractor.Infrastructure/Services/FileProcessor.cs:35-48 | An accepted name is non-blank and has an extension. |
| FileTypes.AcceptsExactlyListed | BillingExtractor.Infrastructure/Services/FileProcessor.cs:37-43 | For an extension t that is non-empty and has no '.' or '/', "<anything>.<t>" is accepted exactly when "." + lower(t) is one of .pdf, .jpg, .jpeg, .png, .tiff or .bmp. |
| FileTypes.CaseInsensitive | BillingExtractor.Infrastructure/Services/FileProcessor.cs:40 | Lower-casing a name never changes the verdict. |
| FileTypes.UpperCasePdfAccepted | BillingExtractor.Infrastructure/Services/FileProcessor.cs:40-43 | "A.PDF" is accepted. |
| FileTypes.DoubleExtensionRejected | BillingExtractor.Infrastructure/Services/FileProcessor.cs:40-43 | "a.pdf.exe" is rejected. |
| FileTypes.NoExtensionRejected | BillingExtractor.Infrastructure/Services/FileProcessor.cs:37-43 | "noext" is rejected. |
| FileTypes.TiffAccepted | BillingExtractor.Infrastructure/Services/FileProcessor.cs:41 | "scan.tiff" is accepted. |
| FileTypes.GetMimeType | BillingExtractor.Infrastructure/LLM/OpenAIService.cs:96-107 | Anything other than octet-stream needs an extension. |
| FileTypes.MimeCaseInsensitive | BillingExtractor.Infrastructure/LLM/OpenAIService.cs:98 | Lower-casing a name never changes its MIME type. |
| FileTypes.UpperCasePdfMime | BillingExtractor.Infrastructure/LLM/OpenAIService.cs:98-102 | "A.PDF" is sent as application/pdf. |
| FileTypes.TiffSentAsOctetStream | BillingExtractor.Infrastructure/LLM/OpenAIService.cs:105 | A .tiff is sent as application/octet-stream. |
| FileTypes.MimeTable | BillingExtractor.Infrastructure/LLM/OpenAIService.cs:98-105 | For "<anything>.<t>", with t non-empty and free of '.' and '/': .pdf gives application/pdf, .jpg and .jpeg give image/jpeg, .png gives image/png, and every other extension gives application/octet-stream, all after lower-casing. |
| FileTypes.SpecificMimeIsValidType | BillingExtractor.Infrastructure/LLM/OpenAIService.cs:100-105 | Every name with a specific MIME type passes `IsValidFileType`. |
| CommandValidation.Validate | BillingExtractor.Application/Validators/ProcessInvoicesCommandValidator.cs:8-23 | No files gives exactly "At least one file is required". More than 10 files starts with "Maximum 10 files allowed per request". |
| CommandValidation.FilesFailuresEmpty | BillingExtractor.Application/Validators/ProcessInvoicesCommandValidator.cs:14-22 | The per-file rules report nothing exactly when every file passes. |
| CommandValidation.ValidIff | BillingExtractor.Application/Validators/ProcessInvoicesCommandValidator.cs:8-23 | A command passes exactly when it has 1 to 10 files, each 1 byte to 10 MiB and named .pdf, .jpg, .jpeg or .png in any case. |
| CommandValidation.AcceptedFilesHaveValidTypes | BillingExtractor.Application/Validators/ProcessInvoicesCommandValidator.cs:17-22 | Every file of a passing command passes `IsValidFileType`. |
| CommandValidation.AllowedIsValidType | BillingExtractor.Application/Validators/ProcessInvoicesCommandValidator.cs:17-22 | Each allowed name passes `IsValidFileType`. |
| CommandValidation.TiffRefusedByValidator | BillingExtractor.Application/Validators/ProcessInvoicesCommandValidator.cs:17-22 | "scan.tiff" is refused with exactly the file-type message, although `IsValidFileType` accepts it. |
| Repositories.GetById | BillingExtractor.Infrastructure/Repositories/InvoiceRepository.cs:17-22 | Null exactly when no invoice has the id; otherwise a stored invoice with that id. |
| Repositories.GetByNumber | BillingExtractor.Infrastructure/Repositories/InvoiceRepository.cs:24-32 | Null exactly when no invoice has that number and vendor; otherwise one that has them. |
| Repositories.GetByFileHash | BillingExtractor.Infrastructure/Repositories/InvoiceRepository.cs:34-39 | Null exactly when no invoice has the hash; otherwise a stored invoice with that hash. |
| Repositories.GetByFileHashUnique | BillingExtractor.Infrastructure/Repositories/InvoiceRepository.cs:34-39 | With unique hashes, the lookup returns the one invoice with that hash. |
| Repositories.Filter | BillingExtractor.Infrastructure/Repositories/InvoiceRepository.cs:53-66 | `Where` keeps exactly the matching invoices, with their multiplicities. |
| Repositories.SortByProcessedAtDesc | BillingExtractor.Infrastructure/Repositories/InvoiceRepository.cs:68 | The result is sorted by ProcessedAt, descending, and is a permutation of the input. |
| Repositories.InsertByProcessedAt | BillingExtractor.Infrastructure/Repositories/InvoiceRepository.cs:68 | Inserting into a sorted list keeps it sorted and adds exactly that invoice. |
| Repositories.Page | BillingExtractor.Infrastructure/Repositories/InvoiceRepository.cs:70-73 | A page holds pageSize invoices, or fewer when fewer remain after the first (page − 1) × pageSize, and none past the end. Entry m is entry (page − 1) × pageSize + m of the list, so a page of a sorted list is sorted. |
| Repositories.PageSplitsList | BillingExtractor.Infrastructure/Repositories/InvoiceRepository.cs:70-73 | Entry j of the list is entry j mod pageSize of page j div pageSize + 1, so the pages tile the list. |
| Repositories.PageAt | BillingExtractor.Infrastructure/Repositories/InvoiceRepository.cs:72 | Entry m of a page is entry (page − 1) × pageSize + m of the list. |
| Repositories.MatchingSorted | BillingExtractor.Infrastructure/Repositories/InvoiceRepository.cs:53-68 | Exactly the invoices matching the vendor (substring, only if non-blank) and the inclusive date bounds, sorted by ProcessedAt descending. |
| Repositories.GetAll | BillingExtractor.Infrastructure/Repositories/InvoiceRepository.cs:41-76 | The result is sorted and holds only matching stored invoices. With page and pageSize > 0 it is exactly that page of the matches, latest first, and has at most pageSize entries. Otherwise it holds every match. |
| Repositories.FindSimilar | BillingExtractor.Infrastructure/Repositories/InvoiceRepository.cs:78-85 | Exactly the stored invoices with equal number, equal vendor and the same calendar day. |
| Repositories.ExistsIffSimilarFound | BillingExtractor.Infrastructure/Repositories/InvoiceRepository.cs:113-121 | `ExistsAsync` is true exactly when `FindSimilarAsync` is non-empty. |
| Repositories.NearDuplicateIsSimilar | BillingExtractor.Infrastructure/Repositories/InvoiceRepository.cs:78-85 | A stored near duplicate (per `IsDuplicateOf`) is always among the similar invoices. |
| Repositories.RemoveById | BillingExtractor.Infrastructure/Repositories/InvoiceRepository.cs:99-106 | With unique ids, after removal no invoice has the id and every other invoice remains. The result is the list before the removed entry followed by the list after it, so the order is kept. |
| Repositories.InvoiceRepository.constructor | BillingExtractor.Infrastructure/Repositories/InvoiceRepository.cs:12-15 | A new repository holds no invoices. |
| Repositories.InvoiceRepository.Add | BillingExtractor.Infrastructure/Repositories/InvoiceRepository.cs:87-91 | The invoice is stored after the others and returned. |
| Repositories.InvoiceRepository.Delete | BillingExtractor.Infrastructure/Repositories/InvoiceRepository.cs:99-106 | Returns false and changes nothing when the id is absent. Otherwise it removes the invoice `GetByIdAsync` finds and returns true. |
| InvoiceQueries.GetInvoiceByIdIff | BillingExtractor.Application/Queries/Handlers/GetInvoiceByIdQueryHandler.cs:20-33 | Null exactly when no stored invoice has the id; otherwise the projection of a stored invoice with that id. |
| InvoiceQueries.MapToDtoProjects | BillingExtractor.Application/Queries/Handlers/GetInvoiceByIdQueryHandler.cs:35-72 | Scalars are copied, with the total as its amount and the status as its name. Tax and subtotal are null exactly when absent, otherwise their amounts. Line items, warnings and errors correspond one for one, in order. |
| InvoiceQueries.LineItemsToDtosAt | BillingExtractor.Application/Queries/Handlers/GetInvoiceByIdQueryHandler.cs:51-59 | Item i projects to entry i. |
| InvoiceQueries.WarningsToDtosAt | BillingExtractor.Application/Queries/Handlers/GetInvoiceByIdQueryHandler.cs:60-64 | Warning i projects to entry i. |
| InvoiceQueries.ErrorsToDtosAt | BillingExtractor.Application/Queries/Handlers/GetInvoiceByIdQueryHandler.cs:65-69 | Error i projects to entry i. |
| InvoiceQueries.StatusRoundTrip | BillingExtractor.Application/Queries/Handlers/GetInvoiceByIdQueryHandler.cs:49 | The DTO's status text parses back to the entity's status. |
| InvoiceQueries.ProjectionKeepsLineSum | BillingExtractor.Application/Queries/Handlers/GetInvoiceByIdQueryHandler.cs:51-59 | The DTO line totals add up to the entity's. |
| Text.TrimIdempotent | BillingExtractor.Domain/Entities/ValidationWarning.cs:21-22 | `Trim` of a trimmed string changes nothing. |
| Text.BlankIffTrimEmpty | BillingExtractor.Domain/Entities/ValidationWarning.cs:13-17 | `IsNullOrWhiteSpace` holds exactly when trimming leaves nothing. |
| Text.TrimUpperCommute | BillingExtractor.Domain/ValueObjects/Money.cs:17 | Trimming and upper-casing commute. |
| Text.Extension | BillingExtractor.Infrastructure/Services/FileProcessor.cs:40 | `Path.GetExtension` gives either nothing or a '.' followed by at least one character, ending the path. |
| Text.ExtensionOfSuffix | BillingExtractor.Infrastructure/Services/FileProcessor.cs:40 | `Path.GetExtension` of "p.t", for t without '.' or '/', is ".t". |
| Text.ExtensionLower | BillingExtractor.Infrastructure/Services/FileProcessor.cs:40 | Taking the extension commutes with lower-casing. |
| Text.NatToStringInjective | BillingExtractor.Infrastructure/Services/InvoiceValidator.cs:53 | Different indexes print differently. |

## Left out

- I/O, async and resources. Nothing reads streams, computes SHA-256 or writes
  files. The content hash is the `hashOf` parameter and storage is `saveFile`.
  `async`/`await`, cancellation tokens and stream disposal are dropped.
  Stream position is not modelled either. `SaveFileAsync` leaves the upload
  stream at its end
  (BillingExtractor.Infrastructure/FileStorage/LocalFileStorageService.cs:31)
  and `ProcessInvoiceAsync` hands that same stream to the extractor
  (BillingExtractor.Infrastructure/Services/InvoiceProcessingService.cs:45-50),
  whereas `CalculateFileHashAsync` resets the position
  (LocalFileStorageService.cs:73-75). The model's
  extractor always receives the whole content.
- Logging. Every `_logger` call is dropped.
- Domain events. `AddDomainEvent` calls are dropped; the events are only
  collected and printed.
- Concurrency. The repository is a sequence changed by one caller at a time.
  EF Core change tracking, `SaveChangesAsync` and `UpdateAsync` are not modelled.
- Nondeterminism. `Guid.NewGuid` and `DateTime.UtcNow` are parameters, so the
  model does not prove that ids are fresh.
- Oracles.
  - The network clients of `OpenAIService` and `GeminiService` are one
    extractor parameter. `MockLLMService` is not part of this model: it draws
    random doubles.
  - `JsonSerializer.Deserialize` is a parameter returning the decoded record,
    null or an exception message.
  - `DateTime.TryParse` is a parameter.
  - The decimal format in the AMOUNT_MISMATCH messages is a parameter.
- Casing and whitespace. `ToUpperInvariant`/`ToLowerInvariant`, and the
  culture-sensitive `ToUpper()` applied to the extracted currency
  (BillingExtractor.Infrastructure/LLM/BaseLLMService.cs:122), change ASCII
  letters only; culture-specific mappings such as the Turkish dotted and
  dotless i are not modelled. `char.IsWhiteSpace` covers ASCII whitespace, U+0085 and
  U+00A0. Other Unicode whitespace and case mappings are not modelled.
- `Path.GetExtension` treats only '/' as a directory separator.
- Repositories: database semantics. String tests are ordinal `==` and
  ordinal substring search, as SQLite's default BINARY collation gives.
  This covers `GetByNumber`, `GetByFileHash`, `FindSimilar`/`Exists` and the
  vendor filter of `GetAll`. The SQL Server provider
  (BillingExtractor.Infrastructure/DependencyInjection.cs:34-37) usually has a
  case-insensitive collation, so there these queries can match more rows,
  including base64 hashes that differ only in case; that is not modelled.
  The skip count `(page - 1) * pageSize` is a 32-bit product in the source
  and can overflow; the model computes it on unbounded integers.
- Number width. `decimal` is an unbounded `real`, so the 28-digit range and
  its overflow exceptions are not modelled.
- Invoice API mismatch. `InvoiceProcessingService` calls `Invoice` members that
  `Invoice.cs` does not declare. The model maps them as follows:
  - The 9-argument `Create` becomes the 7-argument `Create` plus
    `SetTaxAmount`, `SetSubtotal` and `SetDueDate` when present.
  - `SetFileMetadata` becomes the file name and hash of `Create` plus
    `SetFilePath`.
  - `UpdateStatus(Processed)` becomes `MarkAsCompleted(now)`.
  - `UpdateStatus(Failed)` plus `SetProcessingError` becomes
    `MarkAsFailed(message)`.
  - `Money.Currency` is read as `CurrencyCode`.
  - The `Add*` methods use the record forms declared at the end of `Invoice.cs`,
    not the trimming `Create` factories.
- Aliasing of DTOs. The command handler's DTOs are values. In the source the
  handler mutates the extractor's `InvoiceDto` objects in place; here the
  response holds the updated copies.
- `ConfidenceScore` and other DTO fields the core never reads are omitted.
- Out of scope: `GetAllInvoicesQueryHandler`, the AutoMapper profile,
  `Money.ToString`, the HTTP controllers and the middleware.
