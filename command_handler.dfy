/** ProcessInvoicesCommandHandler
    (BillingExtractor.Application/Commands/Handlers/ProcessInvoicesCommandHandler.cs):
    the batch upload. Files of an unknown type are refused one by one; the
    rest go to the extractor in one call; each extracted invoice is then
    validated and checked for duplicates when the command asks for it, and
    counted as processed or failed. `Handle` is proved equal to the function
    `Handled`, whose properties are the lemmas below. */
module CommandHandling {
  import opened Results
  import opened Dtos
  import opened FileTypes
  import VR = ValidationResults
  import LlmExtraction
  import InvoiceValidation

  const NoValidFiles := "No valid files to process"
  const DuplicateWarning := ValidationWarningDto("DUPLICATE", "Possible duplicate invoice detected")

  function InvalidFileType(fileName: string): string {
    "Invalid file type: " + fileName
  }

  function ProcessingFailure(invoiceNumber: string, message: string): string {
    "Error processing " + invoiceNumber + ": " + message
  }

  function BatchFailure(message: string): string {
    "Batch processing failed: " + message
  }

  /** The handler's collaborators: the extractor's `ExtractInvoicesAsync`,
      and the validator's `ValidateInvoiceAsync` and `IsDuplicateAsync`; a
      Failure is the exception the call throws. */
  datatype Collaborators = Collaborators(
    extractAll: seq<FileUpload> -> Result<seq<InvoiceDto>>,
    validate: InvoiceDto -> Result<VR.ValidationResult>,
    isDuplicate: InvoiceDto -> Result<bool>)

  /** The files, among the first n, whose names pass `valid`, in order
      (the handler's test is `IsValidFileType`). */
  function Accepted(files: seq<FileUpload>, valid: string -> bool, n: nat): seq<FileUpload>
    requires n <= |files|
  {
    if n == 0 then []
    else Accepted(files, valid, n - 1) + (if valid(files[n - 1].fileName) then [files[n - 1]] else [])
  }

  /** The error line of each of the first n files whose name does not. */
  function Rejections(files: seq<FileUpload>, valid: string -> bool, n: nat): seq<string>
    requires n <= |files|
  {
    if n == 0 then []
    else Rejections(files, valid, n - 1) + (if valid(files[n - 1].fileName) then [] else [InvalidFileType(files[n - 1].fileName)])
  }

  /** The files the handler passes to the extractor. */
  function ToExtract(files: seq<FileUpload>): seq<FileUpload> {
    Accepted(files, IsValidFileType, |files|)
  }

  /** The response after the file loop. */
  function Screened(files: seq<FileUpload>): ProcessInvoicesResponse {
    var rejections := Rejections(files, IsValidFileType, |files|);
    EmptyResponse.(errors := rejections, totalFailed := |rejections|)
  }

  /** An invoice that reached the end of the checks: status "Processed". */
  function Finish(r: ProcessInvoicesResponse, invoice: InvoiceDto): ProcessInvoicesResponse {
    r.(invoices := r.invoices + [invoice.(status := "Processed")], totalProcessed := r.totalProcessed + 1)
  }

  /** A check threw: the error line, status "Failed" and the message. */
  function Fail(r: ProcessInvoicesResponse, invoice: InvoiceDto, message: string): ProcessInvoicesResponse {
    r.(errors := r.errors + [ProcessingFailure(invoice.invoiceNumber, message)],
       totalFailed := r.totalFailed + 1,
       invoices := r.invoices + [invoice.(status := "Failed", processingError := Some(message))])
  }

  /** The duplicate check and what follows it. */
  function CheckDuplicate(r: ProcessInvoicesResponse, invoice: InvoiceDto, cmd: ProcessInvoicesCommand, c: Collaborators): ProcessInvoicesResponse {
    if !cmd.enableDuplicateDetection then Finish(r, invoice)
    else match c.isDuplicate(invoice)
      case Failure(message) => Fail(r, invoice, message)
      case Success(false) => Finish(r, invoice)
      case Success(true) =>
        var flagged := invoice.(validationWarnings := invoice.validationWarnings + [DuplicateWarning]);
        Finish(r, flagged).(totalDuplicates := r.totalDuplicates + 1)
  }

  /** One turn of the invoice loop. */
  function Turn(r: ProcessInvoicesResponse, invoice: InvoiceDto, cmd: ProcessInvoicesCommand, c: Collaborators): ProcessInvoicesResponse {
    if !cmd.enableValidation then CheckDuplicate(r, invoice, cmd, c)
    else match c.validate(invoice)
      case Failure(message) => Fail(r, invoice, message)
      case Success(v) =>
        var checked := invoice.(validationWarnings := invoice.validationWarnings + v.warnings,
                                validationErrors := invoice.validationErrors + v.errors);
        if !v.isValid then r.(totalFailed := r.totalFailed + 1, invoices := r.invoices + [checked])
        else CheckDuplicate(r, checked, cmd, c)
  }

  /** The first n turns. */
  function Turns(r: ProcessInvoicesResponse, invoices: seq<InvoiceDto>, cmd: ProcessInvoicesCommand, c: Collaborators, n: nat): ProcessInvoicesResponse
    requires n <= |invoices|
  {
    if n == 0 then r else Turn(Turns(r, invoices, cmd, c, n - 1), invoices[n - 1], cmd, c)
  }

  /** What `Handle` answers. */
  function Handled(cmd: ProcessInvoicesCommand, c: Collaborators): ProcessInvoicesResponse {
    var screened := Screened(cmd.files);
    var accepted := ToExtract(cmd.files);
    if accepted == [] then screened.(errors := screened.errors + [NoValidFiles])
    else match c.extractAll(accepted)
      case Failure(message) => screened.(errors := screened.errors + [BatchFailure(message)], success := false)
      case Success(extracted) =>
        var r := Turns(screened, extracted, cmd, c, |extracted|);
        r.(success := r.totalProcessed > 0)
  }

  /** `Handle`: the file loop, the extractor call and the invoice loop. */
  method Handle(cmd: ProcessInvoicesCommand, c: Collaborators) returns (response: ProcessInvoicesResponse)
    ensures response == Handled(cmd, c)
  {
    response := EmptyResponse;
    var filesToProcess: seq<FileUpload> := [];
    for i := 0 to |cmd.files|
      invariant filesToProcess == Accepted(cmd.files, IsValidFileType, i)
      invariant response == EmptyResponse.(errors := Rejections(cmd.files, IsValidFileType, i),
                                           totalFailed := |Rejections(cmd.files, IsValidFileType, i)|)
    {
      var file := cmd.files[i];
      if !IsValidFileType(file.fileName) {
        response := response.(errors := response.errors + [InvalidFileType(file.fileName)],
                              totalFailed := response.totalFailed + 1);
      } else {
        filesToProcess := filesToProcess + [file];
      }
    }
    if filesToProcess == [] {
      response := response.(errors := response.errors + [NoValidFiles]);
      return;
    }
    var outcome := c.extractAll(filesToProcess);
    if outcome.Failure? {
      response := response.(errors := response.errors + [BatchFailure(outcome.error)], success := false);
      return;
    }
    var extracted := outcome.value;
    for i := 0 to |extracted|
      invariant response == Turns(Screened(cmd.files), extracted, cmd, c, i)
    {
      response := HandleInvoice(response, extracted[i], cmd, c);
    }
    response := response.(success := response.totalProcessed > 0);
  }

  /** The body of the invoice loop, updating the invoice as the source does. */
  method HandleInvoice(before: ProcessInvoicesResponse, invoice: InvoiceDto, cmd: ProcessInvoicesCommand, c: Collaborators)
    returns (response: ProcessInvoicesResponse)
    ensures response == Turn(before, invoice, cmd, c)
  {
    response := before;
    var current := invoice;
    if cmd.enableValidation {
      var validation := c.validate(current);
      if validation.Failure? {
        return Fail(response, current, validation.error);
      }
      var v := validation.value;
      current := current.(validationWarnings := current.validationWarnings + v.warnings);
      current := current.(validationErrors := current.validationErrors + v.errors);
      if !v.isValid {
        response := response.(totalFailed := response.totalFailed + 1);
        response := response.(invoices := response.invoices + [current]);
        return;
      }
    }
    if cmd.enableDuplicateDetection {
      var duplicate := c.isDuplicate(current);
      if duplicate.Failure? {
        return Fail(response, current, duplicate.error);
      }
      if duplicate.value {
        current := current.(validationWarnings := current.validationWarnings + [DuplicateWarning]);
        response := response.(totalDuplicates := response.totalDuplicates + 1);
      }
    }
    current := current.(status := "Processed");
    response := response.(invoices := response.invoices + [current]);
    response := response.(totalProcessed := response.totalProcessed + 1);
  }

  /** `after` is `before` with its status, warnings, errors or processing
      error changed, and warnings and errors only appended to. */
  predicate Keeps(before: InvoiceDto, after: InvoiceDto) {
    && after == before.(status := after.status, validationWarnings := after.validationWarnings,
                        validationErrors := after.validationErrors, processingError := after.processingError)
    && before.validationWarnings <= after.validationWarnings
    && before.validationErrors <= after.validationErrors
  }

  /** What one turn does to the response: one invoice appended, kept from
      the input; exactly one of processed and failed counted; a duplicate
      counted only with a processed invoice; errors only appended to. */
  predicate Stepped(r: ProcessInvoicesResponse, invoice: InvoiceDto, t: ProcessInvoicesResponse) {
    && |t.invoices| == |r.invoices| + 1
    && t.invoices[..|r.invoices|] == r.invoices
    && Keeps(invoice, t.invoices[|r.invoices|])
    && t.totalProcessed + t.totalFailed == r.totalProcessed + r.totalFailed + 1
    && r.totalProcessed <= t.totalProcessed
    && t.totalDuplicates - r.totalDuplicates <= t.totalProcessed - r.totalProcessed
    && r.errors <= t.errors
    && t.success == r.success
  }

  /** Appending an invoice kept from the input, with the counts moved as
      `Stepped` allows, is a step. */
  lemma AppendSteps(r: ProcessInvoicesResponse, invoice: InvoiceDto, kept: InvoiceDto, t: ProcessInvoicesResponse)
    requires Keeps(invoice, kept)
    requires t.invoices == r.invoices + [kept] && r.errors <= t.errors && t.success == r.success
    requires t.totalProcessed + t.totalFailed == r.totalProcessed + r.totalFailed + 1
    requires r.totalProcessed <= t.totalProcessed
    requires t.totalDuplicates - r.totalDuplicates <= t.totalProcessed - r.totalProcessed
    ensures Stepped(r, invoice, t)
  {
    assert t.invoices[..|r.invoices|] == r.invoices;
  }

  lemma CheckDuplicateSteps(r: ProcessInvoicesResponse, invoice: InvoiceDto, checked: InvoiceDto, cmd: ProcessInvoicesCommand, c: Collaborators)
    requires Keeps(invoice, checked)
    ensures Stepped(r, invoice, CheckDuplicate(r, checked, cmd, c))
  {
    var t := CheckDuplicate(r, checked, cmd, c);
    if !cmd.enableDuplicateDetection || c.isDuplicate(checked) == Success(false) {
      AppendSteps(r, invoice, checked.(status := "Processed"), t);
    } else if c.isDuplicate(checked).Failure? {
      AppendSteps(r, invoice, checked.(status := "Failed", processingError := Some(c.isDuplicate(checked).error)), t);
    } else {
      var flagged := checked.(validationWarnings := checked.validationWarnings + [DuplicateWarning]);
      AppendSteps(r, invoice, flagged.(status := "Processed"), t);
    }
  }

  lemma TurnSteps(r: ProcessInvoicesResponse, invoice: InvoiceDto, cmd: ProcessInvoicesCommand, c: Collaborators)
    ensures Stepped(r, invoice, Turn(r, invoice, cmd, c))
  {
    var t := Turn(r, invoice, cmd, c);
    if !cmd.enableValidation {
      CheckDuplicateSteps(r, invoice, invoice, cmd, c);
    } else if c.validate(invoice).Failure? {
      AppendSteps(r, invoice, invoice.(status := "Failed", processingError := Some(c.validate(invoice).error)), t);
    } else {
      var v := c.validate(invoice).value;
      var checked := invoice.(validationWarnings := invoice.validationWarnings + v.warnings,
                              validationErrors := invoice.validationErrors + v.errors);
      if !v.isValid {
        AppendSteps(r, invoice, checked, t);
      } else {
        CheckDuplicateSteps(r, invoice, checked, cmd, c);
      }
    }
  }

  /** The turns together, counted: processed and failed grow by the number
      of turns, duplicates never outgrow processed, and errors are only
      appended to. */
  lemma {:induction false} TurnsCount(r: ProcessInvoicesResponse, invoices: seq<InvoiceDto>, cmd: ProcessInvoicesCommand, c: Collaborators, n: nat)
    requires n <= |invoices|
    ensures var t := Turns(r, invoices, cmd, c, n);
            && t.totalProcessed + t.totalFailed == r.totalProcessed + r.totalFailed + n
            && r.totalProcessed <= t.totalProcessed
            && t.totalDuplicates - r.totalDuplicates <= t.totalProcessed - r.totalProcessed
            && r.errors <= t.errors
  {
    if n > 0 {
      var prev := Turns(r, invoices, cmd, c, n - 1);
      TurnsCount(r, invoices, cmd, c, n - 1);
      TurnSteps(prev, invoices[n - 1], cmd, c);
    }
  }

  /** The turns together, listed: one invoice per extracted invoice, in
      order, each kept from its input. */
  lemma {:induction false} TurnsList(r: ProcessInvoicesResponse, invoices: seq<InvoiceDto>, cmd: ProcessInvoicesCommand, c: Collaborators, n: nat)
    requires n <= |invoices|
    ensures var t := Turns(r, invoices, cmd, c, n);
            && |t.invoices| == |r.invoices| + n
            && t.invoices[..|r.invoices|] == r.invoices
            && forall i :: 0 <= i < n ==> Keeps(invoices[i], t.invoices[|r.invoices| + i])
  {
    if n > 0 {
      var prev := Turns(r, invoices, cmd, c, n - 1);
      TurnsList(r, invoices, cmd, c, n - 1);
      TurnSteps(prev, invoices[n - 1], cmd, c);
      var t := Turns(r, invoices, cmd, c, n);
      assert t.invoices[..|prev.invoices|] == prev.invoices;
      assert t.invoices[..|r.invoices|] == prev.invoices[..|r.invoices|];
      forall i | 0 <= i < n - 1
        ensures Keeps(invoices[i], t.invoices[|r.invoices| + i])
      {
        assert t.invoices[|r.invoices| + i] == prev.invoices[|r.invoices| + i];
      }
    }
  }

  /** The file loop: every file is either accepted or refused with one
      error line. */
  lemma {:induction false} ScreenedCount(files: seq<FileUpload>, valid: string -> bool, n: nat)
    requires n <= |files|
    ensures |Accepted(files, valid, n)| + |Rejections(files, valid, n)| == n
  {
    if n > 0 {
      ScreenedCount(files, valid, n - 1);
    }
  }

  /** The accepted files are exactly the files that pass the test. */
  lemma {:induction false} AcceptedExactly(files: seq<FileUpload>, valid: string -> bool, n: nat)
    requires n <= |files|
    ensures forall f :: f in Accepted(files, valid, n) ==> valid(f.fileName)
    ensures forall i :: 0 <= i < n && valid(files[i].fileName) ==> files[i] in Accepted(files, valid, n)
  {
    if n > 0 {
      AcceptedExactly(files, valid, n - 1);
    }
  }

  /** No error line comes from the file loop exactly when every file
      passes. */
  lemma {:induction false} RejectionsEmpty(files: seq<FileUpload>, valid: string -> bool, n: nat)
    requires n <= |files|
    ensures Rejections(files, valid, n) == [] <==> forall i :: 0 <= i < n ==> valid(files[i].fileName)
  {
    if n > 0 {
      RejectionsEmpty(files, valid, n - 1);
    }
  }

  /** Nothing is accepted exactly when no file passes. */
  lemma {:induction false} AcceptedEmpty(files: seq<FileUpload>, valid: string -> bool, n: nat)
    requires n <= |files|
    ensures Accepted(files, valid, n) == [] <==> forall i :: 0 <= i < n ==> !valid(files[i].fileName)
  {
    if n > 0 {
      AcceptedEmpty(files, valid, n - 1);
    }
  }

  /** The counts of a batch. Success is exactly "something was processed"
      and duplicates are counted among processed invoices. With no file of a
      valid type, or when the extractor throws, nothing is processed and no
      invoice is returned, and the last error line says why. Otherwise every
      extracted invoice is returned once, in order, changed only in its
      status, warnings, errors and processing error, and processed plus
      failed is the number of refused files plus the number of extracted
      invoices. */
  lemma HandledCounts(cmd: ProcessInvoicesCommand, c: Collaborators)
    ensures var r := Handled(cmd, c);
            && (r.success <==> r.totalProcessed > 0)
            && r.totalDuplicates <= r.totalProcessed
            && Rejections(cmd.files, IsValidFileType, |cmd.files|) <= r.errors
    ensures var r := Handled(cmd, c);
            var accepted := ToExtract(cmd.files);
            && (accepted == [] ==>
                  r.totalProcessed == 0 && r.invoices == [] && r.totalFailed == |cmd.files|
                  && r.errors[|r.errors| - 1] == NoValidFiles)
            && (accepted != [] && c.extractAll(accepted).Failure? ==>
                  r.totalProcessed == 0 && r.invoices == []
                  && r.errors[|r.errors| - 1] == BatchFailure(c.extractAll(accepted).error))
    ensures var r := Handled(cmd, c);
            var accepted := ToExtract(cmd.files);
            accepted != [] && c.extractAll(accepted).Success? ==>
              var extracted := c.extractAll(accepted).value;
              && r.totalProcessed + r.totalFailed == |Rejections(cmd.files, IsValidFileType, |cmd.files|)| + |extracted|
              && |r.invoices| == |extracted|
              && forall i :: 0 <= i < |extracted| ==> Keeps(extracted[i], r.invoices[i])
  {
    var accepted := ToExtract(cmd.files);
    ScreenedCount(cmd.files, IsValidFileType, |cmd.files|);
    if accepted != [] && c.extractAll(accepted).Success? {
      var extracted := c.extractAll(accepted).value;
      TurnsCount(Screened(cmd.files), extracted, cmd, c, |extracted|);
      TurnsList(Screened(cmd.files), extracted, cmd, c, |extracted|);
    }
  }

  /** With a `BaseLLMService` extractor, which answers one invoice per file,
      every file of the command is counted exactly once, as processed or
      failed. */
  lemma EveryFileCounted(cmd: ProcessInvoicesCommand, c: Collaborators,
                         extract: FileUpload -> Result<InvoiceDto>, nows: seq<nat>)
    requires |nows| == |ToExtract(cmd.files)|
    requires c.extractAll(ToExtract(cmd.files)) ==
             Success(LlmExtraction.Extracted(ToExtract(cmd.files), extract, nows, |nows|))
    ensures Handled(cmd, c).totalProcessed + Handled(cmd, c).totalFailed == |cmd.files|
  {
    var accepted := ToExtract(cmd.files);
    HandledCounts(cmd, c);
    ScreenedCount(cmd.files, IsValidFileType, |cmd.files|);
    LlmExtraction.ExtractedAt(accepted, extract, nows, |nows|);
  }

  /** With validation off, the validator is never consulted. */
  lemma {:induction false} TurnsIgnoreValidator(r: ProcessInvoicesResponse, invoices: seq<InvoiceDto>, cmd: ProcessInvoicesCommand,
                                                c: Collaborators, validate: InvoiceDto -> Result<VR.ValidationResult>, n: nat)
    requires !cmd.enableValidation && n <= |invoices|
    ensures Turns(r, invoices, cmd, c, n) == Turns(r, invoices, cmd, c.(validate := validate), n)
  {
    if n > 0 {
      TurnsIgnoreValidator(r, invoices, cmd, c, validate, n - 1);
    }
  }

  lemma HandledIgnoresValidator(cmd: ProcessInvoicesCommand, c: Collaborators, validate: InvoiceDto -> Result<VR.ValidationResult>)
    requires !cmd.enableValidation
    ensures Handled(cmd, c) == Handled(cmd, c.(validate := validate))
  {
    var accepted := ToExtract(cmd.files);
    if accepted != [] && c.extractAll(accepted).Success? {
      var extracted := c.extractAll(accepted).value;
      TurnsIgnoreValidator(Screened(cmd.files), extracted, cmd, c, validate, |extracted|);
    }
  }

  /** With no file of a valid type the extractor is never called. */
  lemma NoValidFilesIgnoresExtractor(cmd: ProcessInvoicesCommand, c: Collaborators, extractAll: seq<FileUpload> -> Result<seq<InvoiceDto>>)
    requires forall i :: 0 <= i < |cmd.files| ==> !IsValidFileType(cmd.files[i].fileName)
    ensures Handled(cmd, c) == Handled(cmd, c.(extractAll := extractAll))
    ensures !Handled(cmd, c).success
  {
    AcceptedEmpty(cmd.files, IsValidFileType, |cmd.files|);
  }

  /** With both checks off, every turn processes its invoice, whatever it
      is, so a failed extraction is counted as processed. */
  lemma {:induction false} UncheckedTurnsProcessAll(r: ProcessInvoicesResponse, invoices: seq<InvoiceDto>, cmd: ProcessInvoicesCommand, c: Collaborators, n: nat)
    requires !cmd.enableValidation && !cmd.enableDuplicateDetection && n <= |invoices|
    ensures var t := Turns(r, invoices, cmd, c, n);
            && t.totalProcessed == r.totalProcessed + n && t.totalFailed == r.totalFailed
            && t.errors == r.errors && t.totalDuplicates == r.totalDuplicates
            && |t.invoices| == |r.invoices| + n
            && forall i :: 0 <= i < n ==> t.invoices[|r.invoices| + i] == invoices[i].(status := "Processed")
  {
    if n > 0 {
      UncheckedTurnsProcessAll(r, invoices, cmd, c, n - 1);
      var prev := Turns(r, invoices, cmd, c, n - 1);
      var t := Turns(r, invoices, cmd, c, n);
      assert t == Finish(prev, invoices[n - 1]);
      forall i | 0 <= i < n
        ensures t.invoices[|r.invoices| + i] == invoices[i].(status := "Processed")
      {
        if i < n - 1 {
          assert t.invoices[|r.invoices| + i] == prev.invoices[|r.invoices| + i];
        }
      }
    }
  }

  /** With validation on and `InvoiceValidator` as the validator, a failed
      extraction is counted as failed, not processed, and is returned with
      the validator's errors after its extraction error. */
  lemma ValidatedFailedExtractionFails(r: ProcessInvoicesResponse, cmd: ProcessInvoicesCommand, c: Collaborators,
                                       fileName: string, error: string, now: nat, show: real -> string)
    requires cmd.enableValidation
    requires var dto := LlmExtraction.CreateFailedInvoiceDto(fileName, error, now);
             c.validate(dto) == Success(InvoiceValidation.Validate(dto, show))
    ensures var dto := LlmExtraction.CreateFailedInvoiceDto(fileName, error, now);
            var t := Turn(r, dto, cmd, c);
            && t.totalFailed == r.totalFailed + 1 && t.totalProcessed == r.totalProcessed
            && t.invoices[|r.invoices|].status == "Failed"
            && t.invoices[|r.invoices|].validationErrors[0].code == LlmExtraction.ExtractionErrorCode
            && |t.invoices[|r.invoices|].validationErrors| > 1
  {
    var dto := LlmExtraction.CreateFailedInvoiceDto(fileName, error, now);
    LlmExtraction.FailedDtoIsInvalid(fileName, error, now, show);
    var v := InvoiceValidation.Validate(dto, show);
    assert v.errors != [];
  }

  /** An invoice the validator rejects is counted as failed with the
      validator's findings appended; the duplicate check is never consulted
      and the batch's error lines are untouched. */
  lemma InvalidSkipsDuplicateCheck(r: ProcessInvoicesResponse, invoice: InvoiceDto, cmd: ProcessInvoicesCommand,
                                   c: Collaborators, isDuplicate: InvoiceDto -> Result<bool>)
    requires cmd.enableValidation && c.validate(invoice).Success? && !c.validate(invoice).value.isValid
    ensures Turn(r, invoice, cmd, c) == Turn(r, invoice, cmd, c.(isDuplicate := isDuplicate))
    ensures var t, v := Turn(r, invoice, cmd, c), c.validate(invoice).value;
      && t.totalFailed == r.totalFailed + 1 && t.totalProcessed == r.totalProcessed
      && t.totalDuplicates == r.totalDuplicates && t.errors == r.errors
      && t.invoices == r.invoices + [invoice.(validationWarnings := invoice.validationWarnings + v.warnings,
                                              validationErrors := invoice.validationErrors + v.errors)]
  {
  }

  /** A duplicate hit is still processed: one DUPLICATE warning, and both
      TotalDuplicates and TotalProcessed go up by one. */
  lemma DuplicateHitCounted(r: ProcessInvoicesResponse, invoice: InvoiceDto, cmd: ProcessInvoicesCommand, c: Collaborators)
    requires cmd.enableDuplicateDetection && c.isDuplicate(invoice) == Success(true)
    ensures var t := CheckDuplicate(r, invoice, cmd, c);
      && t.totalDuplicates == r.totalDuplicates + 1 && t.totalProcessed == r.totalProcessed + 1
      && t.totalFailed == r.totalFailed && t.errors == r.errors
      && t.invoices == r.invoices + [invoice.(status := "Processed",
                                              validationWarnings := invoice.validationWarnings + [DuplicateWarning])]
  {
  }
}
