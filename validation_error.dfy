/** ValidationError (BillingExtractor.Domain/Entities/ValidationError.cs):
    a (code, message) pair. The guarded factory `Create` trims both parts and
    refuses blank ones; the plain constructor, which Invoice.cs declares as a
    record, stores its arguments as given. */
module ValidationErrors {
  import opened Results
  import opened Text

  datatype ValidationError = ValidationError(code: string, message: string)

  /** `ValidationError.Create`: the code is checked first, then the message;
      what is stored is the trimmed text, so it is never blank. */
  function Create(code: string, message: string): (r: Result<ValidationError>)
    ensures IsBlank(code) ==> r == Failure(ArgumentMessage("Code is required", "code"))
    ensures !IsBlank(code) && IsBlank(message) ==> r == Failure(ArgumentMessage("Message is required", "message"))
    ensures r.Success? <==> !IsBlank(code) && !IsBlank(message)
    ensures r.Success? ==>
              && r.value.code == Trim(code) && r.value.message == Trim(message)
              && Trimmed(r.value.code) && Trimmed(r.value.message)
              && !IsBlank(r.value.code) && !IsBlank(r.value.message)
  {
    if IsBlank(code) then Failure(ArgumentMessage("Code is required", "code"))
    else if IsBlank(message) then Failure(ArgumentMessage("Message is required", "message"))
    else
      TrimNotBlank(code);
      TrimNotBlank(message);
      Success(ValidationError(Trim(code), Trim(message)))
  }

  /** Already trimmed, non-blank parts come back unchanged. */
  lemma CreateTrimmed(code: string, message: string)
    requires Trimmed(code) && Trimmed(message)
    requires !IsBlank(code) && !IsBlank(message)
    ensures Create(code, message) == Success(ValidationError(code, message))
  {
    TrimOfTrimmed(code);
    TrimOfTrimmed(message);
  }

  /** Re-creating a created error from its own parts gives it back. */
  lemma CreateIdempotent(code: string, message: string)
    requires Create(code, message).Success?
    ensures Create(Create(code, message).value.code, Create(code, message).value.message) == Create(code, message)
  {
    var w := Create(code, message).value;
    CreateTrimmed(w.code, w.message);
  }
}
