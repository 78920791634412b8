/** ValidationResult (BillingExtractor.Application/Interfaces/IServices.cs):
    the answer of an invoice validator, with its three factories. */
module ValidationResults {
  import opened Dtos

  datatype ValidationResult = ValidationResult(
    isValid: bool,
    warnings: seq<ValidationWarningDto>,
    errors: seq<ValidationErrorDto>)

  /** `new ValidationResult()`: not valid, with no warnings and no errors. */
  function Default(): (r: ValidationResult)
    ensures !r.isValid && r.warnings == [] && r.errors == []
  {
    ValidationResult(false, [], [])
  }

  /** `ValidationResult.Success()`. */
  function Success(): (r: ValidationResult)
    ensures r.isValid && r.warnings == [] && r.errors == []
  {
    ValidationResult(true, [], [])
  }

  /** `ValidationResult.WithWarnings(w)`: valid, whatever the warnings. */
  function WithWarnings(warnings: seq<ValidationWarningDto>): (r: ValidationResult)
    ensures r.isValid && r.warnings == warnings && r.errors == []
  {
    ValidationResult(true, warnings, [])
  }

  /** `ValidationResult.WithErrors(e)`: invalid, whatever the errors. */
  function WithErrors(errors: seq<ValidationErrorDto>): (r: ValidationResult)
    ensures !r.isValid && r.errors == errors && r.warnings == []
  {
    ValidationResult(false, [], errors)
  }

  /** "Valid exactly when there are no errors", which the validator
      maintains. */
  predicate Consistent(r: ValidationResult) {
    r.isValid <==> r.errors == []
  }

  /** `Success` is `WithWarnings` of nothing; the valid factories are
      consistent; but the factories do not enforce the rule: `WithErrors([])`
      is invalid with no errors, and so is the default result. */
  lemma FactoriesAndConsistency(warnings: seq<ValidationWarningDto>, errors: seq<ValidationErrorDto>)
    ensures Success() == WithWarnings([])
    ensures Consistent(Success()) && Consistent(WithWarnings(warnings))
    ensures Consistent(WithErrors(errors)) <==> errors != []
    ensures !Consistent(WithErrors([])) && !Consistent(Default())
  {
  }
}
