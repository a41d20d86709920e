/** Checks a tool's payload against its declared output model and a confidence threshold. */
module Validator {
  import opened Values

  datatype ValidationOutcome = ValidationOutcome(valid: bool, failure: Option<FailureReason>)

  /** The numeric reading of a "confidence" field.  A Python bool is an int, so it counts. */
  function Confidence(output: Dict): Option<real> {
    if "confidence" !in output then None
    else
      match output["confidence"]
      case Bool(b) => Some(if b then 1.0 else 0.0)
      case Int(n) => Some(n as real)
      case Float(r) => Some(r)
      case _ => None
  }

  /** An invalid outcome always carries its failure; which one says which check failed first. */
  function Validate(toolName: string, output: Dict, fitsOutput: Dict -> bool, threshold: real): (r: ValidationOutcome)
    ensures r.valid <==> r.failure.None?
    ensures r.valid <==>
      fitsOutput(output) && !(Confidence(output).Some? && 0.0 < threshold && Confidence(output).value < threshold)
    ensures !r.valid ==> r.failure.value.toolName == Some(toolName)
    ensures !r.valid ==> r.failure.value.kind == if fitsOutput(output) then ConfidenceTooLow else OutputSchemaMismatch
  {
    if !fitsOutput(output) then
      ValidationOutcome(false, Some(FailureReason(OutputSchemaMismatch, Some(toolName))))
    else
      var confidence := Confidence(output);
      if threshold > 0.0 && confidence.Some? && confidence.value < threshold then
        ValidationOutcome(false, Some(FailureReason(ConfidenceTooLow, Some(toolName))))
      else
        ValidationOutcome(true, None)
  }

  /** A payload is rejected for its confidence under a positive threshold only, and when its "confidence" is a
      number below it: an integer counts as that number and a Boolean as 1 or 0. */
  predicate LowConfidence(output: Dict, threshold: real) {
    && 0.0 < threshold && "confidence" in output
    && match output["confidence"]
       case Float(x) => x < threshold
       case Int(n) => n as real < threshold
       case Bool(b) => (if b then 1.0 else 0.0) < threshold
       case _ => false
  }

  /** Exactly then; and the failure names the tool. */
  lemma ConfidenceIsRead(toolName: string, output: Dict, fitsOutput: Dict -> bool, threshold: real)
    requires fitsOutput(output)
    ensures Validate(toolName, output, fitsOutput, threshold) ==
      if LowConfidence(output, threshold)
      then ValidationOutcome(false, Some(FailureReason(ConfidenceTooLow, Some(toolName))))
      else ValidationOutcome(true, None)
  {
  }
}
