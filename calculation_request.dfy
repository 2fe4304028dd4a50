/**
 * The body of a calculation request and its bean-validation constraints:
 * each number must be present (@NotNull) and at least 0 (@Min(0)). As in bean
 * validation, @Min accepts an absent value, so a missing number violates only
 * its @NotNull constraint.
 */
module CalculationRequest {
  import opened Wrappers

  /** Both numbers are nullable Doubles in the request body. */
  datatype CalculationRequest = CalculationRequest(num1: Option<real>, num2: Option<real>)

  /** One failed constraint. */
  datatype Violation = Num1Null | Num1Negative | Num2Null | Num2Negative

  /** @Min(0) at its declared meaning: satisfied by an absent value and by any value that is at least 0. */
  predicate AtLeastZero(x: Option<real>) {
    x.Some? ==> x.value >= 0.0
  }

  /** Every constraint the request breaks. */
  function Violations(r: CalculationRequest): (vs: set<Violation>)
    ensures Num1Null in vs <==> r.num1.None?
    ensures Num1Negative in vs <==> r.num1.Some? && r.num1.value < 0.0
    ensures Num2Null in vs <==> r.num2.None?
    ensures Num2Negative in vs <==> r.num2.Some? && r.num2.value < 0.0
  {
    (if r.num1.None? then {Num1Null} else {})
    + (if AtLeastZero(r.num1) then {} else {Num1Negative})
    + (if r.num2.None? then {Num2Null} else {})
    + (if AtLeastZero(r.num2) then {} else {Num2Negative})
  }

  /** A request that passes validation. */
  predicate Valid(r: CalculationRequest) {
    Violations(r) == {}
  }

  /** Both numbers are there to be added. */
  predicate Present(r: CalculationRequest) {
    r.num1.Some? && r.num2.Some?
  }

  /** A request is valid exactly when both numbers are present and neither is negative. */
  lemma ValidIff(r: CalculationRequest)
    ensures Valid(r) <==> Present(r) && r.num1.value >= 0.0 && r.num2.value >= 0.0
  {
    if !Valid(r) {
      var v :| v in Violations(r);
    }
  }

  /** A missing number breaks only its @NotNull constraint: @Min does not also fire on it. */
  lemma AbsentNumberViolatesOnce(r: CalculationRequest)
    ensures r.num1.None? ==> Num1Null in Violations(r) && Num1Negative !in Violations(r)
    ensures r.num2.None? ==> Num2Null in Violations(r) && Num2Negative !in Violations(r)
  {
  }

  /** The sum the service forms first; a valid request never yields a negative sum. */
  function Sum(r: CalculationRequest): (s: real)
    requires Present(r)
    ensures Valid(r) ==> s >= 0.0
    ensures s - r.num2.value == r.num1.value
  {
    r.num1.value + r.num2.value
  }
}
