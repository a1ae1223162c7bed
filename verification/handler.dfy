/**
 The HTTP handler `PostCalculate` after JSON binding: the calculator runs
 only on a request whose validation error map is empty; otherwise the map
 is the (400) answer. JSON binding and status codes are not modelled.
 */
module CalculateHandler {
  import opened Formulas
  import opened Requests
  import opened Selector
  import opened Evaluator
  import opened Validation

  /** The handler's answers. `NoFormula` stands for the nil dereference in
      `Calculate` when no table row matches: Go panics, and the server's
      recovery middleware turns the panic into an internal-error answer. */
  datatype Outcome = BadRequest(errors: map<string, string>) | Ok(response: Response) | NoFormula

  /** A valid request has a height of 4'0" to 6'11", so BMI is defined; it
      finds a row in any table holding all six key tuples. */
  lemma ValidRequestIsCalculable(table: seq<Formula>, req: Request)
    requires ValidRequest(req)
    ensures 48 <= HeightInches(req) <= 83
    ensures CoversAllKeys(table) ==> FindMatchingFormula(table, req).Some?
  {
  }

  /** `PostCalculate` after binding: validate, and calculate only when the
      error map is empty. Any table is accepted; a valid request that no
      row matches ends in the nil dereference. */
  method PostCalculate(table: seq<Formula>, req: Request, pow: (real, real) -> real, exp: real -> real)
    returns (out: Outcome)
    requires PositiveExp(exp)
    ensures out.BadRequest? <==> !ValidRequest(req)
    ensures out.BadRequest? ==> |out.errors| > 0 && out.errors == ByName(ExpectedErrors(req))
    ensures out.NoFormula? <==> ValidRequest(req) && FindMatchingFormula(table, req).None?
    ensures out.Ok? ==>
      && FindMatchingFormula(table, req).Some?
      && HeightInches(req) != 0
      && out.response == Calculate(table, req, pow, exp)
  {
    var errs := ValidateCalculateRequest(req);
    NoErrorsIffValid(req);
    var byName := ByName(errs);
    if |byName| > 0 {
      return BadRequest(byName);
    }
    ValidRequestIsCalculable(table, req);
    if FindMatchingFormula(table, req).None? {
      return NoFormula;
    }
    out := Ok(Calculate(table, req, pow, exp));
  }
}
