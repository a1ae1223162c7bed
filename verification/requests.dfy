/** The body of a calculate request and of its response. */
module Requests {

  /** `CalculateRequest`. Go's `int` is 64 bits wide; the model's integers
      are unbounded (see the README on overflow). An absent JSON field is
      the zero value: 0, "" or an empty list. */
  datatype Request = Request(
    age: int,
    weightLbs: int,
    heightFt: int,
    heightIn: int,
    priorIvfCycles: string,
    priorPregnancies: int,
    priorBirths: int,
    reasons: seq<string>,
    eggSource: string)

  /** `CalculateResponse`. */
  datatype Response = Response(cumulativeChancePercent: real)
}
