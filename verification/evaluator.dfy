/**
 Evaluation of the selected formula (`Calculate`): BMI, the logit as a sum
 of terms, the logistic transform and rounding up to hundredths of a
 percent. `math.Pow` and `math.Exp` are not interpreted: they are passed in
 as the functions `pow` and `exp`, and the only thing assumed of `exp` is
 that its values are positive.
 */
module Evaluator {
  import opened Wrappers
  import opened Strings
  import opened Formulas
  import opened Requests
  import opened Selector

  /** `heightFt*12 + heightIn`, the height in inches. */
  function HeightInches(req: Request): int
  {
    req.heightFt * 12 + req.heightIn
  }

  /** `calculateBMI`: weight / height² × 703, with weight in pounds and
      height in inches. Go squares with `math.Pow(h, 2.0)`; for an integral
      `h` that is the exact product `h*h`, which is what is used here. */
  function Bmi(req: Request): (bmi: real)
    requires HeightInches(req) != 0
    ensures bmi * (HeightInches(req) * HeightInches(req)) as real == req.weightLbs as real * 703.0
    ensures req.weightLbs > 0 ==> bmi > 0.0
  {
    var h := HeightInches(req) as real;
    req.weightLbs as real / (h * h) * 703.0
  }

  /** The factor part of the logit: for each (tag, pair) in order, the
      pair's true value when `contains(reasons, tag)`, else its false value. */
  function FactorSum(fs: seq<(string, Pair)>, reasons: seq<string>): real
  {
    if fs == [] then 0.0
    else Ternary(Contains(reasons, fs[0].0), fs[0].1) + FactorSum(fs[1..], reasons)
  }

  /** The sum of the false values: the factor part when no tag is present. */
  function FalseSum(fs: seq<(string, Pair)>): real
  {
    if fs == [] then 0.0 else fs[0].1.falseValue + FalseSum(fs[1..])
  }

  /** The logit accumulated from "logit := formula.Intercept" through the
      two bucket terms. It is the intercept, the two-term age and BMI
      expressions, one coefficient from each of the eight factor pairs
      chosen by whether its tag is among the reasons (the "unexplained"
      pair by "unexplained", never by "unknown"), and one coefficient from
      each bucket triple. */
  function Logit(f: Formula, req: Request, pow: (real, real) -> real): (logit: real)
    requires HeightInches(req) != 0
    ensures
      var age := req.age as real;
      var bmi := Bmi(req);
      var rs := req.reasons;
      logit ==
        f.intercept
        + f.ageLinearCoeff * age + f.agePowerCoeff * pow(age, f.agePowerFactor)
        + f.bmiLinearCoeff * bmi + f.bmiPowerCoeff * pow(bmi, f.bmiPowerFactor)
        + Ternary("tubal_factor" in rs, f.tubalFactor)
        + Ternary("male_factor_infertility" in rs, f.maleFactorInfertility)
        + Ternary("endometriosis" in rs, f.endometriosis)
        + Ternary("ovulatory_disorder" in rs, f.ovulatoryDisorder)
        + Ternary("diminished_ovarian_reserve" in rs, f.diminishedOvarianReserve)
        + Ternary("uterine_factor" in rs, f.uterineFactor)
        + Ternary("other" in rs, f.otherReason)
        + Ternary("unexplained" in rs, f.unexplainedInfertility)
        + BucketValue(f.priorPregnancies, req.priorPregnancies)
        + BucketValue(f.priorLiveBirths, req.priorBirths)
  {
    var age := req.age as real;
    var bmi := Bmi(req);
    FactorSumFront(f, req.reasons);
    FactorSumBack(f, req.reasons);
    f.intercept
    + (f.ageLinearCoeff * age + f.agePowerCoeff * pow(age, f.agePowerFactor))
    + (f.bmiLinearCoeff * bmi + f.bmiPowerCoeff * pow(bmi, f.bmiPowerFactor))
    + FactorSum(Factors(f), req.reasons)
    + PriorPregnanciesValue(f, req.priorPregnancies)
    + PriorLiveBirthsValue(f, req.priorBirths)
  }

  /** A bucket's coefficient, chosen by the count's bucket. */
  function BucketValue(b: Buckets, count: int): real
  {
    match BucketOf(count)
    case Zero => b.zero
    case One => b.one
    case TwoPlus => b.twoPlus
  }

  /** The first four factors of the logit, one pair each. */
  lemma {:induction false} FactorSumFront(f: Formula, rs: seq<string>)
    ensures FactorSum(Factors(f), rs) ==
      Ternary("tubal_factor" in rs, f.tubalFactor)
      + Ternary("male_factor_infertility" in rs, f.maleFactorInfertility)
      + Ternary("endometriosis" in rs, f.endometriosis)
      + Ternary("ovulatory_disorder" in rs, f.ovulatoryDisorder)
      + FactorSum(Factors(f)[4..], rs)
  {
    var fs := Factors(f);
    assert FactorSum(fs[3..], rs) == Ternary("ovulatory_disorder" in rs, f.ovulatoryDisorder) + FactorSum(fs[4..], rs);
    assert FactorSum(fs[2..], rs) == Ternary("endometriosis" in rs, f.endometriosis) + FactorSum(fs[3..], rs);
    assert FactorSum(fs[1..], rs) == Ternary("male_factor_infertility" in rs, f.maleFactorInfertility) + FactorSum(fs[2..], rs);
    assert FactorSum(fs, rs) == Ternary("tubal_factor" in rs, f.tubalFactor) + FactorSum(fs[1..], rs);
  }

  /** The last four factors of the logit, one pair each. */
  lemma {:induction false} FactorSumBack(f: Formula, rs: seq<string>)
    ensures FactorSum(Factors(f)[4..], rs) ==
      Ternary("diminished_ovarian_reserve" in rs, f.diminishedOvarianReserve)
      + Ternary("uterine_factor" in rs, f.uterineFactor)
      + Ternary("other" in rs, f.otherReason)
      + Ternary("unexplained" in rs, f.unexplainedInfertility)
  {
    var fs := Factors(f);
    assert FactorSum(fs[8..], rs) == 0.0;
    assert FactorSum(fs[7..], rs) == Ternary("unexplained" in rs, f.unexplainedInfertility);
    assert FactorSum(fs[6..], rs) == Ternary("other" in rs, f.otherReason) + FactorSum(fs[7..], rs);
    assert FactorSum(fs[5..], rs) == Ternary("uterine_factor" in rs, f.uterineFactor) + FactorSum(fs[6..], rs);
    assert FactorSum(fs[4..], rs) == Ternary("diminished_ovarian_reserve" in rs, f.diminishedOvarianReserve) + FactorSum(fs[5..], rs);
  }

  /** Factor lists whose tags have the same membership in two reason lists
      sum to the same value. */
  lemma {:induction false} FactorSumSameMembership(fs: seq<(string, Pair)>, r1: seq<string>, r2: seq<string>)
    requires forall i :: 0 <= i < |fs| ==> (fs[i].0 in r1 <==> fs[i].0 in r2)
    ensures FactorSum(fs, r1) == FactorSum(fs, r2)
  {
    if fs != [] {
      assert fs[0].0 in r1 <==> fs[0].0 in r2;
      FactorSumSameMembership(fs[1..], r1, r2);
    }
  }

  /** Adding a reason that was absent switches exactly its own pair from the
      false value to the true value. */
  lemma {:induction false} FactorSumAddReason(fs: seq<(string, Pair)>, reasons: seq<string>, k: nat)
    requires DistinctTags(fs) && k < |fs| && fs[k].0 !in reasons
    ensures FactorSum(fs, reasons + [fs[k].0]) == FactorSum(fs, reasons) + fs[k].1.trueValue - fs[k].1.falseValue
  {
    var added := reasons + [fs[k].0];
    if k == 0 {
      assert fs[0].0 in added;
      forall i | 0 <= i < |fs[1..]|
        ensures fs[1..][i].0 in added <==> fs[1..][i].0 in reasons
      {
        assert fs[1..][i] == fs[i + 1];
      }
      FactorSumSameMembership(fs[1..], added, reasons);
    } else {
      assert fs[0].0 != fs[k].0;
      assert fs[0].0 in added <==> fs[0].0 in reasons;
      assert fs[1..][k - 1] == fs[k];
      FactorSumAddReason(fs[1..], reasons, k - 1);
    }
  }

  /** With none of the tags among the reasons, every pair contributes its
      false value. */
  lemma {:induction false} FactorSumNoTags(fs: seq<(string, Pair)>, reasons: seq<string>)
    requires forall i :: 0 <= i < |fs| ==> fs[i].0 !in reasons
    ensures FactorSum(fs, reasons) == FalseSum(fs)
  {
    if fs != [] {
      assert fs[0].0 !in reasons;
      FactorSumNoTags(fs[1..], reasons);
    }
  }

  /** The logit depends on the reasons only through which strings occur:
      reordering or repeating entries changes nothing. */
  lemma LogitSeesOnlyMembership(f: Formula, req: Request, reasons: seq<string>, pow: (real, real) -> real)
    requires HeightInches(req) != 0
    requires forall x :: x in req.reasons <==> x in reasons
    ensures Logit(f, req, pow) == Logit(f, req.(reasons := reasons), pow)
  {
    var req' := req.(reasons := reasons);
    assert Bmi(req') == Bmi(req);
    FactorSumSameMembership(Factors(f), req.reasons, reasons);
  }

  /** Adding the tag of the k-th factor, when it was absent, raises the
      logit by that factor's true value minus its false value. */
  lemma LogitAddReason(f: Formula, req: Request, k: nat, pow: (real, real) -> real)
    requires HeightInches(req) != 0
    requires k < 8 && Factors(f)[k].0 !in req.reasons
    ensures Logit(f, req.(reasons := req.reasons + [Factors(f)[k].0]), pow)
         == Logit(f, req, pow) + Factors(f)[k].1.trueValue - Factors(f)[k].1.falseValue
  {
    var req' := req.(reasons := req.reasons + [Factors(f)[k].0]);
    assert Bmi(req') == Bmi(req);
    FactorSumAddReason(Factors(f), req.reasons, k);
  }

  /** The reason "unknown" has no pair of its own: when it is the only
      reason, every pair, the "unexplained" one included, contributes its
      false value. */
  lemma UnknownAloneTakesFalseValues(f: Formula, req: Request)
    requires req.reasons == ["unknown"]
    ensures FactorSum(Factors(f), req.reasons) == FalseSum(Factors(f))
  {
    FactorSumNoTags(Factors(f), req.reasons);
  }

  /** "unknown" has no pair of its own: adding it to any reason list
      leaves the factor part unchanged. */
  lemma FactorSumIgnoresUnknown(f: Formula, reasons: seq<string>)
    ensures FactorSum(Factors(f), reasons + ["unknown"]) == FactorSum(Factors(f), reasons)
  {
    var fs := Factors(f);
    var added := reasons + ["unknown"];
    forall i | 0 <= i < |fs|
      ensures fs[i].0 in added <==> fs[i].0 in reasons
    {
      assert fs[i].0 != "unknown";
    }
    FactorSumSameMembership(fs, added, reasons);
  }

  /** Adding "unknown" to the reasons changes the selected row (it makes
      the reason unknown) but not the logit of any given row. */
  lemma LogitIgnoresUnknown(f: Formula, req: Request, pow: (real, real) -> real)
    requires HeightInches(req) != 0
    ensures Logit(f, req.(reasons := req.reasons + ["unknown"]), pow) == Logit(f, req, pow)
  {
    var req' := req.(reasons := req.reasons + ["unknown"]);
    assert Bmi(req') == Bmi(req);
    FactorSumIgnoresUnknown(f, req.reasons);
  }

  /** Counts of 2 and beyond share one coefficient, with no upper limit
      and negative counts included: replacing such a count of pregnancies
      or births by 2 leaves the logit unchanged. */
  lemma LogitSameForTwoPlus(f: Formula, req: Request, pow: (real, real) -> real)
    requires HeightInches(req) != 0
    requires req.priorPregnancies != 0 && req.priorPregnancies != 1
    requires req.priorBirths != 0 && req.priorBirths != 1
    ensures Logit(f, req, pow) == Logit(f, req.(priorPregnancies := 2, priorBirths := 2), pow)
  {
    var req' := req.(priorPregnancies := 2, priorBirths := 2);
    assert Bmi(req') == Bmi(req);
  }

  /** Moving the pregnancy count from one bucket to another changes the
      logit by the difference of the two buckets' coefficients. */
  lemma LogitPregnancyBucketShift(f: Formula, req: Request, count: int, pow: (real, real) -> real)
    requires HeightInches(req) != 0
    ensures Logit(f, req.(priorPregnancies := count), pow) - Logit(f, req, pow)
         == BucketValue(f.priorPregnancies, count) - BucketValue(f.priorPregnancies, req.priorPregnancies)
  {
    var req' := req.(priorPregnancies := count);
    assert Bmi(req') == Bmi(req);
  }

  /** The logistic link `exp(logit) / (1 + exp(logit))`, given `e = exp(logit)`.
      The odds of the probability recover `e`. */
  function Logistic(e: real): (p: real)
    requires e > 0.0
    ensures 0.0 < p < 1.0
    ensures e == p / (1.0 - p)
  {
    e / (1.0 + e)
  }

  /** The logistic value is one minus the reciprocal of `1 + e`. */
  lemma LogisticComplement(e: real)
    requires e > 0.0
    ensures Logistic(e) == 1.0 - 1.0 / (1.0 + e)
  {
    var d := 1.0 + e;
    assert e / d == (d - 1.0) / d;
  }

  /** Reciprocals of positive numbers reverse their order. */
  lemma ReciprocalAntitone(d1: real, d2: real)
    requires 0.0 < d1 <= d2
    ensures 1.0 / d2 <= 1.0 / d1
  {
    var q1, q2 := 1.0 / d1, 1.0 / d2;
    assert q1 * d1 == 1.0 && q2 * d2 == 1.0;
    assert q2 * d1 <= q2 * d2;
    assert q2 * d1 <= q1 * d1;
  }

  /** The larger `exp(logit)`, the larger the probability. */
  lemma LogisticMonotone(e1: real, e2: real)
    requires 0.0 < e1 <= e2
    ensures Logistic(e1) <= Logistic(e2)
  {
    LogisticComplement(e1);
    LogisticComplement(e2);
    ReciprocalAntitone(1.0 + e1, 1.0 + e2);
  }

  /** `math.Ceil` on reals. */
  function Ceil(x: real): (n: int)
    ensures n as real - 1.0 < x <= n as real
  {
    -((-x).Floor)
  }

  /** `math.Ceil(p * 10000.0) / 100.0`: the probability as a percentage,
      rounded UP to two decimal places. The result is a whole number of
      hundredths and lies within one hundredth above `p * 100`. */
  function ChancePercent(p: real): (c: real)
    ensures (c * 100.0).Floor as real == c * 100.0
    ensures p * 100.0 <= c < p * 100.0 + 0.01
  {
    Ceil(p * 10000.0) as real / 100.0
  }

  /** Rounding up preserves order. */
  lemma ChancePercentMonotone(p1: real, p2: real)
    requires p1 <= p2
    ensures ChancePercent(p1) <= ChancePercent(p2)
  {
    var n1, n2 := Ceil(p1 * 10000.0), Ceil(p2 * 10000.0);
    assert (n1 - 1) as real < n2 as real;
    assert n1 <= n2;
  }

  /** A percentage that already has two decimals is not moved by rounding. */
  lemma ChancePercentIdempotent(p: real)
    ensures ChancePercent(ChancePercent(p) / 100.0) == ChancePercent(p)
  {
    var n := Ceil(p * 10000.0);
    assert ChancePercent(p) / 100.0 * 10000.0 == n as real;
    assert Ceil(n as real) == n;
  }

  /** A probability strictly between 0 and 1 yields a percentage in
      (0, 100]. The upper end is reached: rounding up maps every
      probability above 0.9999 to exactly 100. */
  lemma ChancePercentRange(p: real)
    requires 0.0 < p < 1.0
    ensures 0.0 < ChancePercent(p) <= 100.0
    ensures p > 0.9999 ==> ChancePercent(p) == 100.0
  {
  }

  /** `exp` is the positive function `math.Exp` stands for. */
  ghost predicate PositiveExp(exp: real -> real)
  {
    forall x :: exp(x) > 0.0
  }

  /** The row `Calculate` evaluates. */
  function SelectedFormula(table: seq<Formula>, req: Request): (f: Formula)
    requires FindMatchingFormula(table, req).Some?
    ensures f in table
    ensures KeyOfRow(f) == WantedKey(DeriveKeys(req))
  {
    table[FindMatchingFormula(table, req).value]
  }

  /** The probability behind the response: the logistic transform of the
      selected formula's logit. */
  function Probability(table: seq<Formula>, req: Request, pow: (real, real) -> real, exp: real -> real): (p: real)
    requires FindMatchingFormula(table, req).Some?
    requires HeightInches(req) != 0
    requires PositiveExp(exp)
    ensures 0.0 < p < 1.0
  {
    Logistic(exp(Logit(SelectedFormula(table, req), req, pow)))
  }

  /** `Calculate`. Go ignores the "no formulas loaded" and "no matching
      formula" errors it creates and then dereferences the nil formula, so
      a match is a precondition here; the handler only calls it on
      requests with an empty validation error map. A zero height would make
      Go's float division produce an infinity, which reals do not have. */
  function Calculate(table: seq<Formula>, req: Request, pow: (real, real) -> real, exp: real -> real): (resp: Response)
    requires FindMatchingFormula(table, req).Some?
    requires HeightInches(req) != 0
    requires PositiveExp(exp)
    ensures var p := Probability(table, req, pow, exp);
      p * 100.0 <= resp.cumulativeChancePercent < p * 100.0 + 0.01
    ensures (resp.cumulativeChancePercent * 100.0).Floor as real == resp.cumulativeChancePercent * 100.0
    ensures 0.0 < resp.cumulativeChancePercent <= 100.0
  {
    var p := Probability(table, req, pow, exp);
    ChancePercentRange(p);
    Response(ChancePercent(p))
  }

  /** The response depends on the reasons only through membership:
      reordering or repeating entries changes neither the selected row nor
      the logit. */
  lemma CalculateSeesOnlyMembership(table: seq<Formula>, req: Request, reasons: seq<string>,
                                    pow: (real, real) -> real, exp: real -> real)
    requires FindMatchingFormula(table, req).Some?
    requires HeightInches(req) != 0
    requires PositiveExp(exp)
    requires forall x :: x in req.reasons <==> x in reasons
    ensures FindMatchingFormula(table, req.(reasons := reasons)).Some?
    ensures Calculate(table, req, pow, exp) == Calculate(table, req.(reasons := reasons), pow, exp)
  {
    var req' := req.(reasons := reasons);
    SelectionSeesOnlyUnknown(table, req, reasons);
    LogitSeesOnlyMembership(SelectedFormula(table, req), req, reasons, pow);
  }
}
