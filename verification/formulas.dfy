/**
 One row of the published coefficient table, and the two cell rules the
 table loader applies to the key columns. Coefficients are exact reals: the
 loader's `strconv.ParseFloat` and float64 rounding are not part of this
 model.
 */
module Formulas {
  import opened Wrappers
  import opened Strings

  /** A coefficient pair for one yes/no infertility factor. */
  datatype Pair = Pair(trueValue: real, falseValue: real)

  /** The calculator's `ternary` applied to a factor's pair: the coefficient
      for a present factor, or the one for an absent factor. */
  function Ternary(present: bool, p: Pair): (r: real)
    ensures present ==> r == p.trueValue
    ensures !present ==> r == p.falseValue
  {
    if present then p.trueValue else p.falseValue
  }

  /** Coefficients for a count bucketed as 0, 1 or "2+". */
  datatype Buckets = Buckets(zero: real, one: real, twoPlus: real)

  /** The three count buckets, as the clinical form presents them. */
  datatype Bucket = Zero | One | TwoPlus

  /** Which bucket the calculator files a count under: exactly 0 and
      exactly 1 have their own buckets and every other integer, negative
      ones included, falls through to "2+". */
  function BucketOf(count: int): (b: Bucket)
    ensures b == Zero <==> count == 0
    ensures b == One <==> count == 1
    ensures b == TwoPlus <==> count != 0 && count != 1
  {
    if count == 0 then Zero else if count == 1 then One else TwoPlus
  }

  /** One table row: the three selection keys, the published label and the
      coefficients. A missing `attemptedIvfPreviously` means "N/A", used by
      donor-egg rows. */
  datatype Formula = Formula(
    usingOwnEggs: bool,
    attemptedIvfPreviously: Option<bool>,
    isReasonKnown: bool,
    cdcFormula: string,
    intercept: real,
    ageLinearCoeff: real,
    agePowerCoeff: real,
    agePowerFactor: real,
    bmiLinearCoeff: real,
    bmiPowerCoeff: real,
    bmiPowerFactor: real,
    tubalFactor: Pair,
    maleFactorInfertility: Pair,
    endometriosis: Pair,
    ovulatoryDisorder: Pair,
    diminishedOvarianReserve: Pair,
    uterineFactor: Pair,
    otherReason: Pair,
    unexplainedInfertility: Pair,
    priorPregnancies: Buckets,
    priorLiveBirths: Buckets)

  /** `getPriorPregnanciesValue`: the coefficient of the count's bucket. */
  function PriorPregnanciesValue(f: Formula, count: int): (r: real)
    ensures BucketOf(count) == Zero ==> r == f.priorPregnancies.zero
    ensures BucketOf(count) == One ==> r == f.priorPregnancies.one
    ensures BucketOf(count) == TwoPlus ==> r == f.priorPregnancies.twoPlus
  {
    if count == 0 then f.priorPregnancies.zero
    else if count == 1 then f.priorPregnancies.one
    else f.priorPregnancies.twoPlus
  }

  /** `getPriorLiveBirthsValue`: the coefficient of the count's bucket. */
  function PriorLiveBirthsValue(f: Formula, count: int): (r: real)
    ensures BucketOf(count) == Zero ==> r == f.priorLiveBirths.zero
    ensures BucketOf(count) == One ==> r == f.priorLiveBirths.one
    ensures BucketOf(count) == TwoPlus ==> r == f.priorLiveBirths.twoPlus
  {
    if count == 0 then f.priorLiveBirths.zero
    else if count == 1 then f.priorLiveBirths.one
    else f.priorLiveBirths.twoPlus
  }

  /** The eight yes/no factor tags with their coefficient pairs, in the
      order the calculator adds them to the logit. The last pair belongs to
      "unexplained". No tag occurs twice and none is "unknown", so each
      reason switches at most one pair and "unknown" switches none. */
  function Factors(f: Formula): (fs: seq<(string, Pair)>)
    ensures |fs| == 8
    ensures DistinctTags(fs)
    ensures forall k :: 0 <= k < |fs| ==> fs[k].0 != "unknown"
  {
    [ ("tubal_factor", f.tubalFactor),
      ("male_factor_infertility", f.maleFactorInfertility),
      ("endometriosis", f.endometriosis),
      ("ovulatory_disorder", f.ovulatoryDisorder),
      ("diminished_ovarian_reserve", f.diminishedOvarianReserve),
      ("uterine_factor", f.uterineFactor),
      ("other", f.otherReason),
      ("unexplained", f.unexplainedInfertility) ]
  }

  /** No tag appears twice in a factor list. */
  predicate DistinctTags(fs: seq<(string, Pair)>)
  {
    forall i, j :: 0 <= i < j < |fs| ==> fs[i].0 != fs[j].0
  }

  /** A spelling of "true" in any mix of letter cases. */
  predicate IsTrueWord(w: string)
  {
    && |w| == 4
    && (w[0] == 't' || w[0] == 'T')
    && (w[1] == 'r' || w[1] == 'R')
    && (w[2] == 'u' || w[2] == 'U')
    && (w[3] == 'e' || w[3] == 'E')
  }

  /** The loader's `parseBool`: a cell is true when, trimmed and upper-cased,
      it reads "TRUE"; every other text, "N/A" and "" included, is false. */
  function ParseBool(s: string): (r: bool)
    ensures r <==> IsTrueWord(TrimSpace(s))
  {
    ToUpper(TrimSpace(s)) == "TRUE"
  }

  /** A spelling of "true", padded with white space on either side. */
  predicate PaddedTrueWord(s: string)
  {
    exists i, j :: 0 <= i <= j <= |s| && AllSpace(s[..i]) && IsTrueWord(s[i..j]) && AllSpace(s[j..])
  }

  /** ParseBool accepts exactly the strings made of white space, a spelling
      of "true" in any letter case, and white space. */
  lemma ParseBoolCharacterization(s: string)
    ensures ParseBool(s) <==> PaddedTrueWord(s)
  {
    var t := TrimSpace(s);
    if ParseBool(s) {
      var i, j :| 0 <= i <= j <= |s| && t == s[i..j] && AllSpace(s[..i]) && AllSpace(s[j..]);
      assert IsTrueWord(s[i..j]);
    }
    if PaddedTrueWord(s) {
      var i, j :| 0 <= i <= j <= |s| && AllSpace(s[..i]) && IsTrueWord(s[i..j]) && AllSpace(s[j..]);
      var pre, w, post := s[..i], s[i..j], s[j..];
      SplitThree(s, i, j);
      TrueWordTrimmed(w);
      TrimSpacePadded(pre, w, post);
    }
  }

  /** A spelling of "true" has no white space at either end. */
  lemma TrueWordTrimmed(w: string)
    requires IsTrueWord(w)
    ensures Trimmed(w)
  {
  }

  /** Cutting a sequence at two points and joining the pieces gives it back. */
  lemma SplitThree<T>(s: seq<T>, i: nat, j: nat)
    requires i <= j <= |s|
    ensures s[..i] + s[i..j] + s[j..] == s
  {
  }

  /** The loader's rule for the "attempted IVF previously" column: the
      literal cells "N/A" and "" mean "not applicable"; any other text,
      padded variants of those two included, is parsed as a boolean. */
  function ParseAttemptedCell(cell: string): (r: Option<bool>)
    ensures r == None <==> cell == "N/A" || cell == ""
    ensures r == Some(true) <==> ParseBool(cell)
  {
    if cell == "N/A" || cell == "" then None else Some(ParseBool(cell))
  }

  /** The comparison with "N/A" happens before trimming, so "N/A" with any
      white space around it is not "not applicable" but an explicit false. */
  lemma PaddedNotApplicableIsFalse(pre: string, post: string)
    requires AllSpace(pre) && AllSpace(post) && pre + post != []
    ensures ParseAttemptedCell(pre + "N/A" + post) == Some(false)
  {
    var na := "N/A";
    var cell := pre + na + post;
    assert |cell| > |na|;
    TrimSpacePadded(pre, na, post);
  }

  /** Letter case and surrounding white space do not matter to a boolean
      cell: a padded spelling of "true" in any case is Some(true). */
  lemma PaddedTrueIsTrue(pre: string, w: string, post: string)
    requires AllSpace(pre) && AllSpace(post) && IsTrueWord(w)
    ensures ParseAttemptedCell(pre + w + post) == Some(true)
  {
    var cell := pre + w + post;
    assert |cell| >= 4;
    TrimSpacePadded(pre, w, post);
  }

  /** The canonical cell text for each value of the column. */
  function AttemptedCellText(v: Option<bool>): string
  {
    match v
    case None => "N/A"
    case Some(true) => "TRUE"
    case Some(false) => "FALSE"
  }

  /** Every value of the column is read back from its canonical cell. */
  lemma AttemptedCellRoundTrip(v: Option<bool>)
    ensures ParseAttemptedCell(AttemptedCellText(v)) == v
  {
  }
}
