/**
 `ValidateCalculateRequest`: a request is checked field by field and every
 failed check writes one message under its field's key. An empty map means
 the request is acceptable.
 */
module Validation {
  import opened Wrappers
  import opened Requests

  const AgeMessage: string := "must be between 20 and 50"
  const WeightMessage: string := "must be between 80 and 300"
  const HeightFtMessage: string := "must be between 4 and 7"
  const HeightInMessage: string := "must be between 0 and 12"
  const CountMessage: string := "must be 0, 1, or 2+"
  const BirthsExceedMessage: string := "cannot exceed the number of prior pregnancies (even in the case of twins)"
  const EggSourceMessage: string := "must be 'own' or 'donor'"
  const PriorIvfMessage: string := "must be 'yes' or 'no' when planning to use 'own' eggs"
  const NoReasonMessage: string := "at least one reason must be selected"
  const InvalidReasonPrefix: string := "invalid reason: "

  /** The reason vocabulary (`validReasons`). */
  const ValidReasons: set<string> := {
    "male_factor_infertility", "endometriosis", "tubal_factor", "ovulatory_disorder",
    "diminished_ovarian_reserve", "uterine_factor", "other", "unexplained", "unknown" }

  /** The nine request fields that can carry a message. */
  datatype Field = Age | WeightLbs | HeightFt | HeightIn | PriorPregnancies | PriorBirths
                 | EggSource | PriorIvfCycles | Reasons
  {
    /** The field's JSON name, the key Go's error map uses. */
    function Name(): string
    {
      match this
      case Age => "age"
      case WeightLbs => "weightLbs"
      case HeightFt => "heightFt"
      case HeightIn => "heightIn"
      case PriorPregnancies => "priorPregnancies"
      case PriorBirths => "priorBirths"
      case EggSource => "eggSource"
      case PriorIvfCycles => "priorIvfCycles"
      case Reasons => "reasons"
    }

    /** The position of the field's check in the validator. */
    function Order(): nat
    {
      match this
      case Age => 0
      case WeightLbs => 1
      case HeightFt => 2
      case HeightIn => 3
      case PriorPregnancies => 4
      case PriorBirths => 5
      case EggSource => 6
      case PriorIvfCycles => 7
      case Reasons => 8
    }
  }

  /** The length, first letter and last letter of a field's JSON name;
      these alone tell the nine names apart. */
  function Signature(name: string): (int, char, char)
  {
    if name == [] then (0, ' ', ' ') else (|name|, name[0], name[|name| - 1])
  }

  /** A field is determined by its JSON name. */
  lemma NameDetermines(a: Field, b: Field)
    requires a.Name() == b.Name()
    ensures a == b
  {
    var sa, sb := Signature(a.Name()), Signature(b.Name());
    assert sa == sb;
  }

  /** The error map as Go builds it, keyed by JSON name. */
  function ByName(errs: map<Field, string>): (m: map<string, string>)
    ensures m.Keys == set f | f in errs :: f.Name()
    ensures forall f :: f in errs ==> m[f.Name()] == errs[f]
    ensures m == map[] <==> errs == map[]
  {
    assert forall f, g :: f in errs && g in errs && f.Name() == g.Name() ==> f == g by {
      forall f, g | f in errs && g in errs && f.Name() == g.Name() ensures f == g {
        NameDetermines(f, g);
      }
    }
    map f | f in errs :: f.Name() := errs[f]
  }

  /** Go's read of a map entry: a missing key reads as "". */
  function Lookup(m: map<Field, string>, key: Field): string
  {
    if key in m then m[key] else ""
  }

  /** `i` is the position of the first reason outside the vocabulary. */
  predicate IsFirstInvalid(reasons: seq<string>, i: nat)
  {
    && i < |reasons|
    && reasons[i] !in ValidReasons
    && forall j :: 0 <= j < i ==> reasons[j] in ValidReasons
  }

  /** The position of the first reason outside the vocabulary, or None
      when every reason is in it. */
  function FirstInvalidReason(reasons: seq<string>): (r: Option<nat>)
    ensures r.Some? ==> IsFirstInvalid(reasons, r.value)
    ensures r.None? <==> forall j :: 0 <= j < |reasons| ==> reasons[j] in ValidReasons
  {
    if reasons == [] then None
    else if reasons[0] !in ValidReasons then Some(0)
    else match FirstInvalidReason(reasons[1..])
      case None => None
      case Some(i) => Some(i + 1)
  }

  /** The message stored under "priorBirths" when its range check fails
      (`outOfRange`) and/or it exceeds the pregnancies (`exceeds`). */
  function BirthsMessage(outOfRange: bool, exceeds: bool): string
  {
    if outOfRange && exceeds then CountMessage + "; " + BirthsExceedMessage
    else if outOfRange then CountMessage
    else BirthsExceedMessage
  }

  /** What the validator reports for one field, stated field by field:
      None when the field passes, otherwise its message. */
  function Entry(req: Request, f: Field): Option<string>
  {
    match f
    case Age => if 20 <= req.age <= 50 then None else Some(AgeMessage)
    case WeightLbs => if 80 <= req.weightLbs <= 300 then None else Some(WeightMessage)
    case HeightFt => if 4 <= req.heightFt <= 6 then None else Some(HeightFtMessage)
    case HeightIn => if 0 <= req.heightIn <= 11 then None else Some(HeightInMessage)
    case PriorPregnancies => if 0 <= req.priorPregnancies <= 2 then None else Some(CountMessage)
    case PriorBirths =>
      var outOfRange := !(0 <= req.priorBirths <= 2);
      var exceeds := req.priorBirths > req.priorPregnancies;
      if outOfRange || exceeds then Some(BirthsMessage(outOfRange, exceeds)) else None
    case EggSource => if req.eggSource == "own" || req.eggSource == "donor" then None else Some(EggSourceMessage)
    case PriorIvfCycles => if req.eggSource == "own" && req.priorIvfCycles == "" then Some(PriorIvfMessage) else None
    case Reasons =>
      if |req.reasons| == 0 then Some(NoReasonMessage)
      else match FirstInvalidReason(req.reasons)
        case Some(i) => Some(InvalidReasonPrefix + req.reasons[i])
        case None => None
  }

  const AllFields: set<Field> := {
    Age, WeightLbs, HeightFt, HeightIn, PriorPregnancies, PriorBirths, EggSource, PriorIvfCycles, Reasons }

  /** The error map the field-by-field description calls for. */
  function ExpectedErrors(req: Request): (errs: map<Field, string>)
    ensures forall f :: f in errs <==> Entry(req, f).Some?
    ensures forall f :: f in errs ==> errs[f] == Entry(req, f).value
  {
    map f | f in AllFields && Entry(req, f).Some? :: Entry(req, f).value
  }

  /** `errs` holds exactly the expected entries of the first `done` fields
      in check order. */
  ghost predicate Agrees(errs: map<Field, string>, req: Request, done: nat)
  {
    forall f: Field ::
      && (f in errs <==> f.Order() < done && Entry(req, f).Some?)
      && (f in errs ==> errs[f] == Entry(req, f).value)
  }

  /** Agreement on all nine fields is the expected error map itself. */
  lemma AgreesOnAllIsExpected(errs: map<Field, string>, req: Request)
    requires Agrees(errs, req, 9)
    ensures errs == ExpectedErrors(req)
  {
  }

  /** One check done: the map, updated when the check fails, agrees on one
      more field. */
  lemma PutAgrees(before: map<Field, string>, after: map<Field, string>, req: Request, f: Field)
    requires Agrees(before, req, f.Order())
    requires Entry(req, f).Some? ==> after == before[f := Entry(req, f).value]
    requires Entry(req, f).None? ==> after == before
    ensures Agrees(after, req, f.Order() + 1)
  {
  }

  /** The range checks on age, weight, height and prior pregnancies. */
  method CheckRanges(req: Request) returns (errs: map<Field, string>)
    ensures Agrees(errs, req, PriorPregnancies.Order() + 1)
  {
    errs := map[];
    ghost var prev := errs;
    if req.age < 20 || req.age > 50 {
      errs := errs[Age := AgeMessage];
    }
    PutAgrees(prev, errs, req, Age);
    prev := errs;
    if req.weightLbs < 80 || req.weightLbs > 300 {
      errs := errs[WeightLbs := WeightMessage];
    }
    PutAgrees(prev, errs, req, WeightLbs);
    prev := errs;
    if req.heightFt < 4 || req.heightFt > 6 {
      errs := errs[HeightFt := HeightFtMessage];
    }
    PutAgrees(prev, errs, req, HeightFt);
    prev := errs;
    if req.heightIn < 0 || req.heightIn > 11 {
      errs := errs[HeightIn := HeightInMessage];
    }
    PutAgrees(prev, errs, req, HeightIn);
    prev := errs;
    if req.priorPregnancies < 0 || req.priorPregnancies > 2 {
      errs := errs[PriorPregnancies := CountMessage];
    }
    PutAgrees(prev, errs, req, PriorPregnancies);
  }

  /** The range check on prior births, then the relation check, which
      appends its message to a range message already stored. */
  method CheckBirths(req: Request, errs0: map<Field, string>) returns (errs: map<Field, string>)
    requires Agrees(errs0, req, PriorBirths.Order())
    ensures Agrees(errs, req, PriorBirths.Order() + 1)
  {
    errs := errs0;
    var outOfRange := req.priorBirths < 0 || req.priorBirths > 2;
    if outOfRange {
      errs := errs[PriorBirths := CountMessage];
    }
    if req.priorBirths > req.priorPregnancies {
      if Lookup(errs, PriorBirths) != "" {
        errs := errs[PriorBirths := Lookup(errs, PriorBirths) + "; "];
      } else {
        assert !outOfRange by { assert |CountMessage| > 0; }
      }
      assert Lookup(errs, PriorBirths) + BirthsExceedMessage == BirthsMessage(outOfRange, true);
      errs := errs[PriorBirths := Lookup(errs, PriorBirths) + BirthsExceedMessage];
    }
    PutAgrees(errs0, errs, req, PriorBirths);
  }

  /** The egg-source check and the prior-IVF answer it makes required. */
  method CheckEggSource(req: Request, errs0: map<Field, string>) returns (errs: map<Field, string>)
    requires Agrees(errs0, req, EggSource.Order())
    ensures Agrees(errs, req, PriorIvfCycles.Order() + 1)
  {
    errs := errs0;
    if req.eggSource != "own" && req.eggSource != "donor" {
      errs := errs[EggSource := EggSourceMessage];
    }
    PutAgrees(errs0, errs, req, EggSource);
    ghost var prev := errs;
    if req.eggSource == "own" && req.priorIvfCycles == "" {
      errs := errs[PriorIvfCycles := PriorIvfMessage];
    }
    PutAgrees(prev, errs, req, PriorIvfCycles);
  }

  /** The reason checks: an empty list, then a scan that stops at the first
      reason outside the vocabulary. */
  method CheckReasons(req: Request, errs0: map<Field, string>) returns (errs: map<Field, string>)
    requires Agrees(errs0, req, Reasons.Order())
    ensures Agrees(errs, req, Reasons.Order() + 1)
  {
    errs := errs0;
    if |req.reasons| == 0 {
      errs := errs[Reasons := NoReasonMessage];
    }
    ghost var beforeLoop := errs;
    var i := 0;
    while i < |req.reasons|
      invariant 0 <= i <= |req.reasons|
      invariant forall j :: 0 <= j < i ==> req.reasons[j] in ValidReasons
      invariant errs == beforeLoop
    {
      if req.reasons[i] !in ValidReasons {
        errs := errs[Reasons := InvalidReasonPrefix + req.reasons[i]];
        assert IsFirstInvalid(req.reasons, i);
        assert FirstInvalidReason(req.reasons) == Some(i);
        break;
      }
      i := i + 1;
    }
    PutAgrees(errs0, errs, req, Reasons);
  }

  /** `ValidateCalculateRequest`: the checks in source order. The error map
      holds exactly the entries the field-by-field description calls for. */
  method ValidateCalculateRequest(req: Request) returns (errs: map<Field, string>)
    ensures errs == ExpectedErrors(req)
  {
    errs := CheckRanges(req);
    errs := CheckBirths(req, errs);
    errs := CheckEggSource(req, errs);
    errs := CheckReasons(req, errs);
    AgreesOnAllIsExpected(errs, req);
  }

  /** A request that passes every check, stated without the error map. */
  predicate ValidRequest(req: Request)
  {
    && 20 <= req.age <= 50
    && 80 <= req.weightLbs <= 300
    && 4 <= req.heightFt <= 6
    && 0 <= req.heightIn <= 11
    && 0 <= req.priorPregnancies <= 2
    && 0 <= req.priorBirths <= req.priorPregnancies
    && (req.eggSource == "own" || req.eggSource == "donor")
    && (req.eggSource == "own" ==> req.priorIvfCycles != "")
    && |req.reasons| > 0
    && forall j :: 0 <= j < |req.reasons| ==> req.reasons[j] in ValidReasons
  }

  /** The error map is empty exactly for valid requests. */
  lemma NoErrorsIffValid(req: Request)
    ensures ExpectedErrors(req) == map[] <==> ValidRequest(req)
  {
    var errs := ExpectedErrors(req);
    if ValidRequest(req) {
      forall f: Field ensures f !in errs {
        match f
        case Age =>
        case WeightLbs =>
        case HeightFt =>
        case HeightIn =>
        case PriorPregnancies =>
        case PriorBirths =>
        case EggSource =>
        case PriorIvfCycles =>
        case Reasons =>
      }
      assert errs.Keys == {};
    } else {
      if !(20 <= req.age <= 50) { assert Age in errs; }
      else if !(80 <= req.weightLbs <= 300) { assert WeightLbs in errs; }
      else if !(4 <= req.heightFt <= 6) { assert HeightFt in errs; }
      else if !(0 <= req.heightIn <= 11) { assert HeightIn in errs; }
      else if !(0 <= req.priorPregnancies <= 2) { assert PriorPregnancies in errs; }
      else if !(0 <= req.priorBirths <= req.priorPregnancies) { assert PriorBirths in errs; }
      else if !(req.eggSource == "own" || req.eggSource == "donor") { assert EggSource in errs; }
      else if req.eggSource == "own" && req.priorIvfCycles == "" { assert PriorIvfCycles in errs; }
      else { assert Reasons in errs; }
    }
  }

  /** The "reasons" message names the first reason outside the vocabulary;
      whatever follows it is not inspected. */
  lemma OnlyFirstInvalidReasonReported(req: Request, i: nat, later: seq<string>)
    requires IsFirstInvalid(req.reasons, i)
    ensures Entry(req.(reasons := req.reasons + later), Reasons) == Some(InvalidReasonPrefix + req.reasons[i])
  {
    var extended := req.reasons + later;
    assert IsFirstInvalid(extended, i) by {
      assert extended[..|req.reasons|] == req.reasons;
    }
    assert FirstInvalidReason(extended) == Some(i);
  }

  /** Every reason in the vocabulary passes, whatever combination is given:
      in particular "unexplained" or "unknown" next to another reason is
      accepted. */
  lemma VocabularyReasonsAccepted(req: Request)
    requires |req.reasons| > 0
    requires forall j :: 0 <= j < |req.reasons| ==> req.reasons[j] in ValidReasons
    ensures Reasons !in ExpectedErrors(req)
  {
  }

  /** Each check writes only its own key: the age decides the "age" entry
      and nothing else, and the reasons decide the "reasons" entry and
      nothing else. */
  lemma ChecksAreLocal(req: Request, age: int, reasons: seq<string>, f: Field)
    ensures f != Age ==> Entry(req.(age := age), f) == Entry(req, f)
    ensures f != Reasons ==> Entry(req.(reasons := reasons), f) == Entry(req, f)
  {
  }

  /** The valid request of the validator's test table yields no errors. */
  lemma ValidExampleAccepted(req: Request)
    requires req == Request(30, 150, 5, 6, "no", 1, 1, ["male_factor_infertility"], "own")
    ensures ExpectedErrors(req) == map[]
  {
  }

  /** A request with only out-of-range measurements and everything else
      absent: the measurements, the egg source and the reasons are
      reported; the missing prior-IVF answer is not, because the egg
      source is not "own". */
  lemma MissingFieldsExample(req: Request)
    requires req == Request(19, 301, 3, 12, "", 0, 0, [], "")
    ensures ExpectedErrors(req) == map[
      Age := AgeMessage, WeightLbs := WeightMessage, HeightFt := HeightFtMessage,
      HeightIn := HeightInMessage, EggSource := EggSourceMessage, Reasons := NoReasonMessage]
  {
  }

  /** Own eggs without a prior-IVF answer: only that answer is reported. */
  lemma OwnEggsNeedPriorIvfExample(req: Request)
    requires req == Request(35, 140, 5, 5, "", 0, 0, ["other"], "own")
    ensures ExpectedErrors(req) == map[PriorIvfCycles := PriorIvfMessage]
  {
  }

  /** More births than pregnancies, with both counts in range: only the
      relation message is reported. */
  lemma BirthsExceedExample(req: Request)
    requires req == Request(35, 140, 5, 5, "", 1, 2, ["other"], "donor")
    ensures ExpectedErrors(req) == map[PriorBirths := BirthsExceedMessage]
  {
  }

  /** Three births after one pregnancy: both messages, joined by "; ". */
  lemma BirthsBothMessagesExample(req: Request)
    requires req == Request(35, 140, 5, 5, "", 1, 3, ["other"], "donor")
    ensures ExpectedErrors(req) == map[PriorBirths := CountMessage + "; " + BirthsExceedMessage]
  {
  }

  /** A reason outside the vocabulary is named in the message. */
  lemma InvalidReasonExample(req: Request)
    requires req == Request(35, 140, 5, 5, "", 0, 0, ["invalid_reason"], "donor")
    ensures ExpectedErrors(req) == map[Reasons := InvalidReasonPrefix + "invalid_reason"]
  {
  }

  /** 7 feet is rejected although the message says "between 4 and 7". */
  lemma SevenFeetRejectedExample(req: Request)
    requires req == Request(35, 140, 7, 5, "", 0, 0, ["other"], "donor")
    ensures ExpectedErrors(req) == map[HeightFt := HeightFtMessage]
  {
  }

  /** An otherwise valid request with no reasons: only "reasons" is reported. */
  lemma EmptyReasonsExample(req: Request)
    requires req == Request(35, 140, 5, 5, "", 0, 0, [], "donor")
    ensures ExpectedErrors(req) == map[Reasons := NoReasonMessage]
  {
  }

  /** The code has no rule that "unexplained" or "unknown" must be the only
      reason: such combinations pass validation. */
  lemma CombinedReasonsAccepted(req: Request)
    requires req == Request(35, 140, 5, 5, "", 0, 0, ["unexplained", "male_factor_infertility"], "donor")
          || req == Request(35, 140, 5, 5, "", 0, 0, ["unknown", "endometriosis"], "donor")
    ensures ExpectedErrors(req) == map[]
  {
  }
}
