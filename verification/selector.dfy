/**
 Formula selection (`findMatchingFormula`): three keys derived from the
 request pick the first table row that carries them. The table is an
 ordinary input sequence rather than a package-level variable.
 */
module Selector {
  import opened Wrappers
  import opened Strings
  import opened Formulas
  import opened Requests

  /** The three selection keys derived from a request. */
  datatype Keys = Keys(usingOwnEggs: bool, attemptedIvfPreviously: bool, isReasonKnown: bool)

  /** A row's key tuple, exactly as stored in the table. */
  type RowKey = (bool, Option<bool>, bool)

  /** Only the literal "yes" counts as an earlier IVF attempt, and only the
      literal "unknown" makes the reason unknown: "unexplained" is a known
      reason. */
  function DeriveKeys(req: Request): (k: Keys)
    ensures k.usingOwnEggs <==> req.eggSource == "own"
    ensures k.attemptedIvfPreviously <==> req.priorIvfCycles == "yes"
    ensures k.isReasonKnown <==> "unknown" !in req.reasons
  {
    Keys(req.eggSource == "own", req.priorIvfCycles == "yes", !Contains(req.reasons, "unknown"))
  }

  function KeyOfRow(f: Formula): RowKey
  {
    (f.usingOwnEggs, f.attemptedIvfPreviously, f.isReasonKnown)
  }

  /** The row key a request is looking for: the attempted-IVF flag is
      "not applicable" for donor eggs. */
  function WantedKey(k: Keys): RowKey
  {
    (k.usingOwnEggs, if k.usingOwnEggs then Some(k.attemptedIvfPreviously) else None, k.isReasonKnown)
  }

  /** The body of the selection loop: the chain of `continue` tests a row
      must survive. Stated as a lookup, a row is admitted exactly when its
      key tuple is the one the request is looking for. */
  predicate Admits(f: Formula, k: Keys)
    ensures Admits(f, k) <==> KeyOfRow(f) == WantedKey(k)
  {
    if f.usingOwnEggs != k.usingOwnEggs then false
    else if f.usingOwnEggs then
      if f.attemptedIvfPreviously.None? then false
      else if f.attemptedIvfPreviously.value != k.attemptedIvfPreviously then false
      else f.isReasonKnown == k.isReasonKnown
    else
      if f.attemptedIvfPreviously.Some? then false
      else f.isReasonKnown == k.isReasonKnown
  }

  /** `idx` is the first row of `table` admitted under `k`. */
  predicate IsFirstMatch(table: seq<Formula>, k: Keys, idx: nat)
  {
    && idx < |table|
    && Admits(table[idx], k)
    && forall j :: 0 <= j < idx ==> !Admits(table[j], k)
  }

  predicate NoMatch(table: seq<Formula>, k: Keys)
  {
    forall j :: 0 <= j < |table| ==> !Admits(table[j], k)
  }

  /** The scan from row `i` on. */
  function FirstMatchFrom(table: seq<Formula>, k: Keys, i: nat): (r: Option<nat>)
    requires i <= |table|
    requires forall j :: 0 <= j < i ==> !Admits(table[j], k)
    ensures r.Some? ==> IsFirstMatch(table, k, r.value)
    ensures r.None? ==> NoMatch(table, k)
    decreases |table| - i
  {
    if i == |table| then None
    else if Admits(table[i], k) then Some(i)
    else FirstMatchFrom(table, k, i + 1)
  }

  /** `findMatchingFormula`: the index of the first row in table order
      whose keys match the request, or None (Go's nil) when no row does. */
  function FindMatchingFormula(table: seq<Formula>, req: Request): (r: Option<nat>)
    ensures r.Some? ==>
      && r.value < |table|
      && table[r.value].usingOwnEggs == (req.eggSource == "own")
      && table[r.value].isReasonKnown == ("unknown" !in req.reasons)
      && (table[r.value].usingOwnEggs ==> table[r.value].attemptedIvfPreviously == Some(req.priorIvfCycles == "yes"))
      && (!table[r.value].usingOwnEggs ==> table[r.value].attemptedIvfPreviously == None)
      && forall j :: 0 <= j < r.value ==> KeyOfRow(table[j]) != WantedKey(DeriveKeys(req))
    ensures r.None? <==> forall j :: 0 <= j < |table| ==> KeyOfRow(table[j]) != WantedKey(DeriveKeys(req))
  {
    FirstMatchFrom(table, DeriveKeys(req), 0)
  }

  /** Requests that admit the same rows select the same row. */
  lemma SameAdmissionSameChoice(table: seq<Formula>, r1: Request, r2: Request)
    requires forall j :: 0 <= j < |table| ==> (Admits(table[j], DeriveKeys(r1)) <==> Admits(table[j], DeriveKeys(r2)))
    ensures FindMatchingFormula(table, r1) == FindMatchingFormula(table, r2)
  {
  }

  /** An own-egg row with no attempted-IVF flag is skipped by every request. */
  lemma OwnRowWithoutFlagNeverSelected(table: seq<Formula>, req: Request, i: nat)
    requires i < |table| && table[i].usingOwnEggs && table[i].attemptedIvfPreviously == None
    ensures FindMatchingFormula(table, req) != Some(i)
  {
  }

  /** For any request not using own eggs, the prior-IVF answer has no
      influence on the selection. */
  lemma DonorIgnoresPriorIvf(table: seq<Formula>, req: Request, answer: string)
    requires req.eggSource != "own"
    ensures FindMatchingFormula(table, req) == FindMatchingFormula(table, req.(priorIvfCycles := answer))
  {
  }

  /** Every answer other than exactly "yes" ("no", "", "Yes", ...) selects
      as "not attempted". */
  lemma OnlyYesIsAttempted(table: seq<Formula>, req: Request)
    requires req.priorIvfCycles != "yes"
    ensures FindMatchingFormula(table, req) == FindMatchingFormula(table, req.(priorIvfCycles := "no"))
  {
  }

  /** The reasons influence the selection only through whether "unknown"
      is among them: order, duplicates and every other reason, including
      "unexplained", are irrelevant. */
  lemma SelectionSeesOnlyUnknown(table: seq<Formula>, req: Request, reasons: seq<string>)
    requires ("unknown" in req.reasons) <==> ("unknown" in reasons)
    ensures FindMatchingFormula(table, req) == FindMatchingFormula(table, req.(reasons := reasons))
  {
  }

  /** The six key tuples a complete table provides: own eggs with and
      without an earlier IVF attempt, and donor eggs, each for a known and
      an unknown reason. */
  predicate CoversAllKeys(table: seq<Formula>)
  {
    forall own: bool, attempted: bool, known: bool ::
      exists j :: 0 <= j < |table| && KeyOfRow(table[j]) == WantedKey(Keys(own, attempted, known))
  }

  /** With a complete table every request, whatever its egg source, answer
      and reasons, finds a row, and the row's keys are the derived keys. */
  lemma CompleteTableAlwaysSelects(table: seq<Formula>, req: Request)
    requires CoversAllKeys(table)
    ensures FindMatchingFormula(table, req).Some?
    ensures KeyOfRow(table[FindMatchingFormula(table, req).value]) == WantedKey(DeriveKeys(req))
  {
  }

  /** A table holds at most one row per key tuple. */
  predicate UniqueKeys(table: seq<Formula>)
  {
    forall i, j :: 0 <= i < j < |table| ==> KeyOfRow(table[i]) != KeyOfRow(table[j])
  }

  /** With unique keys the selected row is the only row that matches. */
  lemma UniqueKeysSingleMatch(table: seq<Formula>, req: Request, j: nat)
    requires UniqueKeys(table)
    requires FindMatchingFormula(table, req).Some?
    requires j < |table| && KeyOfRow(table[j]) == WantedKey(DeriveKeys(req))
    ensures FindMatchingFormula(table, req).value == j
  {
  }

  /** The three selection scenarios of the calculator's tests, against a
      complete table: own eggs without and with an earlier attempt, with a
      known reason or with "unknown". */
  lemma TestScenariosSelect(table: seq<Formula>, req: Request)
    requires CoversAllKeys(table)
    requires req.eggSource == "own"
    requires || (req.priorIvfCycles == "no" && req.reasons == ["endometriosis", "ovulatory_disorder"])
             || (req.priorIvfCycles == "no" && req.reasons == ["unknown"])
             || (req.priorIvfCycles == "yes" && req.reasons == ["tubal_factor", "diminished_ovarian_reserve"])
    ensures FindMatchingFormula(table, req).Some?
    ensures var f := table[FindMatchingFormula(table, req).value];
      && f.usingOwnEggs
      && f.attemptedIvfPreviously == Some(req.priorIvfCycles == "yes")
      && f.isReasonKnown == (req.reasons != ["unknown"])
  {
  }
}
