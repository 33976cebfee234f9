/** The earlier, mock-data dashboard: its entries carry a boolean `isValid`
    instead of a validation status. Only its search and its tallies are logic. */
module Dashboard {
  import opened Common

  /** One week in milliseconds: `7 * 24 * 60 * 60 * 1000`. */
  const WeekMillis: int := 604800000
  const PageSize: nat := 10

  datatype LegacyEntry = LegacyEntry(
    id: string,
    code: string,
    description: string,
    codeSystem: string,
    isValid: bool,
    validationDate: string,
    validatedBy: string)

  datatype LegacyPatient = LegacyPatient(
    id: string,
    name: string,
    age: int,
    gender: string,
    patientId: string,
    lastVisit: int,
    diagnoses: seq<LegacyEntry>,
    treatments: seq<LegacyEntry>)

  /** There is no empty-term shortcut here: the empty term is included in every field. */
  predicate MatchesSearch(p: LegacyPatient, term: string)
  {
    Includes(p.name, term) || Includes(p.patientId, term)
  }

  function SearchKeep(term: string): LegacyPatient -> bool
  {
    (p: LegacyPatient) => MatchesSearch(p, term)
  }

  function SearchPatients(ps: seq<LegacyPatient>, term: string): (r: seq<LegacyPatient>)
    ensures |r| <= |ps|
    ensures forall p :: p in r ==> p in ps && MatchesSearch(p, term)
  {
    Filter(ps, SearchKeep(term))
  }

  /** A patient is listed iff the term occurs in its name or patient id, lists keep their order. */
  lemma SearchSpec(ps: seq<LegacyPatient>, term: string)
    ensures forall p :: p in SearchPatients(ps, term) <==> p in ps && MatchesSearch(p, term)
    ensures IsSubsequence(SearchPatients(ps, term), ps)
  {
    FilterMembers(ps, SearchKeep(term));
    FilterIsSubsequence(ps, SearchKeep(term));
  }

  lemma EmptySearchKeepsAll(ps: seq<LegacyPatient>)
    ensures SearchPatients(ps, "") == ps
  {
    forall p | p in ps ensures SearchKeep("")(p) {
      EmptyTermIncluded(p.name);
    }
    FilterKeepsAll(ps, SearchKeep(""));
  }

  function Validity(valid: bool): LegacyEntry -> bool
  {
    (e: LegacyEntry) => e.isValid == valid
  }

  /** `patients.reduce((acc, p) => acc + p.diagnoses.filter(d => d.isValid == valid).length + ..., 0)`. */
  function ValidityTally(ps: seq<LegacyPatient>, valid: bool): nat
  {
    if ps == [] then 0
    else
      ValidityTally(ps[..|ps| - 1], valid) + PatientValidity(ps[|ps| - 1], valid)
  }

  /** One patient's share of the tally: its diagnoses and treatments with that validity. */
  function PatientValidity(p: LegacyPatient, valid: bool): nat
  {
    |Filter(p.diagnoses, Validity(valid))| + |Filter(p.treatments, Validity(valid))|
  }

  /** The number of diagnoses plus treatments of all patients. */
  function CodeCount(ps: seq<LegacyPatient>): nat
  {
    if ps == [] then 0 else |ps[0].diagnoses| + |ps[0].treatments| + CodeCount(ps[1..])
  }

  function VisitedAfter(cutoff: int): LegacyPatient -> bool
  {
    (p: LegacyPatient) => p.lastVisit > cutoff
  }

  datatype Stats = Stats(totalPatients: nat, validCodes: nat, invalidCodes: nat, recentValidations: nat)

  /** `stats`, with `Date.now()` as the parameter `now`. */
  function StatsOf(ps: seq<LegacyPatient>, now: int): (s: Stats)
    ensures s.totalPatients == |ps|
    ensures s.recentValidations <= s.totalPatients
  {
    Stats(|ps|, ValidityTally(ps, true), ValidityTally(ps, false), |Filter(ps, VisitedAfter(now - WeekMillis))|)
  }

  lemma {:induction false} CodeCountSnoc(ps: seq<LegacyPatient>, p: LegacyPatient)
    ensures CodeCount(ps + [p]) == CodeCount(ps) + |p.diagnoses| + |p.treatments|
  {
    if ps != [] {
      assert (ps + [p])[1..] == ps[1..] + [p];
      CodeCountSnoc(ps[1..], p);
    } else {
      assert ([p])[1..] == [];
    }
  }

  lemma PatientValidityPartition(p: LegacyPatient)
    ensures PatientValidity(p, true) + PatientValidity(p, false) == |p.diagnoses| + |p.treatments|
  {
    FilterPartition(p.diagnoses, Validity(true), Validity(false));
    FilterPartition(p.treatments, Validity(true), Validity(false));
  }

  /** Every code is either valid or invalid, so the two tallies add up to all codes. */
  lemma {:induction false} ValidInvalidPartition(ps: seq<LegacyPatient>)
    ensures ValidityTally(ps, true) + ValidityTally(ps, false) == CodeCount(ps)
  {
    if ps != [] {
      var init, last := ps[..|ps| - 1], ps[|ps| - 1];
      ValidInvalidPartition(init);
      PatientValidityPartition(last);
      CodeCountSnoc(init, last);
      assert init + [last] == ps;
    }
  }

  /** A patient counts as recent iff its last visit is strictly within the last week. */
  lemma RecentMeaning(ps: seq<LegacyPatient>, now: int, p: LegacyPatient)
    ensures p in Filter(ps, VisitedAfter(now - WeekMillis)) <==> p in ps && p.lastVisit > now - WeekMillis
  {
    FilterMembers(ps, VisitedAfter(now - WeekMillis));
  }

  /** The rows the table renders: the first `PageSize` matches, or all of them when there are fewer. */
  function VisibleRows(ps: seq<LegacyPatient>, term: string): (rows: seq<LegacyPatient>)
    ensures |rows| == if |SearchPatients(ps, term)| < PageSize then |SearchPatients(ps, term)| else PageSize
    ensures rows <= SearchPatients(ps, term)
  {
    Take(SearchPatients(ps, term), PageSize)
  }
}
