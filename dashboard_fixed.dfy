/** The patient dashboard backed by the REST API: loading and mapping the
    patient list, the search / status / code-system filter, the sort by last
    visit, the status tallies and adding a patient. */
module DashboardFixed {
  import opened Common
  import opened Records

  const LoadError: string := "Failed to load patients. Please check your connection and try again."
  const All: string := "all"
  /** Rows the patient table renders. */
  const PageSize: nat := 10

  // ---------------------------------------------------------------------------
  // The filter predicate

  /** `es.some(keep)`. */
  predicate SomeEntry(es: seq<CodeEntry>, keep: CodeEntry -> bool)
  {
    es != [] && (keep(es[0]) || SomeEntry(es[1..], keep))
  }

  lemma {:induction false} SomeEntryExists(es: seq<CodeEntry>, keep: CodeEntry -> bool)
    ensures SomeEntry(es, keep) <==> exists e :: e in es && keep(e)
  {
    if es != [] {
      SomeEntryExists(es[1..], keep);
      assert es == [es[0]] + es[1..];
    }
  }

  /** An empty term, or a case-insensitive match on the name or the patient id. */
  predicate MatchesSearch(p: Patient, term: string)
  {
    term == "" || Includes(p.name, term) || Includes(p.patientId, term)
  }

  predicate MatchesStatus(p: Patient, status: string)
  {
    status == All || SomeEntry(p.diagnoses, HasStatus(status)) || SomeEntry(p.treatments, HasStatus(status))
  }

  predicate MatchesCodeSystem(p: Patient, system: string)
  {
    system == All || SomeEntry(p.diagnoses, InSystem(system)) || SomeEntry(p.treatments, InSystem(system))
  }

  function Keep(term: string, status: string, system: string): Patient -> bool
  {
    (p: Patient) => MatchesSearch(p, term) && MatchesStatus(p, status) && MatchesCodeSystem(p, system)
  }

  /** `patients.filter(...)` before the sort. */
  function FilteredPatients(ps: seq<Patient>, term: string, status: string, system: string): (r: seq<Patient>)
    ensures |r| <= |ps|
    ensures forall p :: p in r ==> p in ps && MatchesSearch(p, term) && MatchesStatus(p, status) && MatchesCodeSystem(p, system)
  {
    Filter(ps, Keep(term, status, system))
  }

  /** The status and code-system predicates hold iff `'all'` was chosen or some
      diagnosis or treatment carries the chosen value. */
  lemma MatchesMeaning(p: Patient, status: string, system: string)
    ensures MatchesStatus(p, status) <==> status == All || exists e :: e in CodesOf(p) && e.status == status
    ensures MatchesCodeSystem(p, system) <==> system == All || exists e :: e in CodesOf(p) && e.codeSystem == system
  {
    SomeEntryExists(p.diagnoses, HasStatus(status));
    SomeEntryExists(p.treatments, HasStatus(status));
    SomeEntryExists(p.diagnoses, InSystem(system));
    SomeEntryExists(p.treatments, InSystem(system));
  }

  /** A patient is shown iff all three predicates hold; the shown list is an
      order-preserving selection of the patients and a sub-multiset of them. */
  lemma FilteredPatientsSpec(ps: seq<Patient>, term: string, status: string, system: string)
    ensures forall p :: p in FilteredPatients(ps, term, status, system) <==>
              p in ps && MatchesSearch(p, term) && MatchesStatus(p, status) && MatchesCodeSystem(p, system)
    ensures IsSubsequence(FilteredPatients(ps, term, status, system), ps)
    ensures multiset(FilteredPatients(ps, term, status, system)) <= multiset(ps)
  {
    FilterMembers(ps, Keep(term, status, system));
    FilterIsSubsequence(ps, Keep(term, status, system));
    FilterMultiset(ps, Keep(term, status, system));
  }

  /** The empty search term and `'all'` for both selectors show every patient. */
  lemma NeutralFilters(ps: seq<Patient>)
    ensures FilteredPatients(ps, "", All, All) == ps
  {
    FilterKeepsAll(ps, Keep("", All, All));
  }

  // ---------------------------------------------------------------------------
  // The sort by last visit (newest first)

  predicate NewestFirst(s: seq<Patient>)
  {
    forall x, y :: 0 <= x < y < |s| ==> s[x].lastVisit >= s[y].lastVisit
  }

  /** `filteredPatients.sort((a, b) => b.lastVisit - a.lastVisit)`, in place (an insertion sort). */
  method SortByLastVisit(a: array<Patient>)
    modifies a
    ensures NewestFirst(a[..])
    ensures multiset(a[..]) == multiset(old(a[..]))
  {
    var i := 0;
    while i < a.Length
      invariant 0 <= i <= a.Length
      invariant NewestFirst(a[..i])
      invariant multiset(a[..]) == multiset(old(a[..]))
    {
      InsertAt(a, i);
      i := i + 1;
    }
    assert a[..a.Length] == a[..];
  }

  /** Moves `a[i]` left past the older visits, so that `a[..i + 1]` is newest first. */
  method InsertAt(a: array<Patient>, i: nat)
    requires i < a.Length && NewestFirst(a[..i])
    modifies a
    ensures NewestFirst(a[..i + 1])
    ensures multiset(a[..]) == multiset(old(a[..]))
  {
    var j := i;
    while j > 0 && a[j - 1].lastVisit < a[j].lastVisit
      invariant 0 <= j <= i
      invariant forall x, y :: 0 <= x < y <= i && x != j && y != j ==> a[x].lastVisit >= a[y].lastVisit
      invariant forall y :: j < y <= i ==> a[j].lastVisit > a[y].lastVisit
      invariant multiset(a[..]) == multiset(old(a[..]))
    {
      Swap(a, j);
      j := j - 1;
    }
    assert forall x, y :: 0 <= x < y <= i ==> a[x].lastVisit >= a[y].lastVisit;
  }

  /** `filteredPatients.sort(...)` on a fresh array holding the filtered list. */
  method SortedCopy(s: seq<Patient>) returns (sorted: seq<Patient>)
    ensures NewestFirst(sorted)
    ensures multiset(sorted) == multiset(s)
  {
    var a := new Patient[|s|](k requires 0 <= k < |s| => s[k]);
    assert a[..] == s;
    SortByLastVisit(a);
    sorted := a[..];
  }

  /** Exchanges `a[j - 1]` and `a[j]`. */
  method Swap(a: array<Patient>, j: nat)
    requires 0 < j < a.Length
    modifies a
    ensures a[..] == old(a[..])[j - 1 := old(a[j])][j := old(a[j - 1])]
    ensures multiset(a[..]) == multiset(old(a[..]))
  {
    a[j - 1], a[j] := a[j], a[j - 1];
  }

  // ---------------------------------------------------------------------------
  // The tallies

  datatype Stats = Stats(totalPatients: nat, approvedCodes: nat, rejectedCodes: nat, pendingCodes: nat)

  /** `patients.reduce((acc, p) => acc + p.diagnoses.filter(...).length + p.treatments.filter(...).length, 0)`. */
  function StatusTally(ps: seq<Patient>, status: string): nat
  {
    if ps == [] then 0
    else
      var last := ps[|ps| - 1];
      StatusTally(ps[..|ps| - 1], status) + CountStatus(last.diagnoses, status) + CountStatus(last.treatments, status)
  }

  /** `stats`, over all patients (not the filtered ones). */
  function StatsOf(ps: seq<Patient>): (s: Stats)
    ensures s.totalPatients == |ps|
    ensures s.approvedCodes == CountStatus(AllCodes(ps), Approved)
    ensures s.rejectedCodes == CountStatus(AllCodes(ps), Rejected)
    ensures s.pendingCodes == CountStatus(AllCodes(ps), Pending)
  {
    StatusTallyCounts(ps, Approved);
    StatusTallyCounts(ps, Rejected);
    StatusTallyCounts(ps, Pending);
    Stats(|ps|, StatusTally(ps, Approved), StatusTally(ps, Rejected), StatusTally(ps, Pending))
  }

  /** The reduce counts the entries with that status across every patient's codes. */
  lemma {:induction false} StatusTallyCounts(ps: seq<Patient>, status: string)
    ensures StatusTally(ps, status) == CountStatus(AllCodes(ps), status)
  {
    if ps != [] {
      var init, last := ps[..|ps| - 1], ps[|ps| - 1];
      StatusTallyCounts(init, status);
      assert ps == init + [last];
      AllCodesAppend(init, [last]);
      assert AllCodes([last]) == CodesOf(last);
      CountStatusAppend(AllCodes(init), CodesOf(last), status);
      CountStatusAppend(last.diagnoses, last.treatments, status);
    }
  }

  /** With well-formed statuses the three tallies add up to the number of codes of all patients. */
  lemma StatsPartition(ps: seq<Patient>)
    requires WellFormedStatuses(AllCodes(ps))
    ensures var s := StatsOf(ps);
            s.totalPatients == |ps| &&
            s.approvedCodes + s.rejectedCodes + s.pendingCodes == |AllCodes(ps)|
  {
    StatusTallyCounts(ps, Approved);
    StatusTallyCounts(ps, Rejected);
    StatusTallyCounts(ps, Pending);
    StatusCountsPartition(AllCodes(ps));
  }

  // ---------------------------------------------------------------------------
  // The API mapping

  function MapFromApi(raws: seq<ApiPatient>): (ps: seq<Patient>)
    ensures |ps| == |raws|
    ensures forall k :: 0 <= k < |raws| ==> ps[k] == FromApi(raws[k])
  {
    seq(|raws|, k requires 0 <= k < |raws| => FromApi(raws[k]))
  }

  // ---------------------------------------------------------------------------
  // The page state

  class DashboardPage {
    var patients: seq<Patient>
    var searchTerm: string
    var statusFilter: string
    var codeSystemFilter: string
    var isLoading: bool
    var error: Option<string>

    constructor ()
      ensures patients == [] && searchTerm == "" && statusFilter == All && codeSystemFilter == All
      ensures isLoading && error == None
    {
      patients := [];
      searchTerm := "";
      statusFilter := All;
      codeSystemFilter := All;
      isLoading := true;
      error := None;
    }

    /** The mount effect: on success the mapped list replaces the patients and
        the error is cleared; on failure the patients stay and the error is set;
        loading ends either way. */
    method FetchPatients(outcome: ApiResult<seq<ApiPatient>>)
      modifies this
      ensures outcome.Resolved? ==> patients == MapFromApi(outcome.value) && error == None
      ensures outcome.Threw? ==> patients == old(patients) && error == Some(LoadError)
      ensures !isLoading
      ensures searchTerm == old(searchTerm) && statusFilter == old(statusFilter) && codeSystemFilter == old(codeSystemFilter)
    {
      isLoading := true;
      error := None;
      if outcome.Resolved? {
        patients := MapFromApi(outcome.value);
      } else {
        error := Some(LoadError);
      }
      isLoading := false;
    }

    /** `handleAddPatient`: the new patient goes first, the others follow in order. */
    method AddPatient(p: Patient)
      modifies this
      ensures patients == [p] + old(patients)
      ensures searchTerm == old(searchTerm) && statusFilter == old(statusFilter) && codeSystemFilter == old(codeSystemFilter)
      ensures isLoading == old(isLoading) && error == old(error)
    {
      patients := [p] + patients;
    }

    method SetFilters(term: string, status: string, system: string)
      modifies this
      ensures searchTerm == term && statusFilter == status && codeSystemFilter == system
      ensures patients == old(patients) && isLoading == old(isLoading) && error == old(error)
    {
      searchTerm := term;
      statusFilter := status;
      codeSystemFilter := system;
    }

    /** The rows the table renders: the filtered patients sorted newest first, the
        first `PageSize` of them. */
    method VisibleRows() returns (rows: seq<Patient>)
      ensures FirstPage(rows, FilteredPatients(patients, searchTerm, statusFilter, codeSystemFilter))
      ensures forall p :: p in rows ==>
                p in patients && MatchesSearch(p, searchTerm) && MatchesStatus(p, statusFilter) && MatchesCodeSystem(p, codeSystemFilter)
    {
      var filtered := FilteredPatients(patients, searchTerm, statusFilter, codeSystemFilter);
      FilteredPatientsSpec(patients, searchTerm, statusFilter, codeSystemFilter);
      var sorted := SortedCopy(filtered);
      rows := Take(sorted, PageSize);
      TakeNewest(filtered, sorted);
      forall p | p in rows ensures p in filtered {
        assert p in multiset(rows);
      }
    }
  }

  /** `rows` is the page of `filtered` the table shows: `min(PageSize, |filtered|)`
      of its patients, newest first, and every matching patient left out is no
      newer than the last row shown. */
  predicate FirstPage(rows: seq<Patient>, filtered: seq<Patient>)
  {
    |rows| == (if |filtered| < PageSize then |filtered| else PageSize) &&
    NewestFirst(rows) &&
    multiset(rows) <= multiset(filtered) &&
    (forall p: Patient :: p in multiset(filtered) - multiset(rows) ==>
       |rows| > 0 && p.lastVisit <= rows[|rows| - 1].lastVisit)
  }

  /** The first `PageSize` of a newest-first ordering of `filtered` are its first page. */
  lemma TakeNewest(filtered: seq<Patient>, sorted: seq<Patient>)
    requires NewestFirst(sorted) && multiset(sorted) == multiset(filtered)
    ensures FirstPage(Take(sorted, PageSize), filtered)
  {
    var n := if |sorted| < PageSize then |sorted| else PageSize;
    assert Take(sorted, PageSize) == sorted[..n];
    SameLength(filtered, sorted);
    PrefixNewestFirst(sorted, n);
    MultisetSplit(sorted, n);
    LeftOutNoNewer(filtered, sorted, n);
  }

  lemma SameLength(filtered: seq<Patient>, sorted: seq<Patient>)
    requires multiset(sorted) == multiset(filtered)
    ensures |sorted| == |filtered|
  {
    assert |multiset(sorted)| == |multiset(filtered)|;
  }

  /** No patient outside the first `n` of a newest-first ordering is newer than the `n`-th. */
  lemma LeftOutNoNewer(filtered: seq<Patient>, sorted: seq<Patient>, n: nat)
    requires NewestFirst(sorted) && multiset(sorted) == multiset(filtered)
    requires 0 < n <= |sorted| || n == |sorted| == 0
    ensures forall p: Patient :: p in multiset(filtered) - multiset(sorted[..n]) ==>
              n > 0 && p.lastVisit <= sorted[..n][n - 1].lastVisit
  {
    MultisetSplit(sorted, n);
    if n < |sorted| {
      TailNoNewer(sorted, n);
    }
  }

  /** Removing a prefix's elements from a sequence's multiset leaves those of the rest. */
  lemma MultisetSplit<T>(s: seq<T>, n: nat)
    requires n <= |s|
    ensures multiset(s[..n]) <= multiset(s)
    ensures multiset(s) - multiset(s[..n]) == multiset(s[n..])
  {
    assert s == s[..n] + s[n..];
  }

  lemma PrefixNewestFirst(sorted: seq<Patient>, n: nat)
    requires NewestFirst(sorted) && n <= |sorted|
    ensures NewestFirst(sorted[..n])
  {
    forall x, y | 0 <= x < y < n ensures sorted[..n][x].lastVisit >= sorted[..n][y].lastVisit {
      assert sorted[..n][x] == sorted[x] && sorted[..n][y] == sorted[y];
    }
  }

  /** In a newest-first list nothing after position `n - 1` is newer than the element there. */
  lemma TailNoNewer(sorted: seq<Patient>, n: nat)
    requires NewestFirst(sorted) && 0 < n <= |sorted|
    ensures forall p: Patient :: p in multiset(sorted[n..]) ==> p.lastVisit <= sorted[n - 1].lastVisit
  {
    forall p: Patient | p in multiset(sorted[n..]) ensures p.lastVisit <= sorted[n - 1].lastVisit {
      var i :| 0 <= i < |sorted[n..]| && sorted[n..][i] == p;
      assert sorted[n + i] == p;
    }
  }

  /** A new patient is stored first and, when it passes the filter, shown first among the filtered patients. */
  lemma AddedPatientFilteredFirst(p: Patient, ps: seq<Patient>, term: string, status: string, system: string)
    ensures FilteredPatients([p] + ps, term, status, system) ==
              (if MatchesSearch(p, term) && MatchesStatus(p, status) && MatchesCodeSystem(p, system) then [p] else [])
              + FilteredPatients(ps, term, status, system)
    ensures StatsOf([p] + ps).totalPatients == StatsOf(ps).totalPatients + 1
  {
    assert ([p] + ps)[1..] == ps;
  }

  // ---------------------------------------------------------------------------
  // The code-system filter over the mapping as written

  /** `patient.diagnoses.some(d => d.codeSystem === system)` over the payload entries the page keeps. */
  predicate SomeWire(ws: seq<ApiCode>, key: string, value: string)
  {
    exists w :: w in ws && WireField(w, key) == Some(WireText(value))
  }

  predicate MatchesCodeSystemAsWritten(p: SeenPatient, system: string)
  {
    system == All || SomeWire(p.diagnoses, "codeSystem", system) || SomeWire(p.treatments, "codeSystem", system)
  }

  /** As written, the nested entries lack `codeSystem`, so every selector other than `'all'` hides every patient. */
  lemma CodeSystemFilterAsWrittenHidesAll(raw: ApiPatient, system: string)
    requires system != All
    ensures !MatchesCodeSystemAsWritten(FromApiAsWritten(raw), system)
  {
  }

  /** A concrete witness: a patient with one ICD-11 diagnosis is hidden by the
      `ICD-11` selector as written and kept once the entries are renamed. */
  lemma CodeSystemFilterCounterexample()
    ensures var d := ApiCode("d1", "p1", "1A00", "Cholera", ICD11, Pending, "", "N/A", None);
            var raw := ApiPatient("p1", "Asha", 40, "female", "PT-1", 0, Some([d]), None);
            !MatchesCodeSystemAsWritten(FromApiAsWritten(raw), ICD11) &&
            MatchesCodeSystem(FromApi(raw), ICD11)
  {
    var d := ApiCode("d1", "p1", "1A00", "Cholera", ICD11, Pending, "", "N/A", None);
    var raw := ApiPatient("p1", "Asha", 40, "female", "PT-1", 0, Some([d]), None);
    assert FromApi(raw).diagnoses[0] == EntryFromApi(d);
  }

  /** Renaming keeps each entry's code system. */
  lemma EntriesKeepSystem(ws: seq<ApiCode>, system: string)
    ensures (exists e :: e in EntriesFromApi(ws) && e.codeSystem == system) <==>
            (exists w :: w in ws && w.code_system == system)
  {
    var es := EntriesFromApi(ws);
    if e :| e in es && e.codeSystem == system {
      var k :| 0 <= k < |es| && es[k] == e;
      assert ws[k] in ws && ws[k].code_system == system;
    }
    if w :| w in ws && w.code_system == system {
      var k :| 0 <= k < |ws| && ws[k] == w;
      assert es[k] in es && es[k].codeSystem == system;
    }
  }

  /** With the entries renamed, the code-system selector keeps a patient iff some
      payload diagnosis or treatment has that `code_system`. */
  lemma CodeSystemFilterMapped(raw: ApiPatient, system: string)
    requires system != All
    ensures MatchesCodeSystem(FromApi(raw), system) <==>
              exists w :: (w in OrEmpty(raw.diagnoses) || w in OrEmpty(raw.treatments)) && w.code_system == system
  {
    var p := FromApi(raw);
    MatchesMeaning(p, All, system);
    var ws := OrEmpty(raw.diagnoses) + OrEmpty(raw.treatments);
    assert CodesOf(p) == EntriesFromApi(ws);
    EntriesKeepSystem(ws, system);
  }
}
