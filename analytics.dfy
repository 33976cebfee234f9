/** The analytics page's aggregation: window selection, the codes of the
    patients inside the window, per-system and per-status counts, and the
    label-keyed trend series. */
module Analytics {
  import opened Common
  import opened Records

  /** The date-fns functions the page calls, left uninterpreted: timestamps
      are integers and every calendar operation is a parameter. */
  datatype Calendar = Calendar(
    subDays: (int, int) -> int,
    subMonths: (int, int) -> int,
    startOfDay: int -> int,
    /** `startOfWeek(d)` with the default week start */
    startOfWeek: int -> int,
    /** `startOfWeek(d, { weekStartsOn: 1 })` */
    startOfWeekMonday: int -> int,
    eachDayOfInterval: (int, int) -> seq<int>,
    /** `eachWeekOfInterval(i, { weekStartsOn: 1 })` */
    eachWeekOfIntervalMonday: (int, int) -> seq<int>,
    eachMonthOfInterval: (int, int) -> seq<int>,
    format: (int, string) -> string)

  const DayLabel: string := "MMM dd"
  const MonthLabel: string := "MMM"

  predicate IsNamedShortRange(range: string)
  {
    range == "last7days" || range == "last30days" || range == "last3months"
  }

  /** `startDate` filters the patients; the interval `[intervalStart, intervalEnd]` yields the buckets. */
  datatype Window = Window(startDate: int, intervalStart: int, intervalEnd: int, labelFormat: string)

  /** The `switch (dateRange)`; every selector it does not name takes the `last6months` branch. */
  function SelectWindow(range: string, now: int, cal: Calendar): (w: Window)
    ensures w.intervalEnd == now
    ensures w.labelFormat == if IsNamedShortRange(range) then DayLabel else MonthLabel
    ensures range == "last7days" ==> w.startDate == cal.subDays(now, 6) && w.intervalStart == cal.startOfDay(w.startDate)
    ensures range == "last30days" ==> w.startDate == cal.subDays(now, 29) && w.intervalStart == cal.startOfDay(w.startDate)
    ensures range == "last3months" ==> w.startDate == cal.subMonths(now, 2) && w.intervalStart == cal.startOfWeek(w.startDate)
    ensures !IsNamedShortRange(range) ==> w.startDate == cal.subMonths(now, 5) && w.intervalStart == cal.startOfDay(w.startDate)
  {
    if range == "last7days" then
      var s := cal.subDays(now, 6); Window(s, cal.startOfDay(s), now, DayLabel)
    else if range == "last30days" then
      var s := cal.subDays(now, 29); Window(s, cal.startOfDay(s), now, DayLabel)
    else if range == "last3months" then
      var s := cal.subMonths(now, 2); Window(s, cal.startOfWeek(s), now, DayLabel)
    else
      var s := cal.subMonths(now, 5); Window(s, cal.startOfDay(s), now, MonthLabel)
  }

  /** Any unrecognised selector behaves exactly like `last6months`. */
  lemma UnknownRangeIsSixMonths(range: string, now: int, cal: Calendar)
    requires !IsNamedShortRange(range)
    ensures SelectWindow(range, now, cal) == SelectWindow("last6months", now, cal)
    ensures SelectWindow(range, now, cal).labelFormat == MonthLabel
    ensures TrendDates(range, SelectWindow(range, now, cal), cal) == TrendDates("last6months", SelectWindow(range, now, cal), cal)
  {
  }

  /** The bucket dates: days, Monday weeks or months of the interval. */
  function TrendDates(range: string, w: Window, cal: Calendar): (dates: seq<int>)
    ensures range == "last7days" || range == "last30days" ==> dates == cal.eachDayOfInterval(w.intervalStart, w.intervalEnd)
    ensures range == "last3months" ==> dates == cal.eachWeekOfIntervalMonday(w.intervalStart, w.intervalEnd)
    ensures !IsNamedShortRange(range) ==> dates == cal.eachMonthOfInterval(w.intervalStart, w.intervalEnd)
  {
    if range == "last7days" || range == "last30days" then cal.eachDayOfInterval(w.intervalStart, w.intervalEnd)
    else if range == "last3months" then cal.eachWeekOfIntervalMonday(w.intervalStart, w.intervalEnd)
    else cal.eachMonthOfInterval(w.intervalStart, w.intervalEnd)
  }

  function VisitedSince(startDate: int): Patient -> bool
  {
    (p: Patient) => p.lastVisit >= startDate
  }

  // ---------------------------------------------------------------------------
  // Trend series: a JavaScript Map from label to row, kept in insertion order

  /** A row of the series. `name` is the row object's `label` field, which cannot keep
      its name here because `label` is a reserved word in Dafny. */
  datatype TrendRow = TrendRow(name: string, icd11: nat, namaste: nat, total: nat)

  function ZeroRow(name: string): TrendRow
  {
    TrendRow(name, 0, 0, 0)
  }

  function Labels(rows: seq<TrendRow>): (ls: seq<string>)
    ensures |ls| == |rows|
    ensures forall k :: 0 <= k < |rows| ==> ls[k] == rows[k].name
  {
    seq(|rows|, k requires 0 <= k < |rows| => rows[k].name)
  }

  /** The position of the row labelled `key`, if there is one (the first, should labels repeat). */
  function FindLabel(rows: seq<TrendRow>, key: string): (r: Option<nat>)
    ensures r.Some? ==> r.value < |rows| && rows[r.value].name == key
    ensures r.Some? ==> forall k :: 0 <= k < r.value ==> rows[k].name != key
    ensures r.None? <==> key !in Labels(rows)
  {
    if rows == [] then None
    else if rows[0].name == key then Some(0)
    else
      var rest := FindLabel(rows[1..], key);
      assert Labels(rows) == [rows[0].name] + Labels(rows[1..]);
      if rest.Some? then Some(rest.value + 1) else None
  }

  /** `dataMap.set(row.name, row)`: overwrite in place, or append a new key. */
  function SetRow(rows: seq<TrendRow>, row: TrendRow): seq<TrendRow>
  {
    match FindLabel(rows, row.name)
    case Some(k) => rows[k := row]
    case None => rows + [row]
  }

  /** The labels of the bucket dates. */
  function FormatAll(dates: seq<int>, fmt: string, cal: Calendar): (ls: seq<string>)
    ensures |ls| == |dates|
    ensures forall k :: 0 <= k < |dates| ==> ls[k] == cal.format(dates[k], fmt)
  {
    seq(|dates|, k requires 0 <= k < |dates| => cal.format(dates[k], fmt))
  }

  /** The first `forEach`: one zero row per label, in the order the labels appear. */
  function SeedRows(labels: seq<string>): seq<TrendRow>
  {
    if labels == [] then []
    else SetRow(SeedRows(labels[..|labels| - 1]), ZeroRow(labels[|labels| - 1]))
  }

  /** The distinct elements of `ls`, in first-occurrence order (the reference for `SeedRows`). */
  function Dedup(ls: seq<string>): seq<string>
  {
    if ls == [] then []
    else
      var d := Dedup(ls[..|ls| - 1]);
      if ls[|ls| - 1] in d then d else d + [ls[|ls| - 1]]
  }

  predicate Distinct(ls: seq<string>)
  {
    forall i, j :: 0 <= i < j < |ls| ==> ls[i] != ls[j]
  }

  /** The key of a visit: its Monday week start for `last3months`, otherwise the visit itself, formatted. */
  function VisitKey(range: string, visit: int, fmt: string, cal: Calendar): string
  {
    if range == "last3months" then cal.format(cal.startOfWeekMonday(visit), fmt)
    else cal.format(visit, fmt)
  }

  function PatientIcd11(p: Patient): nat
  {
    CountSystem(p.diagnoses, ICD11) + CountSystem(p.treatments, ICD11)
  }

  function PatientNamaste(p: Patient): nat
  {
    CountSystem(p.diagnoses, NAMASTE) + CountSystem(p.treatments, NAMASTE)
  }

  /** One step of the second `forEach`: add a patient's counts to the row with its key, if any. */
  function AddPatient(rows: seq<TrendRow>, p: Patient, range: string, fmt: string, cal: Calendar): seq<TrendRow>
  {
    match FindLabel(rows, VisitKey(range, p.lastVisit, fmt, cal))
    case Some(k) => rows[k := Bumped(rows[k], PatientIcd11(p), PatientNamaste(p))]
    case None => rows
  }

  /** `entry.icd11 += icd; entry.namaste += nam; entry.total += icd + nam`. */
  function Bumped(row: TrendRow, icd: nat, nam: nat): TrendRow
  {
    row.(icd11 := row.icd11 + icd, namaste := row.namaste + nam, total := row.total + icd + nam)
  }

  function FoldPatients(rows: seq<TrendRow>, ps: seq<Patient>, range: string, fmt: string, cal: Calendar): seq<TrendRow>
  {
    if ps == [] then rows
    else AddPatient(FoldPatients(rows, ps[..|ps| - 1], range, fmt, cal), ps[|ps| - 1], range, fmt, cal)
  }

  /** The trend series the page computes for the given bucket dates and patients. */
  function Trends(dates: seq<int>, ps: seq<Patient>, range: string, fmt: string, cal: Calendar): seq<TrendRow>
  {
    FoldPatients(SeedRows(FormatAll(dates, fmt, cal)), ps, range, fmt, cal)
  }

  predicate Consistent(rows: seq<TrendRow>)
  {
    forall k :: 0 <= k < |rows| ==> rows[k].total == rows[k].icd11 + rows[k].namaste
  }

  function SumTotals(rows: seq<TrendRow>): nat
  {
    if rows == [] then 0 else rows[0].total + SumTotals(rows[1..])
  }

  // ---------------------------------------------------------------------------
  // The two loops that build `dataMap`

  /** Seeds the rows and folds the patients into them, as the page's two `forEach` loops do. */
  method BuildTrends(dates: seq<int>, patients: seq<Patient>, range: string, fmt: string, cal: Calendar)
    returns (rows: seq<TrendRow>)
    ensures rows == Trends(dates, patients, range, fmt, cal)
  {
    var seeded := SeedLoop(dates, fmt, cal);
    rows := FoldLoop(seeded, patients, range, fmt, cal);
  }

  /** `trendLabels.forEach(date => dataMap.set(label, zero row))`. */
  method SeedLoop(dates: seq<int>, fmt: string, cal: Calendar) returns (rows: seq<TrendRow>)
    ensures rows == SeedRows(FormatAll(dates, fmt, cal))
  {
    ghost var labels := FormatAll(dates, fmt, cal);
    rows := [];
    var i := 0;
    while i < |dates|
      invariant 0 <= i <= |dates|
      invariant rows == SeedRows(labels[..i])
    {
      var lbl := cal.format(dates[i], fmt);
      assert labels[..i + 1][..i] == labels[..i];
      assert SeedRows(labels[..i + 1]) == SetRow(SeedRows(labels[..i]), ZeroRow(lbl));
      rows := SetRowStep(rows, ZeroRow(lbl));
      i := i + 1;
    }
    assert labels[..|dates|] == labels;
  }

  /** `dataMap.set(row.name, row)` on the rows built so far. */
  method SetRowStep(rows: seq<TrendRow>, row: TrendRow) returns (r: seq<TrendRow>)
    ensures r == SetRow(rows, row)
  {
    var found := FindLabel(rows, row.name);
    if found.Some? {
      r := rows[found.value := row];
    } else {
      r := rows + [row];
    }
  }

  /** `filteredPatients.forEach(...)`: add each patient's counts to the row its key selects. */
  method FoldLoop(seeded: seq<TrendRow>, patients: seq<Patient>, range: string, fmt: string, cal: Calendar)
    returns (rows: seq<TrendRow>)
    ensures rows == FoldPatients(seeded, patients, range, fmt, cal)
  {
    rows := seeded;
    var j := 0;
    while j < |patients|
      invariant 0 <= j <= |patients|
      invariant rows == FoldPatients(seeded, patients[..j], range, fmt, cal)
    {
      FoldStep(seeded, patients, j, range, fmt, cal);
      rows := AddPatientStep(rows, patients[j], range, fmt, cal);
      j := j + 1;
    }
    assert patients[..|patients|] == patients;
  }

  /** The body of the second `forEach` for one patient. */
  method AddPatientStep(rows: seq<TrendRow>, p: Patient, range: string, fmt: string, cal: Calendar)
    returns (r: seq<TrendRow>)
    ensures r == AddPatient(rows, p, range, fmt, cal)
  {
    var key := if range == "last3months" then cal.format(cal.startOfWeekMonday(p.lastVisit), fmt)
               else cal.format(p.lastVisit, fmt);
    var found := FindLabel(rows, key);
    AddPatientCases(rows, p, range, fmt, cal);
    r := rows;
    if found.Some? {
      var icd := PatientIcd11(p);
      var nam := PatientNamaste(p);
      r := rows[found.value := Bumped(rows[found.value], icd, nam)];
    }
  }

  lemma AddPatientCases(rows: seq<TrendRow>, p: Patient, range: string, fmt: string, cal: Calendar)
    ensures var found := FindLabel(rows, VisitKey(range, p.lastVisit, fmt, cal));
            AddPatient(rows, p, range, fmt, cal) ==
              if found.Some? then rows[found.value := Bumped(rows[found.value], PatientIcd11(p), PatientNamaste(p))] else rows
  {
  }

  lemma FoldStep(rows: seq<TrendRow>, ps: seq<Patient>, j: nat, range: string, fmt: string, cal: Calendar)
    requires j < |ps|
    ensures FoldPatients(rows, ps[..j + 1], range, fmt, cal) == AddPatient(FoldPatients(rows, ps[..j], range, fmt, cal), ps[j], range, fmt, cal)
  {
    assert ps[..j + 1][..j] == ps[..j];
  }

  // ---------------------------------------------------------------------------
  // The whole computation

  datatype UsageRow = UsageRow(name: string, value: nat)
  datatype AccuracyRow = AccuracyRow(category: string, count: nat)
  datatype AnalyticsData = AnalyticsData(
    codeUsage: seq<UsageRow>,
    validationAccuracy: seq<AccuracyRow>,
    validationTrends: seq<TrendRow>,
    allCodes: seq<CodeEntry>)

  /** The patients the page counts for a selector. */
  function WindowPatients(range: string, now: int, patients: seq<Patient>, cal: Calendar): seq<Patient>
  {
    Filter(patients, VisitedSince(SelectWindow(range, now, cal).startDate))
  }

  method ComputeAnalytics(range: string, now: int, patients: seq<Patient>, cal: Calendar) returns (d: AnalyticsData)
    ensures d.allCodes == AllCodes(WindowPatients(range, now, patients, cal))
    ensures d.codeUsage == [UsageRow(ICD11, CountSystem(d.allCodes, ICD11)), UsageRow(NAMASTE, CountSystem(d.allCodes, NAMASTE))]
    ensures d.validationAccuracy == [AccuracyRow("Approved", CountStatus(d.allCodes, Approved)),
                                     AccuracyRow("Rejected", CountStatus(d.allCodes, Rejected)),
                                     AccuracyRow("Pending", CountStatus(d.allCodes, Pending))]
    ensures var w := SelectWindow(range, now, cal);
            d.validationTrends == Trends(TrendDates(range, w, cal), WindowPatients(range, now, patients, cal), range, w.labelFormat, cal)
  {
    var w := SelectWindow(range, now, cal);
    var filteredPatients := Filter(patients, VisitedSince(w.startDate));
    var allCodes := AllCodes(filteredPatients);
    var codeUsage := [UsageRow(ICD11, CountSystem(allCodes, ICD11)), UsageRow(NAMASTE, CountSystem(allCodes, NAMASTE))];
    var validationAccuracy := [AccuracyRow("Approved", CountStatus(allCodes, Approved)),
                               AccuracyRow("Rejected", CountStatus(allCodes, Rejected)),
                               AccuracyRow("Pending", CountStatus(allCodes, Pending))];
    var trendDates := TrendDates(range, w, cal);
    var trends := BuildTrends(trendDates, filteredPatients, range, w.labelFormat, cal);
    d := AnalyticsData(codeUsage, validationAccuracy, trends, allCodes);
  }

  // ---------------------------------------------------------------------------
  // Properties

  /** A patient is counted iff it visited on or after the window start, and the
      counted codes are its diagnoses followed by its treatments. */
  lemma {:induction false} WindowPatientsSpec(range: string, now: int, patients: seq<Patient>, cal: Calendar)
    ensures var start := SelectWindow(range, now, cal).startDate;
            forall p :: p in WindowPatients(range, now, patients, cal) <==> p in patients && p.lastVisit >= start
    ensures IsSubsequence(WindowPatients(range, now, patients, cal), patients)
  {
    var keep := VisitedSince(SelectWindow(range, now, cal).startDate);
    FilterMembers(patients, keep);
    FilterIsSubsequence(patients, keep);
  }

  /** With well-formed statuses the three accuracy rows add up to the number of codes. */
  lemma AccuracyRowsSum(d: AnalyticsData)
    requires |d.validationAccuracy| == 3 && WellFormedStatuses(d.allCodes)
    requires d.validationAccuracy == [AccuracyRow("Approved", CountStatus(d.allCodes, Approved)),
                                      AccuracyRow("Rejected", CountStatus(d.allCodes, Rejected)),
                                      AccuracyRow("Pending", CountStatus(d.allCodes, Pending))]
    ensures d.validationAccuracy[0].count + d.validationAccuracy[1].count + d.validationAccuracy[2].count == |d.allCodes|
  {
    StatusCountsPartition(d.allCodes);
  }

  /** ICD-11 and NAMASTE entries are disjoint, so together they are at most all entries. */
  lemma {:induction false} SystemCountsBound(es: seq<CodeEntry>)
    ensures CountSystem(es, ICD11) + CountSystem(es, NAMASTE) <= |es|
  {
    if es != [] {
      SystemCountsBound(es[1..]);
    }
  }

  lemma {:induction false} DedupSpec(ls: seq<string>)
    ensures Distinct(Dedup(ls))
    ensures forall x :: x in Dedup(ls) <==> x in ls
  {
    if ls != [] {
      var init := ls[..|ls| - 1];
      DedupSpec(init);
      assert ls == init + [ls[|ls| - 1]];
    }
  }

  /** Seeding yields one zero row per distinct label, in first-occurrence order. */
  lemma {:induction false} SeedRowsSpec(labels: seq<string>)
    ensures Labels(SeedRows(labels)) == Dedup(labels)
    ensures forall k :: 0 <= k < |SeedRows(labels)| ==> SeedRows(labels)[k] == ZeroRow(SeedRows(labels)[k].name)
  {
    if labels != [] {
      var init := labels[..|labels| - 1];
      var last := labels[|labels| - 1];
      SeedRowsSpec(init);
      var rows := SeedRows(init);
      match FindLabel(rows, last)
      case Some(k) =>
        assert rows[k] == ZeroRow(last);
        assert rows[k := ZeroRow(last)] == rows;
      case None =>
        assert Labels(rows + [ZeroRow(last)]) == Labels(rows) + [last];
    }
  }

  lemma AddPatientLabels(rows: seq<TrendRow>, p: Patient, range: string, fmt: string, cal: Calendar)
    ensures Labels(AddPatient(rows, p, range, fmt, cal)) == Labels(rows)
  {
  }

  /** Adding a patient touches at most the one row carrying its key; with no such row it adds nothing. */
  lemma AddPatientTouchesOneRow(rows: seq<TrendRow>, p: Patient, range: string, fmt: string, cal: Calendar)
    ensures var key := VisitKey(range, p.lastVisit, fmt, cal);
            var r := AddPatient(rows, p, range, fmt, cal);
            |r| == |rows| &&
            (key !in Labels(rows) ==> r == rows) &&
            (forall k :: 0 <= k < |rows| && rows[k].name != key ==> r[k] == rows[k])
  {
  }

  /** The fold never adds, removes or renames rows. */
  lemma {:induction false} FoldKeepsLabels(rows: seq<TrendRow>, ps: seq<Patient>, range: string, fmt: string, cal: Calendar)
    ensures Labels(FoldPatients(rows, ps, range, fmt, cal)) == Labels(rows)
  {
    if ps != [] {
      FoldKeepsLabels(rows, ps[..|ps| - 1], range, fmt, cal);
      AddPatientLabels(FoldPatients(rows, ps[..|ps| - 1], range, fmt, cal), ps[|ps| - 1], range, fmt, cal);
    }
  }

  /** The fold keeps `total == icd11 + namaste` in every row. */
  lemma {:induction false} FoldKeepsConsistent(rows: seq<TrendRow>, ps: seq<Patient>, range: string, fmt: string, cal: Calendar)
    requires Consistent(rows)
    ensures Consistent(FoldPatients(rows, ps, range, fmt, cal))
  {
    if ps != [] {
      FoldKeepsConsistent(rows, ps[..|ps| - 1], range, fmt, cal);
    }
  }

  lemma {:induction false} SumTotalsUpdate(rows: seq<TrendRow>, k: nat, row: TrendRow)
    requires k < |rows|
    ensures SumTotals(rows[k := row]) == SumTotals(rows) - rows[k].total + row.total
  {
    if k > 0 {
      SumTotalsUpdate(rows[1..], k - 1, row);
      assert rows[k := row][1..] == rows[1..][k - 1 := row];
    }
  }

  /** Each patient adds at most its own number of codes to the sum of the totals. */
  lemma {:induction false} FoldSumBound(rows: seq<TrendRow>, ps: seq<Patient>, range: string, fmt: string, cal: Calendar)
    ensures SumTotals(FoldPatients(rows, ps, range, fmt, cal)) <= SumTotals(rows) + |AllCodes(ps)|
  {
    if ps != [] {
      var init, last := ps[..|ps| - 1], ps[|ps| - 1];
      FoldSumBound(rows, init, range, fmt, cal);
      AllCodesAppend(init, [last]);
      assert ps == init + [last];
      assert AllCodes([last]) == CodesOf(last);
      var before := FoldPatients(rows, init, range, fmt, cal);
      match FindLabel(before, VisitKey(range, last.lastVisit, fmt, cal))
      case Some(k) =>
        var icd, nam := PatientIcd11(last), PatientNamaste(last);
        SumTotalsUpdate(before, k, Bumped(before[k], icd, nam));
        SystemCountsBound(CodesOf(last));
        CountSystemAppend(last.diagnoses, last.treatments, ICD11);
        CountSystemAppend(last.diagnoses, last.treatments, NAMASTE);
      case None =>
    }
  }

  lemma {:induction false} ZeroRowsSum(rows: seq<TrendRow>)
    requires forall k :: 0 <= k < |rows| ==> rows[k] == ZeroRow(rows[k].name)
    ensures SumTotals(rows) == 0 && Consistent(rows)
  {
    if rows != [] {
      ZeroRowsSum(rows[1..]);
    }
  }

  /** The trend series has one row per distinct bucket label (colliding labels
      share a row), in first-occurrence order, every row satisfies
      `total == icd11 + namaste`, each row counts the codes of the patients whose
      key is its label, and the totals add up to at most the number of codes. */
  lemma TrendsSpec(dates: seq<int>, ps: seq<Patient>, range: string, fmt: string, cal: Calendar)
    ensures var rows := Trends(dates, ps, range, fmt, cal);
            Labels(rows) == Dedup(FormatAll(dates, fmt, cal)) &&
            |rows| == |Dedup(FormatAll(dates, fmt, cal))| &&
            Distinct(Labels(rows)) &&
            Consistent(rows) &&
            SumTotals(rows) <= |AllCodes(ps)| &&
            (forall k :: 0 <= k < |rows| ==>
              rows[k].icd11 == CountSystem(KeyedCodes(ps, rows[k].name, range, fmt, cal), ICD11) &&
              rows[k].namaste == CountSystem(KeyedCodes(ps, rows[k].name, range, fmt, cal), NAMASTE))
  {
    TrendRowCounts(dates, ps, range, fmt, cal);
    var labels := FormatAll(dates, fmt, cal);
    var seeded := SeedRows(labels);
    SeedRowsSpec(labels);
    DedupSpec(labels);
    ZeroRowsSum(seeded);
    FoldKeepsLabels(seeded, ps, range, fmt, cal);
    FoldKeepsConsistent(seeded, ps, range, fmt, cal);
    FoldSumBound(seeded, ps, range, fmt, cal);
  }

  function HasKey(range: string, fmt: string, cal: Calendar, key: string): Patient -> bool
  {
    (p: Patient) => VisitKey(range, p.lastVisit, fmt, cal) == key
  }

  /** The codes of the patients whose key is `key`, the reference for one trend row. */
  function KeyedCodes(ps: seq<Patient>, key: string, range: string, fmt: string, cal: Calendar): seq<CodeEntry>
  {
    AllCodes(Filter(ps, HasKey(range, fmt, cal, key)))
  }

  lemma KeyedCodesSnoc(init: seq<Patient>, last: Patient, key: string, range: string, fmt: string, cal: Calendar)
    ensures KeyedCodes(init + [last], key, range, fmt, cal) ==
              KeyedCodes(init, key, range, fmt, cal) + (if VisitKey(range, last.lastVisit, fmt, cal) == key then CodesOf(last) else [])
  {
    var keep := HasKey(range, fmt, cal, key);
    FilterAppend(init, [last], keep);
    assert [last][1..] == [];
    AllCodesAppend(Filter(init, keep), Filter([last], keep));
    assert AllCodes([last]) == CodesOf(last);
  }

  /** One patient adds its ICD-11 and NAMASTE counts to the row with its key and nothing elsewhere. */
  lemma {:induction false} FoldRowCounts(rows: seq<TrendRow>, ps: seq<Patient>, range: string, fmt: string, cal: Calendar)
    requires Distinct(Labels(rows))
    ensures var r := FoldPatients(rows, ps, range, fmt, cal);
            |r| == |rows| &&
            forall k :: 0 <= k < |rows| ==>
              r[k].name == rows[k].name &&
              r[k].icd11 == rows[k].icd11 + CountSystem(KeyedCodes(ps, rows[k].name, range, fmt, cal), ICD11) &&
              r[k].namaste == rows[k].namaste + CountSystem(KeyedCodes(ps, rows[k].name, range, fmt, cal), NAMASTE)
  {
    if ps != [] {
      var init, last := ps[..|ps| - 1], ps[|ps| - 1];
      assert ps == init + [last];
      FoldRowCounts(rows, init, range, fmt, cal);
      var before := FoldPatients(rows, init, range, fmt, cal);
      var key := VisitKey(range, last.lastVisit, fmt, cal);
      var after := FoldPatients(rows, ps, range, fmt, cal);
      assert after == AddPatient(before, last, range, fmt, cal);
      CountSystemAppend(last.diagnoses, last.treatments, ICD11);
      CountSystemAppend(last.diagnoses, last.treatments, NAMASTE);
      forall k | 0 <= k < |rows|
        ensures after[k].name == rows[k].name
        ensures after[k].icd11 == rows[k].icd11 + CountSystem(KeyedCodes(ps, rows[k].name, range, fmt, cal), ICD11)
        ensures after[k].namaste == rows[k].namaste + CountSystem(KeyedCodes(ps, rows[k].name, range, fmt, cal), NAMASTE)
      {
        var name := rows[k].name;
        KeyedCodesSnoc(init, last, name, range, fmt, cal);
        var extra := if key == name then CodesOf(last) else [];
        CountSystemAppend(KeyedCodes(init, name, range, fmt, cal), extra, ICD11);
        CountSystemAppend(KeyedCodes(init, name, range, fmt, cal), extra, NAMASTE);
        match FindLabel(before, key)
        case Some(j) =>
          if j != k {
            assert Labels(rows)[j] == before[j].name && Labels(rows)[k] == name;
          }
        case None =>
          assert Labels(before)[k] == name;
      }
    }
  }

  /** Each trend row counts the ICD-11 and NAMASTE codes of exactly the patients
      whose key is the row's label. */
  lemma TrendRowCounts(dates: seq<int>, ps: seq<Patient>, range: string, fmt: string, cal: Calendar)
    ensures var rows := Trends(dates, ps, range, fmt, cal);
            forall k :: 0 <= k < |rows| ==>
              rows[k].icd11 == CountSystem(KeyedCodes(ps, rows[k].name, range, fmt, cal), ICD11) &&
              rows[k].namaste == CountSystem(KeyedCodes(ps, rows[k].name, range, fmt, cal), NAMASTE) &&
              rows[k].total == rows[k].icd11 + rows[k].namaste
  {
    var labels := FormatAll(dates, fmt, cal);
    var seeded := SeedRows(labels);
    SeedRowsSpec(labels);
    DedupSpec(labels);
    FoldRowCounts(seeded, ps, range, fmt, cal);
    ZeroRowsSum(seeded);
    FoldKeepsConsistent(seeded, ps, range, fmt, cal);
  }

  /** With no patient in the window every trend row is zero. */
  lemma NoPatientsZeroTrends(dates: seq<int>, range: string, fmt: string, cal: Calendar)
    ensures var rows := Trends(dates, [], range, fmt, cal);
            |rows| == |Dedup(FormatAll(dates, fmt, cal))| &&
            forall k :: 0 <= k < |rows| ==> rows[k] == ZeroRow(rows[k].name)
  {
    SeedRowsSpec(FormatAll(dates, fmt, cal));
  }
}
