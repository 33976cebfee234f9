/** The Django REST backend's logic: the status update of a diagnosis or
    treatment, adding a code to a patient, and report generation with its
    date-range mapping, validation summary and code-usage analysis. */
module ApiViews {
  import opened Common
  import opened Records

  const HttpOk: nat := 200
  const HttpCreated: nat := 201
  const HttpBadRequest: nat := 400
  const NotAvailable: string := "N/A"

  /** `request.user`: anonymous, or authenticated with a username. */
  datatype RequestUser = Anonymous | Authenticated(username: string)

  /** `request.user.username if request.user.is_authenticated else 'N/A'`. */
  function ValidatorOf(user: RequestUser): (name: string)
    ensures user.Authenticated? ==> name == user.username
    ensures user.Anonymous? ==> name == NotAvailable
  {
    match user
    case Authenticated(username) => username
    case Anonymous => NotAvailable
  }

  /** `new_status in ['approved', 'rejected']`; a missing status is refused too. */
  predicate AcceptedStatus(newStatus: Option<string>)
  {
    newStatus.Some? && (newStatus.value == Approved || newStatus.value == Rejected)
  }

  /** `pending` is a valid status of the model, yet the endpoint refuses it. */
  lemma PendingRefused()
    ensures IsValidationStatus(Pending) && !AcceptedStatus(Some(Pending))
    ensures !AcceptedStatus(None)
  {
  }

  // ---------------------------------------------------------------------------
  // update_status (the diagnosis and the treatment viewsets behave alike)

  /** A diagnosis or treatment row; `validationDate` is a timestamp. */
  class CodeRecord {
    var id: string
    var code: string
    var description: string
    var codeSystem: string
    var status: string
    var validationDate: int
    var validatedBy: string

    constructor (id: string, code: string, description: string, codeSystem: string, status: string,
                 validationDate: int, validatedBy: string)
      ensures this.id == id && this.code == code && this.description == description && this.codeSystem == codeSystem
      ensures this.status == status && this.validationDate == validationDate && this.validatedBy == validatedBy
    {
      this.id := id;
      this.code := code;
      this.description := description;
      this.codeSystem := codeSystem;
      this.status := status;
      this.validationDate := validationDate;
      this.validatedBy := validatedBy;
    }

    /** `update_status`: an accepted status is stored with the validator and the time
        (200); anything else answers 400 and leaves the row as it was. */
    method UpdateStatus(newStatus: Option<string>, user: RequestUser, now: int) returns (httpStatus: nat)
      modifies this
      ensures httpStatus == HttpOk <==> AcceptedStatus(newStatus)
      ensures httpStatus == HttpOk || httpStatus == HttpBadRequest
      ensures AcceptedStatus(newStatus) ==>
                status == newStatus.value && validatedBy == ValidatorOf(user) && validationDate == now
      ensures !AcceptedStatus(newStatus) ==>
                status == old(status) && validatedBy == old(validatedBy) && validationDate == old(validationDate)
      ensures id == old(id) && code == old(code) && description == old(description) && codeSystem == old(codeSystem)
    {
      if AcceptedStatus(newStatus) {
        status := newStatus.value;
        validatedBy := ValidatorOf(user);
        validationDate := now;
        httpStatus := HttpOk;
      } else {
        httpStatus := HttpBadRequest;
      }
    }
  }

  // ---------------------------------------------------------------------------
  // add_diagnosis / add_treatment

  /** A field of the request body: text, or a moment (`timezone.now()`). */
  datatype Field = Text(text: string) | Moment(time: int)

  type RequestData = map<string, Field>

  /** The keys the endpoint overwrites whatever the client sent. */
  const Overridden: set<string> := {"patient", "id", "status", "validation_date", "validated_by"}

  /** `data = request.data.copy()` followed by the five overrides; `newId` stands for `uuid4()`. */
  function PrepareCodeData(request: RequestData, patientId: string, newId: string, now: int): (data: RequestData)
    ensures data.Keys == request.Keys + Overridden
    ensures data["patient"] == Text(patientId) && data["id"] == Text(newId)
    ensures data["status"] == Text(Pending) && data["validated_by"] == Text(NotAvailable)
    ensures data["validation_date"] == Moment(now)
    ensures forall key :: key in request && key !in Overridden ==> data[key] == request[key]
  {
    request["patient" := Text(patientId)]["id" := Text(newId)]["status" := Text(Pending)]
           ["validation_date" := Moment(now)]["validated_by" := Text(NotAvailable)]
  }

  function TextOf(data: RequestData, key: string): string
  {
    if key in data && data[key].Text? then data[key].text else ""
  }

  /** A stored diagnosis or treatment, as the reports read it. */
  datatype StoredCode = StoredCode(
    id: string,
    code: string,
    description: string,
    codeSystem: string,
    status: string,
    validationDate: int,
    validatedBy: string)

  /** The row the serializer saves from validated data; `rowId` is the key the model
      generates (the `id` field is not writable, so the one in the data is not used). */
  function RowFromData(data: RequestData, rowId: string): StoredCode
  {
    StoredCode(rowId, TextOf(data, "code"), TextOf(data, "description"), TextOf(data, "code_system"),
               TextOf(data, "status"), if "validation_date" in data && data["validation_date"].Moment? then data["validation_date"].time else 0,
               TextOf(data, "validated_by"))
  }

  /** Whatever the request body says, the saved code is pending, validated by nobody, dated now. */
  lemma AddedCodeIsPending(request: RequestData, patientId: string, newId: string, now: int, rowId: string)
    ensures var row := RowFromData(PrepareCodeData(request, patientId, newId, now), rowId);
            row.status == Pending && row.validatedBy == NotAvailable && row.validationDate == now &&
            row.code == TextOf(request, "code") && row.description == TextOf(request, "description") &&
            row.codeSystem == TextOf(request, "code_system")
  {
    var data := PrepareCodeData(request, patientId, newId, now);
    assert "code" !in Overridden && "description" !in Overridden && "code_system" !in Overridden;
    assert "code" in data <==> "code" in request;
  }

  datatype CodeKind = DiagnosisKind | TreatmentKind

  class PatientRecord {
    var id: string
    var lastVisit: int
    var diagnoses: seq<StoredCode>
    var treatments: seq<StoredCode>

    constructor (id: string, lastVisit: int)
      ensures this.id == id && this.lastVisit == lastVisit && diagnoses == [] && treatments == []
    {
      this.id := id;
      this.lastVisit := lastVisit;
      diagnoses := [];
      treatments := [];
    }

    /** `add_diagnosis` / `add_treatment`. `isValid` is the serializer's verdict on the
        prepared data and `rowId` the generated key. The view reads the clock twice:
        `now` dates the new row and `visitedAt` is the later reading stored as
        `last_visit`. Valid data is saved into the chosen list and moves `last_visit`
        (201); otherwise nothing changes (400). */
    method AddCode(kind: CodeKind, request: RequestData, newId: string, now: int, visitedAt: int,
                   isValid: RequestData -> bool, rowId: string) returns (httpStatus: nat)
      modifies this
      ensures httpStatus == HttpCreated <==> isValid(PrepareCodeData(request, id, newId, now))
      ensures httpStatus == HttpCreated || httpStatus == HttpBadRequest
      ensures httpStatus == HttpCreated ==> lastVisit == visitedAt
      ensures httpStatus == HttpCreated && kind == DiagnosisKind ==>
                diagnoses == old(diagnoses) + [RowFromData(PrepareCodeData(request, id, newId, now), rowId)] &&
                treatments == old(treatments)
      ensures httpStatus == HttpCreated && kind == TreatmentKind ==>
                treatments == old(treatments) + [RowFromData(PrepareCodeData(request, id, newId, now), rowId)] &&
                diagnoses == old(diagnoses)
      ensures httpStatus == HttpBadRequest ==>
                lastVisit == old(lastVisit) && diagnoses == old(diagnoses) && treatments == old(treatments)
      ensures id == old(id)
    {
      var data := PrepareCodeData(request, id, newId, now);
      if isValid(data) {
        var row := RowFromData(data, rowId);
        if kind == DiagnosisKind {
          diagnoses := diagnoses + [row];
        } else {
          treatments := treatments + [row];
        }
        lastVisit := visitedAt;
        httpStatus := HttpCreated;
      } else {
        httpStatus := HttpBadRequest;
      }
    }
  }

  // ---------------------------------------------------------------------------
  // generate: the date range and the report type

  /** `request.data.get('date_range', 'last30days')`. */
  function DateRangeOrDefault(dateRange: Option<string>): string
  {
    if dateRange.Some? then dateRange.value else "last30days"
  }

  /** The number of days before today the report starts. */
  function RangeDays(dateRange: string): (days: nat)
    ensures days == 7 || days == 30 || days == 90 || days == 365
    ensures dateRange == "last7days" ==> days == 7
    ensures dateRange == "last3months" ==> days == 90
    ensures dateRange == "lastyear" ==> days == 365
    ensures dateRange != "last7days" && dateRange != "last3months" && dateRange != "lastyear" ==> days == 30
  {
    if dateRange == "last7days" then 7
    else if dateRange == "last30days" then 30
    else if dateRange == "last3months" then 90
    else if dateRange == "lastyear" then 365
    else 30
  }

  /** A missing range is the 30-day range, and so is every unknown one. */
  lemma MissingRangeIsThirtyDays(dateRange: Option<string>)
    ensures dateRange.None? ==> RangeDays(DateRangeOrDefault(dateRange)) == 30
    ensures dateRange.Some? && dateRange.value !in {"last7days", "last30days", "last3months", "lastyear"} ==>
              RangeDays(DateRangeOrDefault(dateRange)) == RangeDays("last30days")
  {
  }

  /** A report window in days: `start_date = today - days`, `end_date = today`. */
  datatype DateWindow = DateWindow(startDay: int, endDay: int)

  function ReportWindow(dateRange: Option<string>, today: int): (w: DateWindow)
    ensures w.endDay == today && w.startDay < w.endDay
    ensures w.endDay - w.startDay == RangeDays(DateRangeOrDefault(dateRange))
  {
    DateWindow(today - RangeDays(DateRangeOrDefault(dateRange)), today)
  }

  datatype ReportKind = ValidationReport | PatientReport | CodeUsageReport | ComplianceReport | AuditReport

  /** The `report_type` dispatch; an unknown or missing type is `None` (answered with 400). */
  function ParseReportType(reportType: Option<string>): (k: Option<ReportKind>)
    ensures k.Some? <==> reportType.Some? && reportType.value in {"validation", "patient", "code_usage", "compliance", "audit"}
  {
    if reportType == Some("validation") then Some(ValidationReport)
    else if reportType == Some("patient") then Some(PatientReport)
    else if reportType == Some("code_usage") then Some(CodeUsageReport)
    else if reportType == Some("compliance") then Some(ComplianceReport)
    else if reportType == Some("audit") then Some(AuditReport)
    else None
  }

  // ---------------------------------------------------------------------------
  // The reports, over the patients the date and code-system filters selected

  datatype StoredPatient = StoredPatient(
    id: string,
    name: string,
    age: nat,
    gender: string,
    patientId: string,
    lastVisit: Option<int>,
    diagnoses: seq<StoredCode>,
    treatments: seq<StoredCode>)

  /** Every code of the patients in the order the report loops visit them. */
  function Flatten(ps: seq<StoredPatient>): seq<StoredCode>
  {
    if ps == [] then []
    else Flatten(ps[..|ps| - 1]) + ps[|ps| - 1].diagnoses + ps[|ps| - 1].treatments
  }

  /** The counters of the validation summary. */
  datatype Counts = Counts(totalCodes: nat, approved: nat, rejected: nat, pending: nat)

  /** One iteration of the inner loops: every code counts once, in exactly one bucket;
      a status other than approved or rejected counts as pending. */
  function Count(c: Counts, code: StoredCode): Counts
  {
    if code.status == Approved then c.(totalCodes := c.totalCodes + 1, approved := c.approved + 1)
    else if code.status == Rejected then c.(totalCodes := c.totalCodes + 1, rejected := c.rejected + 1)
    else c.(totalCodes := c.totalCodes + 1, pending := c.pending + 1)
  }

  /** The counters after the loops have seen `codes`: every code counted once, in one bucket. */
  function Tally(codes: seq<StoredCode>): (c: Counts)
    ensures c.totalCodes == |codes|
    ensures c.totalCodes == c.approved + c.rejected + c.pending
  {
    if codes == [] then Counts(0, 0, 0, 0) else Count(Tally(codes[..|codes| - 1]), codes[|codes| - 1])
  }

  function StoredHasStatus(status: string): StoredCode -> bool
  {
    (c: StoredCode) => c.status == status
  }

  function OtherStatus(): StoredCode -> bool
  {
    (c: StoredCode) => c.status != Approved && c.status != Rejected
  }

  lemma FilterSnoc<T>(xs: seq<T>, x: T, keep: T -> bool)
    ensures Filter(xs + [x], keep) == Filter(xs, keep) + (if keep(x) then [x] else [])
  {
    FilterAppend(xs, [x], keep);
    assert [x][1..] == [];
  }

  /** The counters count the codes, the approved, the rejected, and all others as pending. */
  lemma {:induction false} TallySpec(codes: seq<StoredCode>)
    ensures Tally(codes).totalCodes == |codes|
    ensures Tally(codes).approved == |Filter(codes, StoredHasStatus(Approved))|
    ensures Tally(codes).rejected == |Filter(codes, StoredHasStatus(Rejected))|
    ensures Tally(codes).pending == |Filter(codes, OtherStatus())|
    ensures Tally(codes).totalCodes == Tally(codes).approved + Tally(codes).rejected + Tally(codes).pending
  {
    if codes != [] {
      var init, last := codes[..|codes| - 1], codes[|codes| - 1];
      TallySpec(init);
      assert codes == init + [last];
      FilterSnoc(init, last, StoredHasStatus(Approved));
      FilterSnoc(init, last, StoredHasStatus(Rejected));
      FilterSnoc(init, last, OtherStatus());
    }
  }

  lemma TallySnoc(codes: seq<StoredCode>, code: StoredCode)
    ensures Tally(codes + [code]) == Count(Tally(codes), code)
  {
    assert (codes + [code])[..|codes|] == codes;
  }

  lemma RateBounds(approved: nat, total: nat)
    requires 0 < total && approved <= total
    ensures 0.0 <= (approved as real) / (total as real) * 100.0 <= 100.0
  {
    var q := (approved as real) / (total as real);
    assert q * (total as real) == approved as real;
    assert q <= 1.0;
  }

  /** `generate_validation_summary`; the approval rate is a percentage (a real here). */
  datatype Summary = Summary(totalCodes: nat, approved: nat, rejected: nat, pending: nat, approvalRate: real)

  /** `s` summarises `codes`: its counters are the tally of the codes, they add up
      to the number of codes, and the approval rate is the approved percentage,
      or 0 when there are no codes. */
  predicate SummaryOf(s: Summary, codes: seq<StoredCode>)
  {
    Counts(s.totalCodes, s.approved, s.rejected, s.pending) == Tally(codes) &&
    s.totalCodes == |codes| && s.totalCodes == s.approved + s.rejected + s.pending &&
    (s.totalCodes == 0 ==> s.approvalRate == 0.0) &&
    (s.totalCodes > 0 ==> s.approvalRate == (s.approved as real) / (s.totalCodes as real) * 100.0) &&
    0.0 <= s.approvalRate <= 100.0
  }

  method ValidationSummary(patients: seq<StoredPatient>) returns (s: Summary)
    ensures Counts(s.totalCodes, s.approved, s.rejected, s.pending) == Tally(Flatten(patients))
    ensures s.totalCodes == |Flatten(patients)| && s.totalCodes == s.approved + s.rejected + s.pending
    ensures s.totalCodes == 0 ==> s.approvalRate == 0.0
    ensures s.totalCodes > 0 ==> s.approvalRate == (s.approved as real) / (s.totalCodes as real) * 100.0
    ensures 0.0 <= s.approvalRate <= 100.0
  {
    var counts := Counts(0, 0, 0, 0);
    var i := 0;
    while i < |patients|
      invariant 0 <= i <= |patients|
      invariant counts == Tally(Flatten(patients[..i]))
    {
      var p := patients[i];
      counts := TallyCodes(counts, Flatten(patients[..i]), p.diagnoses);
      counts := TallyCodes(counts, Flatten(patients[..i]) + p.diagnoses, p.treatments);
      assert patients[..i + 1][..i] == patients[..i];
      i := i + 1;
    }
    assert patients[..i] == patients;
    TallySpec(Flatten(patients));
    var totalCodes, approved := counts.totalCodes, counts.approved;
    if totalCodes > 0 {
      RateBounds(approved, totalCodes);
    }
    var rate := if totalCodes > 0 then (approved as real) / (totalCodes as real) * 100.0 else 0.0;
    s := Summary(totalCodes, approved, counts.rejected, counts.pending, rate);
  }

  /** One inner `for` loop of `generate_validation_summary`, over the codes of one list. */
  method TallyCodes(counts: Counts, ghost seen: seq<StoredCode>, codes: seq<StoredCode>) returns (r: Counts)
    requires counts == Tally(seen)
    ensures r == Tally(seen + codes)
  {
    var totalCodes, approved, rejected, pending := counts.totalCodes, counts.approved, counts.rejected, counts.pending;
    var j := 0;
    assert seen + codes[..0] == seen;
    while j < |codes|
      invariant 0 <= j <= |codes|
      invariant Counts(totalCodes, approved, rejected, pending) == Tally(seen + codes[..j])
    {
      var c := codes[j];
      PrefixSnoc(seen, codes, j);
      TallySnoc(seen + codes[..j], c);
      totalCodes := totalCodes + 1;
      if c.status == Approved {
        approved := approved + 1;
      } else if c.status == Rejected {
        rejected := rejected + 1;
      } else {
        pending := pending + 1;
      }
      j := j + 1;
    }
    assert codes[..j] == codes;
    r := Counts(totalCodes, approved, rejected, pending);
  }

  /** `generate_patient_records`: one row per patient with its code counts. */
  datatype PatientRow = PatientRow(id: string, name: string, age: nat, gender: string, patientId: string,
                                   lastVisit: Option<int>, diagnosesCount: nat, treatmentsCount: nat)

  function PatientRecords(ps: seq<StoredPatient>): (rows: seq<PatientRow>)
    ensures |rows| == |ps|
    ensures forall k :: 0 <= k < |ps| ==>
              rows[k].id == ps[k].id && rows[k].patientId == ps[k].patientId &&
              rows[k].diagnosesCount == |ps[k].diagnoses| && rows[k].treatmentsCount == |ps[k].treatments|
  {
    seq(|ps|, k requires 0 <= k < |ps| =>
      PatientRow(ps[k].id, ps[k].name, ps[k].age, ps[k].gender, ps[k].patientId, ps[k].lastVisit,
                 |ps[k].diagnoses|, |ps[k].treatments|))
  }

  // ---------------------------------------------------------------------------
  // generate_code_usage_analysis: a dict from "code (system)" to count and description

  /** `f"{code} ({code_system})"`. */
  function CodeKey(c: StoredCode): string
  {
    c.code + " (" + c.codeSystem + ")"
  }

  /** One entry of the dict, kept in insertion order. */
  datatype UsageEntry = UsageEntry(key: string, count: nat, description: string)

  function UsageKeys(usage: seq<UsageEntry>): (keys: seq<string>)
    ensures |keys| == |usage|
    ensures forall k :: 0 <= k < |usage| ==> keys[k] == usage[k].key
  {
    seq(|usage|, k requires 0 <= k < |usage| => usage[k].key)
  }

  function FindKey(usage: seq<UsageEntry>, key: string): (r: Option<nat>)
    ensures r.Some? ==> r.value < |usage| && usage[r.value].key == key
    ensures r.None? ==> forall k :: 0 <= k < |usage| ==> usage[k].key != key
  {
    if usage == [] then None
    else if usage[0].key == key then Some(0)
    else
      var rest := FindKey(usage[1..], key);
      if rest.Some? then Some(rest.value + 1) else None
  }

  /** One iteration: `if key not in code_usage: code_usage[key] = {count: 0, description}`, then `count += 1`. */
  function Use(usage: seq<UsageEntry>, c: StoredCode): seq<UsageEntry>
  {
    match FindKey(usage, CodeKey(c))
    case Some(k) => usage[k := usage[k].(count := usage[k].count + 1)]
    case None => usage + [UsageEntry(CodeKey(c), 1, c.description)]
  }

  /** The dict after the loops have seen `codes`: never more keys than codes. */
  function Usage(codes: seq<StoredCode>): (usage: seq<UsageEntry>)
    ensures |usage| <= |codes|
  {
    if codes == [] then [] else Use(Usage(codes[..|codes| - 1]), codes[|codes| - 1])
  }

  function WithKey(key: string): StoredCode -> bool
  {
    (c: StoredCode) => CodeKey(c) == key
  }

  function SumCounts(usage: seq<UsageEntry>): nat
  {
    if usage == [] then 0 else usage[0].count + SumCounts(usage[1..])
  }

  lemma {:induction false} SumCountsBump(usage: seq<UsageEntry>, k: nat)
    requires k < |usage|
    ensures SumCounts(usage[k := usage[k].(count := usage[k].count + 1)]) == SumCounts(usage) + 1
  {
    if k > 0 {
      SumCountsBump(usage[1..], k - 1);
      assert usage[k := usage[k].(count := usage[k].count + 1)][1..] == usage[1..][k - 1 := usage[1..][k - 1].(count := usage[1..][k - 1].count + 1)];
    }
  }

  lemma {:induction false} SumCountsSnoc(usage: seq<UsageEntry>, e: UsageEntry)
    ensures SumCounts(usage + [e]) == SumCounts(usage) + e.count
  {
    if usage != [] {
      assert (usage + [e])[1..] == usage[1..] + [e];
      SumCountsSnoc(usage[1..], e);
    }
  }

  predicate DistinctKeys(usage: seq<UsageEntry>)
  {
    forall i, j :: 0 <= i < j < |usage| ==> usage[i].key != usage[j].key
  }

  /** The first code carrying `key`, if any (its description is the one the dict keeps). */
  predicate FirstWithKey(codes: seq<StoredCode>, key: string, i: nat)
  {
    i < |codes| && CodeKey(codes[i]) == key && forall i' :: 0 <= i' < i ==> CodeKey(codes[i']) != key
  }

  /** What one iteration does to the dict: an existing key's count goes up by one, a new
      key is appended with count 1 and this code's description; nothing else changes. */
  lemma UseFacts(usage: seq<UsageEntry>, c: StoredCode)
    requires DistinctKeys(usage)
    ensures var r := Use(usage, c);
            DistinctKeys(r) && SumCounts(r) == SumCounts(usage) + 1 &&
            (CodeKey(c) in UsageKeys(usage) ==> |r| == |usage|) &&
            (CodeKey(c) !in UsageKeys(usage) ==> |r| == |usage| + 1 && r[|usage|] == UsageEntry(CodeKey(c), 1, c.description)) &&
            (forall k :: 0 <= k < |usage| ==>
               r[k].key == usage[k].key && r[k].description == usage[k].description &&
               r[k].count == usage[k].count + (if usage[k].key == CodeKey(c) then 1 else 0))
  {
    var key := CodeKey(c);
    match FindKey(usage, key)
    case Some(k) =>
      SumCountsBump(usage, k);
      assert key in UsageKeys(usage) by { assert UsageKeys(usage)[k] == key; }
    case None =>
      SumCountsSnoc(usage, UsageEntry(key, 1, c.description));
      assert key !in UsageKeys(usage);
  }

  /** The dict has one entry per distinct key of the codes. */
  lemma {:induction false} UsageKeysSpec(codes: seq<StoredCode>)
    ensures DistinctKeys(Usage(codes))
    ensures forall key :: key in UsageKeys(Usage(codes)) <==> exists c :: c in codes && CodeKey(c) == key
  {
    if codes != [] {
      var init, last := codes[..|codes| - 1], codes[|codes| - 1];
      UsageKeysSpec(init);
      assert codes == init + [last];
      var before, after := Usage(init), Usage(codes);
      UseFacts(before, last);
      forall x ensures x in UsageKeys(after) <==> exists c :: c in codes && CodeKey(c) == x {
        if x in UsageKeys(after) {
          var k :| 0 <= k < |after| && UsageKeys(after)[k] == x;
          if k < |before| {
            assert UsageKeys(before)[k] == x;
            assert x in UsageKeys(before);
            assert exists c :: c in init && CodeKey(c) == x;
            var c :| c in init && CodeKey(c) == x;
            assert c in codes;
          } else {
            assert last in codes;
          }
        }
        if exists c :: c in codes && CodeKey(c) == x {
          var c :| c in codes && CodeKey(c) == x;
          if c in init {
            assert x in UsageKeys(before);
            var k :| 0 <= k < |before| && UsageKeys(before)[k] == x;
            assert UsageKeys(after)[k] == x;
          } else if x in UsageKeys(before) {
            var k :| 0 <= k < |before| && UsageKeys(before)[k] == x;
            assert UsageKeys(after)[k] == x;
          } else {
            assert UsageKeys(after)[|before|] == x;
          }
        }
      }
    }
  }

  /** Each entry counts exactly the codes with its key, and the counts add up to the number of codes. */
  lemma {:induction false} UsageCountsSpec(codes: seq<StoredCode>)
    ensures forall k :: 0 <= k < |Usage(codes)| ==> Usage(codes)[k].count == |Filter(codes, WithKey(Usage(codes)[k].key))|
    ensures SumCounts(Usage(codes)) == |codes|
  {
    if codes != [] {
      var init, last := codes[..|codes| - 1], codes[|codes| - 1];
      UsageCountsSpec(init);
      UsageKeysSpec(init);
      assert codes == init + [last];
      var before, after := Usage(init), Usage(codes);
      UseFacts(before, last);
      forall k | 0 <= k < |after| ensures after[k].count == |Filter(codes, WithKey(after[k].key))| {
        FilterSnoc(init, last, WithKey(after[k].key));
        if k == |before| {
          assert CodeKey(last) !in UsageKeys(before);
          FilterKeepsNone(init, WithKey(CodeKey(last)));
        }
      }
    }
  }

  /** Each entry keeps the description of the first code with its key. */
  lemma {:induction false} UsageDescriptionSpec(codes: seq<StoredCode>)
    ensures forall k :: 0 <= k < |Usage(codes)| ==>
              exists i: nat :: FirstWithKey(codes, Usage(codes)[k].key, i) && codes[i].description == Usage(codes)[k].description
  {
    if codes != [] {
      var init, last := codes[..|codes| - 1], codes[|codes| - 1];
      UsageDescriptionSpec(init);
      UsageKeysSpec(init);
      assert codes == init + [last];
      assert forall i' :: 0 <= i' < |init| ==> codes[i'] == init[i'];
      var before, after := Usage(init), Usage(codes);
      UseFacts(before, last);
      forall k | 0 <= k < |after|
        ensures exists i: nat :: FirstWithKey(codes, after[k].key, i) && codes[i].description == after[k].description
      {
        if k < |before| {
          var i: nat :| FirstWithKey(init, before[k].key, i) && init[i].description == before[k].description;
          assert codes[i] == init[i];
          assert after[k].key == before[k].key && after[k].description == before[k].description;
          assert FirstWithKey(codes, after[k].key, i);
          assert codes[i].description == after[k].description;
        } else {
          var key := CodeKey(last);
          assert key !in UsageKeys(before);
          assert after[k] == UsageEntry(key, 1, last.description);
          assert FirstWithKey(codes, key, |init|) by {
            forall i' | 0 <= i' < |init| ensures CodeKey(codes[i']) != key {
              assert codes[i'] == init[i'];
              assert init[i'] in init;
            }
          }
          assert codes[|init|].description == after[k].description;
        }
      }
    } else {
      assert Usage(codes) == [];
    }
  }

  lemma UsageSnoc(codes: seq<StoredCode>, c: StoredCode)
    ensures Usage(codes + [c]) == Use(Usage(codes), c)
  {
    assert (codes + [c])[..|codes|] == codes;
  }

  /** One code of the inner loops: insert the key with count 0 if it is new, then count it. */
  method UseCode(usage: seq<UsageEntry>, c: StoredCode) returns (r: seq<UsageEntry>)
    ensures r == Use(usage, c)
  {
    var key := CodeKey(c);
    r := usage;
    var found := FindKey(r, key);
    if found.None? {
      r := r + [UsageEntry(key, 0, c.description)];
      found := Some(|r| - 1);
    }
    var k := found.value;
    r := r[k := r[k].(count := r[k].count + 1)];
  }

  /** One inner `for code in ...` loop of `generate_code_usage_analysis`. */
  method UseCodes(usage: seq<UsageEntry>, ghost seen: seq<StoredCode>, codes: seq<StoredCode>) returns (r: seq<UsageEntry>)
    requires usage == Usage(seen)
    ensures r == Usage(seen + codes)
  {
    r := usage;
    var j := 0;
    assert seen + codes[..0] == seen;
    while j < |codes|
      invariant 0 <= j <= |codes|
      invariant r == Usage(seen + codes[..j])
    {
      PrefixSnoc(seen, codes, j);
      UsageSnoc(seen + codes[..j], codes[j]);
      r := UseCode(r, codes[j]);
      j := j + 1;
    }
    assert codes[..j] == codes;
  }

  /** `generate_code_usage_analysis`: the dict the loops build is `Usage` of all codes in order. */
  method CodeUsageAnalysis(patients: seq<StoredPatient>) returns (usage: seq<UsageEntry>)
    ensures usage == Usage(Flatten(patients))
  {
    usage := [];
    var i := 0;
    while i < |patients|
      invariant 0 <= i <= |patients|
      invariant usage == Usage(Flatten(patients[..i]))
    {
      var p := patients[i];
      usage := UseCodes(usage, Flatten(patients[..i]), p.diagnoses);
      usage := UseCodes(usage, Flatten(patients[..i]) + p.diagnoses, p.treatments);
      assert patients[..i + 1][..i] == patients[..i];
      i := i + 1;
    }
    assert patients[..i] == patients;
  }

  // ---------------------------------------------------------------------------
  // generate

  const ComplianceMessage: string := "Compliance report generation not implemented yet"
  const AuditMessage: string := "Audit report generation not implemented yet"

  datatype ReportData =
    | SummaryData(summary: Summary)
    | PatientData(rows: seq<PatientRow>)
    | UsageData(usage: seq<UsageEntry>)
    | MessageData(message: string)

  /** `generate` after the patient query: an unknown report type answers 400 with no
      data; otherwise the report of that type and 201. The two filtered queries are
      not modelled: `patients` is what they select. */
  method Generate(reportType: Option<string>, dateRange: Option<string>, today: int, patients: seq<StoredPatient>)
    returns (httpStatus: nat, window: DateWindow, data: Option<ReportData>)
    ensures window == ReportWindow(dateRange, today)
    ensures ParseReportType(reportType).None? <==> httpStatus == HttpBadRequest
    ensures ParseReportType(reportType).None? ==> data.None?
    ensures ParseReportType(reportType).Some? ==> httpStatus == HttpCreated && data.Some?
    ensures ParseReportType(reportType) == Some(ValidationReport) ==>
              data.value.SummaryData? && SummaryOf(data.value.summary, Flatten(patients))
    ensures ParseReportType(reportType) == Some(PatientReport) ==> data == Some(PatientData(PatientRecords(patients)))
    ensures ParseReportType(reportType) == Some(CodeUsageReport) ==> data == Some(UsageData(Usage(Flatten(patients))))
    ensures ParseReportType(reportType) == Some(ComplianceReport) ==> data == Some(MessageData(ComplianceMessage))
    ensures ParseReportType(reportType) == Some(AuditReport) ==> data == Some(MessageData(AuditMessage))
  {
    window := ReportWindow(dateRange, today);
    var kind := ParseReportType(reportType);
    if kind.None? {
      return HttpBadRequest, window, None;
    }
    httpStatus := HttpCreated;
    match kind.value
    case ValidationReport =>
      var s := ValidationSummary(patients);
      data := Some(SummaryData(s));
    case PatientReport =>
      data := Some(PatientData(PatientRecords(patients)));
    case CodeUsageReport =>
      var u := CodeUsageAnalysis(patients);
      data := Some(UsageData(u));
    case ComplianceReport =>
      data := Some(MessageData(ComplianceMessage));
    case AuditReport =>
      data := Some(MessageData(AuditMessage));
  }
}
