/** The frontend's record types (patients with diagnosis and treatment code
    entries, users) and the mapping of the REST payload into them. */
module Records {
  import opened Common

  const ICD11: string := "ICD-11"
  const NAMASTE: string := "NAMASTE"

  const Pending: string := "pending"
  const Approved: string := "approved"
  const Rejected: string := "rejected"

  /** A diagnosis or a treatment (the two share one shape). Status and code
      system are strings: the payload is not checked against the enumerations. */
  datatype CodeEntry = CodeEntry(
    id: string,
    code: string,
    description: string,
    codeSystem: string,
    status: string,
    validationDate: string,
    validatedBy: string,
    suggestions: Option<seq<string>>)

  /** `lastVisit` is a timestamp (milliseconds). */
  datatype Patient = Patient(
    id: string,
    name: string,
    age: int,
    gender: string,
    patientId: string,
    lastVisit: int,
    diagnoses: seq<CodeEntry>,
    treatments: seq<CodeEntry>)

  datatype User = User(id: string, email: string, name: string, role: string, avatar: Option<string>)

  predicate IsValidationStatus(s: string)
  {
    s == Pending || s == Approved || s == Rejected
  }

  predicate WellFormedStatuses(es: seq<CodeEntry>)
  {
    forall k :: 0 <= k < |es| ==> IsValidationStatus(es[k].status)
  }

  /** `[...p.diagnoses, ...p.treatments]`. */
  function CodesOf(p: Patient): seq<CodeEntry>
  {
    p.diagnoses + p.treatments
  }

  /** `patients.flatMap(p => [...p.diagnoses, ...p.treatments])`. */
  function AllCodes(ps: seq<Patient>): seq<CodeEntry>
  {
    if ps == [] then [] else CodesOf(ps[0]) + AllCodes(ps[1..])
  }

  function HasStatus(status: string): CodeEntry -> bool
  {
    (e: CodeEntry) => e.status == status
  }

  function InSystem(system: string): CodeEntry -> bool
  {
    (e: CodeEntry) => e.codeSystem == system
  }

  /** `es.filter(c => c.status === status).length`. */
  function CountStatus(es: seq<CodeEntry>, status: string): nat
  {
    |Filter(es, HasStatus(status))|
  }

  /** `es.filter(c => c.codeSystem === system).length`. */
  function CountSystem(es: seq<CodeEntry>, system: string): nat
  {
    |Filter(es, InSystem(system))|
  }

  /** With well-formed statuses, the three status counts partition the entries. */
  lemma {:induction false} StatusCountsPartition(es: seq<CodeEntry>)
    requires WellFormedStatuses(es)
    ensures CountStatus(es, Approved) + CountStatus(es, Rejected) + CountStatus(es, Pending) == |es|
  {
    if es != [] {
      assert WellFormedStatuses(es[1..]) by {
        forall k | 0 <= k < |es[1..]| ensures IsValidationStatus(es[1..][k].status) {
          assert es[1..][k] == es[k + 1];
        }
      }
      StatusCountsPartition(es[1..]);
      assert IsValidationStatus(es[0].status);
    }
  }

  /** Counting over a flattened sequence adds up per part. */
  lemma CountStatusAppend(a: seq<CodeEntry>, b: seq<CodeEntry>, status: string)
    ensures CountStatus(a + b, status) == CountStatus(a, status) + CountStatus(b, status)
  {
    FilterAppend(a, b, HasStatus(status));
  }

  lemma CountSystemAppend(a: seq<CodeEntry>, b: seq<CodeEntry>, system: string)
    ensures CountSystem(a + b, system) == CountSystem(a, system) + CountSystem(b, system)
  {
    FilterAppend(a, b, InSystem(system));
  }

  lemma {:induction false} AllCodesAppend(a: seq<Patient>, b: seq<Patient>)
    ensures AllCodes(a + b) == AllCodes(a) + AllCodes(b)
  {
    if a == [] {
      assert a + b == b;
    } else {
      assert (a + b)[1..] == a[1..] + b;
      AllCodesAppend(a[1..], b);
    }
  }

  // ---------------------------------------------------------------------------
  // The REST payload (snake_case) and its mapping

  /** A diagnosis or treatment as the backend serialises it (every model field). */
  datatype ApiCode = ApiCode(
    id: string,
    patient: string,
    code: string,
    description: string,
    code_system: string,
    status: string,
    validation_date: string,
    validated_by: string,
    suggestions: Option<seq<string>>)

  /** A patient as the backend serialises it; `None` stands for a missing or null list. */
  datatype ApiPatient = ApiPatient(
    id: string,
    name: string,
    age: int,
    gender: string,
    patient_id: string,
    last_visit: int,
    diagnoses: Option<seq<ApiCode>>,
    treatments: Option<seq<ApiCode>>)

  /** A value read off a payload entry: a string field, or the `suggestions`
      JSON list (`None` when it was sent as null). */
  datatype WireValue = WireText(text: string) | WireList(items: Option<seq<string>>)

  /** JavaScript property access on a payload entry: the nine key names it was
      sent with are present, every other name reads as undefined (`None`). */
  function WireField(w: ApiCode, key: string): (r: Option<WireValue>)
    ensures key in {"id", "patient", "code", "description", "code_system", "status", "validation_date", "validated_by", "suggestions"} <==> r.Some?
    ensures key == "suggestions" ==> r == Some(WireList(w.suggestions))
    ensures key != "suggestions" && r.Some? ==> r.value.WireText?
  {
    if key == "id" then Some(WireText(w.id))
    else if key == "patient" then Some(WireText(w.patient))
    else if key == "code" then Some(WireText(w.code))
    else if key == "description" then Some(WireText(w.description))
    else if key == "code_system" then Some(WireText(w.code_system))
    else if key == "status" then Some(WireText(w.status))
    else if key == "validation_date" then Some(WireText(w.validation_date))
    else if key == "validated_by" then Some(WireText(w.validated_by))
    else if key == "suggestions" then Some(WireList(w.suggestions))
    else None
  }

  /** Renames a payload entry into the frontend's camelCase entry. */
  function EntryFromApi(w: ApiCode): (e: CodeEntry)
    ensures Some(WireText(e.codeSystem)) == WireField(w, "code_system")
    ensures Some(WireText(e.status)) == WireField(w, "status")
    ensures Some(WireText(e.validatedBy)) == WireField(w, "validated_by")
    ensures Some(WireList(e.suggestions)) == WireField(w, "suggestions")
    ensures e.id == w.id && e.code == w.code && e.description == w.description
  {
    CodeEntry(w.id, w.code, w.description, w.code_system, w.status, w.validation_date, w.validated_by, w.suggestions)
  }

  function EntriesFromApi(ws: seq<ApiCode>): (es: seq<CodeEntry>)
    ensures |es| == |ws|
    ensures forall k :: 0 <= k < |ws| ==> es[k] == EntryFromApi(ws[k])
  {
    seq(|ws|, k requires 0 <= k < |ws| => EntryFromApi(ws[k]))
  }

  /** The payload-to-`Patient` mapping with nested entries renamed as well
      (the corrected form of the mapping; see `FromApiAsWritten`). */
  function FromApi(raw: ApiPatient): (p: Patient)
    ensures p.id == raw.id && p.name == raw.name && p.age == raw.age && p.gender == raw.gender
    ensures p.patientId == raw.patient_id && p.lastVisit == raw.last_visit
    ensures raw.diagnoses.None? ==> p.diagnoses == []
    ensures raw.treatments.None? ==> p.treatments == []
    ensures |p.diagnoses| == |OrEmpty(raw.diagnoses)| && |p.treatments| == |OrEmpty(raw.treatments)|
  {
    Patient(raw.id, raw.name, raw.age, raw.gender, raw.patient_id, raw.last_visit,
            EntriesFromApi(OrEmpty(raw.diagnoses)), EntriesFromApi(OrEmpty(raw.treatments)))
  }

  /** The mapping as the pages write it: top-level fields are renamed, but the
      nested entries are the payload objects themselves, so a page that reads
      `d.codeSystem` reads a property the payload does not have. */
  datatype SeenPatient = SeenPatient(
    id: string,
    name: string,
    age: int,
    gender: string,
    patientId: string,
    lastVisit: int,
    diagnoses: seq<ApiCode>,
    treatments: seq<ApiCode>)

  function FromApiAsWritten(raw: ApiPatient): (p: SeenPatient)
    ensures p.patientId == raw.patient_id && p.lastVisit == raw.last_visit
    ensures p.diagnoses == OrEmpty(raw.diagnoses) && p.treatments == OrEmpty(raw.treatments)
  {
    SeenPatient(raw.id, raw.name, raw.age, raw.gender, raw.patient_id, raw.last_visit,
                OrEmpty(raw.diagnoses), OrEmpty(raw.treatments))
  }
}
