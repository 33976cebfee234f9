/** The patient-details page: loading one patient, who may approve codes,
    reconciling a status update after the API call, and adding a new code
    from the add-code form. */
module PatientDetails {
  import opened Common
  import opened Records

  const MissingIdError: string := "Patient ID is required"
  const LoadError: string := "Failed to load patient data. Please try again."
  const DefaultValidator: string := "Admin"
  const NotAvailable: string := "N/A"

  /** The two tabs, which are also the two lists of a patient. */
  datatype Tab = Diagnoses | Treatments

  /** `user?.role === 'admin' || user?.role === 'auditor'`; nobody signed in cannot approve. */
  predicate CanApprove(user: Option<User>)
  {
    user.Some? && (user.value.role == "admin" || user.value.role == "auditor")
  }

  lemma CanApproveMeaning(user: Option<User>)
    ensures CanApprove(user) ==> user.Some?
    ensures user.Some? ==> (CanApprove(user) <==> user.value.role in {"admin", "auditor"})
  {
  }

  /** The entry `AddCodeModal` submits: whatever the form holds, it is pending and
      validated by nobody; `id` and `now` stand for the generated UUID and the clock. */
  function NewEntry(id: string, code: string, description: string, codeSystem: string, now: string): (e: CodeEntry)
    ensures e.status == Pending && e.validatedBy == NotAvailable
    ensures e.id == id && e.code == code && e.description == description && e.codeSystem == codeSystem
    ensures e.validationDate == now && e.suggestions.None?
  {
    CodeEntry(id, code, description, codeSystem, Pending, now, NotAvailable, None)
  }

  /** `user?.name || 'Admin'`. */
  function ValidatorName(user: Option<User>): (name: string)
    ensures user.Some? && user.value.name != "" ==> name == user.value.name
    ensures user.None? || user.value.name == "" ==> name == DefaultValidator
  {
    OrElse(if user.Some? then Some(user.value.name) else None, DefaultValidator)
  }

  /** `r` is `es` with the entries carrying `id` re-signed: they take the new status,
      validator and date and keep every other field; every other entry is kept. */
  predicate UpdatedOnly(es: seq<CodeEntry>, r: seq<CodeEntry>, id: string, status: string, validator: string, date: string)
  {
    |r| == |es| &&
    (forall k :: 0 <= k < |es| && es[k].id != id ==> r[k] == es[k]) &&
    (forall k :: 0 <= k < |es| && es[k].id == id ==>
       r[k].status == status && r[k].validatedBy == validator && r[k].validationDate == date &&
       r[k].(status := es[k].status, validatedBy := es[k].validatedBy, validationDate := es[k].validationDate) == es[k])
  }

  /** The entries with that id take the new status, validator and date; every other entry,
      and every other field, is kept. */
  function UpdateEntries(es: seq<CodeEntry>, id: string, status: string, validator: string, date: string): (r: seq<CodeEntry>)
    ensures UpdatedOnly(es, r, id, status, validator, date)
  {
    seq(|es|, k requires 0 <= k < |es| =>
      if es[k].id == id then es[k].(status := status, validatedBy := validator, validationDate := date) else es[k])
  }

  /** Updating an id no entry has changes nothing; repeating an update changes nothing more. */
  lemma UpdateEntriesProperties(es: seq<CodeEntry>, id: string, status: string, validator: string, date: string)
    ensures (forall k :: 0 <= k < |es| ==> es[k].id != id) ==> UpdateEntries(es, id, status, validator, date) == es
    ensures UpdateEntries(UpdateEntries(es, id, status, validator, date), id, status, validator, date) == UpdateEntries(es, id, status, validator, date)
  {
  }

  /** The patient after a status update in the given tab: only that list changes,
      and in it only the entries with that id; the number of codes is kept. */
  function WithStatus(p: Patient, tab: Tab, id: string, status: string, validator: string, date: string): (q: Patient)
    ensures q.(diagnoses := p.diagnoses, treatments := p.treatments) == p
    ensures tab == Diagnoses ==> q.treatments == p.treatments && UpdatedOnly(p.diagnoses, q.diagnoses, id, status, validator, date)
    ensures tab == Treatments ==> q.diagnoses == p.diagnoses && UpdatedOnly(p.treatments, q.treatments, id, status, validator, date)
    ensures |CodesOf(q)| == |CodesOf(p)|
  {
    if tab == Diagnoses then p.(diagnoses := UpdateEntries(p.diagnoses, id, status, validator, date))
    else p.(treatments := UpdateEntries(p.treatments, id, status, validator, date))
  }

  /** The patient after adding a code in the given tab: the entry goes first in that list only. */
  function WithNewCode(p: Patient, tab: Tab, e: CodeEntry): Patient
  {
    if tab == Diagnoses then p.(diagnoses := [e] + p.diagnoses) else p.(treatments := [e] + p.treatments)
  }

  /** Adding a code adds one entry, pending, to the chosen list and keeps the rest behind it. */
  lemma WithNewCodeFrame(p: Patient, tab: Tab, e: CodeEntry)
    ensures var q := WithNewCode(p, tab, e);
            |CodesOf(q)| == |CodesOf(p)| + 1 &&
            q.(diagnoses := p.diagnoses, treatments := p.treatments) == p &&
            (tab == Diagnoses ==> q.diagnoses[0] == e && q.diagnoses[1..] == p.diagnoses && q.treatments == p.treatments) &&
            (tab == Treatments ==> q.treatments[0] == e && q.treatments[1..] == p.treatments && q.diagnoses == p.diagnoses)
  {
  }

  /** A code submitted through the form raises the pending count of the patient by one. */
  lemma NewCodeIsPending(p: Patient, tab: Tab, id: string, code: string, description: string, codeSystem: string, now: string)
    ensures CountStatus(CodesOf(WithNewCode(p, tab, NewEntry(id, code, description, codeSystem, now))), Pending) ==
            CountStatus(CodesOf(p), Pending) + 1
  {
    var e := NewEntry(id, code, description, codeSystem, now);
    var q := WithNewCode(p, tab, e);
    CountStatusAppend(q.diagnoses, q.treatments, Pending);
    CountStatusAppend(p.diagnoses, p.treatments, Pending);
    if tab == Diagnoses {
      CountStatusAppend([e], p.diagnoses, Pending);
    } else {
      CountStatusAppend([e], p.treatments, Pending);
    }
  }

  class PatientDetailsPage {
    var patient: Option<Patient>
    var isLoading: bool
    var error: Option<string>
    var activeTab: Tab

    constructor ()
      ensures patient == None && isLoading && error == None && activeTab == Diagnoses
    {
      patient := None;
      isLoading := true;
      error := None;
      activeTab := Diagnoses;
    }

    /** `fetchPatientData`: a falsy route id sets the missing-id error without a request
        (`fetched` is false); otherwise the mapped patient on success, the load error on failure. */
    method Load(patientId: Option<string>, outcome: ApiResult<ApiPatient>) returns (fetched: bool)
      modifies this
      ensures fetched <==> Truthy(patientId)
      ensures !fetched ==> error == Some(MissingIdError) && patient == old(patient)
      ensures fetched && outcome.Resolved? ==> patient == Some(FromApi(outcome.value)) && error == None
      ensures fetched && outcome.Threw? ==> patient == old(patient) && error == Some(LoadError)
      ensures !isLoading && activeTab == old(activeTab)
    {
      if !Truthy(patientId) {
        error := Some(MissingIdError);
        isLoading := false;
        return false;
      }
      fetched := true;
      isLoading := true;
      error := None;
      if outcome.Resolved? {
        patient := Some(FromApi(outcome.value));
      } else {
        error := Some(LoadError);
      }
      isLoading := false;
    }

    method SelectTab(tab: Tab)
      modifies this
      ensures activeTab == tab && patient == old(patient) && isLoading == old(isLoading) && error == old(error)
    {
      activeTab := tab;
    }

    /** `handleStatusUpdate`: with no patient, or when the call throws, nothing changes;
        otherwise only the chosen list is updated, signed by the user's name or `Admin`. */
    method HandleStatusUpdate(tab: Tab, id: string, newStatus: string, user: Option<User>, now: string,
                              outcome: ApiResult<bool>)
      modifies this
      ensures old(patient).None? || outcome.Threw? ==> patient == old(patient)
      ensures old(patient).Some? && outcome.Resolved? ==>
                patient == Some(WithStatus(old(patient).value, tab, id, newStatus, ValidatorName(user), now))
      ensures isLoading == old(isLoading) && error == old(error) && activeTab == old(activeTab)
    {
      if patient.None? {
        return;
      }
      if outcome.Resolved? {
        var updated := patient.value;
        var validator := ValidatorName(user);
        if tab == Diagnoses {
          updated := updated.(diagnoses := UpdateEntries(updated.diagnoses, id, newStatus, validator, now));
        } else {
          updated := updated.(treatments := UpdateEntries(updated.treatments, id, newStatus, validator, now));
        }
        patient := Some(updated);
      }
    }

    /** `handleAddCode`: after a successful request the code goes first in the active tab's list. */
    method HandleAddCode(newCode: CodeEntry, outcome: ApiResult<bool>)
      modifies this
      ensures old(patient).None? || outcome.Threw? ==> patient == old(patient)
      ensures old(patient).Some? && outcome.Resolved? ==> patient == Some(WithNewCode(old(patient).value, activeTab, newCode))
      ensures isLoading == old(isLoading) && error == old(error) && activeTab == old(activeTab)
    {
      if patient.None? {
        return;
      }
      if outcome.Resolved? {
        var updated := patient.value;
        if activeTab == Diagnoses {
          updated := updated.(diagnoses := [newCode] + updated.diagnoses);
        } else {
          updated := updated.(treatments := [newCode] + updated.treatments);
        }
        patient := Some(updated);
      }
    }
  }
}
