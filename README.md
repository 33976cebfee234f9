# Medicode Validator: a Dafny model of its validation logic

Medicode Validator is a web application for validating clinical codes. It has a React front end and a Django REST back end. Each patient carries diagnoses and treatments. Each of these is a code in the ICD-11 or NAMASTE system, with a validation status of `pending`, `approved` or `rejected`.

This project models the logic of the application and proves properties about it:

- the dashboards' search, filters, newest-first sort and status tallies;
- the analytics page: its date windows, code-system and status counts, and the trend rows it folds the patients into;
- the rejected-codes page: its filters, "mark as read", CSV export and statistics;
- the treatment-approval page: its payload transform, filters, single and bulk status updates, and counts;
- the patient-details page: who may approve, how a status update or a new code is reconciled after the API call, and the add-code form's entry;
- the back end's `update_status`, `add_diagnosis`/`add_treatment`, the report date window and report-type dispatch, the validation summary and the code-usage analysis;
- the mock authentication context (restore on mount, login, logout);
- the admin page's user search and avatar initials.

One module models each source file:

| module | file |
|---|---|
| `Common` | shared JavaScript helpers: `toLowerCase`, `includes`, `filter`, `slice`, `split`, `join` and the `or` defaults |
| `Records` | `src/types/index.ts`, plus the REST payload and its mapping onto `Patient` |
| `Analytics` | `src/pages/Analytics.tsx` |
| `DashboardFixed` | `src/pages/Dashboard_fixed.tsx` |
| `Dashboard` | `src/pages/Dashboard.tsx` |
| `RejectedCodes` | `src/pages/RejectedCodes.tsx` |
| `TreatmentApproval` | `src/pages/AdminTreatmentApproval_fixed.tsx` |
| `PatientDetails` | `src/pages/PatientDetails_new.tsx` |
| `ApiViews` | `backend/api/views.py` |
| `Auth` | `src/contexts/AuthContext.tsx` |
| `Admin` | `src/pages/Admin.tsx` |

How the code is modelled:

- Pure expressions become functions and lemmas.
- Page state that changes becomes a class whose fields mirror the page's `useState` hooks. Its methods model the handlers and effects.
- Every API call is an `ApiResult` parameter (`Resolved(value)` or `Threw`), so the model covers both outcomes of each call.
- The clock, generated UUIDs, date-fns calendar functions and date formatting are parameters. Analytics passes them together as a `Calendar` value.
- Timestamps are integers.
- Statuses and code systems are strings, because the API delivers them untyped. Where a property needs the three statuses, it takes `WellFormedStatuses` as a precondition.

## Model

| member | source | states |
|---|---|---|
| `Records.StatusCountsPartition` | src/types/index.ts:10 | When every status is one of the three validation statuses, the approved, rejected and pending counts add up to the number of codes |
| `Records.CountStatusAppend` | src/pages/Dashboard_fixed.tsx:91-99 | The count of one status over `diagnoses` followed by `treatments` is the sum of the two lists' counts |
| `Records.CountSystemAppend` | src/pages/Analytics.tsx:48-49 | The count of one code system over two concatenated lists is the sum of the two counts |
| `Records.AllCodesAppend` | src/pages/Analytics.tsx:45 | `flatMap` over two runs of patients is the concatenation of their codes |
| `Records.WireField` | src/pages/Dashboard_fixed.tsx:75-81 | A property read on a payload entry is defined exactly for the nine keys the back end serialises (the eight string fields and the `suggestions` list); any other name, `codeSystem` included, reads as undefined |
| `Records.EntryFromApi` | src/types/index.ts:25-38 | The frontend entry carries the payload's `code_system`, `status`, `validated_by` and `suggestions` under their camelCase names, with the same id, code and description |
| `Records.EntriesFromApi` | src/types/index.ts:40-53 | Renaming a list of payload entries keeps its length and renames each entry in place |
| `Records.FromApi` | src/pages/Dashboard_fixed.tsx:40-49 | The mapped patient keeps id, name, age and gender, takes `patient_id` and `last_visit`, and has empty lists where the payload's lists are missing, otherwise lists of the same length |
| `Records.FromApiAsWritten` | src/pages/Dashboard_fixed.tsx:40-49 | Mapping as written: the top-level fields are renamed, but the nested lists are the payload objects unchanged |
| `Analytics.SelectWindow` | src/pages/Analytics.tsx:20-42 | For each range selector, the start date (6 days or 29 days back, or 2 or 5 months back), the start of the interval (start of day, or start of week for `last3months`) and the label format (`MMM dd`, or `MMM` for six months); the interval ends now |
| `Analytics.UnknownRangeIsSixMonths` | src/pages/Analytics.tsx:36-41 | Any selector other than the three named ones gives exactly the `last6months` window, its `MMM` labels and its monthly trend dates |
| `Analytics.TrendDates` | src/pages/Analytics.tsx:66-73 | Days for `last7days`/`last30days`, Monday-start weeks for `last3months`, months otherwise |
| `Analytics.FindLabel` | src/pages/Analytics.tsx:90-91 | The key is found iff some row carries it as its label, and the index found is the first such row |
| `Analytics.FormatAll` | src/pages/Analytics.tsx:76-77 | Each trend date is formatted with the window's label format, in order |
| `Analytics.SeedLoop` | src/pages/Analytics.tsx:75-79 | The loop that fills `dataMap` produces `SeedRows` of the formatted labels |
| `Analytics.FoldLoop` | src/pages/Analytics.tsx:81-98 | The loop over the filtered patients produces the `FoldPatients` fold of the seeded rows |
| `Analytics.AddPatientStep` | src/pages/Analytics.tsx:82-97 | The body of the second `forEach` for one patient computes its key and performs exactly one `AddPatient` step on the rows |
| `Analytics.SetRowStep` | src/pages/Analytics.tsx:78 | One `dataMap.set` overwrites the row with that label where one exists and appends it otherwise, as `SetRow` states |
| `Analytics.BuildTrends` | src/pages/Analytics.tsx:75-100 | Seeding and then folding produce `Trends` of the dates and patients |
| `Analytics.ComputeAnalytics` | src/pages/Analytics.tsx:14-103 | `allCodes` are the windowed patients' codes; `codeUsage` is exactly the two rows ICD-11, NAMASTE with their counts; `validationAccuracy` is exactly Approved, Rejected, Pending with their counts; the trends are `Trends` of the window's dates |
| `Analytics.WindowPatientsSpec` | src/pages/Analytics.tsx:44 | A patient is in the window iff its last visit is at or after the start date; order is kept |
| `Analytics.AccuracyRowsSum` | src/pages/Analytics.tsx:56-63 | With well-formed statuses the three accuracy counts add up to the number of codes |
| `Analytics.SystemCountsBound` | src/pages/Analytics.tsx:48-53 | The ICD-11 and NAMASTE counts together never exceed the number of codes |
| `Analytics.DedupSpec` | src/pages/Analytics.tsx:75-79 | `Map.set` on repeated labels keeps each label once, in first-occurrence order, and loses none |
| `Analytics.SeedRowsSpec` | src/pages/Analytics.tsx:75-79 | The seeded rows' labels are the distinct formatted labels, and every seeded row is a zero row |
| `Analytics.AddPatientLabels` | src/pages/Analytics.tsx:90-97 | A patient never adds, removes or reorders rows |
| `Analytics.AddPatientTouchesOneRow` | src/pages/Analytics.tsx:81-98 | A patient whose key matches no label is dropped; otherwise only rows with that label can change |
| `Analytics.FoldKeepsLabels` | src/pages/Analytics.tsx:81-98 | The whole fold keeps the seeded labels exactly |
| `Analytics.FoldKeepsConsistent` | src/pages/Analytics.tsx:92-96 | If every row has `total == icd11 + namaste` before the fold, every row has it after |
| `Analytics.FoldSumBound` | src/pages/Analytics.tsx:83-97 | The fold adds at most the number of the patients' codes to the sum of row totals |
| `Analytics.FoldRowCounts` | src/pages/Analytics.tsx:81-98 | Over rows with distinct labels, the fold keeps each row's label and adds to its `icd11` and `namaste` the ICD-11 and NAMASTE counts of the patients whose key is that label, and nothing else |
| `Analytics.ZeroRowsSum` | src/pages/Analytics.tsx:78 | Zero rows sum to zero and are consistent |
| `Analytics.TrendsSpec` | src/pages/Analytics.tsx:75-100 | The trend rows are one per distinct label, in first-occurrence order; each row's `icd11` and `namaste` are the ICD-11 and NAMASTE code counts of exactly the patients whose key is its label, with `total == icd11 + namaste`; the totals add up to at most the number of codes |
| `Analytics.NoPatientsZeroTrends` | src/pages/Analytics.tsx:75-79 | With no patients every trend row is a zero row |
| `DashboardFixed.SomeEntryExists` | src/pages/Dashboard_fixed.tsx:75-76 | `some` holds iff some element satisfies the predicate |
| `DashboardFixed.MatchesMeaning` | src/pages/Dashboard_fixed.tsx:74-81 | The status (code-system) filter holds iff it is `all` or some diagnosis or treatment has that status (code system) |
| `DashboardFixed.FilteredPatients` | src/pages/Dashboard_fixed.tsx:67-84 | The filtered list is no longer than the patients, and every patient in it is one of them that passes the search, status and code-system predicates (both directions and order: `FilteredPatientsSpec`) |
| `DashboardFixed.FilteredPatientsSpec` | src/pages/Dashboard_fixed.tsx:67-84 | A patient is listed iff it matches the search, status and code-system filters; the list is an ordered sub-list of the patients |
| `DashboardFixed.NeutralFilters` | src/pages/Dashboard_fixed.tsx:69-81 | An empty search with both filters on `all` lists every patient in order |
| `DashboardFixed.SortByLastVisit` | src/pages/Dashboard_fixed.tsx:87 | The in-place sort leaves the array newest-first by last visit and a permutation of what it was |
| `DashboardFixed.InsertAt` | src/pages/Dashboard_fixed.tsx:87 | One insertion step extends the newest-first prefix by one element and permutes the array |
| `DashboardFixed.SortedCopy` | src/pages/Dashboard_fixed.tsx:87 | Sorting the filtered list yields a newest-first permutation of it |
| `DashboardFixed.StatusTallyCounts` | src/pages/Dashboard_fixed.tsx:91-99 | The `reduce` tally of one status equals the count of that status over all codes |
| `DashboardFixed.StatsOf` | src/pages/Dashboard_fixed.tsx:89-100 | `totalPatients` is the number of patients (all of them, not the filtered ones), and the approved, rejected and pending tallies are the counts of those statuses over all their codes |
| `DashboardFixed.StatsPartition` | src/pages/Dashboard_fixed.tsx:89-100 | `totalPatients` is the number of patients, and with well-formed statuses the approved, rejected and pending tallies add up to the number of codes |
| `DashboardFixed.MapFromApi` | src/pages/Dashboard_fixed.tsx:40-49 | The fetched list is mapped patient by patient with the corrected mapping `FromApi`, keeping its length and order |
| `DashboardFixed.DashboardPage.constructor` | src/pages/Dashboard_fixed.tsx:22-27 | No patients, empty search, both filters `all`, loading, no error |
| `DashboardFixed.DashboardPage.FetchPatients` | src/pages/Dashboard_fixed.tsx:31-61 | On success the list mapped by `MapFromApi` replaces the patients and the error is cleared; on failure the patients stay and the load error is set; loading ends either way; the filters are untouched |
| `DashboardFixed.DashboardPage.AddPatient` | src/pages/Dashboard_fixed.tsx:63-65 | The new patient goes first, before all earlier patients |
| `DashboardFixed.DashboardPage.SetFilters` | src/pages/Dashboard_fixed.tsx:23-25 | Only the three filter fields change |
| `DashboardFixed.DashboardPage.VisibleRows` | src/pages/Dashboard_fixed.tsx:67-87 | The rendered rows (`slice(0, 10)` of the sorted list, at line 327) are `min(10, n)` of the n filtered patients, newest first, each matching all filters; every filtered patient not shown is no newer than the last row, and all are shown when n is at most ten |
| `DashboardFixed.TakeNewest` | src/pages/Dashboard_fixed.tsx:327 | The first ten of a newest-first ordering of the filtered list are its first page: `min(10, n)` rows, none older than a patient left out |
| `DashboardFixed.AddedPatientFilteredFirst` | src/pages/Dashboard_fixed.tsx:63-65 | After adding a patient, the filtered list is that patient (if it matches) followed by the previous filtered list; the patient count grows by one |
| `DashboardFixed.CodeSystemFilterAsWrittenHidesAll` | src/pages/Dashboard_fixed.tsx:79-81 | With the mapping as written, any code-system selector other than `all` rejects every patient |
| `DashboardFixed.CodeSystemFilterCounterexample` | src/pages/Dashboard_fixed.tsx:40-49 | A patient with one ICD-11 diagnosis is hidden by the ICD-11 selector as written, and kept by it under the corrected mapping |
| `DashboardFixed.CodeSystemFilterMapped` | src/pages/Dashboard_fixed.tsx:79-81 | Under the corrected mapping a patient passes a code-system selector iff some payload diagnosis or treatment has that `code_system` |
| `Dashboard.SearchSpec` | src/pages/Dashboard.tsx:34-38 | A patient is listed iff the term occurs case-insensitively in its name or patient id; order is kept |
| `Dashboard.SearchPatients` | src/pages/Dashboard.tsx:34-38 | The result is no longer than the patients, and each patient in it is one of them whose name or patient id contains the term (both directions and order: `SearchSpec`) |
| `Dashboard.EmptySearchKeepsAll` | src/pages/Dashboard.tsx:34-38 | The empty term keeps every patient |
| `Dashboard.StatsOf` | src/pages/Dashboard.tsx:40-51 | `totalPatients` is the number of patients and `recentValidations` never exceeds it |
| `Dashboard.ValidInvalidPartition` | src/pages/Dashboard.tsx:42-47 | Valid plus invalid codes equals the number of diagnoses and treatments of all patients |
| `Dashboard.RecentMeaning` | src/pages/Dashboard.tsx:48-50 | A patient is recent iff its last visit is strictly after now minus one week (604800000 ms) |
| `Dashboard.VisibleRows` | src/pages/Dashboard.tsx:193 | Exactly the first `min(10, n)` of the n search results |
| `RejectedCodes.FilteredCodesIsOneFilter` | src/pages/RejectedCodes.tsx:69-92 | The step-by-step reassignment of `filtered` equals one filter by the combined predicate |
| `RejectedCodes.FilteredCodesSpec` | src/pages/RejectedCodes.tsx:72-89 | A code is shown iff the term is empty or occurs in its code, patient, doctor or reason, and it passes the read filter (`unread`, `read`, anything else keeps all); order is kept |
| `RejectedCodes.FilteredCodes` | src/pages/RejectedCodes.tsx:70-91 | The shown list is no longer than the codes, and each code in it is one of them that matches the search (when there is one) and the read filter (both directions and order: `FilteredCodesSpec`) |
| `RejectedCodes.NeutralFilters` | src/pages/RejectedCodes.tsx:70-89 | An empty search with filter `all` shows every code |
| `RejectedCodes.MarkRead` | src/pages/RejectedCodes.tsx:97-101 | Each code is read afterwards iff it was read or has the id; nothing else about any code changes |
| `RejectedCodes.MarkReadIdempotent` | src/pages/RejectedCodes.tsx:97-101 | Marking the same id twice is the same as marking it once |
| `RejectedCodes.MarkReadAbsent` | src/pages/RejectedCodes.tsx:97-101 | Marking an id no code has changes nothing |
| `RejectedCodes.MarkReadUnread` | src/pages/RejectedCodes.tsx:97-101 | Marking never raises the unread count, and lowers it when an unread code has the id |
| `RejectedCodes.CsvFields` | src/pages/RejectedCodes.tsx:110-118 | A row has the seven header columns, the reason in double quotes and `Read` in the last column iff the code is read |
| `RejectedCodes.CsvLines` | src/pages/RejectedCodes.tsx:110-118 | One line per shown code, in order |
| `RejectedCodes.Csv` | src/pages/RejectedCodes.tsx:108-119 | The export starts with the header line, followed by a newline when there are codes; with no codes it is the header alone (the lines themselves: `CsvSplitsIntoLines`) |
| `RejectedCodes.FieldsAvoidAll` | src/pages/RejectedCodes.tsx:110-118 | A character absent from the code's text fields, its formatted date and the quote and status words is absent from every column |
| `RejectedCodes.CsvSplitsIntoLines` | src/pages/RejectedCodes.tsx:108-119 | When no field holds a newline, splitting the export on newlines gives the header line followed by one line per code |
| `RejectedCodes.CsvLineSplitsIntoFields` | src/pages/RejectedCodes.tsx:110-118 | When no field holds a comma, a line splits back into its seven columns, the last `Read` iff the code is read |
| `RejectedCodes.GetStatistics` | src/pages/RejectedCodes.tsx:130-141 | `total` is the number of codes, `unread` and `read` count the unread and read codes and add up to `total`, and `today` is at most `total` |
| `RejectedCodes.RejectedCodesPage.constructor` | src/pages/RejectedCodes.tsx:39-44 | No codes, loading, no error, empty search, filter `all` |
| `RejectedCodes.RejectedCodesPage.ApplyFilters` | src/pages/RejectedCodes.tsx:69-92 | The effect sets the shown codes to the filtered codes and changes nothing else |
| `RejectedCodes.RejectedCodesPage.FetchRejectedCodes` | src/pages/RejectedCodes.tsx:48-62 | On success the codes become the response or `[]`, the error clears and the shown list is refiltered; on failure the lists stay and the fetch error is set; loading ends |
| `RejectedCodes.RejectedCodesPage.SetSearch` | src/pages/RejectedCodes.tsx:43-44 | New search and filter values, and the shown list refiltered with them |
| `RejectedCodes.RejectedCodesPage.MarkAsRead` | src/pages/RejectedCodes.tsx:94-105 | The codes become `MarkRead` of the old codes and the shown list is refiltered |
| `TreatmentApproval.Transform` | src/pages/AdminTreatmentApproval_fixed.tsx:47-57 | Each default: patient name or `Unknown Patient`, patient id or `N/A`, validator or `System`; the submitted date is the validation date, else the creation date; the rest is copied |
| `TreatmentApproval.TransformNeverBlank` | src/pages/AdminTreatmentApproval_fixed.tsx:49-56 | Patient name, patient id and submitter are never empty after the transform |
| `TreatmentApproval.TransformAll` | src/pages/AdminTreatmentApproval_fixed.tsx:47-57 | The fetched list is transformed element by element, keeping length and order |
| `TreatmentApproval.FilteredTreatmentsSpec` | src/pages/AdminTreatmentApproval_fixed.tsx:72-84 | A treatment is kept iff its patient name, patient id or code contains the term and the status filter is `all` or equals its status; order is kept |
| `TreatmentApproval.FilteredTreatments` | src/pages/AdminTreatmentApproval_fixed.tsx:72-84 | The filtered list is no longer than the treatments, and each treatment in it is one of them whose patient name, patient id or code contains the term and whose status passes the filter (both directions and order: `FilteredTreatmentsSpec`) |
| `TreatmentApproval.NeutralFilters` | src/pages/AdminTreatmentApproval_fixed.tsx:73-81 | Empty search and `all` keep every treatment |
| `TreatmentApproval.CountsPartition` | src/pages/AdminTreatmentApproval_fixed.tsx:125-127 | With well-formed statuses pending, approved and rejected counts add up to the number of treatments |
| `TreatmentApproval.SetStatus` | src/pages/AdminTreatmentApproval_fixed.tsx:92-94 | Exactly the entries with the id take the new status; every other field and entry is kept |
| `TreatmentApproval.ApproveIds` | src/pages/AdminTreatmentApproval_fixed.tsx:112-114 | Exactly the entries whose id is listed become approved; everything else is kept |
| `TreatmentApproval.ApproveIdsOneByOne` | src/pages/AdminTreatmentApproval_fixed.tsx:112-114 | Approving a list of ids is approving its last id after the rest |
| `TreatmentApproval.TreatmentIds` | src/pages/AdminTreatmentApproval_fixed.tsx:242 | `map(t => t.id)` keeps length and order |
| `TreatmentApproval.PendingIds` | src/pages/AdminTreatmentApproval_fixed.tsx:242 | One id per pending treatment (which ids: `PendingIdsSpec`) |
| `TreatmentApproval.PendingIdsSpec` | src/pages/AdminTreatmentApproval_fixed.tsx:242 | The pending ids are as many as the pending treatments, and an id is listed iff some pending treatment has it |
| `TreatmentApproval.ApprovePendingClearsPending` | src/pages/AdminTreatmentApproval_fixed.tsx:241-245 | Approving the pending ids leaves no pending treatment |
| `TreatmentApproval.Actions` | src/pages/AdminTreatmentApproval_fixed.tsx:334-354 | Approve/reject actions are offered iff the treatment is pending, and they are only approve and reject |
| `TreatmentApproval.SuccessCount` | src/pages/AdminTreatmentApproval_fixed.tsx:109 | The number of truthy results never exceeds the number of calls |
| `TreatmentApproval.SuccessCountFull` | src/pages/AdminTreatmentApproval_fixed.tsx:109-111 | All calls counted as successes iff every call resolved truthy |
| `TreatmentApproval.TreatmentApprovalPage.constructor` | src/pages/AdminTreatmentApproval_fixed.tsx:30-35 | Empty lists, empty search, `all`, loading, no error |
| `TreatmentApproval.TreatmentApprovalPage.ApplyFilters` | src/pages/AdminTreatmentApproval_fixed.tsx:72-84 | The effect recomputes only the filtered list |
| `TreatmentApproval.TreatmentApprovalPage.FetchTreatments` | src/pages/AdminTreatmentApproval_fixed.tsx:37-70 | On success both lists become the transformed response; on failure they stay and the load error is set; loading ends |
| `TreatmentApproval.TreatmentApprovalPage.SetFilters` | src/pages/AdminTreatmentApproval_fixed.tsx:32-33 | New search and status filter, with the list refiltered |
| `TreatmentApproval.TreatmentApprovalPage.HandleStatusUpdate` | src/pages/AdminTreatmentApproval_fixed.tsx:86-100 | After a resolved call only the entry with the id takes the new status; after a failed call nothing changes |
| `TreatmentApproval.TreatmentApprovalPage.HandleBulkApproval` | src/pages/AdminTreatmentApproval_fixed.tsx:102-123 | State changes only if every call resolved truthy, and then exactly the listed ids become approved; a throw or a partial success changes nothing and reports which case occurred |
| `TreatmentApproval.TreatmentApprovalPage.ApproveAllPending` | src/pages/AdminTreatmentApproval_fixed.tsx:239-245 | A request is made iff some treatment is pending; its result is the bulk outcome of the calls (error on a throw, partial with the success count, or all approved); a full success approves exactly the pending ids, leaves none pending and refilters; otherwise the lists stay; search, filter, loading and error never change |
| `PatientDetails.CanApproveMeaning` | src/pages/PatientDetails_new.tsx:139 | Approval needs a signed-in user whose role is `admin` or `auditor` |
| `PatientDetails.NewEntry` | src/pages/PatientDetails_new.tsx:36-44 | A form entry is always `pending`, validated by `N/A`, with the form's code, description and system |
| `PatientDetails.ValidatorName` | src/pages/PatientDetails_new.tsx:195 | The user's name when there is a user with a non-empty name, otherwise `Admin` |
| `PatientDetails.UpdateEntries` | src/pages/PatientDetails_new.tsx:194-200 | Entries with the id take the new status, validator and date with their other fields kept; every other entry is kept |
| `PatientDetails.UpdateEntriesProperties` | src/pages/PatientDetails_new.tsx:194-200 | Updating an absent id changes nothing; repeating an update changes nothing more |
| `PatientDetails.WithStatus` | src/pages/PatientDetails_new.tsx:192-201 | A `diagnoses` update leaves the treatments and every other patient field as they were and re-signs, in the diagnoses, exactly the entries with the id (new status, validator and date, other fields kept); a `treatments` update likewise; the number of codes is kept |
| `PatientDetails.WithNewCodeFrame` | src/pages/PatientDetails_new.tsx:214-237 | Adding puts the entry first in the chosen list only, with the old list behind it |
| `PatientDetails.NewCodeIsPending` | src/pages/PatientDetails_new.tsx:36-44 | Adding a form entry raises the patient's pending count by one |
| `PatientDetails.PatientDetailsPage.constructor` | src/pages/PatientDetails_new.tsx:132-135 | No patient, loading, no error, diagnoses tab |
| `PatientDetails.PatientDetailsPage.Load` | src/pages/PatientDetails_new.tsx:141-178 | A fetch happens iff the route id is truthy; a missing id sets `Patient ID is required`; success stores the patient under the corrected mapping `FromApi`, failure sets the load error; loading ends |
| `PatientDetails.PatientDetailsPage.SelectTab` | src/pages/PatientDetails_new.tsx:135 | Only the active tab changes |
| `PatientDetails.PatientDetailsPage.HandleStatusUpdate` | src/pages/PatientDetails_new.tsx:180-207 | No patient or a failed call changes nothing; otherwise only the chosen list is updated, signed by the user's name or `Admin` |
| `PatientDetails.PatientDetailsPage.HandleAddCode` | src/pages/PatientDetails_new.tsx:209-238 | No patient or a failed call changes nothing; otherwise the code goes first in the active tab's list |
| `ApiViews.ValidatorOf` | backend/api/views.py:84 | The username of an authenticated user, otherwise `N/A` |
| `ApiViews.PendingRefused` | backend/api/views.py:82 | `pending`, although a valid status, is not accepted by `update_status`, and neither is a missing status |
| `ApiViews.CodeRecord.constructor` | backend/api/models.py:28-42 | A stored code with the given fields |
| `ApiViews.CodeRecord.UpdateStatus` | backend/api/views.py:79-107 | 200 iff the status is `approved` or `rejected`, and then the status, the validator and now as the date are set; otherwise 400 and nothing changes; id, code, description and system never change |
| `ApiViews.PrepareCodeData` | backend/api/views.py:26-31 | The request's keys plus the five overridden ones; patient, id, `pending`, now and `N/A` override whatever the request sent; every other key is copied |
| `ApiViews.AddedCodeIsPending` | backend/api/views.py:26-35 | A stored new code is `pending`, validated by `N/A` at now, with the request's code, description and code system |
| `ApiViews.PatientRecord.constructor` | backend/api/models.py:17-23 | A patient with no codes |
| `ApiViews.PatientRecord.AddCode` | backend/api/views.py:23-59 | 201 iff the serializer accepts the prepared data, and then the new row, dated by the first clock reading, is appended to the chosen list only and last visit becomes the second clock reading; otherwise 400 and nothing changes |
| `ApiViews.RangeDays` | backend/api/views.py:121-130 | 7, 30, 90 or 365 days for the four named ranges; 30 days for anything else |
| `ApiViews.MissingRangeIsThirtyDays` | backend/api/views.py:117-130 | A missing range and any unknown range both give the 30-day window |
| `ApiViews.ReportWindow` | backend/api/views.py:120-132 | The window ends today and starts the range's number of days earlier |
| `ApiViews.ParseReportType` | backend/api/views.py:160-171 | A report type is recognised iff it is one of the five names |
| `ApiViews.Tally` | backend/api/views.py:193-209 | The counters count every code once: total is the number of codes and equals approved + rejected + pending (which codes land where: `TallySpec`) |
| `ApiViews.TallySpec` | backend/api/views.py:193-209 | The summary's counters count all codes, the approved ones, the rejected ones, and all others as pending; total is their sum |
| `ApiViews.RateBounds` | backend/api/views.py:216 | A rate of approved over total is between 0 and 100 |
| `ApiViews.ValidationSummary` | backend/api/views.py:187-217 | The loops' counters equal the tally of all codes in order; total is approved + rejected + pending; the rate is 0 for no codes, otherwise approved/total·100, and lies in [0, 100] |
| `ApiViews.TallyCodes` | backend/api/views.py:194-209 | An inner loop over one list extends the counters of the codes seen so far to the tally of those codes followed by that list |
| `ApiViews.PatientRecords` | backend/api/views.py:219-231 | One row per patient with its id, patient id and its diagnosis and treatment counts |
| `ApiViews.FindKey` | backend/api/views.py:238 | `key in code_usage`: the index found holds the key, and no entry has the key when none is found |
| `ApiViews.UseFacts` | backend/api/views.py:237-240 | One code bumps the count of its existing key, or appends its key with count 1 and its description; the keys stay distinct, the counts grow by one in total, and descriptions never change |
| `ApiViews.Usage` | backend/api/views.py:233-246 | The dict never has more keys than there are codes (keys, counts and descriptions: `UsageKeysSpec`, `UsageCountsSpec`, `UsageDescriptionSpec`) |
| `ApiViews.UsageKeysSpec` | backend/api/views.py:233-246 | The dict has distinct keys, one for each `code (code_system)` that occurs among the codes |
| `ApiViews.UsageCountsSpec` | backend/api/views.py:233-246 | Each key's count is the number of codes with that key, and the counts add up to the number of codes |
| `ApiViews.UsageDescriptionSpec` | backend/api/views.py:238-239 | Each key keeps the description of the first code with that key |
| `ApiViews.UseCode` | backend/api/views.py:237-240 | Inserting with count 0 when new and then incrementing is one `Use` step |
| `ApiViews.UseCodes` | backend/api/views.py:236-240 | An inner loop over one list extends the usage of the codes seen so far by that list |
| `ApiViews.CodeUsageAnalysis` | backend/api/views.py:233-246 | The nested loops build exactly the usage of all diagnoses and treatments, patient by patient |
| `ApiViews.Generate` | backend/api/views.py:114-185 | The window comes from the date range; an unknown report type gives 400 and no data; each known type gives 201 with its report's data; the validation report's counters are the tally of all codes and its rate is the approved percentage, 0 when there are no codes |
| `Auth.FindByEmail` | src/contexts/AuthContext.tsx:54 | `find` returns a user of the table with that email, and returns nothing iff no user has it |
| `Auth.AuthenticateSpec` | src/contexts/AuthContext.tsx:54-60 | A login succeeds iff some table user has the email and the password is `password123`, and it signs in that user |
| `Auth.MockEmailsDistinct` | src/contexts/AuthContext.tsx:22-27 | The four accounts have distinct emails |
| `Auth.EveryAccountSignsIn` | src/contexts/AuthContext.tsx:54-59 | Each account signs in as itself with `password123` and fails with any other password |
| `Auth.AuthProvider.constructor` | src/contexts/AuthContext.tsx:34-35 | Nobody signed in and loading |
| `Auth.AuthProvider.Mount` | src/contexts/AuthContext.tsx:37-44 | The saved user is restored iff the `medicode_user` key is present; loading ends; storage is unchanged |
| `Auth.AuthProvider.Login` | src/contexts/AuthContext.tsx:46-68 | Returns true iff the credentials authenticate; on success the user is that account and it is saved under the key; on failure user and storage are unchanged; loading ends either way |
| `Auth.AuthProvider.Logout` | src/contexts/AuthContext.tsx:70-73 | Nobody is signed in and the key is removed from storage, nothing else |
| `Auth.LoginSurvivesReload` | src/contexts/AuthContext.tsx:37-58 | From any saved storage: after a login and a reload, the restored user is the account the credentials authenticate; after a failed login, the reload restores the previously saved session, or nobody when none was saved |
| `Auth.LogoutSurvivesReload` | src/contexts/AuthContext.tsx:37-73 | After a logout and a reload nobody is restored |
| `Admin.FilteredUsersSpec` | src/pages/Admin.tsx:116-120 | A user is listed iff the term occurs case-insensitively in its name, email or organization; the list is an ordered sub-list |
| `Admin.FilteredUsers` | src/pages/Admin.tsx:116-120 | The list is no longer than the users, and each user in it is one of them whose name, email or organization contains the term (both directions and order: `FilteredUsersSpec`) |
| `Admin.EmptySearchKeepsAll` | src/pages/Admin.tsx:116-120 | The empty term lists every user |
| `Admin.Initial` | src/pages/Admin.tsx:181 | A word contributes its first character, and an empty word contributes nothing |
| `Admin.InitialsOfWords` | src/pages/Admin.tsx:181 | `map(n => n[0])` maps each word to its initial, in order |
| `Admin.Initials` | src/pages/Admin.tsx:181 | At most one character per space-separated word, each the first character of a word, and never a space |
| `Admin.InitialsOfWord` | src/pages/Admin.tsx:181 | A name without spaces gives its first character |
| `Admin.InitialsStep` | src/pages/Admin.tsx:181 | The initials of `first rest` are the initial of `first` followed by the initials of `rest` |
| `Admin.AdminUserInitials` | src/pages/Admin.tsx:79 | The account `Admin User` shows `AU` |

## Left out

- `DashboardFixed.MapFromApi` maps through the corrected `Records.FromApi`, which also renames the nested entries. The page as written keeps them as the snake_case payload objects (see "## Findings"); that mapping is modelled only by `Records.FromApiAsWritten` and the lemmas about it.
- `DashboardFixed.DashboardPage.FetchPatients` stores the corrected mapping, so the page model, including `DashboardFixed.DashboardPage.VisibleRows` and its code-system filtering, describes the intended page rather than the one that hides every patient under a code-system selector.
- `PatientDetails.PatientDetailsPage.Load` stores the corrected mapping `Records.FromApi`; the page as written keeps the payload's nested entries unrenamed (src/pages/PatientDetails_new.tsx:157-166), which this model does not capture.
- Rendering is not modelled: JSX, animation, charts, icons, badges, modals and alert texts.
- date-fns and `Date` are parameters (`Calendar`, a `formatDate` function, `now`), with timestamps as integers. Week starts, month arithmetic and locale formatting are not modelled. Analytics keeps the default-week `startOfWeek` of the window apart from the Monday-start one used for the trend keys.
- `toLowerCase` folds ASCII `A`–`Z` only. Case folding of other Unicode letters is not modelled.
- Network calls are outcome parameters: `Resolved` with the response, or `Threw`. `Promise.all` in bulk approval is a sequence of per-id outcomes. Which call fails first, and the concurrency, are not modelled.
- Intermediate `isLoading`/`loading` values inside a handler are not modelled, nor are re-renders between awaits. Only the state once a handler returns is stated. `Auth.AuthProvider.Login` sets `isLoading` to true on entry, but no contract can observe that.
- `DashboardFixed.SortByLastVisit` is an insertion sort. It is proved newest-first and a permutation. The stability and exact order of JavaScript's `Array.prototype.sort` among equal dates are not modelled.
- `PatientDetails.PatientDetailsPage.HandleAddCode`: the source `unshift`s into the list that the old state object shares. The model builds a new list, so the aliasing is not modelled.
- The request body that `handleAddCode` sends to the API is not modelled, because the response is ignored.
- The Django ORM is not modelled: querysets, `.distinct()`, the date and code-system filtering of patients in `generate`, and `prefetch_related`. `Generate` receives the selected patients as a parameter.
- Django persistence is not modelled: saving the `Report`, its name, `created_by`, and the `debug=list_patients` branch.
- `AddCode` takes serializer validation as a predicate parameter, and the generated row id and UUID as parameters. The serializer's error payload is not modelled.
- `list_patients_with_last_visit` is not modelled, because it only reads data.
- `ApiViews.ValidationSummary`: the approval rate is a real number; Python floating-point rounding is not modelled.
- `ApiViews.PatientRecords` states the id, the patient id and the two counts. The name, age, gender and ISO formatting of `last_visit` are plain copies and are not stated.
- `generate_compliance_report` and `generate_audit_report` are modelled only as their fixed messages.
- `Dashboard.StatsOf` states only the bound on `recentValidations`. Its meaning is stated separately by `Dashboard.RecentMeaning`, and the valid/invalid tallies by `Dashboard.ValidInvalidPartition`.
- `RejectedCodes.GetStatistics`: `today` compares `toDateString()` of the code's date and the current date. It is a predicate parameter, so only `today <= total` is stated.
- `RejectedCodes.CsvLineSplitsIntoFields` holds only when no column contains a comma. The source does not quote the date column (`toLocaleString()`, src/pages/RejectedCodes.tsx:116), and common locales put a comma in it ("1/15/2025, 10:30:00 AM"). Real export lines then split into eight pieces under the seven-column header, so the lemma does not cover them. Date formatting is a parameter here.
- The CSV Blob, the download link and the file name with the ISO date are not modelled (browser I/O).
- JSON (de)serialisation of the stored user is not modelled. Storage is a map from keys to users.
- Routing, route guards, the landing page and the mock-only Reports page are not modelled. The remaining Admin page tabs are static data and are not modelled either.
- Mock data generation with faker (`mockData.ts`), and the non-HEAD sides of merge conflicts, are not modelled.
- Concrete initials are computed only for `Admin User`. The general lemmas `Admin.InitialsStep` and `Admin.InitialsOfWord` determine those of the other three accounts.

## Findings

| source | as written | input that shows it | evidently intended | confidence | as-written member | corrected member |
|---|---|---|---|---|---|---|
| src/pages/Dashboard_fixed.tsx:40-49 | The mapping renames only the top-level fields. `diagnoses`/`treatments` stay the payload's snake_case objects, so `d.codeSystem` at lines 79-81 is undefined, and every patient fails any code-system selector other than `all` (src/pages/PatientDetails_new.tsx:157-166 maps the same way). | A patient whose single diagnosis has `code_system: "ICD-11"`, with the ICD-11 selector chosen: it is hidden. | Nested entries are renamed too (`code_system` to `codeSystem` and so on), so that the selector keeps patients with a code in that system. | not executed | `DashboardFixed.CodeSystemFilterCounterexample` | `DashboardFixed.CodeSystemFilterMapped` |
