/** The rejected-codes page: the fetched list, its search and read/unread
    filter, marking a code as read, the CSV export and the statistics. */
module RejectedCodes {
  import opened Common

  const FetchError: string := "Failed to fetch rejected codes"
  const All: string := "all"
  const UnreadFilter: string := "unread"
  const ReadFilter: string := "read"

  /** A rejected validation as the history endpoint returns it; `validatedAt` is a timestamp. */
  datatype RejectedCode = RejectedCode(
    id: string,
    submittedCode: string,
    submittedCodeSystem: string,
    validationResult: string,
    rejectionReason: string,
    validatedBy: string,
    validatedAt: int,
    patientName: string,
    patientId: string,
    doctorName: string,
    suggestions: Option<seq<string>>,
    isRead: bool)

  // ---------------------------------------------------------------------------
  // The filter effect

  predicate MatchesSearch(c: RejectedCode, term: string)
  {
    Includes(c.submittedCode, term) || Includes(c.patientName, term) ||
    Includes(c.doctorName, term) || Includes(c.rejectionReason, term)
  }

  /** `'unread'` keeps the unread codes, `'read'` the read ones, anything else keeps all. */
  predicate MatchesReadFilter(c: RejectedCode, selected: string)
  {
    if selected == UnreadFilter then !c.isRead
    else if selected == ReadFilter then c.isRead
    else true
  }

  function SearchKeep(term: string): RejectedCode -> bool
  {
    (c: RejectedCode) => MatchesSearch(c, term)
  }

  function IsRead(read: bool): RejectedCode -> bool
  {
    (c: RejectedCode) => c.isRead == read
  }

  /** What the effect leaves in `filteredCodes`, step by step as it narrows `filtered`. */
  function FilteredCodes(codes: seq<RejectedCode>, term: string, selected: string): (r: seq<RejectedCode>)
    ensures |r| <= |codes|
    ensures forall c :: c in r ==> c in codes && (term == "" || MatchesSearch(c, term)) && MatchesReadFilter(c, selected)
  {
    var searched := if term != "" then Filter(codes, SearchKeep(term)) else codes;
    if selected != All && selected == UnreadFilter then Filter(searched, IsRead(false))
    else if selected != All && selected == ReadFilter then Filter(searched, IsRead(true))
    else searched
  }

  function Shown(term: string, selected: string): RejectedCode -> bool
  {
    (c: RejectedCode) => (term == "" || MatchesSearch(c, term)) && MatchesReadFilter(c, selected)
  }

  /** The effect is one filter by the conjunction of the search and the read selector. */
  lemma FilteredCodesIsOneFilter(codes: seq<RejectedCode>, term: string, selected: string)
    ensures FilteredCodes(codes, term, selected) == Filter(codes, Shown(term, selected))
  {
    var keepAll := (c: RejectedCode) => true;
    if term != "" {
      if selected == UnreadFilter {
        FilterTwice(codes, SearchKeep(term), IsRead(false), Shown(term, selected));
      } else if selected == ReadFilter {
        FilterTwice(codes, SearchKeep(term), IsRead(true), Shown(term, selected));
      } else {
        FilterTwice(codes, SearchKeep(term), keepAll, Shown(term, selected));
        FilterKeepsAll(Filter(codes, SearchKeep(term)), keepAll);
      }
    } else {
      if selected == UnreadFilter {
        FilterTwice(codes, keepAll, IsRead(false), Shown(term, selected));
      } else if selected == ReadFilter {
        FilterTwice(codes, keepAll, IsRead(true), Shown(term, selected));
      } else {
        FilterTwice(codes, keepAll, keepAll, Shown(term, selected));
        FilterKeepsAll(Filter(codes, keepAll), keepAll);
      }
      FilterKeepsAll(codes, keepAll);
    }
  }

  /** A code is shown iff it matches the search (when there is one) and the read
      selector; the shown codes keep their order. */
  lemma FilteredCodesSpec(codes: seq<RejectedCode>, term: string, selected: string)
    ensures forall c :: c in FilteredCodes(codes, term, selected) <==>
              c in codes && (term == "" || MatchesSearch(c, term)) && MatchesReadFilter(c, selected)
    ensures IsSubsequence(FilteredCodes(codes, term, selected), codes)
  {
    FilteredCodesIsOneFilter(codes, term, selected);
    FilterMembers(codes, Shown(term, selected));
    FilterIsSubsequence(codes, Shown(term, selected));
  }

  /** No search and the `'all'` selector show every code. */
  lemma NeutralFilters(codes: seq<RejectedCode>)
    ensures FilteredCodes(codes, "", All) == codes
  {
  }

  // ---------------------------------------------------------------------------
  // Mark as read

  /** `prev.map(code => code.id === codeId ? { ...code, is_read: true } : code)`. */
  function MarkRead(codes: seq<RejectedCode>, id: string): (r: seq<RejectedCode>)
    ensures |r| == |codes|
    ensures forall k :: 0 <= k < |codes| ==> r[k].isRead == (codes[k].isRead || codes[k].id == id)
    ensures forall k :: 0 <= k < |codes| ==> r[k].(isRead := codes[k].isRead) == codes[k]
  {
    seq(|codes|, k requires 0 <= k < |codes| => if codes[k].id == id then codes[k].(isRead := true) else codes[k])
  }

  lemma MarkReadIdempotent(codes: seq<RejectedCode>, id: string)
    ensures MarkRead(MarkRead(codes, id), id) == MarkRead(codes, id)
  {
  }

  /** Marking an id no code has changes nothing. */
  lemma MarkReadAbsent(codes: seq<RejectedCode>, id: string)
    requires forall k :: 0 <= k < |codes| ==> codes[k].id != id
    ensures MarkRead(codes, id) == codes
  {
  }

  /** Marking never adds an unread code; it removes one per unread code with that id. */
  lemma {:induction false} MarkReadUnread(codes: seq<RejectedCode>, id: string)
    ensures |Filter(MarkRead(codes, id), IsRead(false))| <= |Filter(codes, IsRead(false))|
    ensures (exists k :: 0 <= k < |codes| && codes[k].id == id && !codes[k].isRead) ==>
              |Filter(MarkRead(codes, id), IsRead(false))| < |Filter(codes, IsRead(false))|
  {
    if codes != [] {
      MarkReadUnread(codes[1..], id);
      assert MarkRead(codes, id)[1..] == MarkRead(codes[1..], id);
      if exists k :: 0 <= k < |codes| && codes[k].id == id && !codes[k].isRead {
        var k :| 0 <= k < |codes| && codes[k].id == id && !codes[k].isRead;
        if k > 0 {
          assert codes[1..][k - 1] == codes[k];
        }
      }
    }
  }

  // ---------------------------------------------------------------------------
  // CSV export

  const CsvHeader: seq<string> := ["Code", "System", "Patient", "Doctor", "Reason", "Date", "Status"]

  /** The fields of one line; the date is rendered by the locale formatter `formatDate`. */
  function CsvFields(c: RejectedCode, formatDate: int -> string): (fields: seq<string>)
    ensures |fields| == |CsvHeader|
    ensures fields[4] == "\"" + c.rejectionReason + "\""
    ensures fields[6] == "Read" <==> c.isRead
  {
    [c.submittedCode, c.submittedCodeSystem, c.patientName, c.doctorName,
     "\"" + c.rejectionReason + "\"", formatDate(c.validatedAt), if c.isRead then "Read" else "Unread"]
  }

  function CsvLine(c: RejectedCode, formatDate: int -> string): string
  {
    Join(CsvFields(c, formatDate), ",")
  }

  function CsvLines(codes: seq<RejectedCode>, formatDate: int -> string): (lines: seq<string>)
    ensures |lines| == |codes|
    ensures forall k :: 0 <= k < |codes| ==> lines[k] == CsvLine(codes[k], formatDate)
  {
    seq(|codes|, k requires 0 <= k < |codes| => CsvLine(codes[k], formatDate))
  }

  /** `csvContent`: the header line first, then one line per code; with no codes, the header alone. */
  function Csv(codes: seq<RejectedCode>, formatDate: int -> string): (csv: string)
    ensures Join(CsvHeader, ",") <= csv
    ensures codes == [] ==> csv == Join(CsvHeader, ",")
    ensures codes != [] ==> Join(CsvHeader, ",") + "\n" <= csv
  {
    Join([Join(CsvHeader, ",")] + CsvLines(codes, formatDate), "\n")
  }

  predicate NoChar(s: string, c: char)
  {
    c !in s
  }

  /** The fields of a code hold no `c` (the date as the formatter renders it included). */
  predicate FieldsAvoid(code: RejectedCode, formatDate: int -> string, c: char)
  {
    NoChar(code.submittedCode, c) && NoChar(code.submittedCodeSystem, c) && NoChar(code.patientName, c) &&
    NoChar(code.doctorName, c) && NoChar(code.rejectionReason, c) && NoChar(formatDate(code.validatedAt), c)
  }

  lemma FieldsAvoidAll(code: RejectedCode, formatDate: int -> string, c: char)
    requires FieldsAvoid(code, formatDate, c) && c != '"'
    requires c !in "Read" && c !in "Unread"
    ensures forall k :: 0 <= k < |CsvFields(code, formatDate)| ==> c !in CsvFields(code, formatDate)[k]
  {
    var fields := CsvFields(code, formatDate);
    assert c !in fields[4] by {
      assert fields[4] == "\"" + code.rejectionReason + "\"";
    }
  }

  /** When no field holds a line break, the CSV splits back into the header line and
      one line per code, in order. */
  lemma CsvSplitsIntoLines(codes: seq<RejectedCode>, formatDate: int -> string)
    requires forall k :: 0 <= k < |codes| ==> FieldsAvoid(codes[k], formatDate, '\n')
    ensures Split(Csv(codes, formatDate), '\n') == [Join(CsvHeader, ",")] + CsvLines(codes, formatDate)
  {
    var lines := [Join(CsvHeader, ",")] + CsvLines(codes, formatDate);
    JoinAvoids(CsvHeader, ",", '\n');
    forall k | 0 <= k < |lines| ensures '\n' !in lines[k] {
      if k > 0 {
        var code := codes[k - 1];
        FieldsAvoidAll(code, formatDate, '\n');
        JoinAvoids(CsvFields(code, formatDate), ",", '\n');
      }
    }
    SplitJoin(lines, '\n');
  }

  /** When no field holds a comma, a line splits back into its seven fields and the
      last one is `Read` iff the code is read. */
  lemma CsvLineSplitsIntoFields(code: RejectedCode, formatDate: int -> string)
    requires FieldsAvoid(code, formatDate, ',')
    ensures Split(CsvLine(code, formatDate), ',') == CsvFields(code, formatDate)
    ensures |Split(CsvLine(code, formatDate), ',')| == 7
    ensures Split(CsvLine(code, formatDate), ',')[6] == "Read" <==> code.isRead
  {
    FieldsAvoidAll(code, formatDate, ',');
    SplitJoin(CsvFields(code, formatDate), ',');
  }

  // ---------------------------------------------------------------------------
  // Statistics

  datatype Statistics = Statistics(total: nat, unread: nat, read: int, today: nat)

  /** `getStatistics()`; `isToday` stands for comparing `toDateString()` with the current day. */
  function GetStatistics(codes: seq<RejectedCode>, isToday: int -> bool): (s: Statistics)
    ensures s.total == |codes|
    ensures s.read + s.unread == s.total && 0 <= s.read
    ensures s.unread == |Filter(codes, IsRead(false))| && s.read == |Filter(codes, IsRead(true))|
    ensures s.today <= s.total
  {
    FilterPartition(codes, IsRead(false), IsRead(true));
    var total := |codes|;
    var unread := |Filter(codes, IsRead(false))|;
    Statistics(total, unread, total - unread, |Filter(codes, (c: RejectedCode) => isToday(c.validatedAt))|)
  }

  // ---------------------------------------------------------------------------
  // The page state

  class RejectedCodesPage {
    var rejectedCodes: seq<RejectedCode>
    var filteredCodes: seq<RejectedCode>
    var loading: bool
    var error: Option<string>
    var searchTerm: string
    var selectedFilter: string

    constructor ()
      ensures rejectedCodes == [] && filteredCodes == [] && loading && error == None
      ensures searchTerm == "" && selectedFilter == All
    {
      rejectedCodes := [];
      filteredCodes := [];
      loading := true;
      error := None;
      searchTerm := "";
      selectedFilter := All;
    }

    /** The filter effect: `let filtered = rejectedCodes`, narrowed by the search and the selector. */
    method ApplyFilters()
      modifies this
      ensures filteredCodes == FilteredCodes(rejectedCodes, searchTerm, selectedFilter)
      ensures rejectedCodes == old(rejectedCodes) && searchTerm == old(searchTerm) && selectedFilter == old(selectedFilter)
      ensures loading == old(loading) && error == old(error)
    {
      var filtered := rejectedCodes;
      if searchTerm != "" {
        filtered := Filter(filtered, SearchKeep(searchTerm));
      }
      if selectedFilter != All {
        if selectedFilter == UnreadFilter {
          filtered := Filter(filtered, IsRead(false));
        } else if selectedFilter == ReadFilter {
          filtered := Filter(filtered, IsRead(true));
        }
      }
      filteredCodes := filtered;
    }

    /** `fetchRejectedCodes`: a null result counts as the empty list; a failure keeps
        the lists and sets the error; loading ends either way. */
    method FetchRejectedCodes(outcome: ApiResult<Option<seq<RejectedCode>>>)
      modifies this
      ensures outcome.Resolved? ==> rejectedCodes == OrEmpty(outcome.value) && error == None &&
                                    filteredCodes == FilteredCodes(rejectedCodes, searchTerm, selectedFilter)
      ensures outcome.Threw? ==> rejectedCodes == old(rejectedCodes) && filteredCodes == old(filteredCodes) &&
                                 error == Some(FetchError)
      ensures !loading && searchTerm == old(searchTerm) && selectedFilter == old(selectedFilter)
    {
      loading := true;
      error := None;
      if outcome.Resolved? {
        var data := OrEmpty(outcome.value);
        rejectedCodes := data;
        filteredCodes := data;
        ApplyFilters();
      } else {
        error := Some(FetchError);
      }
      loading := false;
    }

    method SetSearch(term: string, selected: string)
      modifies this
      ensures searchTerm == term && selectedFilter == selected
      ensures filteredCodes == FilteredCodes(rejectedCodes, term, selected)
      ensures rejectedCodes == old(rejectedCodes) && loading == old(loading) && error == old(error)
    {
      searchTerm := term;
      selectedFilter := selected;
      ApplyFilters();
    }

    /** `handleMarkAsRead`: the codes with that id become read, and the filter effect re-runs. */
    method MarkAsRead(id: string)
      modifies this
      ensures rejectedCodes == MarkRead(old(rejectedCodes), id)
      ensures filteredCodes == FilteredCodes(rejectedCodes, searchTerm, selectedFilter)
      ensures searchTerm == old(searchTerm) && selectedFilter == old(selectedFilter)
      ensures loading == old(loading) && error == old(error)
    {
      rejectedCodes := MarkRead(rejectedCodes, id);
      ApplyFilters();
    }
  }
}
