/**
 * The audit-log page: the four-criterion filter over the fetched log
 * entries, the one-key filter update, and the CSV text built from the
 * filtered entries (in the style of section 2 of RFC 4180: only the details
 * field is quoted, with inner quotes doubled).
 *
 * Date strings are turned into instants by a parameter `instant`; `None`
 * stands for an Invalid Date, whose comparisons with anything are false.
 */
module AuditLogs {
  import opened Builtins
  import opened Types

  // ---------------------------------------------------------------------------
  // Filter criteria

  /** The filter record; an empty string means "no criterion". */
  datatype Filters = Filters(user: string, action: string, startDate: string, endDate: string)

  const NoFilters := Filters("", "", "", "")

  /** The `name` attribute of the input that changed. */
  datatype FilterField = UserField | ActionField | StartDateField | EndDateField

  function Get(f: Filters, name: FilterField): string
  {
    match name
    case UserField => f.user
    case ActionField => f.action
    case StartDateField => f.startDate
    case EndDateField => f.endDate
  }

  /** `{ ...filters, [name]: value }`. */
  function WithField(f: Filters, name: FilterField, value: string): Filters
  {
    match name
    case UserField => f.(user := value)
    case ActionField => f.(action := value)
    case StartDateField => f.(startDate := value)
    case EndDateField => f.(endDate := value)
  }

  /** A filter change updates the named key only. */
  lemma WithFieldChangesOneKey(f: Filters, name: FilterField, value: string)
    ensures Get(WithField(f, name, value), name) == value
    ensures forall other :: other != name ==> Get(WithField(f, name, value), other) == Get(f, other)
  {
  }

  /** `a < b` on two dates; an Invalid Date on either side makes it false. */
  predicate Earlier(a: Option<int>, b: Option<int>)
  {
    a.Some? && b.Some? && a.value < b.value
  }

  /** The filter callback: each criterion that is set can reject the entry. */
  predicate Keep(log: AuditLog, f: Filters, instant: string -> Option<int>): (b: bool)
    ensures f == NoFilters ==> b
    ensures b && f.user != "" ==> log.userId == f.user
    ensures b && f.action != "" ==> Includes(Lower(log.action), Lower(f.action))
  {
    !(f.startDate != "" && Earlier(instant(log.timestamp), instant(f.startDate))) &&
    !(f.endDate != "" && Earlier(instant(f.endDate), instant(log.timestamp))) &&
    !(f.user != "" && log.userId != f.user) &&
    !(f.action != "" && !Includes(Lower(log.action), Lower(f.action)))
  }

  /** `filteredLogs`: the kept entries, as an order-preserving subsequence of `logs`. */
  function FilterLogs(logs: seq<AuditLog>, f: Filters, instant: string -> Option<int>): (r: seq<AuditLog>)
    ensures IsSubsequence(r, logs)
    ensures forall l :: l in r <==> l in logs && Keep(l, f, instant)
  {
    FilterIsSubsequence(logs, l => Keep(l, f, instant));
    Filter(logs, l => Keep(l, f, instant))
  }

  /** With no criterion set every entry is kept. */
  lemma NoFiltersKeepAll(logs: seq<AuditLog>, instant: string -> Option<int>)
    ensures FilterLogs(logs, NoFilters, instant) == logs
  {
    FilterKeepsAll(logs, l => Keep(l, NoFilters, instant));
  }

  /** A set start date drops exactly the entries strictly earlier than it. */
  lemma StartBoundIsInclusive(log: AuditLog, f: Filters, instant: string -> Option<int>, t: int, s: int)
    requires f.startDate != ""
    requires instant(log.timestamp) == Some(t) && instant(f.startDate) == Some(s)
    ensures Keep(log, f, instant) <==> s <= t && Keep(log, f.(startDate := ""), instant)
  {
  }

  /** A set end date drops exactly the entries strictly later than it. */
  lemma EndBoundIsInclusive(log: AuditLog, f: Filters, instant: string -> Option<int>, t: int, e: int)
    requires f.endDate != ""
    requires instant(log.timestamp) == Some(t) && instant(f.endDate) == Some(e)
    ensures Keep(log, f, instant) <==> t <= e && Keep(log, f.(endDate := ""), instant)
  {
  }

  /** A bound that is not a valid date rejects nothing. */
  lemma InvalidBoundIsIgnored(log: AuditLog, f: Filters, instant: string -> Option<int>)
    ensures instant(f.startDate).None? ==> (Keep(log, f, instant) <==> Keep(log, f.(startDate := ""), instant))
    ensures instant(f.endDate).None? ==> (Keep(log, f, instant) <==> Keep(log, f.(endDate := ""), instant))
  {
  }

  /** The user criterion is an exact match on the user id, combined with the others by AND. */
  lemma UserIsExactId(log: AuditLog, f: Filters, instant: string -> Option<int>)
    requires f.user != ""
    ensures Keep(log, f, instant) <==> log.userId == f.user && Keep(log, f.(user := ""), instant)
  {
  }

  /** The action criterion is a case-insensitive substring match, combined with the others by AND. */
  lemma ActionIsCaseInsensitiveSubstring(log: AuditLog, f: Filters, instant: string -> Option<int>)
    requires f.action != ""
    ensures Keep(log, f, instant) <==>
            (exists i :: OccursAt(Lower(log.action), Lower(f.action), i)) && Keep(log, f.(action := ""), instant)
  {
  }

  /** "login" keeps a `USER_LOGIN` entry and drops a `FILE_UPLOAD` one. */
  lemma LoginFilterExample(log: AuditLog, instant: string -> Option<int>)
    ensures Keep(log.(action := "USER_LOGIN"), NoFilters.(action := "login"), instant)
    ensures !Keep(log.(action := "FILE_UPLOAD"), NoFilters.(action := "login"), instant)
  {
    assert Lower("login") == "login";
    assert Lower("USER_LOGIN") == "user_login";
    assert OccursAt("user_login", "login", 5);
    var up := Lower("FILE_UPLOAD");
    assert up == "file_upload";
    forall i | 0 <= i <= |up| - 5
      ensures !OccursAt(up, "login", i)
    {
      assert up[i..i + 5][0] == up[i];
      assert up[i..i + 5][1] == up[i + 1];
    }
  }

  /** A start date later than every entry leaves nothing. */
  lemma StartAfterAllLeavesNothing(logs: seq<AuditLog>, f: Filters, instant: string -> Option<int>, s: int)
    requires f.startDate != "" && instant(f.startDate) == Some(s)
    requires forall i :: 0 <= i < |logs| ==>
               instant(logs[i].timestamp).Some? && instant(logs[i].timestamp).value < s
    ensures FilterLogs(logs, f, instant) == []
  {
    FilterDropsAll(logs, l => Keep(l, f, instant));
  }

  /** Filtering a concatenation filters each part. */
  lemma FilterLogsAppend(a: seq<AuditLog>, b: seq<AuditLog>, f: Filters, instant: string -> Option<int>)
    ensures FilterLogs(a + b, f, instant) == FilterLogs(a, f, instant) + FilterLogs(b, f, instant)
  {
    FilterAppend(a, b, l => Keep(l, f, instant));
  }

  // ---------------------------------------------------------------------------
  // CSV export

  /** `s.replace(/"/g, '""')`. */
  function EscapeQuotes(s: string): (r: string)
    ensures |r| >= |s|
  {
    if s == [] then ""
    else (if s[0] == '"' then "\"\"" else [s[0]]) + EscapeQuotes(s[1..])
  }

  /** Reads a doubled quote back as one quote. */
  function UnescapeQuotes(s: string): string
    decreases |s|
  {
    if s == [] then ""
    else if |s| >= 2 && s[0] == '"' && s[1] == '"' then "\"" + UnescapeQuotes(s[2..])
    else [s[0]] + UnescapeQuotes(s[1..])
  }

  /** Doubling the quotes loses nothing: the original is read back. */
  lemma {:induction false} EscapeRoundTrip(s: string)
    ensures UnescapeQuotes(EscapeQuotes(s)) == s
  {
    if s != [] {
      EscapeRoundTrip(s[1..]);
      var e := EscapeQuotes(s);
      if s[0] == '"' {
        assert e == "\"\"" + EscapeQuotes(s[1..]);
        assert e[2..] == EscapeQuotes(s[1..]);
      } else {
        assert e == [s[0]] + EscapeQuotes(s[1..]);
        assert e[1..] == EscapeQuotes(s[1..]);
      }
    }
  }

  /** Escaping introduces no character but the quote. */
  lemma {:induction false} EscapeAvoids(s: string, c: char)
    requires c != '"' && c !in s
    ensures c !in EscapeQuotes(s)
  {
    if s != [] {
      EscapeAvoids(s[1..], c);
    }
  }

  /** The details cell: the escaped text between double quotes. */
  function QuoteField(s: string): (r: string)
    ensures |r| >= 2 && r[0] == '"' && r[|r| - 1] == '"'
  {
    "\"" + EscapeQuotes(s) + "\""
  }

  /** The details text is read back from its cell. */
  lemma QuoteFieldRoundTrip(s: string)
    ensures UnescapeQuotes(QuoteField(s)[1..|QuoteField(s)| - 1]) == s
  {
    assert QuoteField(s)[1..|QuoteField(s)| - 1] == EscapeQuotes(s);
    EscapeRoundTrip(s);
  }

  /** Text without quotes is emitted as it is. */
  lemma {:induction false} EscapeWithoutQuotes(s: string)
    requires '"' !in s
    ensures EscapeQuotes(s) == s
  {
    if s != [] {
      EscapeWithoutQuotes(s[1..]);
    }
  }

  /** `say "hi"` becomes `"say ""hi"""`. */
  lemma QuoteFieldExample()
    ensures QuoteField("say \"hi\"") == "\"say \"\"hi\"\"\""
  {
    assert EscapeQuotes("say \"hi\"") == "say \"\"hi\"\"";
  }

  const Header := "Timestamp,User,Action,Details"

  lemma HeaderIsJoinedNames()
    ensures Join(["Timestamp", "User", "Action", "Details"], ",") == Header
  {
  }

  /** One CSV line: timestamp, user name and action raw, the details quoted. */
  function Row(log: AuditLog): string
  {
    Join([log.timestamp, log.userName, log.action, QuoteField(log.details)], ",")
  }

  function Rows(logs: seq<AuditLog>): (r: seq<string>)
    ensures |r| == |logs|
    ensures forall i :: 0 <= i < |logs| ==> r[i] == Row(logs[i])
  {
    seq(|logs|, i requires 0 <= i < |logs| => Row(logs[i]))
  }

  /** `[headers.join(','), ...rows.map(e => e.join(','))].join('\n')`. */
  function ExportCsv(logs: seq<AuditLog>): (csv: string)
    ensures StartsWith(csv, Header)
    ensures logs == [] ==> csv == Header
  {
    var lines := [Header] + Rows(logs);
    if |lines| > 1 then
      assert Join(lines, "\n") == Header + "\n" + Join(lines[1..], "\n");
      assert (Header + "\n" + Join(lines[1..], "\n"))[..|Header|] == Header;
      Join(lines, "\n")
    else
      Join(lines, "\n")
  }

  /** One more entry adds one more line at the end. */
  lemma CsvAppend(logs: seq<AuditLog>, log: AuditLog)
    ensures ExportCsv(logs + [log]) == ExportCsv(logs) + "\n" + Row(log)
  {
    assert [Header] + Rows(logs + [log]) == ([Header] + Rows(logs)) + [Row(log)];
    JoinSnoc([Header] + Rows(logs), Row(log), "\n");
  }

  /** No newline in a log entry means no newline in its row. */
  predicate OneLine(log: AuditLog)
  {
    '\n' !in log.timestamp && '\n' !in log.userName && '\n' !in log.action && '\n' !in log.details
  }

  lemma RowIsOneLine(log: AuditLog)
    requires OneLine(log)
    ensures '\n' !in Row(log)
  {
    EscapeAvoids(log.details, '\n');
    var fields := [log.timestamp, log.userName, log.action, QuoteField(log.details)];
    assert forall i :: 0 <= i < |fields| ==> '\n' !in fields[i];
    JoinAvoids(fields, ",", '\n');
  }

  /** Splitting the text at newlines gives the header and then one row per entry, in order. */
  lemma CsvLines(logs: seq<AuditLog>)
    requires forall i :: 0 <= i < |logs| ==> OneLine(logs[i])
    ensures Split(ExportCsv(logs), '\n') == [Header] + Rows(logs)
  {
    var lines := [Header] + Rows(logs);
    forall i | 0 <= i < |lines|
      ensures '\n' !in lines[i]
    {
      if i > 0 {
        RowIsOneLine(logs[i - 1]);
      }
    }
    SplitJoin(lines, '\n');
  }

  /** Splitting a row at commas gives the four cells when no raw field holds a comma. */
  lemma RowCells(log: AuditLog)
    requires ',' !in log.timestamp && ',' !in log.userName && ',' !in log.action && ',' !in log.details
    ensures Split(Row(log), ',') == [log.timestamp, log.userName, log.action, QuoteField(log.details)]
  {
    EscapeAvoids(log.details, ',');
    var fields := [log.timestamp, log.userName, log.action, QuoteField(log.details)];
    assert forall i :: 0 <= i < |fields| ==> ',' !in fields[i];
    SplitJoin(fields, ',');
  }

  // ---------------------------------------------------------------------------
  // Page state

  /** The page's fetched entries and filter record. */
  class AuditLogView {
    var logs: seq<AuditLog>
    var filters: Filters

    constructor ()
      ensures logs == [] && filters == NoFilters
    {
      logs := [];
      filters := NoFilters;
    }

    /** The entries shown for the current filters. */
    function Shown(instant: string -> Option<int>): seq<AuditLog>
      reads this
    {
      FilterLogs(logs, filters, instant)
    }

    method Loaded(fetched: seq<AuditLog>)
      modifies this
      ensures logs == fetched && filters == old(filters)
    {
      logs := fetched;
    }

    method HandleFilterChange(name: FilterField, value: string)
      modifies this
      ensures filters == WithField(old(filters), name, value) && logs == old(logs)
    {
      filters := WithField(filters, name, value);
    }

    /** The CSV text of the shown entries (the download itself is not modelled). */
    method ExportToCsv(instant: string -> Option<int>) returns (csv: string)
      ensures csv == ExportCsv(Shown(instant))
      ensures StartsWith(csv, Header)
    {
      var rows := FilterLogs(logs, filters, instant);
      csv := ExportCsv(rows);
    }
  }
}
