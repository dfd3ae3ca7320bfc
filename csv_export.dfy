/**
 * The CSV export of sessions: quoting of a field (section 2 of RFC 4180,
 * with `;` as the separator), the fixed 20-field data rows of the summary
 * export and the per-table section of the detailed report. Formatted numbers
 * and dates are left abstract, as functions in `Formats`.
 */
module CsvExportService {
  import opened Wrappers
  import opened Models

  /** The field separator. */
  const Separator := ';'

  /** The double quote that encloses and escapes fields. */
  const Quote := '"'

  /** How numbers and dates are written: `ToString("dd.MM.yyyy HH:mm")`, `ToString("F2")`, `int.ToString()`. */
  datatype Formats = Formats(
    dateTime: Timestamp -> string,
    fixed2: real -> string,
    integer: int -> string)

  /** The 20 column names of the header line, one per field of a data row. */
  const Header: seq<string> :=
    ["Дата", "Испытуемый", "Возраст", "Размер таблицы", "Последовательность",
     "ER", "BP", "IN", "Общее время", "Ошибки"]
    + seq(5, i requires 0 <= i < 5 => "Время таблицы " + Digit(i + 1))
    + seq(5, i requires 0 <= i < 5 => "Ошибки таблицы " + Digit(i + 1))

  /** Written for a session without a subject name. */
  const UnknownName := "Неизвестный"

  /** Written for a session without a subject age. */
  const AgeNotGiven := "Не указан"

  /** The number of per-table columns of each kind. */
  const TableColumns := 5

  /** The header line of the per-table section of the detailed report. */
  const TableSectionHeader := "Таблица;Время (сек);Ошибки"

  /** `SequenceType.ToString()`. */
  function SequenceTypeName(t: SequenceType): string
  {
    match t
    case Ascending => "Ascending"
    case Descending => "Descending"
    case Random => "Random"
  }

  // ---------------------------------------------------------------------
  // Quoting of one field

  /** A field that must be quoted: it holds a separator, a quote or a line break. */
  predicate NeedsQuoting(field: string)
  {
    Separator in field || Quote in field || '\n' in field || '\r' in field
  }

  /** `field.Replace("\"", "\"\"")`: every quote doubled. */
  function DoubleQuotes(s: string): (r: string)
    ensures |r| >= |s|
  {
    if s == [] then []
    else if s[0] == Quote then [Quote, Quote] + DoubleQuotes(s[1..])
    else [s[0]] + DoubleQuotes(s[1..])
  }

  /** Every quote in `s` is one of a pair of adjacent quotes (the escaped form inside a quoted field). */
  predicate QuotesPaired(s: string)
    decreases |s|
  {
    if s == [] then true
    else if s[0] == Quote then |s| >= 2 && s[1] == Quote && QuotesPaired(s[2..])
    else QuotesPaired(s[1..])
  }

  /** Each pair of adjacent quotes collapsed into one: what a reader does inside a quoted field. */
  function CollapseQuotes(s: string): string
    decreases |s|
  {
    if s == [] then []
    else if |s| >= 2 && s[0] == Quote && s[1] == Quote then [Quote] + CollapseQuotes(s[2..])
    else [s[0]] + CollapseQuotes(s[1..])
  }

  /** Reading one field back: a quoted field loses its quotes and its doubled quotes. */
  function UnescapeCsvField(s: string): string
  {
    if |s| >= 2 && s[0] == Quote && s[|s| - 1] == Quote then CollapseQuotes(s[1..|s| - 1]) else s
  }

  /**
   * `EscapeCsvField`: null becomes the empty field; a field holding a
   * separator, a quote or a line break is enclosed in quotes with its quotes
   * doubled; any other field is written as it is.
   */
  function EscapeCsvField(field: Option<string>): (r: string)
    ensures field.None? ==> r == ""
    ensures field.Some? && !NeedsQuoting(field.value) ==> r == field.value
    ensures field.Some? && NeedsQuoting(field.value) ==>
              && |r| >= 2 && r[0] == Quote && r[|r| - 1] == Quote
              && QuotesPaired(r[1..|r| - 1])
              && CollapseQuotes(r[1..|r| - 1]) == field.value
  {
    match field
    case None => ""
    case Some(f) =>
      if NeedsQuoting(f) then
        DoubledQuotesArePaired(f);
        CollapseUndoesDoubling(f);
        var r := [Quote] + DoubleQuotes(f) + [Quote];
        assert r[1..|r| - 1] == DoubleQuotes(f);
        r
      else f
  }

  /** The doubled form has every quote paired. */
  lemma {:induction false} DoubledQuotesArePaired(s: string)
    ensures QuotesPaired(DoubleQuotes(s))
  {
    if s != [] {
      DoubledQuotesArePaired(s[1..]);
      var d := DoubleQuotes(s);
      if s[0] == Quote {
        assert d[2..] == DoubleQuotes(s[1..]);
      } else {
        assert d[1..] == DoubleQuotes(s[1..]);
      }
    }
  }

  /** Collapsing the doubled quotes gives back the original text. */
  lemma {:induction false} CollapseUndoesDoubling(s: string)
    ensures CollapseQuotes(DoubleQuotes(s)) == s
  {
    if s != [] {
      CollapseUndoesDoubling(s[1..]);
      var d := DoubleQuotes(s);
      if s[0] == Quote {
        assert d[2..] == DoubleQuotes(s[1..]);
      } else {
        assert d[1..] == DoubleQuotes(s[1..]);
        if |d| >= 2 {
          assert d[0] != Quote;
        }
      }
    }
  }

  /** Reading back an escaped field gives the original field. */
  lemma EscapeRoundTrip(field: string)
    ensures UnescapeCsvField(EscapeCsvField(Some(field))) == field
  {
    var r := EscapeCsvField(Some(field));
    if !NeedsQuoting(field) && |field| >= 2 {
      assert field[0] in field;
    }
  }

  // ---------------------------------------------------------------------
  // Rows

  /** `string.Join(";", fields)`. */
  function Join(fields: seq<string>): string
  {
    if fields == [] then ""
    else if |fields| == 1 then fields[0]
    else fields[0] + [Separator] + Join(fields[1..])
  }

  /** The time column of table `i`: the `i`-th recorded time, or "0" when there is none. */
  function TimeField(session: TestSession, i: int, fmt: Formats): string
  {
    match session.tableTimes
    case Some(times) => if 0 <= i < |times| then fmt.fixed2(times[i]) else "0"
    case None => "0"
  }

  /** The error column of table `i`: the `i`-th recorded error count, or "0" when there is none. */
  function ErrorField(session: TestSession, i: int, fmt: Formats): string
  {
    match session.errorCounts
    case Some(errors) => if 0 <= i < |errors| then fmt.integer(errors[i]) else "0"
    case None => "0"
  }

  /** The header line: the 20 column names separated by `;`. */
  const HeaderLine := Join(Header)

  /** The data line of `session`: its row's fields separated by `;`. */
  function DataLine(session: TestSession, fmt: Formats): string
  {
    Join(Row(session, fmt))
  }

  /** The ten summary fields of a data row. */
  function SummaryFields(session: TestSession, fmt: Formats): (r: seq<string>)
    ensures |r| == 10
  {
    var results := session.results;
    [ fmt.dateTime(session.startTime),
      EscapeCsvField(Some(session.subjectName.GetOr(UnknownName))),
      session.subjectAge.GetOr(AgeNotGiven),
      fmt.integer(session.configuration.tableSize),
      SequenceTypeName(session.configuration.sequenceType),
      if results.Some? then fmt.fixed2(results.value.efficiencyRate) else "0",
      if results.Some? then fmt.fixed2(results.value.workabilityIndex) else "0",
      if results.Some? then fmt.fixed2(results.value.stabilityIndex) else "0",
      if results.Some? then fmt.fixed2(results.value.totalTime) else "0",
      if results.Some? then fmt.integer(results.value.totalErrors) else "0" ]
  }

  /** The fields of the data row of `session`: the summary, five times, five error counts. */
  function Row(session: TestSession, fmt: Formats): seq<string>
  {
    SummaryFields(session, fmt)
      + seq(TableColumns, i => TimeField(session, i, fmt))
      + seq(TableColumns, i => ErrorField(session, i, fmt))
  }

  /**
   * A data row has one field per header column: the ten summary fields, then
   * the first five times and the first five error counts, each padded with
   * "0" where the list is shorter or absent.
   */
  lemma RowLayout(session: TestSession, fmt: Formats)
    ensures |Row(session, fmt)| == |Header| == 20
    ensures Row(session, fmt)[..10] == SummaryFields(session, fmt)
    ensures forall i :: 0 <= i < TableColumns ==>
              Row(session, fmt)[10 + i] ==
                (if session.tableTimes.Some? && i < |session.tableTimes.value|
                 then fmt.fixed2(session.tableTimes.value[i]) else "0")
    ensures forall i :: 0 <= i < TableColumns ==>
              Row(session, fmt)[15 + i] ==
                (if session.errorCounts.Some? && i < |session.errorCounts.value|
                 then fmt.integer(session.errorCounts.value[i]) else "0")
    ensures session.results.None? ==> Row(session, fmt)[5..10] == ["0", "0", "0", "0", "0"]
    ensures Row(session, fmt)[1] == EscapeCsvField(Some(session.subjectName.GetOr(UnknownName)))
    ensures Row(session, fmt)[2] == session.subjectAge.GetOr(AgeNotGiven)
  {
  }

  /** Builds the data row of `session` as the export does: the summary list, then two loops of five. */
  method BuildRow(session: TestSession, fmt: Formats) returns (line: seq<string>)
    ensures line == Row(session, fmt)
  {
    line := SummaryFields(session, fmt);
    for i := 0 to TableColumns
      invariant line == SummaryFields(session, fmt) + seq(i, k => TimeField(session, k, fmt))
    {
      if session.tableTimes.Some? && i < |session.tableTimes.value| {
        line := line + [fmt.fixed2(session.tableTimes.value[i])];
      } else {
        line := line + ["0"];
      }
    }
    for i := 0 to TableColumns
      invariant line == SummaryFields(session, fmt) + seq(TableColumns, k => TimeField(session, k, fmt))
                          + seq(i, k => ErrorField(session, k, fmt))
    {
      if session.errorCounts.Some? && i < |session.errorCounts.value| {
        line := line + [fmt.integer(session.errorCounts.value[i])];
      } else {
        line := line + ["0"];
      }
    }
  }

  /** The loop of `ExportSessionsToCsv`: one data line per session, in the order given. */
  method DataLines(sessions: seq<TestSession>, fmt: Formats) returns (rows: seq<string>)
    ensures |rows| == |sessions|
    ensures forall k :: 0 <= k < |sessions| ==> rows[k] == DataLine(sessions[k], fmt)
  {
    rows := [];
    for k := 0 to |sessions|
      invariant |rows| == k
      invariant forall j :: 0 <= j < k ==> rows[j] == DataLine(sessions[j], fmt)
    {
      var line := BuildRow(sessions[k], fmt);
      rows := rows + [Join(line)];
    }
  }

  /**
   * `ExportSessionsToCsv` without the file: the header line, then one data
   * line per session, in the order given.
   */
  method ExportSessionsToCsv(sessions: seq<TestSession>, fmt: Formats) returns (lines: seq<string>)
    ensures |lines| == |sessions| + 1
    ensures lines[0] == HeaderLine
    ensures forall k :: 0 <= k < |sessions| ==> lines[k + 1] == DataLine(sessions[k], fmt)
  {
    var rows := DataLines(sessions, fmt);
    lines := [HeaderLine] + rows;
  }

  /** The table number `n` (1 to 9) as one digit. */
  function Digit(n: int): string
    requires 0 <= n <= 9
  {
    [(('0' as int) + n) as char]
  }

  /**
   * The per-table section of `ExportDetailedReport`: its header, then for
   * each of the five tables its number, its time and its error count, "0"
   * where nothing was recorded.
   */
  method DetailedTableSection(session: TestSession, fmt: Formats) returns (lines: seq<string>)
    ensures |lines| == TableColumns + 1
    ensures lines[0] == TableSectionHeader
    ensures forall i :: 0 <= i < TableColumns ==>
              lines[i + 1] == Digit(i + 1) + [Separator] + TimeField(session, i, fmt)
                                + [Separator] + ErrorField(session, i, fmt)
  {
    lines := [TableSectionHeader];
    for i := 0 to TableColumns
      invariant |lines| == i + 1
      invariant lines[0] == TableSectionHeader
      invariant forall j :: 0 <= j < i ==>
                  lines[j + 1] == Digit(j + 1) + [Separator] + TimeField(session, j, fmt)
                                    + [Separator] + ErrorField(session, j, fmt)
    {
      var time := "0";
      var errors := "0";
      if session.tableTimes.Some? && i < |session.tableTimes.value| {
        time := fmt.fixed2(session.tableTimes.value[i]);
      }
      if session.errorCounts.Some? && i < |session.errorCounts.value| {
        errors := fmt.integer(session.errorCounts.value[i]);
      }
      lines := lines + [Digit(i + 1) + [Separator] + time + [Separator] + errors];
    }
  }
}
