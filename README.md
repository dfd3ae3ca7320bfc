# Schulte table test core, modelled in Dafny

This project models the test-session engine of ShulteTestAutomation, a
Schulte-table attention test. The subject finds the numbers 1..N² of an N×N
table in order, for five tables in a row. The program records each table's
time and error count and then scores the session. The model covers four parts:

- **The table generator** (`table_generator.dfy`, module `SchulteTableGenerator`).
  It lays out the numbers 1..size² in ascending, descending or random order.
  Random order uses an in-place Fisher–Yates shuffle. It can also reshuffle
  the numbers above the last one found.
- **Scoring** (`test_session_service.dfy`, module `TestSessionService`).
  From five table times and the error counts it computes the total time, the
  total errors, ER (the mean time), BP = T1 / ER and IN = T4 / ER.
- **The session state of the test window** (`test_session_window.dfy`, module `TestSessionWindow`).
  The class `TestSessionWindow` has the window's fields and one method per
  handler, without the user interface. The datatype `Progress` and the pure
  functions `StartTable`, `RecordError`, `CompleteTable`, `AfterTable`,
  `Scored` and `Click` say how each handler changes the counters. Every class
  method is proved to change the counters as its function says. Each method
  also states what becomes of the session record and of the table on screen.
  The lemmas about whole runs of clicks are stated on those functions.
- **The CSV export** (`csv_export.dfy`, module `CsvExportService`).
  It covers the quoting of one field (the quoting rule of section 2 of RFC
  4180, with `;` as the separator), the 20-field data rows of the summary
  export, and the per-table section of the detailed report.

`models.dfy` holds the records (`TestConfiguration`, `TestResult`,
`TestSession`). `wrappers.dfy` holds `Option` and `Result`.

Modelling choices:

- **Random numbers.** `Random.Next(n + 1)` becomes a nondeterministic choice
  of `k` with `0 <= k <= n`. The shuffle records its choices in a ghost
  sequence, and the function `FisherYates` replays them.
- **Clock.** `DateTime.Now` becomes a `Timestamp` parameter (a `real` number
  of seconds). A table's time is `end - start`. The click that completes a
  table carries two readings. `now` is the reading when the click arrives,
  and it ends the table. `resumed` is the reading after the modal message box
  of `ShowIntermediateResults` is dismissed. The next table starts at
  `resumed`, or the session's end time is `resumed`. The time spent in the
  message box therefore belongs to no table.
- **Number types.** Times are `real`, not `double`. Integers are unbounded.
- **Formatting.** `ToString("F2")`, the date format and `int.ToString()` are
  opaque functions, passed in a `Formats` value.
- **Null.** C# null references are `Option` values.
- **The reshuffle.** The stable `OrderBy(n <= last ? 0 : 1)` is modelled by
  `OrderByFoundFirst`: the values at most `last` in their order, then the
  others in their order. The result is therefore the found values first, in
  their original order, then the shuffled rest.
- **Behaviour of the code worth noting.**
  - No size is validated.
  - No invalid-state errors are raised.
  - The error-count list is summed whatever its length.
  - The reshuffle puts the found values first, not last.
  - The expected number runs 1..size² for every sequence type.
- **Clicks.** `NumberButtonClick` requires a table in progress. The window
  closes in `CompleteSession`, so no click arrives after that. Every click
  must also come strictly after the current table started, not only the one
  that completes it. This keeps every recorded table time positive, which is
  the invariant `Recorded`. A finished session therefore has a positive
  total time, and `CalculateResults` never divides by zero.

## Model

| member | source | states |
|---|---|---|
| `SchulteTableGenerator.GenerateTable` | ShulteTestAutomation/Services/SchulteTableGenerator.cs:9-28 | the table has size² numbers; Ascending gives exactly 1..size², Descending exactly size²..1, and every order a permutation of 1..size² |
| `SchulteTableGenerator.LayoutIsPermutation` | ShulteTestAutomation/Services/SchulteTableGenerator.cs:11-27 | a generated table holds each of 1..size² exactly once and nothing else, whatever the sequence type |
| `SchulteTableGenerator.PermutationOfRange` | ShulteTestAutomation/Services/SchulteTableGenerator.cs:12 | a list with the multiset of 1..n has length n, contains exactly the values 1..n, and has no value twice |
| `SchulteTableGenerator.RangeUpOccurrences` | ShulteTestAutomation/Services/SchulteTableGenerator.cs:12 | `Enumerable.Range(1, n)` holds each of 1..n once and no other value |
| `SchulteTableGenerator.RangeDownPermutesRangeUp` | ShulteTestAutomation/Services/SchulteTableGenerator.cs:19-21 | the reversed table holds the same numbers as the ascending one |
| `SchulteTableGenerator.Reverse` | ShulteTestAutomation/Services/SchulteTableGenerator.cs:20 | the in-place reversal leaves the array equal to its old contents read back to front |
| `SchulteTableGenerator.Shuffle` | ShulteTestAutomation/Services/SchulteTableGenerator.cs:39-50 | step i exchanges position len-1-i with a pick in 0..len-1-i; the loop stops at n <= 1 (len-1 steps, none for 0 or 1 elements); the array ends as the replay of those picks and as a permutation of its old contents |
| `SchulteTableGenerator.FisherYatesPermutes` | ShulteTestAutomation/Services/SchulteTableGenerator.cs:41-49 | any sequence of in-range Fisher–Yates exchanges keeps the multiset of values |
| `SchulteTableGenerator.SwapPermutes` | ShulteTestAutomation/Services/SchulteTableGenerator.cs:46-48 | exchanging two positions keeps the multiset of values |
| `SchulteTableGenerator.ShuffleRemainingNumbers` | ShulteTestAutomation/Services/SchulteTableGenerator.cs:30-37 | the result is a permutation of the input; the values <= last come first in their input order, then the values > last in some order; no value > last precedes one <= last; when no value exceeds last the result is the input |
| `SchulteTableGenerator.ReshuffleProperties` | ShulteTestAutomation/Services/SchulteTableGenerator.cs:32-36 | every reshuffle is a permutation of its input, puts no value > last before a value <= last, and is the input itself when nothing exceeds last |
| `SchulteTableGenerator.OrderBySwapsGroups` | ShulteTestAutomation/Services/SchulteTableGenerator.cs:34-36 | the stable ordering of "shuffled values > last, then values <= last" puts the values <= last first and keeps each group's order |
| `SchulteTableGenerator.OrderByFoundFirstPermutes` | ShulteTestAutomation/Services/SchulteTableGenerator.cs:35 | the stable ordering by the 0/1 key is a permutation in which every key-0 value precedes every key-1 value |
| `SchulteTableGenerator.FoundAndRemainingPartition` | ShulteTestAutomation/Services/SchulteTableGenerator.cs:32-34 | the two `Where` filters (n > last and n <= last) split the list without losing or adding a value |
| `SchulteTableGenerator.FoundThenShuffledIsReshuffle` | ShulteTestAutomation/Services/SchulteTableGenerator.cs:32-36 | the found values followed by any permutation of the remaining values have the input's length and form a reshuffle |
| `TestSessionService.CalculateResults` | ShulteTestAutomation/Services/TestSessionService.cs:17-36 | fails with the ArgumentException exactly when there are not 5 times; otherwise TotalTime is the sum of the five times, TotalErrors the sum of all error counts, 5·ER = TotalTime, BP·ER = T1 and IN·ER = T4 |
| `TestSessionService.SumOfFive` | ShulteTestAutomation/Services/TestSessionService.cs:23 | `Sum()` of five times is their written-out sum |
| `TestSessionService.SumIntsAppend` | ShulteTestAutomation/Services/TestSessionService.cs:24 | the error total of two lists joined is the sum of their totals, whatever the lengths |
| `TestSessionService.SumPositive` | ShulteTestAutomation/Services/TestSessionService.cs:23-27 | positive times have a positive sum, so ER is never zero for them |
| `TestSessionService.ScoresOfPositiveTimes` | ShulteTestAutomation/Services/TestSessionService.cs:19-33 | five positive times are accepted and give positive ER, BP and IN |
| `TestSessionService.EqualTimesGiveUnitIndices` | ShulteTestAutomation/Services/TestSessionService.cs:27-33 | five equal positive times give ER equal to that time and BP = IN = 1 |
| `TestSessionService.WorkedExample` | ShulteTestAutomation/Services/TestSessionService.cs:23-33 | times 10, 8, 6, 9, 7 give ER 8, BP 1.25, IN 1.125 and total time 40 |
| `TestSessionService.SessionExample` | ShulteTestAutomation/Services/TestSessionService.cs:23-33 | times 5, 4, 3, 6, 5 with errors 0, 1, 0, 2, 0 give 3 errors, total time 23, ER 4.6, BP 5/4.6 and IN 6/4.6 |
| `TestSessionWindow.StartSessionRuns` | ShulteTestAutomation/Views/TestSessionWindow.xaml.cs:56-57 | starting a session gives table 1, expecting 1, no errors, timed from now, with nothing recorded |
| `TestSessionWindow.ClickKeepsValid` | ShulteTestAutomation/Views/TestSessionWindow.xaml.cs:116-208 | after any click a table is in progress with as many times and error counts as tables done, or the session is finished with five of each and the results computed from them |
| `TestSessionWindow.ClickEffect` | ShulteTestAutomation/Views/TestSessionWindow.xaml.cs:121-153 | a wrong pick adds exactly one error and changes nothing else; a correct pick that does not end the table adds exactly one to the expected number and nothing else; the pick that ends the table appends (press time − start) and the error count, then starts the next table (index + 1, expecting 1, no errors, timed from the moment the message box is dismissed) or finishes the session after the fifth |
| `TestSessionWindow.ClickOutstanding` | ShulteTestAutomation/Views/TestSessionWindow.xaml.cs:121-141 | the expected number is the first of the numbers still outstanding (the rest of 1..size² of this table, then 1..size² per table to come); a correct pick takes it off, a wrong pick leaves the list alone |
| `TestSessionWindow.RunOutstanding` | ShulteTestAutomation/Views/TestSessionWindow.xaml.cs:116-199 | over any run of clicks, the correct selections followed by the numbers still outstanding are the numbers outstanding before |
| `TestSessionWindow.RunErrors` | ShulteTestAutomation/Views/TestSessionWindow.xaml.cs:144-175 | over any run of clicks, the recorded errors plus the current counter grow by exactly the number of wrong selections |
| `TestSessionWindow.OutstandingEmptyIffFinished` | ShulteTestAutomation/Views/TestSessionWindow.xaml.cs:138-199 | nothing is outstanding exactly when the session is finished |
| `TestSessionWindow.SessionNeedsEveryNumberFiveTimes` | ShulteTestAutomation/Views/TestSessionWindow.xaml.cs:61-199 | the correct selections of a session are always a prefix of 1..size² repeated five times, in that order whatever the layout; the session is finished exactly when they are all of it, that is after 5·size² correct selections |
| `TestSessionWindow.TotalErrorsCountWrongSelections` | ShulteTestAutomation/Views/TestSessionWindow.xaml.cs:151-208 | a finished session's TotalErrors is the number of wrong selections made during it |
| `TestSessionWindow.ChronologicalTail` | ShulteTestAutomation/Views/TestSessionWindow.xaml.cs:66-193 | after a click, the table in progress started either when the previous table did or when the message box of the click was dismissed; either way, the later clicks still come after that start |
| `TestSessionWindow.DialogTimeNotCounted` | ShulteTestAutomation/Views/TestSessionWindow.xaml.cs:66-193 | table 1 ends at 30 s, its message box is dismissed at 35 s, and table 2 ends at 60 s: the recorded times are 30 s and 25 s |
| `TestSessionWindow.FinishedSessionScores` | ShulteTestAutomation/Views/TestSessionWindow.xaml.cs:201-205 | a finished session's stored results have a non-negative error total and a positive ER, BP and IN |
| `TestSessionWindow.Run` | ShulteTestAutomation/Views/TestSessionWindow.xaml.cs:116-149 | a run of clicks from a consistent state ends in a table in progress or a finished session |
| `TestSessionWindow.TestSessionWindow.constructor` | ShulteTestAutomation/Views/TestSessionWindow.xaml.cs:32-38 | the window starts its session at once: table 1, expecting 1, a fresh layout, and the whole new session record (the given id, the user's subject or "anonymous", no name or age, start time now, the configuration or the default one, empty lists, no results) |
| `TestSessionWindow.TestSessionWindow.StartNewSession` | ShulteTestAutomation/Views/TestSessionWindow.xaml.cs:46-59 | a new session record (start time now, the configuration or the default 5 / Ascending / no shuffle, subject or "anonymous", empty lists, no results), table index 0, then the first table |
| `TestSessionWindow.TestSessionWindow.StartNextTable` | ShulteTestAutomation/Views/TestSessionWindow.xaml.cs:61-81 | table index + 1, expected number 1, error counter 0, start time now, and a fresh table laid out as the configuration's sequence type says |
| `TestSessionWindow.TestSessionWindow.NumberButtonClick` | ShulteTestAutomation/Views/TestSessionWindow.xaml.cs:116-149 | the counters change as `Click` says; the session record is unchanged except by the click that completes the fifth table, which stores the results, the lists and the end time (when its message box is dismissed); the table is reshuffled with last = the number picked only when shuffling is on and the table is not finished, otherwise kept, and freshly generated when the next table starts; the invariant holds after |
| `TestSessionWindow.TestSessionWindow.HandleError` | ShulteTestAutomation/Views/TestSessionWindow.xaml.cs:151-153 | the error counter goes up by one and nothing else changes |
| `TestSessionWindow.TestSessionWindow.CompleteCurrentTable` | ShulteTestAutomation/Views/TestSessionWindow.xaml.cs:170-179 | appends (now − start) to the times and the error counter to the error counts, then continues as `ShowIntermediateResults` from the moment the message box is dismissed |
| `TestSessionWindow.TestSessionWindow.ShowIntermediateResults` | ShulteTestAutomation/Views/TestSessionWindow.xaml.cs:190-198 | with fewer than five tables done the next table starts, otherwise the session completes |
| `TestSessionWindow.TestSessionWindow.CompleteSession` | ShulteTestAutomation/Views/TestSessionWindow.xaml.cs:201-208 | the session record gets the results computed from the two lists, the end time and the two lists; nothing else changes |
| `CsvExportService.EscapeCsvField` | ShulteTestAutomation/Services/CsvExportService.cs:63-74 | null gives ""; a field without `;`, `"`, LF or CR is unchanged; any other field is enclosed in quotes, every quote inside is paired, and collapsing the pairs gives the field back |
| `CsvExportService.EscapeRoundTrip` | ShulteTestAutomation/Services/CsvExportService.cs:68-73 | removing the outer quotes and collapsing `""` to `"` in an escaped field gives back the original field |
| `CsvExportService.CollapseUndoesDoubling` | ShulteTestAutomation/Services/CsvExportService.cs:70 | collapsing the doubled quotes of `Replace("\"", "\"\"")` gives back the text |
| `CsvExportService.DoubledQuotesArePaired` | ShulteTestAutomation/Services/CsvExportService.cs:70 | after doubling, every quote is one of an adjacent pair |
| `CsvExportService.RowLayout` | ShulteTestAutomation/Services/CsvExportService.cs:19-49 | a data row has exactly 20 fields, one per header column: 10 summary fields, then the first five times and the first five error counts, padded with "0" where a list is shorter or null; with no results the five score fields are "0"; the name is escaped and defaults to "Неизвестный", the age defaults to "Не указан" |
| `CsvExportService.BuildRow` | ShulteTestAutomation/Services/CsvExportService.cs:19-49 | the list built by the two five-step loops is the data row of the session |
| `CsvExportService.DataLines` | ShulteTestAutomation/Services/CsvExportService.cs:17-52 | the loop over the sessions writes exactly one data line per session, the k-th line being the k-th session's row joined by `;` |
| `CsvExportService.ExportSessionsToCsv` | ShulteTestAutomation/Services/CsvExportService.cs:9-51 | the output is the header line (the 20 column names of the data rows, joined by `;`) followed by one data line per session, in input order |
| `CsvExportService.DetailedTableSection` | ShulteTestAutomation/Services/CsvExportService.cs:100-114 | the section is its header line and five lines "i;time;errors" for tables 1..5, with "0" for a time or error count not recorded |

## Left out

- The user interface: the grid layout, button states, colours, sounds, animations, message boxes and window navigation. The `DispatcherTimer` display of elapsed time is left out too.
- `CancelTest_Click`: it only closes the window.
- Persistence: `TestSessionService.SaveSession`, the file writes of the CSV export, the file names and paths, and the returned file path.
- The session id (`Guid.NewGuid()`) is a parameter. So is the clock (`DateTime.Now`).
- The probability distribution of the shuffle. The model says which exchanges happen, not that every permutation is equally likely.
- IEEE-754 behaviour of `double`. Times are reals, and a zero mean (NaN or infinity in the source) is excluded by the precondition of `CalculateResults`.
- 32-bit overflow: of `size * size` for sizes above 46340, and of `errorCounts.Sum()`, which throws `OverflowException` in checked LINQ arithmetic.
- `ToString("F2")`, the date format and `int.ToString()` are opaque functions. A line of the CSV text is the string `AppendLine` writes, without its line terminator.
- The summary lines of the detailed report (name, date, size, sequence, scores) are left out; only its per-table section is modelled.
- A null `Configuration` in a session passed to the CSV export is not modelled: the source would throw `NullReferenceException` there.
- TestSessionWindow.TestSessionWindow.NumberButtonClick: does not model clicks after the session is finished, because the window is closed then. It does not model a click at the same instant its table started either. The model keeps every recorded table time positive (the invariant `Recorded`); that is what guarantees the five times a positive sum.
