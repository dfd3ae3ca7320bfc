/**
 * The records of the test: its configuration, the scored result and the
 * session that the test window fills in and the CSV export reads.
 */
module Models {
  import opened Wrappers

  /** A point in time, in seconds; subtracting two gives `TimeSpan.TotalSeconds`. */
  type Timestamp = real

  /** The order in which the numbers are laid out in a table. */
  datatype SequenceType = Ascending | Descending | Random

  /** The settings of one test session. */
  datatype TestConfiguration = TestConfiguration(
    tableSize: int,
    sequenceType: SequenceType,
    shuffleAfterEachStep: bool,
    isDefault: bool)

  /** The configuration `new TestConfiguration()` builds: a 5x5 ascending table, no reshuffling. */
  const DefaultConfiguration := TestConfiguration(5, Ascending, false, true)

  /** The scored outcome of a session: ER, BP, IN and the totals. */
  datatype TestResult = TestResult(
    efficiencyRate: real,
    workabilityIndex: real,
    stabilityIndex: real,
    totalErrors: int,
    totalTime: real)

  /**
   * One test session. The reference-typed members that the source tests for
   * null (the subject's name and age, the two lists, the result) are options.
   */
  datatype TestSession = TestSession(
    sessionId: string,
    subjectId: string,
    subjectName: Option<string>,
    subjectAge: Option<string>,
    startTime: Timestamp,
    endTime: Timestamp,
    configuration: TestConfiguration,
    tableTimes: Option<seq<real>>,
    errorCounts: Option<seq<int>>,
    results: Option<TestResult>)
}
