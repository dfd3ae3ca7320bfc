/**
 * Scoring of a finished session: from the five table times and the error
 * counts to the total time, the total errors, the efficiency rate ER (the
 * mean table time), the workability index BP = T1 / ER and the stability
 * index IN = T4 / ER. Times are real numbers of seconds.
 */
module TestSessionService {
  import opened Wrappers
  import opened Models

  /** The exception `CalculateResults` throws. */
  datatype Error = ArgumentException(message: string)

  /** The message of the exception thrown for a wrong number of times. */
  const FiveTimesRequired := "Должно быть 5 временных показателей"

  /** `Enumerable.Sum` over times. */
  function Sum(xs: seq<real>): real
  {
    if xs == [] then 0.0 else xs[0] + Sum(xs[1..])
  }

  /** `Enumerable.Sum` over error counts. */
  function SumInts(xs: seq<int>): int
  {
    if xs == [] then 0 else xs[0] + SumInts(xs[1..])
  }

  /**
   * `CalculateResults(tableTimes, errorCounts)`. Only the number of times is
   * checked; the error counts are summed whatever their number. The source
   * divides doubles; here a zero mean (which there gives NaN or infinity) is
   * excluded by the precondition.
   */
  function CalculateResults(tableTimes: seq<real>, errorCounts: seq<int>): (r: Result<TestResult, Error>)
    requires |tableTimes| == 5 ==> Sum(tableTimes) != 0.0
    ensures r.Failure? <==> |tableTimes| != 5
    ensures r.Failure? ==> r.error == ArgumentException(FiveTimesRequired)
    ensures r.Success? ==>
              && r.value.totalTime == tableTimes[0] + tableTimes[1] + tableTimes[2] + tableTimes[3] + tableTimes[4]
              && r.value.totalErrors == SumInts(errorCounts)
              && 5.0 * r.value.efficiencyRate == r.value.totalTime
              && r.value.workabilityIndex * r.value.efficiencyRate == tableTimes[0]
              && r.value.stabilityIndex * r.value.efficiencyRate == tableTimes[3]
  {
    if |tableTimes| != 5 then
      Failure(ArgumentException(FiveTimesRequired))
    else
      SumOfFive(tableTimes);
      var totalTime := Sum(tableTimes);
      var efficiencyRate := totalTime / (|tableTimes| as real);
      Success(TestResult(
        efficiencyRate := efficiencyRate,
        workabilityIndex := tableTimes[0] / efficiencyRate,
        stabilityIndex := tableTimes[3] / efficiencyRate,
        totalErrors := SumInts(errorCounts),
        totalTime := totalTime))
  }

  // ---------------------------------------------------------------------
  // Lemmas

  /** The sum of five times, written out. */
  lemma SumOfFive(xs: seq<real>)
    requires |xs| == 5
    ensures Sum(xs) == xs[0] + xs[1] + xs[2] + xs[3] + xs[4]
  {
    assert xs[4..][1..] == [];
    assert Sum(xs[4..]) == xs[4];
    assert xs[3..][1..] == xs[4..];
    assert Sum(xs[3..]) == xs[3] + xs[4];
    assert xs[2..][1..] == xs[3..];
    assert Sum(xs[2..]) == xs[2] + xs[3] + xs[4];
    assert xs[1..][1..] == xs[2..];
    assert Sum(xs[1..]) == xs[1] + xs[2] + xs[3] + xs[4];
  }

  /** The sum of error counts splits over concatenation, whatever the lengths. */
  lemma {:induction false} SumIntsAppend(a: seq<int>, b: seq<int>)
    ensures SumInts(a + b) == SumInts(a) + SumInts(b)
  {
    if a == [] {
      assert a + b == b;
    } else {
      assert (a + b)[1..] == a[1..] + b;
      SumIntsAppend(a[1..], b);
    }
  }

  /** Error counts that are never negative give a total that is never negative. */
  lemma {:induction false} SumIntsNonNegative(xs: seq<int>)
    requires forall i :: 0 <= i < |xs| ==> xs[i] >= 0
    ensures SumInts(xs) >= 0
  {
    if xs != [] {
      SumIntsNonNegative(xs[1..]);
    }
  }

  /** Positive times have a positive sum, so scoring them never divides by zero. */
  lemma {:induction false} SumPositive(xs: seq<real>)
    requires |xs| > 0
    requires forall i :: 0 <= i < |xs| ==> xs[i] > 0.0
    ensures Sum(xs) > 0.0
  {
    if |xs| > 1 {
      SumPositive(xs[1..]);
    }
  }

  /** Positive times give a positive ER and positive indices. */
  lemma ScoresOfPositiveTimes(tableTimes: seq<real>, errorCounts: seq<int>)
    requires |tableTimes| == 5
    requires forall i :: 0 <= i < 5 ==> tableTimes[i] > 0.0
    ensures Sum(tableTimes) > 0.0
    ensures CalculateResults(tableTimes, errorCounts).Success?
    ensures var r := CalculateResults(tableTimes, errorCounts).value;
            r.efficiencyRate > 0.0 && r.workabilityIndex > 0.0 && r.stabilityIndex > 0.0
  {
    SumPositive(tableTimes);
  }

  /** Five equal positive times: ER is that time and BP = IN = 1. */
  lemma EqualTimesGiveUnitIndices(t: real, errorCounts: seq<int>)
    requires t > 0.0
    ensures Sum([t, t, t, t, t]) > 0.0
    ensures CalculateResults([t, t, t, t, t], errorCounts).Success?
    ensures var r := CalculateResults([t, t, t, t, t], errorCounts).value;
            r.efficiencyRate == t && r.workabilityIndex == 1.0 && r.stabilityIndex == 1.0
  {
    SumPositive([t, t, t, t, t]);
    var times := [t, t, t, t, t];
    var r := CalculateResults(times, errorCounts).value;
    assert times[0] == t && times[3] == t;
    assert 5.0 * r.efficiencyRate == 5.0 * t;
    assert r.efficiencyRate == t;
    assert r.workabilityIndex == t / t;
    assert r.stabilityIndex == t / t;
    assert t / t == 1.0;
  }

  /** The worked example of the method: times 10, 8, 6, 9, 7. */
  lemma WorkedExample(errorCounts: seq<int>)
    ensures Sum([10.0, 8.0, 6.0, 9.0, 7.0]) != 0.0
    ensures CalculateResults([10.0, 8.0, 6.0, 9.0, 7.0], errorCounts)
            == Success(TestResult(8.0, 1.25, 1.125, SumInts(errorCounts), 40.0))
  {
  }

  /** A full session: times 5, 4, 3, 6, 5 and errors 0, 1, 0, 2, 0. */
  lemma SessionExample()
    ensures Sum([5.0, 4.0, 3.0, 6.0, 5.0]) != 0.0
    ensures var r := CalculateResults([5.0, 4.0, 3.0, 6.0, 5.0], [0, 1, 0, 2, 0]).value;
            && r.totalErrors == 3 && r.totalTime == 23.0 && r.efficiencyRate == 4.6
            && r.workabilityIndex == 5.0 / 4.6 && r.stabilityIndex == 6.0 / 4.6
  {
  }
}
