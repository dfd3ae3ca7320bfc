/**
 * The Schulte table generator: the numbers 1..size*size of one table in
 * ascending, descending or random order, and the reshuffle of the numbers
 * not yet found. The random source is modelled as a nondeterministic choice
 * of each Fisher-Yates pick within its range.
 */
module SchulteTableGenerator {
  import opened Models

  /** The number of cells of a `size` x `size` table. */
  function Total(size: int): nat
  {
    size * size
  }

  /** The numbers 1..n in ascending order, as `Enumerable.Range(1, n)` lists them. */
  function RangeUp(n: nat): (r: seq<int>)
    ensures |r| == n
  {
    seq(n, i => i + 1)
  }

  /** The numbers n..1 in descending order. */
  function RangeDown(n: nat): (r: seq<int>)
    ensures |r| == n
  {
    seq(n, i => n - i)
  }

  /** `s` read back to front. */
  function Reversed(s: seq<int>): (r: seq<int>)
    ensures |r| == |s|
  {
    seq(|s|, i requires 0 <= i < |s| => s[|s| - 1 - i])
  }

  /** `s` with the elements at positions `i` and `j` exchanged. */
  function Swap(s: seq<int>, i: nat, j: nat): (r: seq<int>)
    requires i < |s| && j < |s|
    ensures |r| == |s|
  {
    s[i := s[j]][j := s[i]]
  }

  /**
   * The picks of a Fisher-Yates pass over a list of `len` elements: step `i`
   * swaps position `len - 1 - i` with a position `k` in `0..len - 1 - i`.
   */
  predicate PicksInRange(len: nat, picks: seq<int>)
  {
    forall i :: 0 <= i < |picks| ==> 0 <= picks[i] <= len - 1 - i
  }

  /** The list that the swaps chosen by `picks` make of `s`, in order. */
  function FisherYates(s: seq<int>, picks: seq<int>): (r: seq<int>)
    requires PicksInRange(|s|, picks)
    ensures |r| == |s|
    decreases |picks|
  {
    if picks == [] then s
    else
      var i := |picks| - 1;
      Swap(FisherYates(s, picks[..i]), picks[i], |s| - 1 - i)
  }

  /** What `GenerateTable(size, sequenceType)` may return. */
  predicate IsLayout(r: seq<int>, size: int, sequenceType: SequenceType)
  {
    match sequenceType
    case Ascending => r == RangeUp(Total(size))
    case Descending => r == RangeDown(Total(size))
    case Random => multiset(r) == multiset(RangeUp(Total(size)))
  }

  /** The values at most `last` ("found"), in their order in `s`. */
  function Found(s: seq<int>, last: int): (r: seq<int>)
    ensures forall i :: 0 <= i < |r| ==> r[i] <= last
    ensures |r| <= |s|
  {
    if s == [] then []
    else if s[0] <= last then [s[0]] + Found(s[1..], last)
    else Found(s[1..], last)
  }

  /** The values above `last` ("remaining"), in their order in `s`. */
  function Remaining(s: seq<int>, last: int): (r: seq<int>)
    ensures forall i :: 0 <= i < |r| ==> r[i] > last
    ensures |r| <= |s|
  {
    if s == [] then []
    else if s[0] > last then [s[0]] + Remaining(s[1..], last)
    else Remaining(s[1..], last)
  }

  /**
   * The stable `OrderBy(n => n <= last ? 0 : 1)`: the elements with key 0
   * first, then those with key 1, each group in its order in `s`.
   */
  function OrderByFoundFirst(s: seq<int>, last: int): seq<int>
  {
    Found(s, last) + Remaining(s, last)
  }

  /**
   * What `ShuffleRemainingNumbers(current, last)` may return: the found
   * values in their original order, then the remaining ones in some order.
   */
  predicate IsReshuffle(r: seq<int>, current: seq<int>, last: int)
  {
    var found := Found(current, last);
    |r| == |current| &&
    r[..|found|] == found &&
    multiset(r[|found|..]) == multiset(Remaining(current, last))
  }

  // ---------------------------------------------------------------------
  // Operations

  /** Exchanges `a[i]` and `a[j]`. */
  method SwapInPlace(a: array<int>, i: nat, j: nat)
    requires i < a.Length && j < a.Length
    modifies a
    ensures a[..] == Swap(old(a[..]), i, j)
  {
    var value := a[i];
    a[i] := a[j];
    a[j] := value;
  }

  /**
   * The Fisher-Yates shuffle: while n > 1, decrement n, pick k in 0..n and
   * exchange list[k] and list[n]. The ghost `picks` records each k.
   */
  method Shuffle(a: array<int>) returns (ghost picks: seq<int>)
    modifies a
    ensures PicksInRange(a.Length, picks)
    ensures |picks| == if a.Length > 1 then a.Length - 1 else 0
    ensures a[..] == FisherYates(old(a[..]), picks)
    ensures multiset(a[..]) == multiset(old(a[..]))
  {
    picks := [];
    var n := a.Length;
    while n > 1
      invariant 0 <= n <= a.Length
      invariant a.Length > 0 ==> n >= 1
      invariant |picks| == a.Length - n
      invariant PicksInRange(a.Length, picks)
      invariant a[..] == FisherYates(old(a[..]), picks)
    {
      n := n - 1;
      var k :| 0 <= k <= n;
      SwapInPlace(a, k, n);
      assert (picks + [k])[..|picks|] == picks;
      picks := picks + [k];
    }
    FisherYatesPermutes(old(a[..]), picks);
  }

  /** Reverses `a` in place (`List.Reverse`). */
  method Reverse(a: array<int>)
    modifies a
    ensures a[..] == Reversed(old(a[..]))
  {
    var lo, hi := 0, a.Length - 1;
    while lo < hi
      invariant 0 <= lo <= a.Length && hi == a.Length - 1 - lo
      invariant forall i :: 0 <= i < lo ==> a[i] == old(a[a.Length - 1 - i]) && a[a.Length - 1 - i] == old(a[i])
      invariant forall i :: lo <= i <= hi ==> a[i] == old(a[i])
    {
      SwapInPlace(a, lo, hi);
      lo, hi := lo + 1, hi - 1;
    }
  }

  /**
   * The numbers 1..size*size, left ascending, reversed in place for
   * Descending, shuffled in place for Random.
   */
  method GenerateTable(size: int, sequenceType: SequenceType) returns (numbers: seq<int>)
    ensures |numbers| == Total(size)
    ensures sequenceType == Ascending ==> numbers == RangeUp(Total(size))
    ensures sequenceType == Descending ==> numbers == RangeDown(Total(size))
    ensures multiset(numbers) == multiset(RangeUp(Total(size)))
    ensures IsLayout(numbers, size, sequenceType)
  {
    var total := Total(size);
    var a := new int[total](i => i + 1);
    assert a[..] == RangeUp(total);
    match sequenceType {
      case Ascending =>
      case Descending =>
        Reverse(a);
        assert a[..] == RangeDown(total);
        RangeDownPermutesRangeUp(total);
      case Random =>
        ghost var picks := Shuffle(a);
    }
    numbers := a[..];
  }

  /**
   * Shuffles the numbers above `last` and puts them after the others, which
   * keep their order: `Where(n > last)`, shuffle, concatenate the rest, and
   * the stable `OrderBy` that brings the values at most `last` to the front.
   */
  method ShuffleRemainingNumbers(current: seq<int>, last: int) returns (r: seq<int>)
    ensures IsReshuffle(r, current, last)
    ensures multiset(r) == multiset(current)
    ensures forall i, j :: 0 <= i < j < |r| && r[j] <= last ==> r[i] <= last
    ensures (forall i :: 0 <= i < |current| ==> current[i] <= last) ==> r == current
  {
    var remaining := Remaining(current, last);
    var a := new int[|remaining|](i requires 0 <= i < |remaining| => remaining[i]);
    assert a[..] == remaining;
    ghost var picks := Shuffle(a);
    var found := Found(current, last);
    r := OrderByFoundFirst(a[..] + found, last);
    ShuffledAreRemaining(a[..], current, last);
    OrderBySwapsGroups(a[..], found, last);
    FoundThenShuffledIsReshuffle(a[..], current, last);
    ReshuffleProperties(r, current, last);
  }

  // ---------------------------------------------------------------------
  // Lemmas

  /** An exchange of two positions keeps the multiset of values. */
  lemma SwapPermutes(s: seq<int>, i: nat, j: nat)
    requires i < |s| && j < |s|
    ensures multiset(Swap(s, i, j)) == multiset(s)
  {
    var t := s[i := s[j]];
    assert multiset(t) == multiset(s) - multiset{s[i]} + multiset{s[j]};
    assert t[j] == s[j];
    assert multiset(t[j := s[i]]) == multiset(t) - multiset{s[j]} + multiset{s[i]};
  }

  /** Every Fisher-Yates pass yields a permutation of its input. */
  lemma {:induction false} FisherYatesPermutes(s: seq<int>, picks: seq<int>)
    requires PicksInRange(|s|, picks)
    ensures multiset(FisherYates(s, picks)) == multiset(s)
    decreases |picks|
  {
    if picks != [] {
      var i := |picks| - 1;
      FisherYatesPermutes(s, picks[..i]);
      SwapPermutes(FisherYates(s, picks[..i]), picks[i], |s| - 1 - i);
    }
  }

  /** Each of 1..n occurs exactly once in `RangeUp(n)`, and nothing else occurs. */
  lemma {:induction false} RangeUpOccurrences(n: nat, v: int)
    ensures multiset(RangeUp(n))[v] == if 1 <= v <= n then 1 else 0
  {
    if n > 0 {
      assert RangeUp(n) == RangeUp(n - 1) + [n];
      RangeUpOccurrences(n - 1, v);
    }
  }

  /** The descending table holds the same numbers as the ascending one. */
  lemma {:induction false} RangeDownPermutesRangeUp(n: nat)
    ensures multiset(RangeDown(n)) == multiset(RangeUp(n))
  {
    if n > 0 {
      assert RangeUp(n) == RangeUp(n - 1) + [n];
      assert RangeDown(n) == [n] + RangeDown(n - 1);
      RangeDownPermutesRangeUp(n - 1);
    }
  }

  /** A permutation of 1..n holds every one of 1..n, nothing else, and no value twice. */
  lemma PermutationOfRange(r: seq<int>, n: nat)
    requires multiset(r) == multiset(RangeUp(n))
    ensures |r| == n
    ensures forall v :: v in r <==> 1 <= v <= n
    ensures forall i, j :: 0 <= i < j < |r| ==> r[i] != r[j]
  {
    assert |r| == |multiset(r)| == |multiset(RangeUp(n))| == n;
    forall v
      ensures v in r <==> 1 <= v <= n
    {
      RangeUpOccurrences(n, v);
      assert v in r <==> v in multiset(r);
    }
    forall i, j | 0 <= i < j < |r|
      ensures r[i] != r[j]
    {
      if r[i] == r[j] {
        var v := r[i];
        assert r == r[..i] + [v] + r[i + 1..j] + [v] + r[j + 1..];
        assert multiset(r)[v] >= 2;
        RangeUpOccurrences(n, v);
        assert false;
      }
    }
  }

  /**
   * Whatever the order, a generated table holds each of 1..size*size exactly
   * once and nothing else.
   */
  lemma LayoutIsPermutation(r: seq<int>, size: int, sequenceType: SequenceType)
    requires IsLayout(r, size, sequenceType)
    ensures |r| == Total(size)
    ensures forall v :: v in r <==> 1 <= v <= Total(size)
    ensures forall i, j :: 0 <= i < j < |r| ==> r[i] != r[j]
  {
    if sequenceType == Descending {
      RangeDownPermutesRangeUp(Total(size));
    }
    PermutationOfRange(r, Total(size));
  }

  /** `Found` and `Remaining` split `s` without losing or adding a value. */
  lemma {:induction false} FoundAndRemainingPartition(s: seq<int>, last: int)
    ensures multiset(Found(s, last)) + multiset(Remaining(s, last)) == multiset(s)
  {
    if s != [] {
      FoundAndRemainingPartition(s[1..], last);
      assert s == [s[0]] + s[1..];
    }
  }

  /** The stable ordering by key is a permutation of its input. */
  lemma OrderByFoundFirstPermutes(s: seq<int>, last: int)
    ensures multiset(OrderByFoundFirst(s, last)) == multiset(s)
    ensures forall i, j :: 0 <= i < j < |OrderByFoundFirst(s, last)| && OrderByFoundFirst(s, last)[j] <= last
              ==> OrderByFoundFirst(s, last)[i] <= last
  {
    FoundAndRemainingPartition(s, last);
  }

  /** Filtering distributes over concatenation. */
  lemma {:induction false} FilterAppend(a: seq<int>, b: seq<int>, last: int)
    ensures Found(a + b, last) == Found(a, last) + Found(b, last)
    ensures Remaining(a + b, last) == Remaining(a, last) + Remaining(b, last)
  {
    if a == [] {
      assert a + b == b;
    } else {
      assert (a + b)[1..] == a[1..] + b;
      FilterAppend(a[1..], b, last);
    }
  }

  /** A list whose values are all at most `last` is its own `Found` part and has no `Remaining` part. */
  lemma {:induction false} AllFound(s: seq<int>, last: int)
    requires forall i :: 0 <= i < |s| ==> s[i] <= last
    ensures Found(s, last) == s && Remaining(s, last) == []
  {
    if s != [] {
      AllFound(s[1..], last);
    }
  }

  /** A list whose values all exceed `last` is its own `Remaining` part and has no `Found` part. */
  lemma {:induction false} AllRemaining(s: seq<int>, last: int)
    requires forall i :: 0 <= i < |s| ==> s[i] > last
    ensures Remaining(s, last) == s && Found(s, last) == []
  {
    if s != [] {
      AllRemaining(s[1..], last);
    }
  }

  /** A permutation of the remaining values holds only values above `last`. */
  lemma ShuffledAreRemaining(shuffled: seq<int>, current: seq<int>, last: int)
    requires multiset(shuffled) == multiset(Remaining(current, last))
    ensures forall i :: 0 <= i < |shuffled| ==> shuffled[i] > last
  {
    var rem := Remaining(current, last);
    forall i | 0 <= i < |shuffled|
      ensures shuffled[i] > last
    {
      assert shuffled[i] in multiset(shuffled);
      assert shuffled[i] in multiset(rem);
      var k :| 0 <= k < |rem| && rem[k] == shuffled[i];
    }
  }

  /**
   * Ordering by key a list of values above `last` followed by values at most
   * `last` swaps the two groups and keeps the order within each.
   */
  lemma OrderBySwapsGroups(above: seq<int>, atMost: seq<int>, last: int)
    requires forall i :: 0 <= i < |above| ==> above[i] > last
    requires forall i :: 0 <= i < |atMost| ==> atMost[i] <= last
    ensures OrderByFoundFirst(above + atMost, last) == atMost + above
  {
    AllRemaining(above, last);
    AllFound(atMost, last);
    FilterAppend(above, atMost, last);
  }

  /** The found values followed by a permutation of the remaining ones is a reshuffle. */
  lemma FoundThenShuffledIsReshuffle(shuffled: seq<int>, current: seq<int>, last: int)
    requires multiset(shuffled) == multiset(Remaining(current, last))
    ensures IsReshuffle(Found(current, last) + shuffled, current, last)
  {
    var found := Found(current, last);
    FoundAndRemainingPartition(current, last);
    assert |multiset(found)| + |multiset(shuffled)| == |multiset(current)|;
    var r := found + shuffled;
    assert r[..|found|] == found;
    assert r[|found|..] == shuffled;
  }

  /**
   * A reshuffle is a permutation of its input in which no value above `last`
   * precedes a value at most `last`; when no value exceeds `last` it is the
   * input itself.
   */
  lemma ReshuffleProperties(r: seq<int>, current: seq<int>, last: int)
    requires IsReshuffle(r, current, last)
    ensures multiset(r) == multiset(current)
    ensures forall i, j :: 0 <= i < j < |r| && r[j] <= last ==> r[i] <= last
    ensures (forall i :: 0 <= i < |current| ==> current[i] <= last) ==> r == current
  {
    var found := Found(current, last);
    var shuffled := r[|found|..];
    assert r == found + shuffled;
    FoundAndRemainingPartition(current, last);
    ShuffledAreRemaining(shuffled, current, last);
    FoundFirst(found, shuffled, last);
    if forall i :: 0 <= i < |current| ==> current[i] <= last {
      AllFound(current, last);
      assert |multiset(shuffled)| == 0;
    }
  }

  /** Values at most `last` followed by values above it: no value above `last` precedes one at most `last`. */
  lemma FoundFirst(found: seq<int>, shuffled: seq<int>, last: int)
    requires forall i :: 0 <= i < |found| ==> found[i] <= last
    requires forall i :: 0 <= i < |shuffled| ==> shuffled[i] > last
    ensures forall i, j :: 0 <= i < j < |found + shuffled| && (found + shuffled)[j] <= last
              ==> (found + shuffled)[i] <= last
  {
  }
}
