/**
 * Scoring of a completed sequence in seq_exp.py: a fully correct attempt is
 * appended to its sequence's history of completion times and is "fast" when it
 * is strictly quicker than the median of that history (which already contains
 * it), else "success"; an attempt with a wrong press is a "fail" and leaves the
 * history alone.
 */
module Scoring {
  import opened Cue

  predicate Sorted(s: seq<real>) {
    forall i, j :: 0 <= i < j < |s| ==> s[i] <= s[j]
  }

  /** Insert x before the first value it does not exceed. */
  function Insert(x: real, s: seq<real>): (r: seq<real>)
    ensures |r| == |s| + 1
  {
    if s == [] then [x]
    else if x <= s[0] then [x] + s
    else [s[0]] + Insert(x, s[1..])
  }

  /** Inserting into a sorted sequence keeps it sorted and adds exactly x to its values. */
  lemma InsertKeepsOrder(x: real, s: seq<real>)
    requires Sorted(s)
    ensures Sorted(Insert(x, s)) && multiset(Insert(x, s)) == multiset(s) + multiset{x}
  {
    InsertSorted(x, s);
    InsertAddsValue(x, s);
  }

  lemma {:induction false} InsertSorted(x: real, s: seq<real>)
    requires Sorted(s)
    ensures Sorted(Insert(x, s))
    decreases |s|
  {
    if s != [] && s[0] < x {
      var rest := Insert(x, s[1..]);
      InsertSorted(x, s[1..]);
      // the first of the rest is x or s[1], neither below s[0]
      assert s[0] <= rest[0];
      assert Insert(x, s) == [s[0]] + rest;
    }
  }

  lemma {:induction false} InsertAddsValue(x: real, s: seq<real>)
    ensures multiset(Insert(x, s)) == multiset(s) + multiset{x}
    decreases |s|
  {
    if s != [] && s[0] < x {
      assert s == [s[0]] + s[1..];
      InsertAddsValue(x, s[1..]);
    }
  }

  /** The values of s in ascending order (insertion sort). */
  function Sort(s: seq<real>): (r: seq<real>)
    ensures |r| == |s|
    decreases |s|
  {
    if s == [] then []
    else Insert(s[|s| - 1], Sort(s[..|s| - 1]))
  }

  /** Sort yields a sorted permutation of its input. */
  lemma {:induction false} SortSortsValues(s: seq<real>)
    ensures Sorted(Sort(s)) && multiset(Sort(s)) == multiset(s)
    decreases |s|
  {
    if s != [] {
      var init := s[..|s| - 1];
      SortSortsValues(init);
      InsertKeepsOrder(s[|s| - 1], Sort(init));
      assert s == init + [s[|s| - 1]];
    }
  }

  /** `np.median`: the middle value of the sorted values, or the mean of the two middle values for an even count. */
  function Median(s: seq<real>): real
    requires |s| > 0
  {
    Middle(Sort(s))
  }

  /** The middle of a sorted sequence, averaging the two central values of an even count. */
  function Middle(t: seq<real>): real
    requires |t| > 0
  {
    var n := |t|;
    if n % 2 == 1 then t[n / 2] else (t[n / 2 - 1] + t[n / 2]) / 2.0
  }

  /** Every element of Sort(s) is an element of s: the k returned is where it came from. */
  lemma SortedElement(s: seq<real>, j: nat) returns (k: nat)
    requires j < |s|
    ensures k < |s| && s[k] == Sort(s)[j]
  {
    SortSortsValues(s);
    var t := Sort(s);
    assert t[j] in multiset(s);
    k :| 0 <= k < |s| && s[k] == t[j];
  }

  /** The median is at most any upper bound on the values. */
  lemma MedianAtMost(s: seq<real>, hi: real)
    requires |s| > 0
    requires forall k :: 0 <= k < |s| ==> s[k] <= hi
    ensures Median(s) <= hi
  {
    var n := |s|;
    var k1 := SortedElement(s, n / 2);
    if n % 2 == 0 {
      var k0 := SortedElement(s, n / 2 - 1);
    }
  }

  /** The median is at least any lower bound on the values. */
  lemma MedianAtLeast(s: seq<real>, lo: real)
    requires |s| > 0
    requires forall k :: 0 <= k < |s| ==> lo <= s[k]
    ensures lo <= Median(s)
  {
    var n := |s|;
    var k1 := SortedElement(s, n / 2);
    if n % 2 == 0 {
      var k0 := SortedElement(s, n / 2 - 1);
    }
  }

  /** A time smaller than every earlier time sorts first. */
  lemma InsertBelowAll(x: real, s: seq<real>)
    requires forall k :: 0 <= k < |s| ==> x < s[k]
    ensures Insert(x, s) == [x] + s
  {
  }

  /** The score of each tier: +3, +1 and +0 as the feedback labels show. */
  function Points(f: Feedback): (p: nat)
    ensures p == 0 <==> f == Fail
    ensures p == 3 <==> f == Fast
  {
    match f
    case Fast => 3
    case Success => 1
    case Fail => 0
  }

  /** The outcome of scoring one completed sequence. */
  datatype Assessment = Assessment(feedback: Feedback, points: nat, history: seq<real>)

  /**
   * Score a completed sequence with completion time `seqTime` against the
   * sequence's `history`; the median is taken after appending the new time.
   */
  function Assess(allCorrect: bool, seqTime: real, history: seq<real>): (a: Assessment)
    ensures a.points == Points(a.feedback)
    ensures a.feedback == Fail <==> !allCorrect
    ensures a.history == if allCorrect then history + [seqTime] else history
  {
    if !allCorrect then Assessment(Fail, 0, history)
    else
      var h := history + [seqTime];
      if seqTime < Median(h) then Assessment(Fast, 3, h) else Assessment(Success, 1, h)
  }

  /** The first correct attempt at a sequence scores +1: a one-value median equals that value. */
  lemma FirstAttemptScoresOne(seqTime: real)
    ensures Assess(true, seqTime, []) == Assessment(Success, 1, [seqTime])
  {
    assert Sort([seqTime]) == [seqTime] by {
      assert [seqTime][..0] == [];
    }
  }

  /** A correct attempt strictly quicker than every earlier one, with some history, scores +3. */
  lemma FasterThanAllScoresThree(seqTime: real, history: seq<real>)
    requires |history| > 0
    requires forall k :: 0 <= k < |history| ==> seqTime < history[k]
    ensures Assess(true, seqTime, history).feedback == Fast
  {
    var h := history + [seqTime];
    assert h[..|h| - 1] == history;
    var sh := Sort(history);
    forall j | 0 <= j < |sh|
      ensures seqTime < sh[j]
    {
      var k := SortedElement(history, j);
    }
    InsertBelowAll(seqTime, sh);
    var t := Sort(h);
    assert t == [seqTime] + sh;
    var n := |t|;
    assert n >= 2 && seqTime < t[n / 2];
  }

  /** A correct attempt no quicker than any earlier one scores +1. */
  lemma NoFasterThanAnyScoresOne(seqTime: real, history: seq<real>)
    requires forall k :: 0 <= k < |history| ==> history[k] <= seqTime
    ensures Assess(true, seqTime, history).feedback == Success
  {
    var h := history + [seqTime];
    forall k | 0 <= k < |h|
      ensures h[k] <= seqTime
    {
      if k < |history| {
        assert h[k] == history[k];
      }
    }
    MedianAtMost(h, seqTime);
    assert Median(h) <= seqTime;
  }

  /** The first element of a sorted sequence is its least element. */
  lemma SortedHeadLeast(s: seq<real>, x: real)
    requires Sorted(s) && x in s
    ensures s[0] <= x
  {
    var k :| 0 <= k < |s| && s[k] == x;
  }

  lemma SortedTail(s: seq<real>)
    requires Sorted(s) && s != []
    ensures Sorted(s[1..])
  {
  }

  /** Two sorted sequences with the same values are equal. */
  lemma {:induction false} SortedUnique(a: seq<real>, b: seq<real>)
    requires Sorted(a) && Sorted(b) && multiset(a) == multiset(b)
    ensures a == b
    decreases |a|
  {
    SameValuesSameLength(a, b);
    if a != [] {
      SortedHeadsEqual(a, b);
      SortedTail(a);
      SortedTail(b);
      SameTailValues(a, b);
      SortedUnique(a[1..], b[1..]);
      assert a == [a[0]] + a[1..] && b == [b[0]] + b[1..];
    }
  }

  lemma SameValuesSameLength(a: seq<real>, b: seq<real>)
    requires multiset(a) == multiset(b)
    ensures |a| == |b|
  {
    assert |a| == |multiset(a)|;
    assert |b| == |multiset(b)|;
  }

  lemma SortedHeadsEqual(a: seq<real>, b: seq<real>)
    requires Sorted(a) && Sorted(b) && multiset(a) == multiset(b) && a != [] && b != []
    ensures a[0] == b[0]
  {
    assert a[0] in multiset(b) && b[0] in multiset(a);
    SortedHeadLeast(b, a[0]);
    SortedHeadLeast(a, b[0]);
  }

  lemma SameTailValues(a: seq<real>, b: seq<real>)
    requires multiset(a) == multiset(b) && a != [] && b != [] && a[0] == b[0]
    ensures multiset(a[1..]) == multiset(b[1..])
  {
    assert a == [a[0]] + a[1..] && b == [b[0]] + b[1..];
    assert multiset(a) == multiset{a[0]} + multiset(a[1..]);
    assert multiset(b) == multiset{b[0]} + multiset(b[1..]);
    assert multiset(a[1..]) == multiset(a) - multiset{a[0]};
    assert multiset(b[1..]) == multiset(b) - multiset{b[0]};
  }

  /** Sorting a sorted sequence leaves it as it is. */
  lemma SortOfSorted(s: seq<real>)
    requires Sorted(s)
    ensures Sort(s) == s
  {
    SortSortsValues(s);
    SortedUnique(Sort(s), s);
  }

  /** The median depends only on the values, not on the order they were recorded in. */
  lemma MedianOrderFree(a: seq<real>, b: seq<real>)
    requires |a| > 0 && multiset(a) == multiset(b)
    ensures |b| > 0 && Median(a) == Median(b)
  {
    assert |a| == |multiset(a)| == |multiset(b)| == |b|;
    SortSortsValues(a);
    SortSortsValues(b);
    SortedUnique(Sort(a), Sort(b));
  }

  /** The median of values already in order is their middle. */
  lemma MedianOfSorted(s: seq<real>)
    requires |s| > 0 && Sorted(s)
    ensures Median(s) == Middle(s)
  {
    SortOfSorted(s);
  }

  /** Sorting a history with one more time inserts that time into the sorted history. */
  lemma SortAppend(s: seq<real>, x: real)
    ensures Sort(s + [x]) == Insert(x, Sort(s))
  {
    assert (s + [x])[..|s|] == s;
  }

  /** A time above the first sorted time is inserted among the rest. */
  lemma InsertAfterHead(x: real, s: seq<real>)
    requires s != [] && s[0] < x
    ensures Insert(x, s) == [s[0]] + Insert(x, s[1..])
  {
  }

  /** Moving the last k values to the front keeps the same values. */
  lemma RotateSameValues(s: seq<real>, k: nat)
    requires k <= |s|
    ensures multiset(s[k..] + s[..k]) == multiset(s)
  {
    assert s == s[..k] + s[k..];
  }

  /** Three earlier times whose last is the smallest sort by moving it to the front. */
  lemma SortThreeLastSmallest(a: real, b: real, c: real)
    requires c <= a <= b
    ensures Sort([a, b, c]) == [c, a, b]
  {
    SortAppend([], a);
    SortAppend([a], b);
    SortAppend([a, b], c);
    assert [a] + [b] == [a, b] && [a, b] + [c] == [a, b, c];
    assert Sort([a]) == [a];
    assert Sort([a, b]) == [a, b];
  }

  /**
   * After earlier times [a, b, c] with c smallest, a new time between c and a is
   * second of four and strictly below the median (t + a) / 2: it scores +3.
   */
  lemma SecondOfFourIsFast(a: real, b: real, c: real, t: real)
    requires c < t < a <= b
    ensures Assess(true, t, [a, b, c]).feedback == Fast
  {
    SortAppend([a, b, c], t);
    SortThreeLastSmallest(a, b, c);
    InsertAfterHead(t, [c, a, b]);
    assert [c, a, b][1..] == [a, b];
    InsertBelowAll(t, [a, b]);
    assert Sort([a, b, c] + [t]) == [c, t, a, b];
  }

  /**
   * After earlier times [a, b, c] with c smallest, a new time between a and b is
   * third of four and above the median (a + t) / 2: it scores +1.
   */
  lemma ThirdOfFourIsNotFast(a: real, b: real, c: real, t: real)
    requires c < a < t < b
    ensures Assess(true, t, [a, b, c]).feedback == Success
  {
    SortAppend([a, b, c], t);
    SortThreeLastSmallest(a, b, c);
    InsertAfterHead(t, [c, a, b]);
    assert [c, a, b][1..] == [a, b];
    InsertAfterHead(t, [a, b]);
    assert [a, b][1..] == [b];
    InsertBelowAll(t, [b]);
    assert Sort([a, b, c] + [t]) == [c, a, t, b];
  }

  /** With the history [1.0, 1.2, 0.8], 0.9 s is fast: the median of all four times is 0.95. */
  lemma MedianTierFast(history: seq<real>, seqTime: real)
    requires history == [1.0, 1.2, 0.8] && seqTime == 0.9
    ensures Assess(true, seqTime, history) == Assessment(Fast, 3, history + [seqTime])
  {
    SecondOfFourIsFast(1.0, 1.2, 0.8, seqTime);
  }

  /** With the history [1.0, 1.2, 0.8], 1.1 s is not fast: the median of all four times is 1.05. */
  lemma MedianTierSuccess(history: seq<real>, seqTime: real)
    requires history == [1.0, 1.2, 0.8] && seqTime == 1.1
    ensures Assess(true, seqTime, history) == Assessment(Success, 1, history + [seqTime])
  {
    ThirdOfFourIsNotFast(1.0, 1.2, 0.8, seqTime);
  }

  /**
   * After two earlier times a < b, a new time between them is the median of the
   * three, so it is not fast although it is below the median (a + b) / 2 of the
   * earlier times whenever it is closer to a.
   */
  lemma MiddleOfThreeIsNotFast(a: real, b: real, t: real)
    requires a < t < b
    ensures Median([a, b]) == (a + b) / 2.0
    ensures Assess(true, t, [a, b]).feedback == Success
  {
    SortAppend([], a);
    SortAppend([a], b);
    SortAppend([a, b], t);
    InsertAfterHead(t, [a, b]);
    assert [a, b][1..] == [b];
    assert Sort([a, b] + [t]) == [a, t, b];
  }

  /**
   * Because the new time joins the history before the median is taken, 1.4 s
   * after [1.0, 2.0] is not fast, although the median of the earlier times is 1.5.
   */
  lemma MedianIncludesCurrentAttempt(history: seq<real>, seqTime: real)
    requires history == [1.0, 2.0] && seqTime == 1.4
    ensures Median(history) == 1.5
    ensures seqTime < Median(history) && Assess(true, seqTime, history).feedback == Success
  {
    MiddleOfThreeIsNotFast(1.0, 2.0, seqTime);
  }
}
