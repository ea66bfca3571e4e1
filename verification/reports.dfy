/**
 * The reports page: conversion rate, average approved value, the project-type breakdown
 * with its percentages, and the ten most recent quotes.
 */
module ReportsPage {
  import opened Wrappers
  import opened Seqs
  import opened Schema
  import opened Storage

  /**
   * A `Record<string, number>` built by counting: its keys in the order they were first added,
   * each with its count.
   */
  type Tally = seq<(string, nat)>

  function Keys(t: Tally): (r: seq<string>)
    ensures |r| == |t|
    ensures forall i :: 0 <= i < |t| ==> r[i] == t[i].0
  {
    if t == [] then [] else [t[0].0] + Keys(t[1..])
  }

  /** `acc[k] || 0`. */
  function Lookup(t: Tally, k: string): nat {
    if t == [] then 0 else if t[0].0 == k then t[0].1 else Lookup(t[1..], k)
  }

  /** The sum of all counts. */
  function Total(t: Tally): nat {
    if t == [] then 0 else t[0].1 + Total(t[1..])
  }

  predicate DistinctKeys(t: Tally) {
    forall i, j :: 0 <= i < j < |t| ==> t[i].0 != t[j].0
  }

  /** `acc[k] = (acc[k] || 0) + 1`: a present key is incremented in place, a new one appended with 1. */
  function Bump(t: Tally, k: string): Tally {
    if t == [] then [(k, 1)]
    else if t[0].0 == k then [(k, t[0].1 + 1)] + t[1..]
    else [t[0]] + Bump(t[1..], k)
  }

  /** The keys after the first are distinct and do not repeat the first. */
  lemma DistinctTail(t: Tally)
    requires DistinctKeys(t) && t != []
    ensures DistinctKeys(t[1..]) && t[0].0 !in Keys(t[1..])
  {
  }

  /** Putting a new key in front of distinct keys keeps them distinct. */
  lemma DistinctCons(x: (string, nat), t: Tally)
    requires DistinctKeys(t) && x.0 !in Keys(t)
    ensures DistinctKeys([x] + t)
  {
    var b := [x] + t;
    forall i, j | 0 <= i < j < |b|
      ensures b[i].0 != b[j].0
    {
      assert b[j] == t[j - 1];
      if i > 0 {
        assert b[i] == t[i - 1];
      } else {
        assert Keys(t)[j - 1] == b[j].0;
      }
    }
  }

  /** What `Bump` does: one more for `k`, nothing else changes, the key order is kept. */
  lemma {:induction false} BumpSpec(t: Tally, k: string)
    requires DistinctKeys(t)
    ensures DistinctKeys(Bump(t, k))
    ensures Lookup(Bump(t, k), k) == Lookup(t, k) + 1
    ensures forall j :: j != k ==> Lookup(Bump(t, k), j) == Lookup(t, j)
    ensures Keys(Bump(t, k)) == if k in Keys(t) then Keys(t) else Keys(t) + [k]
    ensures Total(Bump(t, k)) == Total(t) + 1
  {
    if t == [] {
    } else {
      DistinctTail(t);
      var b := Bump(t, k);
      assert Keys(t) == [t[0].0] + Keys(t[1..]);
      if t[0].0 == k {
        assert b[1..] == t[1..];
        assert Keys(b) == [k] + Keys(t[1..]);
        DistinctCons(b[0], t[1..]);
      } else {
        BumpSpec(t[1..], k);
        assert b == [t[0]] + Bump(t[1..], k);
        assert Keys(b) == [t[0].0] + Keys(Bump(t[1..], k));
        DistinctCons(t[0], Bump(t[1..], k));
      }
    }
  }

  /** The number of quotes with project type `k`. */
  function CountOfType(qs: seq<Quote>, k: string): (r: nat)
    ensures r <= |qs|
  {
    if qs == [] then 0
    else CountOfType(qs[..|qs| - 1], k) + (if qs[|qs| - 1].projectType == k then 1 else 0)
  }

  /** A type is counted at all exactly when some quote has it. */
  lemma {:induction false} CountOfTypePositive(qs: seq<Quote>, k: string)
    ensures CountOfType(qs, k) > 0 <==> exists i :: 0 <= i < |qs| && qs[i].projectType == k
  {
    if qs != [] {
      var init := qs[..|qs| - 1];
      CountOfTypePositive(init, k);
      if exists i :: 0 <= i < |init| && init[i].projectType == k {
        var i :| 0 <= i < |init| && init[i].projectType == k;
        assert qs[i] == init[i];
      }
      if exists i :: 0 <= i < |qs| && qs[i].projectType == k {
        var i :| 0 <= i < |qs| && qs[i].projectType == k;
        if i < |init| {
          assert init[i] == qs[i];
        }
      }
    }
  }

  /** The `reduce` building `projectTypes`, one quote at a time from the front. */
  function TallyTypes(qs: seq<Quote>): Tally {
    if qs == [] then [] else Bump(TallyTypes(qs[..|qs| - 1]), qs[|qs| - 1].projectType)
  }

  /**
   * The breakdown is right: no type listed twice, each listed type with the number of quotes
   * of that type, a type listed exactly when some quote has it, and the counts adding up to
   * the number of quotes.
   */
  lemma {:induction false} TallyTypesCorrect(qs: seq<Quote>)
    ensures DistinctKeys(TallyTypes(qs))
    ensures forall k :: Lookup(TallyTypes(qs), k) == CountOfType(qs, k)
    ensures forall k :: k in Keys(TallyTypes(qs)) <==> CountOfType(qs, k) > 0
    ensures Total(TallyTypes(qs)) == |qs|
  {
    if qs != [] {
      var init, last := qs[..|qs| - 1], qs[|qs| - 1].projectType;
      TallyTypesCorrect(init);
      BumpSpec(TallyTypes(init), last);
    }
  }

  /** A new quote either bumps its type in place or appends it as the last key. */
  lemma TallyTypesSnoc(qs: seq<Quote>, q: Quote)
    ensures Keys(TallyTypes(qs + [q])) ==
      if CountOfType(qs, q.projectType) > 0 then Keys(TallyTypes(qs)) else Keys(TallyTypes(qs)) + [q.projectType]
  {
    assert (qs + [q])[..|qs|] == qs;
    TallyTypesCorrect(qs);
    BumpSpec(TallyTypes(qs), q.projectType);
  }

  /** The percentage shown beside a count: `count / quotes.length * 100`. */
  function Percent(count: nat, total: nat): real
    requires total > 0
  {
    count as real / total as real * 100.0
  }

  /** The percentages of a tally's entries, added up. */
  function SumPercents(t: Tally, total: nat): real
    requires total > 0
  {
    if t == [] then 0.0 else Percent(t[0].1, total) + SumPercents(t[1..], total)
  }

  lemma {:induction false} SumPercentsTotal(t: Tally, total: nat)
    requires total > 0
    ensures SumPercents(t, total) == Total(t) as real / total as real * 100.0
  {
    if t != [] {
      SumPercentsTotal(t[1..], total);
      var a, b, n := t[0].1 as real, Total(t[1..]) as real, total as real;
      assert (a + b) / n == a / n + b / n;
    }
  }

  /** The counts of the breakdown add up to the number of quotes. */
  lemma TallyTypesTotal(qs: seq<Quote>)
    ensures Total(TallyTypes(qs)) == |qs|
  {
    TallyTypesCorrect(qs);
  }

  lemma WholeIsHundred(n: nat)
    requires n > 0
    ensures n as real / n as real * 100.0 == 100.0
  {
  }

  /** The breakdown's percentages add up to 100 whenever there is a quote. */
  lemma PercentagesSumTo100(qs: seq<Quote>)
    requires qs != []
    ensures SumPercents(TallyTypes(qs), |qs|) == 100.0
  {
    TallyTypesTotal(qs);
    SumPercentsTotal(TallyTypes(qs), |qs|);
    WholeIsHundred(|qs|);
  }

  /** `count / total * 100`, or 0 when there is nothing to divide by. */
  function Rate(count: nat, total: nat): (r: real)
    requires count <= total
    ensures total == 0 ==> r == 0.0
    ensures total > 0 ==> r * total as real == count as real * 100.0
    ensures 0.0 <= r <= 100.0
  {
    if total > 0 then
      var c, n := count as real, total as real;
      assert c / n <= 1.0 by {
        assert c / n * n == c;
      }
      c / n * 100.0
    else 0.0
  }

  /** `sum / count`, or 0 when there is nothing to average. */
  function Mean(sum: int, count: nat): (r: real)
    ensures count == 0 ==> r == 0.0
    ensures count > 0 ==> r * count as real == sum as real
  {
    if count > 0 then sum as real / count as real else 0.0
  }

  /** What `calculateMetrics` returns. */
  datatype Metrics = Metrics(
    conversionRate: real,
    averageQuoteValue: real,
    projectTypes: Tally,
    rejectedCount: nat,
    pendingCount: nat)

  /**
   * `calculateMetrics`: the share of approved quotes in percent (0 with no quotes), the mean
   * amount of the approved quotes (a missing amount counting as 0; 0 with none approved), the
   * project-type breakdown, and the rejected and pending counts.
   */
  function CalculateMetrics(qs: seq<Quote>): (m: Metrics)
    ensures var approved := |Filter(qs, IsApproved)|;
      && approved + m.rejectedCount + m.pendingCount <= |qs|
      && m.conversionRate == Rate(approved, |qs|)
      && m.averageQuoteValue == Mean(ApprovedRevenue(qs), approved)
    ensures m.projectTypes == TallyTypes(qs)
    ensures m.rejectedCount == |Filter(qs, IsRejected)| && m.pendingCount == |Filter(qs, IsPending)|
  {
    var approved := Filter(qs, IsApproved);
    ExclusiveFilters3(qs, IsApproved, IsRejected, IsPending);
    Metrics(
      conversionRate := Rate(|approved|, |qs|),
      averageQuoteValue := Mean(SumAmounts(approved), |approved|),
      projectTypes := TallyTypes(qs),
      rejectedCount := |Filter(qs, IsRejected)|,
      pendingCount := |Filter(qs, IsPending)|)
  }

  /** Newest first: `createdAt` never increases along the list. */
  predicate NewestFirst(s: seq<Quote>) {
    forall i, j :: 0 <= i < j < |s| ==> s[i].createdAt >= s[j].createdAt
  }

  /**
   * `quotes.sort((a, b) => b.createdAt - a.createdAt)`, which reorders the array in place:
   * afterwards it is newest first and holds the same quotes.
   */
  method SortNewestFirst(a: array<Quote>)
    modifies a
    ensures NewestFirst(a[..])
    ensures multiset(a[..]) == multiset(old(a[..]))
  {
    var i := 0;
    while i < a.Length
      invariant 0 <= i <= a.Length
      invariant NewestFirst(a[..i])
      invariant multiset(a[..]) == multiset(old(a[..]))
    {
      InsertNewest(a, i);
      i := i + 1;
    }
    assert a[..a.Length] == a[..];
  }

  /**
   * Midway through inserting the quote now at `j` into the newest-first prefix `s[..i + 1]`:
   * the prefix without position `j` is newest first, and the quote at `j` is newer than every
   * quote after it in the prefix.
   */
  predicate Inserting(s: seq<Quote>, i: nat, j: nat) {
    && j <= i < |s|
    && (forall k, l :: 0 <= k < l <= i && k != j && l != j ==> s[k].createdAt >= s[l].createdAt)
    && (forall l :: j < l <= i ==> s[j].createdAt > s[l].createdAt)
  }

  /** Moving the quote one place down past an older one keeps the insertion going. */
  lemma InsertingStep(s: seq<Quote>, i: nat, j: nat)
    requires Inserting(s, i, j) && 0 < j && s[j - 1].createdAt < s[j].createdAt
    ensures Inserting(s[j - 1 := s[j]][j := s[j - 1]], i, j - 1)
  {
  }

  /** Once the quote is not newer than the one before it (or is first), the prefix is newest first. */
  lemma InsertingDone(s: seq<Quote>, i: nat, j: nat)
    requires Inserting(s, i, j) && (j == 0 || s[j - 1].createdAt >= s[j].createdAt)
    ensures NewestFirst(s[..i + 1])
  {
  }

  /**
   * One step of the insertion sort: with `a[..i]` newest first, moves `a[i]` down past every
   * older quote so that `a[..i + 1]` is newest first; the rest of the array is untouched.
   */
  method InsertNewest(a: array<Quote>, i: nat)
    requires i < a.Length
    requires NewestFirst(a[..i])
    modifies a
    ensures NewestFirst(a[..i + 1])
    ensures multiset(a[..]) == multiset(old(a[..]))
    ensures a[i + 1..] == old(a[i + 1..])
  {
    var j := i;
    assert Inserting(a[..], i, j) by {
      assert forall k :: 0 <= k < i ==> a[..i][k] == a[k];
    }
    while j > 0 && a[j - 1].createdAt < a[j].createdAt
      invariant 0 <= j
      invariant Inserting(a[..], i, j)
      invariant multiset(a[..]) == multiset(old(a[..]))
      invariant a[i + 1..] == old(a[i + 1..])
    {
      ghost var before := a[..];
      InsertingStep(before, i, j);
      SwapPreservesMultiset(before, j - 1, j);
      a[j - 1], a[j] := a[j], a[j - 1];
      assert a[..] == before[j - 1 := before[j]][j := before[j - 1]];
      j := j - 1;
    }
    InsertingDone(a[..], i, j);
  }

  /** Exchanging two elements keeps the same elements. */
  lemma SwapPreservesMultiset<T>(s: seq<T>, i: nat, j: nat)
    requires i < j < |s|
    ensures multiset(s[i := s[j]][j := s[i]]) == multiset(s)
  {
    var t := s[i := s[j]][j := s[i]];
    assert s == s[..i] + [s[i]] + s[i + 1..j] + [s[j]] + s[j + 1..];
    assert t == s[..i] + [s[j]] + s[i + 1..j] + [s[i]] + s[j + 1..];
  }

  /**
   * `recentQuotes`: sorts the array in place, then the first ten (or all, when fewer): newest
   * first, and none of the quotes left out is newer than one shown.
   */
  method RecentQuotes(a: array<Quote>) returns (r: seq<Quote>)
    modifies a
    ensures multiset(a[..]) == multiset(old(a[..]))
    ensures NewestFirst(a[..])
    ensures r == Take(a[..], 10)
    ensures |r| == if a.Length < 10 then a.Length else 10
    ensures NewestFirst(r)
    ensures forall i, j :: 0 <= i < |r| <= j < a.Length ==> r[i].createdAt >= a[j].createdAt
  {
    SortNewestFirst(a);
    r := Take(a[..], 10);
  }
}
