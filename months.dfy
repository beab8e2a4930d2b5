/**
 * Month keys of the monthly report: the ascending list of months present in
 * the table (the options of the month selector) and the entries of one month.
 */
module Months {
  import opened Expense
  import opened Aggregate

  predicate StrictlyAscending(ks: seq<MonthKey>) {
    forall i, j :: 0 <= i < j < |ks| ==> Before(ks[i], ks[j])
  }

  lemma AscendingNoDuplicates(ks: seq<MonthKey>)
    requires StrictlyAscending(ks)
    ensures NoDuplicates(ks)
  {
  }

  /** `k` put into its place in an ascending list of keys, unless already there. */
  function Insert(k: MonthKey, ks: seq<MonthKey>): (r: seq<MonthKey>)
    requires StrictlyAscending(ks)
    ensures StrictlyAscending(r)
    ensures forall x :: x in r <==> x == k || x in ks
  {
    if ks == [] then [k]
    else if k == ks[0] then ks
    else if Before(k, ks[0]) then [k] + ks
    else
      var tail := Insert(k, ks[1..]);
      assert forall x :: x in tail ==> Before(ks[0], x) by {
        forall x | x in tail ensures Before(ks[0], x) {
          if x != k {
            var j :| 1 <= j < |ks| && ks[j] == x;
          }
        }
      }
      [ks[0]] + tail
  }

  /**
   * The sorted, de-duplicated month keys of `es`: strictly ascending and
   * holding exactly the keys of the entries.
   */
  function MonthsPresent(es: seq<Entry>): (r: seq<MonthKey>)
    ensures StrictlyAscending(r)
    ensures forall k :: k in r <==> exists i :: 0 <= i < |es| && KeyOf(es[i]) == k
  {
    if es == [] then []
    else
      var rest := MonthsPresent(es[1..]);
      assert forall i :: 1 <= i < |es| ==> es[i] == es[1..][i - 1];
      Insert(KeyOf(es[0]), rest)
  }

  /**
   * A strictly ascending list is determined by its elements: MonthsPresent is
   * the one and only sorted, duplicate-free list of the table's months.
   */
  lemma {:induction false} AscendingUnique(a: seq<MonthKey>, b: seq<MonthKey>)
    requires StrictlyAscending(a) && StrictlyAscending(b)
    requires forall x :: x in a <==> x in b
    ensures a == b
    decreases |a|
  {
    if a != [] {
      assert a[0] in b;
      assert b[0] in a;
      forall x ensures x in a[1..] <==> x in b[1..] {
        assert x in a[1..] <==> x in a && x != a[0];
        assert x in b[1..] <==> x in b && x != b[0];
      }
      AscendingUnique(a[1..], b[1..]);
      assert a == [a[0]] + a[1..] && b == [b[0]] + b[1..];
    } else {
      HeadMember(b);
    }
  }

  /**
   * Stated as a lemma rather than an assertion: in the empty case of
   * AscendingUnique the index would be checked under assumptions that
   * already rule a non-empty `b` out.
   */
  lemma HeadMember(b: seq<MonthKey>)
    ensures b == [] || b[0] in b
  {
  }

  /** The entries of month `k`, in their original relative order. */
  function InMonth(es: seq<Entry>, k: MonthKey): (r: seq<Entry>)
    ensures |r| <= |es|
    ensures forall e :: e in r <==> e in es && KeyOf(e) == k
    ensures forall e :: multiset(r)[e] == if KeyOf(e) == k then multiset(es)[e] else 0
  {
    assert es != [] ==> es == [es[0]] + es[1..];
    if es == [] then []
    else if KeyOf(es[0]) == k then [es[0]] + InMonth(es[1..], k)
    else InMonth(es[1..], k)
  }

  /** `a` is `b` with some elements left out and the rest in the same order. */
  predicate IsSubsequence(a: seq<Entry>, b: seq<Entry>)
    decreases |b|
  {
    if a == [] then true
    else if b == [] then false
    else if a[0] == b[0] then IsSubsequence(a[1..], b[1..])
    else IsSubsequence(a, b[1..])
  }

  lemma {:induction false} InMonthIsSubsequence(es: seq<Entry>, k: MonthKey)
    ensures IsSubsequence(InMonth(es, k), es)
    decreases |es|
  {
    if es != [] {
      InMonthIsSubsequence(es[1..], k);
    }
  }

  /** Filtering distributes over concatenation: relative order is kept. */
  lemma {:induction false} InMonthAppend(a: seq<Entry>, b: seq<Entry>, k: MonthKey)
    ensures InMonth(a + b, k) == InMonth(a, k) + InMonth(b, k)
    decreases |a|
  {
    if a == [] {
      assert a + b == b;
    } else {
      assert (a + b)[0] == a[0];
      assert (a + b)[1..] == a[1..] + b;
      InMonthAppend(a[1..], b, k);
    }
  }

  /** The selected month, being one of the options, has at least one entry. */
  lemma SelectedMonthNonEmpty(es: seq<Entry>, k: MonthKey)
    requires k in MonthsPresent(es)
    ensures InMonth(es, k) != []
  {
    var i :| 0 <= i < |es| && KeyOf(es[i]) == k;
    assert es[i] in InMonth(es, k);
  }

  /** A month's total never exceeds the overall total when no amount is negative. */
  lemma {:induction false} MonthTotalBounded(es: seq<Entry>, k: MonthKey)
    requires NonNegative(es)
    ensures 0 <= Total(InMonth(es, k)) <= Total(es)
    decreases |es|
  {
    if es != [] {
      MonthTotalBounded(es[1..], k);
    }
  }

  /** The sum of the monthly totals of the months listed in `ks`. */
  function MonthTotals(es: seq<Entry>, ks: seq<MonthKey>): int {
    if ks == [] then 0 else Total(InMonth(es, ks[0])) + MonthTotals(es, ks[1..])
  }

  lemma {:induction false} MonthTotalsCons(e: Entry, es: seq<Entry>, ks: seq<MonthKey>)
    requires NoDuplicates(ks)
    ensures MonthTotals([e] + es, ks) == MonthTotals(es, ks) + (if KeyOf(e) in ks then e.amount else 0)
    decreases |ks|
  {
    if ks != [] {
      assert ([e] + es)[0] == e && ([e] + es)[1..] == es;
      assert NoDuplicates(ks[1..]) by {
        forall i, j | 0 <= i < j < |ks[1..]| ensures ks[1..][i] != ks[1..][j] {
          assert ks[1..][i] == ks[i + 1] && ks[1..][j] == ks[j + 1];
        }
      }
      assert KeyOf(e) == ks[0] ==> KeyOf(e) !in ks[1..];
      assert KeyOf(e) in ks <==> KeyOf(e) == ks[0] || KeyOf(e) in ks[1..];
      MonthTotalsCons(e, es, ks[1..]);
    }
  }

  lemma {:induction false} MonthTotalsCover(es: seq<Entry>, ks: seq<MonthKey>)
    requires NoDuplicates(ks)
    requires forall i :: 0 <= i < |es| ==> KeyOf(es[i]) in ks
    ensures MonthTotals(es, ks) == Total(es)
    decreases |es|
  {
    if es == [] {
      MonthTotalsEmpty(ks);
    } else {
      assert es == [es[0]] + es[1..];
      assert forall i :: 0 <= i < |es[1..]| ==> es[1..][i] == es[i + 1];
      MonthTotalsCover(es[1..], ks);
      MonthTotalsCons(es[0], es[1..], ks);
    }
  }

  lemma {:induction false} MonthTotalsEmpty(ks: seq<MonthKey>)
    ensures MonthTotals([], ks) == 0
    decreases |ks|
  {
    if ks != [] {
      MonthTotalsEmpty(ks[1..]);
    }
  }

  /** The monthly totals over all offered months add up to the overall total. */
  lemma MonthlyTotalsPartition(es: seq<Entry>)
    ensures MonthTotals(es, MonthsPresent(es)) == Total(es)
  {
    var ks := MonthsPresent(es);
    AscendingNoDuplicates(ks);
    forall i | 0 <= i < |es| ensures KeyOf(es[i]) in ks { }
    MonthTotalsCover(es, ks);
  }
}
