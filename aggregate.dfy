/** Sums over the expense table: the overall total and the totals per category. */
module Aggregate {
  import opened Wrappers
  import opened Expense

  /**
   * The sum of the amounts of `es`: 0 for no entries and the amount of a
   * single entry; with TotalAppend this fixes the sum completely.
   */
  function Total(es: seq<Entry>): (r: int)
    ensures es == [] ==> r == 0
    ensures |es| == 1 ==> r == es[0].amount
  {
    if es == [] then 0 else es[0].amount + Total(es[1..])
  }

  lemma {:induction false} TotalAppend(a: seq<Entry>, b: seq<Entry>)
    ensures Total(a + b) == Total(a) + Total(b)
    decreases |a|
  {
    if a == [] {
      assert a + b == b;
    } else {
      assert (a + b)[0] == a[0];
      assert (a + b)[1..] == a[1..] + b;
      TotalAppend(a[1..], b);
    }
  }

  /** Taking out the entry at `i` removes exactly its amount from the total. */
  lemma {:induction false} TotalRemove(b: seq<Entry>, i: nat)
    requires i < |b|
    ensures Total(b) == Total(b[..i] + b[i + 1..]) + b[i].amount
  {
    var front, back := b[..i], b[i + 1..];
    var tail := [b[i]] + back;
    assert tail[1..] == back;
    assert Total(tail) == b[i].amount + Total(back);
    assert b == front + tail;
    TotalAppend(front, tail);
    TotalAppend(front, back);
  }

  /** The total does not depend on the order of the entries. */
  lemma {:induction false} TotalPermutation(a: seq<Entry>, b: seq<Entry>)
    requires multiset(a) == multiset(b)
    ensures Total(a) == Total(b)
    decreases |a|
  {
    if a == [] {
      assert |b| == |multiset(b)| == 0;
    } else {
      assert a[0] in multiset(a);
      var i :| 0 <= i < |b| && b[i] == a[0];
      var rest := b[..i] + b[i + 1..];
      assert multiset(b) == multiset(rest) + multiset{a[0]} by {
        assert b == b[..i] + [b[i]] + b[i + 1..];
        assert multiset(rest) == multiset(b[..i]) + multiset(b[i + 1..]);
      }
      assert multiset(a) == multiset(a[1..]) + multiset{a[0]} by {
        assert a == [a[0]] + a[1..];
      }
      forall e
        ensures multiset(a[1..])[e] == multiset(rest)[e]
      {
        assert (multiset(a[1..]) + multiset{a[0]})[e] == (multiset(rest) + multiset{a[0]})[e];
      }
      assert multiset(a[1..]) == multiset(rest);
      TotalPermutation(a[1..], rest);
      TotalRemove(b, i);
    }
  }

  /** The total of entries with non-negative amounts is non-negative. */
  lemma {:induction false} TotalNonNegative(es: seq<Entry>)
    requires NonNegative(es)
    ensures Total(es) >= 0
    decreases |es|
  {
    if es != [] {
      TotalNonNegative(es[1..]);
    }
  }

  /**
   * The entries of category `c`, in their original order: every row of that
   * category is kept as often as it occurs, and no other row is.
   */
  function OfCategory(es: seq<Entry>, c: Category): (r: seq<Entry>)
    ensures |r| <= |es|
    ensures forall e :: e in r <==> e in es && e.category == c
    ensures forall e :: multiset(r)[e] == if e.category == c then multiset(es)[e] else 0
  {
    assert es != [] ==> es == [es[0]] + es[1..];
    if es == [] then []
    else if es[0].category == c then [es[0]] + OfCategory(es[1..], c)
    else OfCategory(es[1..], c)
  }

  lemma {:induction false} NoneOfCategory(es: seq<Entry>, c: Category)
    requires forall i :: 0 <= i < |es| ==> es[i].category != c
    ensures OfCategory(es, c) == []
    decreases |es|
  {
    if es != [] {
      NoneOfCategory(es[1..], c);
    }
  }

  /** Grouping distributes over concatenation: the group keeps table order. */
  lemma {:induction false} OfCategoryAppend(a: seq<Entry>, b: seq<Entry>, c: Category)
    ensures OfCategory(a + b, c) == OfCategory(a, c) + OfCategory(b, c)
    decreases |a|
  {
    if a == [] {
      assert a + b == b;
    } else {
      assert (a + b)[0] == a[0];
      assert (a + b)[1..] == a[1..] + b;
      OfCategoryAppend(a[1..], b, c);
    }
  }

  /** `m` with `a` added to the running sum of `c` (a missing key counts as 0). */
  function Bump(m: map<Category, int>, c: Category, a: int): (r: map<Category, int>)
    ensures r.Keys == m.Keys + {c}
    ensures r[c] == (if c in m then m[c] else 0) + a
    ensures forall d :: d in m && d != c ==> r[d] == m[d]
  {
    m[c := (if c in m then m[c] else 0) + a]
  }

  /**
   * Grouping by category and summing: a key for every category that occurs
   * in `es` and for no other (the values are described by CategoryTotalsValue).
   */
  function CategoryTotals(es: seq<Entry>): (r: map<Category, int>)
    ensures forall c :: c in r <==> exists i :: 0 <= i < |es| && es[i].category == c
  {
    if es == [] then map[]
    else
      var rest := CategoryTotals(es[1..]);
      assert forall i :: 1 <= i < |es| ==> es[i] == es[1..][i - 1];
      Bump(rest, es[0].category, es[0].amount)
  }

  /** Each category's sum is the total of that category's entries. */
  lemma {:induction false} CategoryTotalsValue(es: seq<Entry>, c: Category)
    requires c in CategoryTotals(es)
    ensures CategoryTotals(es)[c] == Total(OfCategory(es, c))
    decreases |es|
  {
    var rest := es[1..];
    if c in CategoryTotals(rest) {
      CategoryTotalsValue(rest, c);
    } else {
      assert forall i :: 0 <= i < |rest| ==> rest[i].category != c;
      NoneOfCategory(rest, c);
    }
  }

  /** The sum of the values `m` holds for the keys listed in `cs`. */
  function SumValues(m: map<Category, int>, cs: seq<Category>): int {
    if cs == [] then 0 else (if cs[0] in m then m[cs[0]] else 0) + SumValues(m, cs[1..])
  }

  lemma {:induction false} SumValuesBump(m: map<Category, int>, c: Category, a: int, cs: seq<Category>)
    requires NoDuplicates(cs)
    ensures SumValues(Bump(m, c, a), cs) == SumValues(m, cs) + (if c in cs then a else 0)
    decreases |cs|
  {
    if cs != [] {
      assert NoDuplicates(cs[1..]) by {
        forall i, j | 0 <= i < j < |cs[1..]| ensures cs[1..][i] != cs[1..][j] {
          assert cs[1..][i] == cs[i + 1] && cs[1..][j] == cs[j + 1];
        }
      }
      assert c == cs[0] ==> c !in cs[1..];
      assert c in cs <==> c == cs[0] || c in cs[1..];
      SumValuesBump(m, c, a, cs[1..]);
    }
  }

  /** The per-category totals add up to the overall total. */
  lemma {:induction false} CategoryTotalsSum(es: seq<Entry>)
    ensures SumValues(CategoryTotals(es), Categories) == Total(es)
    decreases |es|
  {
    if es == [] {
      assert SumValues(map[], Categories) == 0;
    } else {
      CategoryLists(es[0].category);
      CategoryTotalsSum(es[1..]);
      SumValuesBump(CategoryTotals(es[1..]), es[0].category, es[0].amount, Categories);
    }
  }

  /** What the overall summary shows: the total and the totals per category. */
  datatype Summary = Summary(total: int, byCategory: map<Category, int>)

  /** The overall summary; an empty table shows "no expenses" instead. */
  function OverallSummary(es: seq<Entry>): (r: Option<Summary>)
    ensures r.None? <==> es == []
  {
    if es == [] then None else Some(Summary(Total(es), CategoryTotals(es)))
  }

  /**
   * The summary of a non-empty table: its total is the sum of all amounts,
   * its categories are exactly those present, each mapped to the sum of its
   * entries, and those sums add up to the total.
   */
  lemma OverallSummaryFacts(es: seq<Entry>)
    requires es != []
    ensures var s := OverallSummary(es).value;
            && s.total == Total(es)
            && (forall c :: c in s.byCategory <==> exists i :: 0 <= i < |es| && es[i].category == c)
            && (forall c :: c in s.byCategory ==> s.byCategory[c] == Total(OfCategory(es, c)))
            && SumValues(s.byCategory, Categories) == s.total
  {
    CategoryTotalsSum(es);
    forall c | c in CategoryTotals(es) ensures CategoryTotals(es)[c] == Total(OfCategory(es, c)) {
      CategoryTotalsValue(es, c);
    }
  }
}
