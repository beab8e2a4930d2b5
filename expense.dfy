/** The entities of the expense tracker: categories, dates, entries and month keys. */
module Expense {
  import opened Text

  /** The fixed set of categories the category selector offers. */
  datatype Category = Food | Transport | Education | Entertainment | Shopping | Others

  /** The categories in the order the selector lists them. */
  const Categories: seq<Category> := [Food, Transport, Education, Entertainment, Shopping, Others]

  /** The category's value as stored in the table. */
  function Name(c: Category): string {
    match c
    case Food => "Food"
    case Transport => "Transport"
    case Education => "Education"
    case Entertainment => "Entertainment"
    case Shopping => "Shopping"
    case Others => "Others"
  }

  /**
   * The categories in ascending order of their names, which is the order in
   * which grouping the table by category lists the groups.
   */
  const ByName: seq<Category> := [Education, Entertainment, Food, Others, Shopping, Transport]

  predicate NoDuplicates<T(==)>(s: seq<T>) {
    forall i, j :: 0 <= i < j < |s| ==> s[i] != s[j]
  }

  /** Both category lists name every category exactly once; ByName is sorted by name. */
  lemma CategoryLists(c: Category)
    ensures c in Categories && c in ByName
    ensures NoDuplicates(Categories) && NoDuplicates(ByName)
    ensures forall i, j :: 0 <= i < j < |ByName| ==> LexLess(Name(ByName[i]), Name(ByName[j]))
  {
  }

  /** A calendar date without a time component. */
  datatype Date = Date(year: int, month: int, day: int)

  /** One expense row: amounts are in the smallest currency unit (paise). */
  datatype Entry = Entry(date: Date, category: Category, description: string, amount: int)

  /** The `YYYY-MM` grouping key of a date, kept as the (year, month) pair. */
  datatype MonthKey = MonthKey(year: int, month: int)

  function KeyOf(e: Entry): (r: MonthKey)
    ensures r.year == e.date.year && r.month == e.date.month
  {
    MonthKey(e.date.year, e.date.month)
  }

  /** Chronological order of month keys: by year, then by month. */
  predicate Before(a: MonthKey, b: MonthKey) {
    a.year < b.year || (a.year == b.year && a.month < b.month)
  }

  /** The conditions an entry passed when it was added. */
  predicate Accepted(e: Entry) {
    e.amount > 0 && Strip(e.description) != []
  }

  predicate AllAccepted(es: seq<Entry>) {
    forall i :: 0 <= i < |es| ==> Accepted(es[i])
  }

  predicate NonNegative(es: seq<Entry>) {
    forall i :: 0 <= i < |es| ==> es[i].amount >= 0
  }

  /** Rows that passed validation have positive, hence non-negative, amounts. */
  lemma AcceptedNonNegative(es: seq<Entry>)
    requires AllAccepted(es)
    ensures NonNegative(es)
  {
  }
}
