/** The history page: the search and category filter, the date-descending list,
    the page balance, the per-category expense chart, the category filter's
    option list, and deletion of a record. */
module History {
  import opened Ledger
  import opened Text

  /** The history filter: the lower-cased label contains the lower-cased search
      term, and the category filter is "all" or names the record's category. */
  predicate Matches(t: Transaction, term: string, category: string) {
    Contains(Lower(t.text), Lower(term)) && (category == "all" || t.category == category)
  }

  /** The filter ignores letter case in both the label and the search term. */
  lemma {:induction false} MatchesIgnoresCase(t: Transaction, u: Transaction, term: string, term': string, category: string)
    requires EqualUpToCase(t.text, u.text) && EqualUpToCase(term, term') && t.category == u.category
    ensures Matches(t, term, category) <==> Matches(u, term', category)
  {
    LowerIgnoresCase(t.text, u.text);
    LowerIgnoresCase(term, term');
  }

  /** The records the list and the chart show, in stored order. */
  function Filter(s: seq<Transaction>, term: string, category: string): (r: seq<Transaction>)
    ensures IsSubsequence(r, s)
    ensures forall t :: t in r <==> t in s && Matches(t, term, category)
    ensures forall t :: multiset(r)[t] == if Matches(t, term, category) then multiset(s)[t] else 0
  {
    Keep(s, t => Matches(t, term, category))
  }

  /** With an empty search term and the category filter on "all" nothing is filtered out. */
  lemma {:induction false} FilterOffKeepsAll(s: seq<Transaction>)
    ensures Filter(s, "", "all") == s
  {
    forall t | t in s
      ensures Matches(t, "", "all")
    {
      ContainsEmpty(Lower(t.text));
    }
    KeepAll(s, t => Matches(t, "", "all"));
  }

  /** The collection after deleting `id`: every record carrying `id` is gone,
      the others stay in their order. */
  function RemoveId(s: seq<Transaction>, id: int): (r: seq<Transaction>)
    ensures IsSubsequence(r, s)
    ensures forall t :: t in r <==> t in s && t.id != id
    ensures forall t: Transaction :: t.id != id ==> multiset(r)[t] == multiset(s)[t]
    ensures !HasId(r, id)
  {
    var r := Keep(s, (t: Transaction) => t.id != id);
    assert forall i :: 0 <= i < |r| ==> r[i] in r;
    r
  }

  /** With unique ids, deleting an id that is present removes exactly one record. */
  lemma {:induction false} RemoveIdRemovesOne(s: seq<Transaction>, id: int)
    requires UniqueIds(s)
    ensures |RemoveId(s, id)| == if HasId(s, id) then |s| - 1 else |s|
  {
    if s != [] {
      UniqueIdsUncons(s);
      HasIdUncons(s, id);
      assert s == [s[0]] + s[1..];
      if s[0].id == id {
        KeepAll(s[1..], (t: Transaction) => t.id != id);
      } else {
        RemoveIdRemovesOne(s[1..], id);
      }
    }
  }

  /** With unique ids, deleting the record at `k` takes exactly its weight out of every sum. */
  lemma {:induction false} RemoveIdSum(s: seq<Transaction>, k: nat, m: Measure)
    requires UniqueIds(s) && k < |s|
    ensures Sum(RemoveId(s, s[k].id), m) == Sum(s, m) - Weigh(m, s[k])
  {
    var id := s[k].id;
    var r := RemoveId(s, id);
    var rest := s[..k] + s[k + 1..];
    MultisetRemoveAt(s, k);
    forall i | 0 <= i < |rest|
      ensures rest[i].id != id
    {
      if i < k {
        assert rest[i] == s[i];
      } else {
        assert rest[i] == s[i + 1];
      }
    }
    forall t: Transaction
      ensures multiset(r)[t] == multiset(rest)[t]
    {
      if t.id == id {
        assert t !in rest;
      } else {
        assert t != s[k];
      }
    }
    assert multiset(r) == multiset(rest);
    SumPermutation(r, rest, m);
    SumRemoveAt(s, k, m);
  }

  // ----- the list: most recent first -----

  /** Dates never increase along the list. */
  ghost predicate DatesDescending(s: seq<Transaction>) {
    forall i, j :: 0 <= i < j < |s| ==> LexLe(s[j].date, s[i].date)
  }

  lemma {:induction false} AdjacentDescending(s: seq<Transaction>)
    requires forall k :: 0 < k < |s| ==> LexLe(s[k].date, s[k - 1].date)
    ensures DatesDescending(s)
  {
    if |s| > 1 {
      var n := |s| - 1;
      var front := s[..n];
      AdjacentDescending(front);
      forall i | 0 <= i < n
        ensures LexLe(s[n].date, s[i].date)
      {
        if i < n - 1 {
          assert LexLe(front[n - 1].date, front[i].date);
          LexLeTransitive(s[n].date, s[n - 1].date, s[i].date);
        }
      }
    }
  }

  method Swap(a: array<Transaction>, j: int)
    requires 0 < j < a.Length
    modifies a
    ensures a[..] == old(a[..])[j - 1 := old(a[j])][j := old(a[j - 1])]
    ensures multiset(a[..]) == old(multiset(a[..]))
  {
    a[j - 1], a[j] := a[j], a[j - 1];
  }

  /** One pass of the insertion sort: moves `a[i]` left past the strictly older
      records before it, so that `a[..i + 1]` has its dates descending. */
  method InsertLeft(a: array<Transaction>, i: int)
    requires 0 <= i < a.Length
    requires forall k :: 0 < k < i ==> LexLe(a[k].date, a[k - 1].date)
    modifies a
    ensures forall k :: 0 < k <= i ==> LexLe(a[k].date, a[k - 1].date)
    ensures forall k :: i < k < a.Length ==> a[k] == old(a[k])
    ensures multiset(a[..]) == old(multiset(a[..]))
  {
    var j := i;
    while j > 0 && !LexLe(a[j].date, a[j - 1].date)
      invariant 0 <= j <= i
      invariant forall k :: 0 < k <= i && k != j ==> LexLe(a[k].date, a[k - 1].date)
      invariant 0 < j < i ==> LexLe(a[j + 1].date, a[j - 1].date)
      invariant forall k :: i < k < a.Length ==> a[k] == old(a[k])
      invariant multiset(a[..]) == old(multiset(a[..]))
    {
      LexLeTotal(a[j].date, a[j - 1].date);
      Swap(a, j);
      j := j - 1;
    }
  }

  /** The list's sort, newest date first, done as an insertion
      sort, in place, that moves each record left past every strictly older one. */
  method SortByDateDesc(a: array<Transaction>)
    modifies a
    ensures DatesDescending(a[..])
    ensures multiset(a[..]) == old(multiset(a[..]))
  {
    var i := 0;
    while i < a.Length
      invariant 0 <= i <= a.Length
      invariant forall k :: 0 < k < i ==> LexLe(a[k].date, a[k - 1].date)
      invariant multiset(a[..]) == old(multiset(a[..]))
    {
      InsertLeft(a, i);
      i := i + 1;
    }
    AdjacentDescending(a[..]);
  }

  // ----- the chart: expense totals per category -----

  /** One chart entry: a category and the magnitude of its expenses. */
  datatype Slice = Slice(category: string, total: int)

  predicate HasLabel(chart: seq<Slice>, c: string) {
    exists i :: 0 <= i < |chart| && chart[i].category == c
  }

  predicate DistinctLabels(chart: seq<Slice>) {
    forall i, j :: 0 <= i < j < |chart| ==> chart[i].category != chart[j].category
  }

  function Total(chart: seq<Slice>): int {
    if chart == [] then 0 else chart[0].total + Total(chart[1..])
  }

  lemma {:induction false} HasLabelUncons(chart: seq<Slice>)
    requires chart != []
    ensures forall c :: HasLabel(chart, c) <==> chart[0].category == c || HasLabel(chart[1..], c)
  {
    forall c | HasLabel(chart, c) && chart[0].category != c
      ensures HasLabel(chart[1..], c)
    {
      var i :| 0 <= i < |chart| && chart[i].category == c;
      assert chart[1..][i - 1].category == c;
    }
    forall c | HasLabel(chart[1..], c)
      ensures HasLabel(chart, c)
    {
      var i :| 0 <= i < |chart[1..]| && chart[1..][i].category == c;
      assert chart[i + 1].category == c;
    }
  }

  /** One step of the chart fold: grow the entry of `category` by `amount`,
      or add an entry at the end when there is none (object keys keep insertion order). */
  function AddExpense(chart: seq<Slice>, category: string, amount: int): (r: seq<Slice>)
    requires DistinctLabels(chart)
    ensures |r| == if HasLabel(chart, category) then |chart| else |chart| + 1
    ensures forall i :: 0 <= i < |chart| ==>
              r[i] == if chart[i].category == category then Slice(category, chart[i].total + amount) else chart[i]
    ensures !HasLabel(chart, category) ==> r[|chart|] == Slice(category, amount)
  {
    if chart == [] then
      assert !HasLabel(chart, category);
      [Slice(category, amount)]
    else
      HasLabelUncons(chart);
      assert DistinctLabels(chart[1..]);
      if chart[0].category == category then
        [Slice(category, chart[0].total + amount)] + chart[1..]
      else
        [chart[0]] + AddExpense(chart[1..], category, amount)
  }

  /** After adding, the labels are those before plus `category`. */
  lemma {:induction false} AddExpenseLabels(chart: seq<Slice>, category: string, amount: int)
    requires DistinctLabels(chart)
    ensures forall c :: HasLabel(AddExpense(chart, category, amount), c) <==> HasLabel(chart, c) || c == category
  {
    var r := AddExpense(chart, category, amount);
    forall c | HasLabel(r, c)
      ensures HasLabel(chart, c) || c == category
    {
      var i :| 0 <= i < |r| && r[i].category == c;
      if i < |chart| {
        assert chart[i].category == c;
      }
    }
    forall c | HasLabel(chart, c)
      ensures HasLabel(r, c)
    {
      var i :| 0 <= i < |chart| && chart[i].category == c;
      assert r[i].category == c;
    }
    if !HasLabel(chart, category) {
      assert r[|chart|].category == category;
    }
  }

  /** After adding, every label still occurs once. */
  lemma {:induction false} AddExpenseDistinct(chart: seq<Slice>, category: string, amount: int)
    requires DistinctLabels(chart)
    ensures DistinctLabels(AddExpense(chart, category, amount))
  {
    var r := AddExpense(chart, category, amount);
    forall i, j | 0 <= i < j < |r|
      ensures r[i].category != r[j].category
    {
      assert r[i].category == chart[i].category;
      if j < |chart| {
        assert r[j].category == chart[j].category;
      } else {
        assert r[j].category == category && !HasLabel(chart, category);
      }
    }
  }

  /** Adding an expense to the chart adds it to the chart's total. */
  lemma {:induction false} AddExpenseTotal(chart: seq<Slice>, category: string, amount: int)
    requires DistinctLabels(chart)
    ensures Total(AddExpense(chart, category, amount)) == Total(chart) + amount
  {
    if chart != [] && chart[0].category != category {
      AddExpenseTotal(chart[1..], category, amount);
    }
  }

  /** Some record of `items` is an expense in category `c`. */
  predicate HasExpenseIn(items: seq<Transaction>, c: string) {
    exists t :: t in items && t.amount < 0 && t.category == c
  }

  /** Each entry carries the positive magnitude of its category's expenses. */
  ghost predicate TotalsMatch(chart: seq<Slice>, items: seq<Transaction>) {
    forall i :: 0 <= i < |chart| ==> chart[i].total == Sum(items, ExpenseIn(chart[i].category)) > 0
  }

  /** The chart describes `items`: one entry per category that has an expense
      among them, each listed once, each carrying the positive magnitude of that
      category's expenses; together the entries add up to the expense total. */
  ghost predicate Summarizes(chart: seq<Slice>, items: seq<Transaction>) {
    DistinctLabels(chart) &&
    TotalsMatch(chart, items) &&
    (forall c :: HasLabel(chart, c) <==> HasExpenseIn(items, c)) &&
    Total(chart) == Sum(items, ExpenseOnly)
  }

  /** `renderChart`'s `expenseData`: the expense records folded in list order. */
  function ExpenseData(items: seq<Transaction>): (r: seq<Slice>)
    ensures Summarizes(r, items)
  {
    if items == [] then []
    else
      var prefix := items[..|items| - 1];
      var t := items[|items| - 1];
      var acc := ExpenseData(prefix);
      assert items == prefix + [t];
      if t.amount < 0 then
        ExpenseStep(acc, prefix, t);
        AddExpense(acc, t.category, Abs(t.amount))
      else
        IncomeStep(acc, prefix, t);
        acc
  }

  lemma {:induction false} SumSnoc(prefix: seq<Transaction>, t: Transaction, m: Measure)
    ensures Sum(prefix + [t], m) == Sum(prefix, m) + Weigh(m, t)
  {
    assert (prefix + [t])[..|prefix|] == prefix;
  }

  lemma {:induction false} HasExpenseInSnoc(prefix: seq<Transaction>, t: Transaction)
    ensures forall c :: HasExpenseIn(prefix + [t], c) <==> HasExpenseIn(prefix, c) || (t.amount < 0 && t.category == c)
  {
    assert forall u :: u in prefix + [t] <==> u in prefix || u == t;
  }

  /** A record that is not an expense leaves the chart as it is. */
  lemma {:induction false} IncomeStep(acc: seq<Slice>, prefix: seq<Transaction>, t: Transaction)
    requires Summarizes(acc, prefix) && t.amount >= 0
    ensures Summarizes(acc, prefix + [t])
  {
    HasExpenseInSnoc(prefix, t);
    SumSnoc(prefix, t, ExpenseOnly);
    forall i | 0 <= i < |acc|
      ensures acc[i].total == Sum(prefix + [t], ExpenseIn(acc[i].category))
    {
      SumSnoc(prefix, t, ExpenseIn(acc[i].category));
    }
  }

  /** An expense record adds its magnitude to its category's entry, creating
      the entry at the end when the category is new. */
  lemma {:induction false} ExpenseStep(acc: seq<Slice>, prefix: seq<Transaction>, t: Transaction)
    requires Summarizes(acc, prefix) && t.amount < 0
    ensures Summarizes(AddExpense(acc, t.category, Abs(t.amount)), prefix + [t])
  {
    AddExpenseTotal(acc, t.category, Abs(t.amount));
    AddExpenseLabels(acc, t.category, Abs(t.amount));
    AddExpenseDistinct(acc, t.category, Abs(t.amount));
    HasExpenseInSnoc(prefix, t);
    SumSnoc(prefix, t, ExpenseOnly);
    ExpenseStepTotals(acc, prefix, t);
  }

  /** Each entry's total still matches its category's expenses after an expense is added. */
  lemma {:induction false} ExpenseStepTotals(acc: seq<Slice>, prefix: seq<Transaction>, t: Transaction)
    requires Summarizes(acc, prefix) && t.amount < 0
    ensures TotalsMatch(AddExpense(acc, t.category, Abs(t.amount)), prefix + [t])
  {
    var r := AddExpense(acc, t.category, Abs(t.amount));
    forall i | 0 <= i < |r|
      ensures r[i].total == Sum(prefix + [t], ExpenseIn(r[i].category)) > 0
    {
      SumSnoc(prefix, t, ExpenseIn(r[i].category));
      if i == |acc| {
        HasExpenseInSnoc(prefix, t);
        assert !HasExpenseIn(prefix, t.category);
        SumOfAbsentCategory(prefix, t.category);
      }
    }
  }

  /** Reordering the records keeps what a chart says about them. */
  lemma {:induction false} SummarizesPermutation(chart: seq<Slice>, a: seq<Transaction>, b: seq<Transaction>)
    requires Summarizes(chart, a) && multiset(a) == multiset(b)
    ensures Summarizes(chart, b)
  {
    forall i | 0 <= i < |chart|
      ensures chart[i].total == Sum(b, ExpenseIn(chart[i].category))
    {
      SumPermutation(a, b, ExpenseIn(chart[i].category));
    }
    SumPermutation(a, b, ExpenseOnly);
    assert forall t :: t in a <==> t in b by {
      assert forall t :: t in a <==> t in multiset(a);
      assert forall t :: t in b <==> t in multiset(b);
    }
  }

  // ----- the category filter's options -----

  /** The categories of `s`, each once, in the order they first occur. */
  function DistinctCategories(s: seq<Transaction>): (r: seq<string>)
    ensures forall i, j :: 0 <= i < j < |r| ==> r[i] != r[j]
    ensures forall c :: c in r <==> exists t :: t in s && t.category == c
  {
    if s == [] then []
    else
      var prefix := s[..|s| - 1];
      var r := DistinctCategories(prefix);
      var c := s[|s| - 1].category;
      assert forall t :: t in s <==> t in prefix || t == s[|s| - 1] by {
        assert s == prefix + [s[|s| - 1]];
      }
      if c in r then r else r + [c]
  }

  /** Position `k` holds the first record of `s` in category `c`. */
  predicate FirstAt(s: seq<Transaction>, c: string, k: int) {
    0 <= k < |s| && s[k].category == c && forall m :: 0 <= m < k ==> s[m].category != c
  }

  /** A category that occurs before the last record first occurs there. */
  lemma {:induction false} FirstAtInPrefix(s: seq<Transaction>, c: string, k: int)
    requires s != [] && FirstAt(s, c, k)
    requires exists t :: t in s[..|s| - 1] && t.category == c
    ensures FirstAt(s[..|s| - 1], c, k)
  {
    var n := |s| - 1;
    var t :| t in s[..n] && t.category == c;
    var m :| 0 <= m < n && s[..n][m] == t;
    assert s[m].category == c;
  }

  /** The option list follows the order in which the categories first occur. */
  lemma {:induction false} DistinctCategoriesInFirstOccurrenceOrder(s: seq<Transaction>, i: int, j: int, ki: int, kj: int)
    requires 0 <= i < j < |DistinctCategories(s)|
    requires FirstAt(s, DistinctCategories(s)[i], ki) && FirstAt(s, DistinctCategories(s)[j], kj)
    ensures ki < kj
  {
    var r := DistinctCategories(s);
    var n := |s| - 1;
    var prefix := s[..n];
    var p := DistinctCategories(prefix);
    assert r == p || r == p + [s[n].category];
    assert r[i] in p;
    FirstAtInPrefix(s, r[i], ki);
    if j < |p| {
      assert r[j] in p;
      FirstAtInPrefix(s, r[j], kj);
      DistinctCategoriesInFirstOccurrenceOrder(prefix, i, j, ki, kj);
    } else {
      assert r[j] !in p;
      assert forall m :: 0 <= m < n ==> s[m].category != r[j] by {
        assert forall m :: 0 <= m < n ==> s[m] == prefix[m] && prefix[m] in prefix;
      }
    }
  }

  /** Collects the distinct categories the way a JavaScript `Set` does: walk the
      records, remember the categories seen, append each new one. */
  method CollectCategories(s: seq<Transaction>) returns (cats: seq<string>)
    ensures cats == DistinctCategories(s)
  {
    var seen: set<string> := {};
    cats := [];
    var i := 0;
    while i < |s|
      invariant 0 <= i <= |s|
      invariant cats == DistinctCategories(s[..i])
      invariant forall c :: c in seen <==> c in cats
    {
      assert s[..i + 1][..i] == s[..i];
      var c := s[i].category;
      if c !in seen {
        seen := seen + {c};
        cats := cats + [c];
      }
      i := i + 1;
    }
    assert s[..|s|] == s;
  }

  // ----- the page -----

  /** `renderList`: the filtered records in a fresh array, sorted there unless
      there are none. */
  method SortedCopy(filtered: seq<Transaction>) returns (list: seq<Transaction>)
    ensures multiset(list) == multiset(filtered)
    ensures DatesDescending(list)
  {
    var items := new Transaction[|filtered|](i requires 0 <= i < |filtered| => filtered[i]);
    assert items[..] == filtered;
    if items.Length > 0 {
      SortByDateDesc(items);
    }
    list := items[..];
  }

  /** What one rendering shows: the balance of the whole collection, the list,
      and the chart entries. */
  datatype HistoryView = HistoryView(balance: int, list: seq<Transaction>, chart: seq<Slice>)

  /** `view` is what the page shows for collection `s` under the given filters:
      the balance of all of `s`, the filtered records most recent first, and
      the chart folded from that list, which summarizes the filtered records. */
  ghost predicate Shows(view: HistoryView, s: seq<Transaction>, term: string, category: string) {
    view.balance == Sum(s, Amount) &&
    multiset(view.list) == multiset(Filter(s, term, category)) &&
    DatesDescending(view.list) &&
    view.chart == ExpenseData(view.list) &&
    Summarizes(view.chart, Filter(s, term, category))
  }

  class HistoryPage {
    var transactions: seq<Transaction>  // the stored collection
    var filterOptions: seq<string>      // category filter options after the fixed "all"

    /** Page start-up: load the stored collection and fill the category filter.
        The first rendering that start-up also performs is a separate `Render` call. */
    constructor (stored: seq<Transaction>)
      ensures transactions == stored
      ensures filterOptions == DistinctCategories(stored)
    {
      transactions := stored;
      filterOptions := [];
      new;
      PopulateCategoryFilter();
    }

    /** Appends one option per distinct category of the whole collection. */
    method PopulateCategoryFilter()
      modifies this
      ensures transactions == old(transactions)
      ensures filterOptions == old(filterOptions) + DistinctCategories(transactions)
    {
      var cats := CollectCategories(transactions);
      filterOptions := filterOptions + cats;
    }

    /** One rendering for the current search term and category filter. The
        filtered records are copied into a fresh array and sorted there; the
        chart is folded from that sorted array. The collection is only read. */
    method Render(term: string, category: string) returns (view: HistoryView)
      ensures Shows(view, transactions, term, category)
    {
      var filtered := Filter(transactions, term, category);
      var list := SortedCopy(filtered);
      var chart := ExpenseData(list);
      SummarizesPermutation(chart, list, filtered);
      view := HistoryView(Sum(transactions, Amount), list, chart);
    }

    /** The delete control: once confirmed, every record carrying `id` is
        removed and the page is rendered again for the current filters; the
        filter options stay as they were built at start-up. */
    method Delete(id: int, confirmed: bool, term: string, category: string) returns (view: Option<HistoryView>)
      modifies this
      ensures transactions == if confirmed then RemoveId(old(transactions), id) else old(transactions)
      ensures filterOptions == old(filterOptions)
      ensures view.Some? <==> confirmed
      ensures view.Some? ==> Shows(view.value, transactions, term, category)
    {
      view := None;
      if confirmed {
        transactions := RemoveId(transactions, id);
        var shown := Render(term, category);
        view := Some(shown);
      }
    }
  }
}
