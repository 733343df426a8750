/** The transaction collection shared by the entry form and the history page:
    the record type, lookup by id, order-preserving filtering and the sums
    that the dashboard, the history balance and the expense chart are built from. */
module Ledger {

  datatype Option<T> = None | Some(value: T)

  /** One income or expense record. The sign of `amount` is its kind
      (positive: income, negative: expense); amounts are whole rupiah.
      `date` is the ISO `YYYY-MM-DD` string the date input produces. */
  datatype Transaction = Transaction(id: int, text: string, amount: int, date: string, category: string)

  function Abs(x: int): (r: nat)
    ensures r == x || r == -x
  {
    if x < 0 then -x else x
  }

  predicate HasId(s: seq<Transaction>, id: int) {
    exists i :: 0 <= i < |s| && s[i].id == id
  }

  predicate UniqueIds(s: seq<Transaction>) {
    forall i, j :: 0 <= i < j < |s| ==> s[i].id != s[j].id
  }

  /** An id occurs in a non-empty collection when the head or the rest carries it. */
  lemma {:induction false} HasIdUncons(s: seq<Transaction>, id: int)
    requires s != []
    ensures HasId(s, id) <==> s[0].id == id || HasId(s[1..], id)
  {
    if HasId(s, id) && s[0].id != id {
      var i :| 0 <= i < |s| && s[i].id == id;
      assert s[1..][i - 1].id == id;
    }
    if HasId(s[1..], id) {
      var i :| 0 <= i < |s[1..]| && s[1..][i].id == id;
      assert s[i + 1].id == id;
    }
  }

  /** With unique ids the head's id occurs nowhere in the rest, whose ids are unique too. */
  lemma {:induction false} UniqueIdsUncons(s: seq<Transaction>)
    requires s != [] && UniqueIds(s)
    ensures UniqueIds(s[1..]) && !HasId(s[1..], s[0].id)
  {
    forall i | 0 <= i < |s[1..]|
      ensures s[1..][i].id != s[0].id
    {
      assert s[1..][i] == s[i + 1];
    }
    forall i, j | 0 <= i < j < |s[1..]|
      ensures s[1..][i].id != s[1..][j].id
    {
      assert s[1..][i] == s[i + 1] && s[1..][j] == s[j + 1];
    }
  }

  /** Position of the first record carrying `id` (`Array.prototype.findIndex`,
      and `find` when the record itself is wanted). */
  function FindIndex(s: seq<Transaction>, id: int): (r: Option<nat>)
    ensures r.Some? ==> r.value < |s| && s[r.value].id == id
    ensures r.Some? ==> forall j :: 0 <= j < r.value ==> s[j].id != id
    ensures r.None? <==> !HasId(s, id)
  {
    if s == [] then None
    else if s[0].id == id then Some(0)
    else
      match FindIndex(s[1..], id)
      case None =>
        assert forall i :: 1 <= i < |s| ==> s[i] == s[1..][i - 1];
        None
      case Some(i) => Some(i + 1)
  }

  /** `r` can be obtained from `s` by deleting elements, so what remains keeps its relative order. */
  predicate IsSubsequence<T(==)>(r: seq<T>, s: seq<T>)
    decreases |s|
  {
    r == [] || (s != [] && ((r[0] == s[0] && IsSubsequence(r[1..], s[1..])) || IsSubsequence(r, s[1..])))
  }

  /** `Array.prototype.filter`: the records satisfying `p`, in their original order. */
  function Keep(s: seq<Transaction>, p: Transaction -> bool): (r: seq<Transaction>)
    ensures IsSubsequence(r, s)
    ensures forall t :: t in r <==> t in s && p(t)
    ensures forall t :: multiset(r)[t] == if p(t) then multiset(s)[t] else 0
  {
    if s == [] then []
    else
      assert s == [s[0]] + s[1..];
      var rest := Keep(s[1..], p);
      if p(s[0]) then [s[0]] + rest else rest
  }

  /** A filter whose test every record passes returns the collection itself. */
  lemma {:induction false} KeepAll(s: seq<Transaction>, p: Transaction -> bool)
    requires forall t :: t in s ==> p(t)
    ensures Keep(s, p) == s
  {
    if s != [] {
      KeepAll(s[1..], p);
    }
  }

  /** What a sum adds up over each record: the `reduce` callbacks of the source. */
  datatype Measure =
    | Amount                    // every amount, signed
    | IncomeOnly                // positive amounts
    | ExpenseOnly               // magnitudes of negative amounts
    | ExpenseIn(category: string)  // magnitudes of negative amounts in one category

  function Weigh(m: Measure, t: Transaction): int {
    match m
    case Amount => t.amount
    case IncomeOnly => if t.amount > 0 then t.amount else 0
    case ExpenseOnly => if t.amount < 0 then Abs(t.amount) else 0
    case ExpenseIn(c) => if t.amount < 0 && t.category == c then Abs(t.amount) else 0
  }

  /** The sum of the weights, accumulated from the first record to the last as `reduce` does. */
  function Sum(s: seq<Transaction>, m: Measure): int {
    if s == [] then 0 else Sum(s[..|s| - 1], m) + Weigh(m, s[|s| - 1])
  }

  lemma {:induction false} SumNonNegative(s: seq<Transaction>, m: Measure)
    requires !m.Amount?
    ensures Sum(s, m) >= 0
  {
    if s != [] {
      SumNonNegative(s[..|s| - 1], m);
    }
  }

  /** The balance is the income total minus the expense total. */
  lemma {:induction false} BalanceSplits(s: seq<Transaction>)
    ensures Sum(s, Amount) == Sum(s, IncomeOnly) - Sum(s, ExpenseOnly)
  {
    if s != [] {
      BalanceSplits(s[..|s| - 1]);
    }
  }

  lemma {:induction false} SumConcat(a: seq<Transaction>, b: seq<Transaction>, m: Measure)
    ensures Sum(a + b, m) == Sum(a, m) + Sum(b, m)
  {
    if b == [] {
      assert a + b == a;
    } else {
      assert (a + b)[..|a + b| - 1] == a + b[..|b| - 1];
      SumConcat(a, b[..|b| - 1], m);
    }
  }

  lemma SumOfOne(x: Transaction, m: Measure)
    ensures Sum([x], m) == Weigh(m, x)
  {
    assert [x][..0] == [];
  }

  /** Taking one record out of a sequence takes its weight out of the sum. */
  lemma {:induction false} SumRemoveAt(b: seq<Transaction>, i: nat, m: Measure)
    requires i < |b|
    ensures Sum(b, m) == Sum(b[..i] + b[i + 1..], m) + Weigh(m, b[i])
  {
    assert b == b[..i] + [b[i]] + b[i + 1..];
    SumConcat(b[..i] + [b[i]], b[i + 1..], m);
    SumConcat(b[..i], [b[i]], m);
    SumConcat(b[..i], b[i + 1..], m);
    SumOfOne(b[i], m);
  }

  lemma {:induction false} MultisetRemoveAt(b: seq<Transaction>, i: nat)
    requires i < |b|
    ensures multiset(b[..i] + b[i + 1..]) == multiset(b) - multiset{b[i]}
  {
    assert b == b[..i] + [b[i]] + b[i + 1..];
    assert multiset(b) == multiset(b[..i]) + multiset{b[i]} + multiset(b[i + 1..]);
  }

  /** The last record of `a` sits at some position `i` of a permutation `b`,
      and what is left of both is again a permutation. */
  lemma {:induction false} MatchLast(a: seq<Transaction>, b: seq<Transaction>) returns (i: nat)
    requires a != [] && multiset(a) == multiset(b)
    ensures i < |b| && b[i] == a[|a| - 1]
    ensures multiset(a[..|a| - 1]) == multiset(b[..i] + b[i + 1..])
  {
    var n := |a| - 1;
    assert a[n] in multiset(b);
    i :| 0 <= i < |b| && b[i] == a[n];
    assert a == a[..n] + [a[n]];
    assert multiset(a[..n]) == multiset(a) - multiset{a[n]};
    MultisetRemoveAt(b, i);
  }

  /** Reordering the records does not change any sum. */
  lemma {:induction false} SumPermutation(a: seq<Transaction>, b: seq<Transaction>, m: Measure)
    requires multiset(a) == multiset(b)
    ensures Sum(a, m) == Sum(b, m)
    decreases |a|
  {
    if a == [] {
      assert |b| == |multiset(b)| == 0;
    } else {
      var i := MatchLast(a, b);
      SumPermutation(a[..|a| - 1], b[..i] + b[i + 1..], m);
      SumRemoveAt(b, i, m);
    }
  }

  /** A category with no expense record contributes nothing to the chart. */
  lemma {:induction false} SumOfAbsentCategory(s: seq<Transaction>, c: string)
    requires forall t :: t in s ==> !(t.amount < 0 && t.category == c)
    ensures Sum(s, ExpenseIn(c)) == 0
  {
    if s != [] {
      assert s[|s| - 1] in s;
      SumOfAbsentCategory(s[..|s| - 1], c);
    }
  }
}
