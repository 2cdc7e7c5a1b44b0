/** `analyzeFinancialData` (FinancialChatbot.tsx:96-119): folds a transaction
    list into income, expense and per-category expense totals. */
module Aggregation {
  import opened Types

  function Abs(x: int): (r: nat)
    ensures r == x || r == -x
  {
    if x < 0 then -x else x
  }

  /** `transactions.filter(t => t.amount > 0)` */
  function Credits(ts: seq<Transaction>): (r: seq<Transaction>)
    ensures |r| <= |ts|
  {
    if ts == [] then []
    else (if ts[0].amount > 0 then [ts[0]] else []) + Credits(ts[1..])
  }

  /** `transactions.filter(t => t.amount < 0)` */
  function Debits(ts: seq<Transaction>): (r: seq<Transaction>)
    ensures |r| <= |ts|
  {
    if ts == [] then []
    else (if ts[0].amount < 0 then [ts[0]] else []) + Debits(ts[1..])
  }

  /** The transactions filed under category `k`. */
  function InCategory(ts: seq<Transaction>, k: string): seq<Transaction>
  {
    if ts == [] then []
    else (if ts[0].category == k then [ts[0]] else []) + InCategory(ts[1..], k)
  }

  /** `reduce((sum, t) => sum + t.amount, 0)` */
  function Sum(ts: seq<Transaction>): (r: int)
    ensures -SumAbs(ts) <= r <= SumAbs(ts)
  {
    if ts == [] then 0 else ts[0].amount + Sum(ts[1..])
  }

  /** `reduce((sum, t) => sum + Math.abs(t.amount), 0)` */
  function SumAbs(ts: seq<Transaction>): (r: int)
    ensures r >= 0
  {
    if ts == [] then 0 else Abs(ts[0].amount) + SumAbs(ts[1..])
  }

  /** totalIncome: the sum of the strictly positive amounts. */
  function Income(ts: seq<Transaction>): (r: int)
    ensures r >= 0
  {
    SumOfCredits(ts);
    Sum(Credits(ts))
  }

  /** totalExpenses: the sum of the absolute values of the strictly negative amounts. */
  function Expenses(ts: seq<Transaction>): (r: int)
    ensures r >= 0
  {
    SumAbs(Debits(ts))
  }

  /** The filters keep exactly the transactions their predicates accept. */
  lemma {:induction false} FilterMembers(ts: seq<Transaction>)
    ensures forall t :: t in Credits(ts) <==> t in ts && t.amount > 0
    ensures forall t :: t in Debits(ts) <==> t in ts && t.amount < 0
  {
    if ts != [] {
      FilterMembers(ts[1..]);
      assert forall t :: t in ts <==> t == ts[0] || t in ts[1..] by {
        assert ts == [ts[0]] + ts[1..];
      }
    }
  }

  lemma {:induction false} InCategoryMembers(ts: seq<Transaction>, k: string)
    ensures forall t :: t in InCategory(ts, k) <==> t in ts && t.category == k
  {
    if ts != [] {
      InCategoryMembers(ts[1..], k);
      assert forall t :: t in ts <==> t == ts[0] || t in ts[1..] by {
        assert ts == [ts[0]] + ts[1..];
      }
    }
  }

  /** A list with a non-zero amount in it has a positive sum of absolute amounts. */
  lemma {:induction false} SumAbsPositive(ts: seq<Transaction>, t: Transaction)
    requires t in ts && t.amount != 0
    ensures SumAbs(ts) > 0
  {
    if ts[0] != t {
      assert t in ts[1..] by {
        assert ts == [ts[0]] + ts[1..];
      }
      SumAbsPositive(ts[1..], t);
    }
  }

  lemma {:induction false} SumOfCredits(ts: seq<Transaction>)
    ensures Sum(Credits(ts)) >= 0
  {
    if ts != [] {
      SumOfCredits(ts[1..]);
      var head := if ts[0].amount > 0 then [ts[0]] else [];
      SumAppend(head, Credits(ts[1..]));
    }
  }

  lemma {:induction false} SumAppend(a: seq<Transaction>, b: seq<Transaction>)
    ensures Sum(a + b) == Sum(a) + Sum(b)
    ensures SumAbs(a + b) == SumAbs(a) + SumAbs(b)
  {
    if a == [] {
      assert a + b == b;
    } else {
      assert (a + b)[0] == a[0] && (a + b)[1..] == a[1..] + b;
      SumAppend(a[1..], b);
    }
  }

  lemma FiltersAppend(a: seq<Transaction>, b: seq<Transaction>)
    ensures Credits(a + b) == Credits(a) + Credits(b)
    ensures Debits(a + b) == Debits(a) + Debits(b)
  {
    CreditsAppend(a, b);
    DebitsAppend(a, b);
  }

  lemma {:induction false} CreditsAppend(a: seq<Transaction>, b: seq<Transaction>)
    ensures Credits(a + b) == Credits(a) + Credits(b)
  {
    if a == [] {
      assert a + b == b;
    } else {
      assert (a + b)[0] == a[0] && (a + b)[1..] == a[1..] + b;
      CreditsAppend(a[1..], b);
    }
  }

  lemma {:induction false} DebitsAppend(a: seq<Transaction>, b: seq<Transaction>)
    ensures Debits(a + b) == Debits(a) + Debits(b)
  {
    if a == [] {
      assert a + b == b;
    } else {
      assert (a + b)[0] == a[0] && (a + b)[1..] == a[1..] + b;
      DebitsAppend(a[1..], b);
    }
  }

  lemma {:induction false} InCategoryAppend(a: seq<Transaction>, b: seq<Transaction>, k: string)
    ensures InCategory(a + b, k) == InCategory(a, k) + InCategory(b, k)
  {
    if a == [] {
      assert a + b == b;
    } else {
      assert (a + b)[0] == a[0] && (a + b)[1..] == a[1..] + b;
      InCategoryAppend(a[1..], b, k);
    }
  }

  /** Income and expenses split over a concatenation of transaction lists. */
  lemma TotalsAppend(a: seq<Transaction>, b: seq<Transaction>)
    ensures Income(a + b) == Income(a) + Income(b)
    ensures Expenses(a + b) == Expenses(a) + Expenses(b)
  {
    FiltersAppend(a, b);
    SumAppend(Credits(a), Credits(b));
    SumAppend(Debits(a), Debits(b));
  }

  /** A transaction of amount 0 contributes to neither total, wherever it sits. */
  lemma ZeroAmountIgnored(a: seq<Transaction>, t: Transaction, b: seq<Transaction>)
    requires t.amount == 0
    ensures Income(a + [t] + b) == Income(a + b)
    ensures Expenses(a + [t] + b) == Expenses(a + b)
  {
    TotalsAppend(a + [t], b);
    TotalsAppend(a, [t]);
    TotalsAppend(a, b);
    assert Credits([t]) == [] && Debits([t]) == [];
  }

  /** Savings are the plain sum of all amounts: income minus expenses loses nothing. */
  lemma {:induction false} NetIsSumOfAmounts(ts: seq<Transaction>)
    ensures Income(ts) - Expenses(ts) == Sum(ts)
  {
    if ts != [] {
      NetIsSumOfAmounts(ts[1..]);
      assert ts == [ts[0]] + ts[1..];
      TotalsAppend([ts[0]], ts[1..]);
      SumAppend([ts[0]], ts[1..]);
      assert Credits([ts[0]]) == (if ts[0].amount > 0 then [ts[0]] else []);
      assert Debits([ts[0]]) == (if ts[0].amount < 0 then [ts[0]] else []);
    }
  }

  // ---- categories ----------------------------------------------------------

  /** One step of the `forEach`: `categories[c] = (categories[c] || 0) + Math.abs(amount)`. */
  function AddExpense(m: map<string, int>, t: Transaction): (r: map<string, int>)
    ensures r.Keys == m.Keys + {t.category}
  {
    m[t.category := (if t.category in m then m[t.category] else 0) + Abs(t.amount)]
  }

  /** The category map after visiting the given (already filtered) transactions in order. */
  function Group(ds: seq<Transaction>): (r: map<string, int>)
  {
    if ds == [] then map[] else AddExpense(Group(ds[..|ds| - 1]), ds[|ds| - 1])
  }

  lemma GroupSnoc(ds: seq<Transaction>, t: Transaction)
    ensures Group(ds + [t]) == AddExpense(Group(ds), t)
  {
    assert (ds + [t])[..|ds|] == ds;
  }

  /** The keys of the map are exactly the categories that occur. */
  lemma {:induction false} GroupKeys(ds: seq<Transaction>)
    ensures forall k :: k in Group(ds) <==> exists t :: t in ds && t.category == k
  {
    if ds != [] {
      var init, last := ds[..|ds| - 1], ds[|ds| - 1];
      assert ds == init + [last];
      GroupKeys(init);
      GroupSnoc(init, last);
    }
  }

  /** Each value is the sum of the absolute amounts filed under its key. */
  lemma {:induction false} GroupValues(ds: seq<Transaction>)
    ensures forall k :: k in Group(ds) ==> Group(ds)[k] == SumAbs(InCategory(ds, k))
  {
    if ds != [] {
      var init, last := ds[..|ds| - 1], ds[|ds| - 1];
      assert ds == init + [last];
      GroupValues(init);
      GroupKeys(init);
      GroupSnoc(init, last);
      forall k | k in Group(ds) ensures Group(ds)[k] == SumAbs(InCategory(ds, k)) {
        InCategoryAppend(init, [last], k);
        SumAppend(InCategory(init, k), InCategory([last], k));
        if k !in Group(init) {
          InCategoryMembers(init, k);
          assert InCategory(init, k) == [];
        }
      }
    }
  }

  /** The values of a map of amounts, added up. */
  ghost function MapSum(m: map<string, int>): int
    decreases |m|
  {
    if m == map[] then 0
    else
      var k :| k in m;
      assert |m.Keys - {k}| == |m.Keys| - 1;
      m[k] + MapSum(m - {k})
  }

  lemma {:induction false} MapSumPick(m: map<string, int>, k: string)
    requires k in m
    ensures MapSum(m) == m[k] + MapSum(m - {k})
    decreases |m|
  {
    var j :| j in m && MapSum(m) == m[j] + MapSum(m - {j});
    if j != k {
      assert |m.Keys - {j}| == |m.Keys| - 1;
      assert |m.Keys - {k}| == |m.Keys| - 1;
      MapSumPick(m - {j}, k);
      MapSumPick(m - {k}, j);
      assert m - {j} - {k} == m - {k} - {j};
    }
  }

  lemma MapSumAddExpense(m: map<string, int>, t: Transaction)
    ensures MapSum(AddExpense(m, t)) == MapSum(m) + Abs(t.amount)
  {
    var m' := AddExpense(m, t);
    MapSumPick(m', t.category);
    assert m' - {t.category} == m - {t.category};
    if t.category in m {
      MapSumPick(m, t.category);
    } else {
      assert m - {t.category} == m;
    }
  }

  /** The category values add up to the total of the absolute amounts. */
  lemma {:induction false} GroupSum(ds: seq<Transaction>)
    ensures MapSum(Group(ds)) == SumAbs(ds)
  {
    if ds != [] {
      var init, last := ds[..|ds| - 1], ds[|ds| - 1];
      assert ds == init + [last];
      GroupSum(init);
      GroupSnoc(init, last);
      MapSumAddExpense(Group(init), last);
      SumAppend(init, [last]);
    }
  }

  lemma {:induction false} DebitsInCategory(ts: seq<Transaction>, k: string)
    ensures InCategory(Debits(ts), k) == Debits(InCategory(ts, k))
  {
    if ts != [] {
      DebitsInCategory(ts[1..], k);
      var head := if ts[0].amount < 0 then [ts[0]] else [];
      var here := if ts[0].category == k then [ts[0]] else [];
      InCategoryAppend(head, Debits(ts[1..]), k);
      DebitsAppend(here, InCategory(ts[1..], k));
    }
  }

  /** The `categories` record of an analysis of `ts`. */
  function Categories(ts: seq<Transaction>): (r: map<string, int>)
    ensures Debits(ts) == [] ==> r == map[]
  {
    Group(Debits(ts))
  }

  /** The keys are exactly the categories of negative-amount transactions. */
  lemma CategoriesKeys(ts: seq<Transaction>)
    ensures forall k :: k in Categories(ts) <==> exists t :: t in ts && t.amount < 0 && t.category == k
  {
    GroupKeys(Debits(ts));
    FilterMembers(ts);
  }

  /** Each value is the total expense of its category, and is positive. */
  lemma CategoriesValues(ts: seq<Transaction>)
    ensures forall k :: k in Categories(ts) ==> Categories(ts)[k] == Expenses(InCategory(ts, k)) > 0
  {
    var ds := Debits(ts);
    GroupKeys(ds);
    GroupValues(ds);
    forall k | k in Categories(ts) ensures Categories(ts)[k] == Expenses(InCategory(ts, k)) > 0 {
      DebitsInCategory(ts, k);
      InCategoryMembers(ds, k);
      var t :| t in ds && t.category == k;
      FilterMembers(ts);
      SumAbsPositive(InCategory(ds, k), t);
    }
  }

  /** The values add up to totalExpenses. */
  lemma CategoriesSum(ts: seq<Transaction>)
    ensures MapSum(Categories(ts)) == Expenses(ts)
  {
    GroupSum(Debits(ts));
  }

  /** The loop of lines 105-110: the record is updated in place for each debit. */
  method BuildCategories(ts: seq<Transaction>) returns (categories: map<string, int>)
    ensures categories == Categories(ts)
  {
    var debits := Debits(ts);
    categories := map[];
    var i := 0;
    while i < |debits|
      invariant 0 <= i <= |debits|
      invariant categories == Group(debits[..i])
    {
      var t := debits[i];
      ghost var before := categories;
      categories := categories[t.category := (if t.category in categories then categories[t.category] else 0) + Abs(t.amount)];
      assert categories == AddExpense(before, t);
      GroupSnoc(debits[..i], t);
      assert debits[..i + 1] == debits[..i] + [t];
      i := i + 1;
    }
    assert debits[..i] == debits;
  }

  // ---- the analysis --------------------------------------------------------

  /** What an analysis of `ts` holds, stated without reference to how it is computed. */
  ghost predicate IsAnalysisOf(a: Analysis, ts: seq<Transaction>)
  {
    && a.transactions == ts
    && a.totalIncome == Income(ts)
    && a.totalExpenses == Expenses(ts)
    && a.savings == a.totalIncome - a.totalExpenses
    && a.savings == Sum(ts)
    && a.categories == Categories(ts)
    && MapSum(a.categories) == a.totalExpenses
  }

  method AnalyzeFinancialData(ts: seq<Transaction>) returns (a: Analysis)
    ensures IsAnalysisOf(a, ts)
    ensures a.totalIncome >= 0 && a.totalExpenses >= 0
    ensures a.savings == a.totalIncome - a.totalExpenses
    ensures a.transactions == ts
    ensures forall k :: k in a.categories <==> exists t :: t in ts && t.amount < 0 && t.category == k
    ensures forall k :: k in a.categories ==> a.categories[k] == Expenses(InCategory(ts, k)) > 0
  {
    var totalIncome := Income(ts);
    var totalExpenses := Expenses(ts);
    var categories := BuildCategories(ts);
    a := Analysis(totalIncome, totalExpenses, totalIncome - totalExpenses, categories, ts);
    NetIsSumOfAmounts(ts);
    CategoriesKeys(ts);
    CategoriesValues(ts);
    CategoriesSum(ts);
  }
}
