/** The selection inside `generateInitialAnalysisMessage` (FinancialChatbot.tsx:121-135):
    `Object.entries(categories).sort((a, b) => b[1] - a[1]).slice(0, 3)`.
    The rendered text is left to a caller-supplied renderer; only the figures
    that go into it are modelled. */
module Summary {
  import opened Types
  import opened Aggregation

  /** A `[category, amount]` pair of `Object.entries`. */
  type Entry = (string, int)

  /** The figures the initial analysis message is made of. */
  datatype Figures = Figures(totalIncome: int, totalExpenses: int, savings: int, top: seq<Entry>)

  const TopCount: nat := 3

  function Min(a: nat, b: nat): nat { if a < b then a else b }

  predicate NonIncreasing(s: seq<Entry>)
  {
    forall i, j :: 0 <= i < j < |s| ==> s[i].1 >= s[j].1
  }

  predicate Distinct(keys: seq<string>)
  {
    forall i, j :: 0 <= i < j < |keys| ==> keys[i] != keys[j]
  }

  // ---- enumeration order of the categories record -------------------------

  /** The keys of the record in the order the `forEach` first created them. */
  function FirstSeen(ds: seq<Transaction>): (keys: seq<string>)
    ensures Distinct(keys)
    ensures forall k :: k in keys <==> exists t :: t in ds && t.category == k
  {
    if ds == [] then []
    else
      var keys := FirstSeen(ds[..|ds| - 1]);
      var last := ds[|ds| - 1];
      assert forall t :: t in ds <==> t in ds[..|ds| - 1] || t == last by {
        assert ds == ds[..|ds| - 1] + [last];
      }
      if last.category in keys then keys else keys + [last.category]
  }

  /** The position of the first transaction filed under `k`, or `|ds|` when there is none. */
  function FirstIndex(ds: seq<Transaction>, k: string): (n: nat)
    ensures n <= |ds|
    ensures n < |ds| ==> ds[n].category == k
    ensures forall p :: 0 <= p < n ==> ds[p].category != k
  {
    if ds == [] then 0
    else if ds[0].category == k then 0
    else
      var n := 1 + FirstIndex(ds[1..], k);
      assert forall p :: 1 <= p < n ==> ds[p] == ds[1..][p - 1];
      n
  }

  lemma {:induction false} FirstIndexSnoc(init: seq<Transaction>, t: Transaction, k: string)
    ensures FirstIndex(init + [t], k) ==
              if FirstIndex(init, k) < |init| then FirstIndex(init, k)
              else if t.category == k then |init| else |init| + 1
  {
    if init == [] {
      assert [t][1..] == [];
    } else {
      assert (init + [t])[0] == init[0] && (init + [t])[1..] == init[1..] + [t];
      FirstIndexSnoc(init[1..], t, k);
    }
  }

  /** A category that occurs is found before the end. */
  lemma FirstIndexFound(ds: seq<Transaction>, q: nat)
    requires q < |ds|
    ensures FirstIndex(ds, ds[q].category) <= q
  {
  }

  /** The keys come in the order of their first occurrence. */
  lemma {:induction false} FirstSeenOrder(ds: seq<Transaction>)
    ensures forall i, j :: 0 <= i < j < |FirstSeen(ds)| ==>
              FirstIndex(ds, FirstSeen(ds)[i]) < FirstIndex(ds, FirstSeen(ds)[j])
  {
    if ds != [] {
      var init, last := ds[..|ds| - 1], ds[|ds| - 1];
      assert ds == init + [last];
      FirstSeenOrder(init);
      var keys := FirstSeen(init);
      forall i | 0 <= i < |keys| ensures FirstIndex(ds, keys[i]) == FirstIndex(init, keys[i]) < |init| {
        assert keys[i] in keys;
        var t :| t in init && t.category == keys[i];
        var q :| 0 <= q < |init| && init[q] == t;
        FirstIndexFound(init, q);
        FirstIndexSnoc(init, last, keys[i]);
      }
      FirstIndexSnoc(init, last, last.category);
    }
  }

  lemma {:induction false} DistinctCardinality(keys: seq<string>)
    requires Distinct(keys)
    ensures |set k | k in keys| == |keys|
  {
    if keys != [] {
      var init := keys[..|keys| - 1];
      DistinctCardinality(init);
      assert keys == init + [keys[|keys| - 1]];
      assert (set k | k in keys) == (set k | k in init) + {keys[|keys| - 1]};
    }
  }

  /** `[k, m[k]]` for each key, in key order. */
  function Pairs(keys: seq<string>, m: map<string, int>): (r: seq<Entry>)
    requires forall k :: k in keys ==> k in m
    ensures |r| == |keys|
    ensures forall i :: 0 <= i < |keys| ==> r[i] == (keys[i], m[keys[i]])
  {
    if keys == [] then [] else [(keys[0], m[keys[0]])] + Pairs(keys[1..], m)
  }

  /** The record of `a` holds the categories of its own transactions. */
  ghost predicate CategoriesOfTransactions(a: Analysis)
  {
    a.categories == Categories(a.transactions)
  }

  /** The first-seen keys of the debits enumerate the keys of the record, each once. */
  lemma FirstSeenKeys(a: Analysis)
    requires CategoriesOfTransactions(a)
    ensures forall k :: k in FirstSeen(Debits(a.transactions)) <==> k in a.categories
    ensures |FirstSeen(Debits(a.transactions))| == |a.categories|
  {
    var keys := FirstSeen(Debits(a.transactions));
    GroupKeys(Debits(a.transactions));
    DistinctCardinality(keys);
    assert (set k | k in keys) == a.categories.Keys;
  }

  /** The pairs of distinct keys that all belong to `m` list `m` restricted to them. */
  lemma PairsAgree(keys: seq<string>, m: map<string, int>)
    requires forall k :: k in keys ==> k in m
    ensures forall e :: e in Pairs(keys, m) ==> e.0 in m && m[e.0] == e.1
    ensures forall k :: k in keys ==> (k, m[k]) in Pairs(keys, m)
  {
    var r := Pairs(keys, m);
    forall k | k in keys ensures (k, m[k]) in r {
      var i :| 0 <= i < |keys| && keys[i] == k;
      assert r[i] == (k, m[k]);
    }
  }

  /** `Object.entries(analysis.categories)` in insertion order. */
  function ObjectEntries(a: Analysis): (r: seq<Entry>)
    requires CategoriesOfTransactions(a)
    ensures forall e :: e in r ==> e.0 in a.categories && a.categories[e.0] == e.1
    ensures forall k :: k in a.categories ==> (k, a.categories[k]) in r
    ensures |r| == |a.categories|
    ensures DistinctKeys(r)
    ensures forall i, j :: 0 <= i < j < |r| ==>
              FirstIndex(Debits(a.transactions), r[i].0) < FirstIndex(Debits(a.transactions), r[j].0)
  {
    var keys := FirstSeen(Debits(a.transactions));
    FirstSeenKeys(a);
    PairsAgree(keys, a.categories);
    FirstSeenOrder(Debits(a.transactions));
    Pairs(keys, a.categories)
  }

  /** No two entries share a key. */
  predicate DistinctKeys(s: seq<Entry>)
  {
    forall i, j :: 0 <= i < j < |s| ==> s[i].0 != s[j].0
  }

  lemma {:induction false} DistinctKeysOnce(s: seq<Entry>, e: Entry)
    requires DistinctKeys(s)
    ensures multiset(s)[e] <= 1
  {
    if s != [] {
      var tail := s[1..];
      assert s == [s[0]] + tail;
      assert forall q :: 0 <= q < |tail| ==> tail[q] == s[q + 1];
      DistinctKeysOnce(tail, e);
      assert s[0] !in tail;
    }
  }

  lemma Repeated(s: seq<Entry>, i: nat, j: nat)
    requires i < j < |s|
    ensures s[i] == s[j] ==> multiset(s)[s[j]] >= 2
  {
    assert s == s[..j] + [s[j]] + s[j + 1..];
    assert s[..j][i] == s[i];
    assert multiset(s) == multiset(s[..j]) + multiset{s[j]} + multiset(s[j + 1..]);
  }

  /** In a list with distinct keys an entry is determined by its key. */
  lemma SameKeySameEntry(s: seq<Entry>, x: Entry, y: Entry)
    requires DistinctKeys(s) && x in s && y in s
    ensures x.0 == y.0 ==> x == y
  {
  }

  /** A sub-multiset of a list with distinct keys has distinct keys. */
  lemma DistinctKeysSub(r: seq<Entry>, entries: seq<Entry>)
    requires multiset(r) <= multiset(entries)
    ensures DistinctKeys(entries) ==> DistinctKeys(r)
  {
    if DistinctKeys(entries) {
      forall i, j | 0 <= i < j < |r| ensures r[i].0 != r[j].0 {
        assert r[i] in multiset(r) && r[j] in multiset(r);
        SameKeySameEntry(entries, r[i], r[j]);
        Repeated(r, i, j);
        DistinctKeysOnce(entries, r[j]);
      }
    }
  }

  // ---- sorting by amount, largest first -----------------------------------

  lemma NonIncreasingCons(x: Entry, s: seq<Entry>)
    requires NonIncreasing(s)
    requires s == [] || x.1 >= s[0].1
    ensures NonIncreasing([x] + s)
  {
    var r := [x] + s;
    forall i, j | 0 <= i < j < |r| ensures r[i].1 >= r[j].1 {
      if i > 0 {
        assert r[i] == s[i - 1] && r[j] == s[j - 1];
      } else {
        assert r[j] == s[j - 1];
        assert j - 1 == 0 || s[0].1 >= s[j - 1].1;
      }
    }
  }

  lemma NonIncreasingTail(s: seq<Entry>)
    requires NonIncreasing(s) && s != []
    ensures NonIncreasing(s[1..])
  {
    forall i, j | 0 <= i < j < |s| - 1 ensures s[1..][i].1 >= s[1..][j].1 {
      assert s[1..][i] == s[i + 1] && s[1..][j] == s[j + 1];
    }
  }

  function Insert(e: Entry, s: seq<Entry>): (r: seq<Entry>)
    requires NonIncreasing(s)
    ensures NonIncreasing(r)
    ensures |r| == |s| + 1
    ensures r[0] == e || (s != [] && r[0] == s[0])
  {
    if s == [] then [e]
    else if e.1 >= s[0].1 then
      NonIncreasingCons(e, s);
      [e] + s
    else
      NonIncreasingTail(s);
      var rest := Insert(e, s[1..]);
      assert rest[0] == e || rest[0] == s[1];
      NonIncreasingCons(s[0], rest);
      [s[0]] + rest
  }

  /** Insertion adds `e` and loses nothing. */
  lemma {:induction false} InsertPermutes(e: Entry, s: seq<Entry>)
    requires NonIncreasing(s)
    ensures multiset(Insert(e, s)) == multiset(s) + multiset{e}
  {
    if s != [] && e.1 < s[0].1 {
      NonIncreasingTail(s);
      InsertPermutes(e, s[1..]);
      assert s == [s[0]] + s[1..];
    }
  }

  /** The `sort` with comparator `b[1] - a[1]` (stable; ties keep their order). */
  function SortByAmount(s: seq<Entry>): (r: seq<Entry>)
    ensures NonIncreasing(r)
    ensures multiset(r) == multiset(s)
    ensures |r| == |s|
  {
    if s == [] then []
    else
      assert s == [s[0]] + s[1..];
      InsertPermutes(s[0], SortByAmount(s[1..]));
      Insert(s[0], SortByAmount(s[1..]))
  }

  /** A prefix of a sorted permutation is drawn from the original list. */
  lemma PrefixDrawn(entries: seq<Entry>, sorted: seq<Entry>, n: nat)
    requires multiset(sorted) == multiset(entries) && n <= |sorted|
    ensures multiset(sorted[..n]) <= multiset(entries)
    ensures forall e :: e in sorted[..n] ==> e in entries
  {
    assert sorted == sorted[..n] + sorted[n..];
    assert multiset(sorted) == multiset(sorted[..n]) + multiset(sorted[n..]);
    forall e | e in sorted[..n] ensures e in entries {
      assert e in multiset(sorted[..n]);
      assert e in multiset(entries);
    }
  }

  /** No entry left out of a prefix of a sorted permutation exceeds a kept one. */
  lemma PrefixIsTop(entries: seq<Entry>, sorted: seq<Entry>, n: nat)
    requires NonIncreasing(sorted) && multiset(sorted) == multiset(entries) && n <= |sorted|
    ensures forall e, x :: e in entries && e !in sorted[..n] && x in sorted[..n] ==> e.1 <= x.1
  {
    forall e, x | e in entries && e !in sorted[..n] && x in sorted[..n] ensures e.1 <= x.1 {
      assert e in multiset(sorted);
      var j :| 0 <= j < |sorted| && sorted[j] == e;
      var i :| 0 <= i < n && sorted[..n][i] == x;
      assert sorted[i] == x;
    }
  }

  /** The sort followed by `slice(0, 3)`. */
  function TopCategories(entries: seq<Entry>): (r: seq<Entry>)
    ensures |r| == Min(TopCount, |entries|)
    ensures NonIncreasing(r)
    ensures multiset(r) <= multiset(entries)
    ensures forall e :: e in r ==> e in entries
    ensures forall e, x :: e in entries && e !in r && x in r ==> e.1 <= x.1
    ensures DistinctKeys(entries) ==> DistinctKeys(r)
  {
    var sorted := SortByAmount(entries);
    var n := Min(TopCount, |sorted|);
    PrefixDrawn(entries, sorted, n);
    DistinctKeysSub(sorted[..n], entries);
    PrefixIsTop(entries, sorted, n);
    assert NonIncreasing(sorted[..n]) by {
      forall i, j | 0 <= i < j < n ensures sorted[..n][i].1 >= sorted[..n][j].1 {
        assert sorted[..n][i] == sorted[i] && sorted[..n][j] == sorted[j];
      }
    }
    sorted[..n]
  }

  /** The figures of the initial analysis message. */
  function InitialSummary(a: Analysis): (s: Figures)
    requires CategoriesOfTransactions(a)
    ensures s.totalIncome == a.totalIncome && s.totalExpenses == a.totalExpenses && s.savings == a.savings
    ensures |s.top| == Min(TopCount, |a.categories|)
    ensures NonIncreasing(s.top)
    ensures forall e :: e in s.top ==> e.0 in a.categories && a.categories[e.0] == e.1
    ensures forall i, j :: 0 <= i < j < |s.top| ==> s.top[i].0 != s.top[j].0
    ensures forall k :: k in a.categories && (k, a.categories[k]) !in s.top ==>
              forall e :: e in s.top ==> a.categories[k] <= e.1
  {
    Figures(a.totalIncome, a.totalExpenses, a.savings, TopCategories(ObjectEntries(a)))
  }
}
