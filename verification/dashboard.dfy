/**
 * The statistics the dashboard computes from the user's expense list
 * (newest first): this month's expenses and their total, the count, the five
 * most recent, and the number of expenses per category name with the most
 * used one.
 */
module Dashboard {
  import opened Wrappers
  import opened Seqs
  import opened Schema
  import opened ExpenseQueries

  /** The list the dashboard reads is newest first. */
  predicate NewestFirst(rows: seq<ExpenseRow>)
  {
    forall i, j :: 0 <= i < j < |rows| ==> rows[j].expense.date <= rows[i].expense.date
  }

  /** `getExpensesByUserId` delivers its rows newest first. */
  lemma UserListIsNewestFirst(es: seq<Expense>, cats: seq<Category>, userId: Id)
    ensures NewestFirst(ExpensesByUserId(es, cats, userId))
  {
    var rows := ExpensesByUserId(es, cats, userId);
    var s := ExpensesOf(rows);
    forall i, j | 0 <= i < j < |rows| ensures rows[j].expense.date <= rows[i].expense.date {
      assert InOrder(s[i], s[j], ByDate, Desc);
    }
  }

  // ---- this month ----

  function OnOrAfter(monthStart: Timestamp): ExpenseRow -> bool
  {
    (row: ExpenseRow) => row.expense.date >= monthStart
  }

  /** The rows dated at or after the first instant of the current month. */
  function ThisMonth(rows: seq<ExpenseRow>, monthStart: Timestamp): (r: seq<ExpenseRow>)
    ensures |r| <= |rows|
    ensures forall row :: row in r <==> row in rows && row.expense.date >= monthStart
  {
    Filter(rows, OnOrAfter(monthStart))
  }

  /** On a newest-first list, this month's rows are a prefix of it. */
  lemma {:induction false} ThisMonthIsPrefix(rows: seq<ExpenseRow>, monthStart: Timestamp)
    requires NewestFirst(rows)
    ensures ThisMonth(rows, monthStart) == rows[..|ThisMonth(rows, monthStart)|]
  {
    if rows != [] {
      var tail := rows[1..];
      assert NewestFirst(tail) by {
        forall i, j | 0 <= i < j < |tail| ensures tail[j].expense.date <= tail[i].expense.date {
          assert tail[i] == rows[i + 1] && tail[j] == rows[j + 1];
        }
      }
      if rows[0].expense.date >= monthStart {
        ThisMonthIsPrefix(tail, monthStart);
        assert rows == [rows[0]] + tail;
      }
    }
  }

  /** The sum of the amounts, as a plain recursive definition. */
  function SumAmounts(rows: seq<ExpenseRow>): real
  {
    if rows == [] then 0.0 else rows[0].expense.amount + SumAmounts(rows[1..])
  }

  /** `rows.reduce((sum, e) => sum + e.amount, acc)`: left to right from `acc`. */
  function Reduce(rows: seq<ExpenseRow>, acc: real): real
  {
    if rows == [] then acc else Reduce(rows[1..], acc + rows[0].expense.amount)
  }

  lemma {:induction false} ReduceIsSum(rows: seq<ExpenseRow>, acc: real)
    ensures Reduce(rows, acc) == acc + SumAmounts(rows)
  {
    if rows != [] {
      ReduceIsSum(rows[1..], acc + rows[0].expense.amount);
    }
  }

  /** `totalThisMonth`: the sum of this month's amounts, 0 when there are none. */
  function TotalThisMonth(rows: seq<ExpenseRow>, monthStart: Timestamp): (total: real)
    ensures total == SumAmounts(ThisMonth(rows, monthStart))
    ensures ThisMonth(rows, monthStart) == [] ==> total == 0.0
  {
    ReduceIsSum(ThisMonth(rows, monthStart), 0.0);
    Reduce(ThisMonth(rows, monthStart), 0.0)
  }

  /** Expenses are validated positive, so a total over them is never negative. */
  lemma {:induction false} TotalOfPositiveIsPositive(rows: seq<ExpenseRow>)
    requires forall row :: row in rows ==> row.expense.amount > 0.0
    ensures SumAmounts(rows) >= 0.0
    ensures rows != [] ==> SumAmounts(rows) > 0.0
  {
    if rows != [] {
      assert rows[0] in rows;
      assert forall row :: row in rows[1..] ==> row in rows;
      TotalOfPositiveIsPositive(rows[1..]);
    }
  }

  // ---- recent ----

  /** `expenses.slice(0, 5)`. */
  function Recent(rows: seq<ExpenseRow>): (r: seq<ExpenseRow>)
    ensures |r| == if |rows| < 5 then |rows| else 5
    ensures r == rows[..|r|]
  {
    rows[..if |rows| < 5 then |rows| else 5]
  }

  /** On a newest-first list, no expense left out of the recent five is newer than one kept. */
  lemma RecentAreNewest(rows: seq<ExpenseRow>, i: int, j: int)
    requires NewestFirst(rows)
    requires 0 <= i < |Recent(rows)| <= j < |rows|
    ensures rows[j].expense.date <= Recent(rows)[i].expense.date
  {
  }

  // ---- count by category name ----

  /** The category names of the categorised rows, in list order. */
  function Names(rows: seq<ExpenseRow>): (r: seq<string>)
    ensures |r| <= |rows|
  {
    if rows == [] then []
    else
      var last := rows[|rows| - 1];
      var front := Names(rows[..|rows| - 1]);
      front + (if last.category.Some? then [last.category.value.name] else [])
  }

  /** There are no names exactly when no row has a category. */
  lemma {:induction false} NoNamesIffUncategorised(rows: seq<ExpenseRow>)
    ensures Names(rows) == [] <==> forall row :: row in rows ==> row.category.None?
  {
    if rows != [] {
      var front := rows[..|rows| - 1];
      NoNamesIffUncategorised(front);
      assert forall row :: row in rows <==> row in front || row == rows[|rows| - 1];
    }
  }

  /** The elements of `s` in order of first appearance: the key order of an object built from `s`. */
  function Distinct(s: seq<string>): (r: seq<string>)
    ensures |r| <= |s|
  {
    if s == [] then []
    else
      var front := Distinct(s[..|s| - 1]);
      if s[|s| - 1] in front then front else front + [s[|s| - 1]]
  }

  /** `Distinct(s)` holds each element of `s` exactly once. */
  lemma {:induction false} DistinctMembers(s: seq<string>)
    ensures forall k :: k in Distinct(s) <==> k in s
    ensures forall i, j :: 0 <= i < j < |Distinct(s)| ==> Distinct(s)[i] != Distinct(s)[j]
  {
    if s != [] {
      var front := s[..|s| - 1];
      DistinctMembers(front);
      assert forall k :: k in s <==> k in front || k == s[|s| - 1];
    }
  }

  /** The total of the counts of the given keys. */
  function SumCounts(keys: seq<string>, counts: map<string, nat>): nat
    requires forall k :: k in keys ==> k in counts
  {
    if keys == [] then 0 else SumCounts(keys[..|keys| - 1], counts) + counts[keys[|keys| - 1]]
  }

  lemma {:induction false} SumCountsOther(keys: seq<string>, counts: map<string, nat>, x: string, v: nat)
    requires forall k :: k in keys ==> k in counts
    requires x !in keys
    ensures SumCounts(keys, counts[x := v]) == SumCounts(keys, counts)
  {
    if keys != [] {
      SumCountsOther(keys[..|keys| - 1], counts, x, v);
    }
  }

  lemma {:induction false} SumCountsIncrement(keys: seq<string>, counts: map<string, nat>, x: string)
    requires forall k :: k in keys ==> k in counts
    requires forall i, j :: 0 <= i < j < |keys| ==> keys[i] != keys[j]
    requires x in keys
    ensures SumCounts(keys, counts[x := counts[x] + 1]) == SumCounts(keys, counts) + 1
  {
    var front := keys[..|keys| - 1];
    if keys[|keys| - 1] == x {
      SumCountsOther(front, counts, x, counts[x] + 1);
    } else {
      assert x in front by {
        var i :| 0 <= i < |keys| && keys[i] == x;
        assert front[i] == x;
      }
      SumCountsIncrement(front, counts, x);
    }
  }

  /** One more row: `Names` grows by that row's name, if it has a category. */
  lemma NamesStep(rows: seq<ExpenseRow>, i: int)
    requires 0 <= i < |rows|
    ensures rows[i].category.Some? ==>
      Names(rows[..i + 1]) == Names(rows[..i]) + [rows[i].category.value.name]
    ensures rows[i].category.None? ==> Names(rows[..i + 1]) == Names(rows[..i])
  {
    assert rows[..i + 1][..i] == rows[..i];
  }

  /** One more name: `Distinct` grows by it unless it was seen before. */
  lemma DistinctStep(s: seq<string>, x: string)
    ensures Distinct(s + [x]) == if x in Distinct(s) then Distinct(s) else Distinct(s) + [x]
  {
    assert (s + [x])[..|s|] == s;
  }

  /** `counts` holds, for each name of `names`, how often it occurs there, and nothing else. */
  ghost predicate Tally(counts: map<string, nat>, names: seq<string>)
  {
    && (forall k :: k in counts <==> k in names)
    && (forall k :: k in counts ==> counts[k] == multiset(names)[k] && counts[k] >= 1)
  }

  /** Counting one more occurrence of `name` keeps the tally. */
  lemma CountsStep(counts: map<string, nat>, names: seq<string>, name: string)
    requires Tally(counts, names)
    ensures Tally(counts[name := if name in counts then counts[name] + 1 else 1], names + [name])
  {
    assert multiset(names + [name]) == multiset(names) + multiset{name};
    if name !in counts {
      assert multiset(names)[name] == 0;
    }
  }

  /**
   * The accumulator object of the `categoryCount` reduce: its keys in
   * insertion order, and the value under each key.
   */
  datatype Acc = Acc(keys: seq<string>, counts: map<string, nat>)

  /** The reduce callback: `acc[name] = (acc[name] || 0) + 1`. */
  function Bump(acc: Acc, name: string): (r: Acc)
    ensures r.counts.Keys == acc.counts.Keys + {name}
    ensures name in acc.counts ==> r.keys == acc.keys
    ensures name !in acc.counts ==> r.keys == acc.keys + [name]
  {
    if name in acc.counts then Acc(acc.keys, acc.counts[name := acc.counts[name] + 1])
    else Acc(acc.keys + [name], acc.counts[name := 1])
  }

  /** The whole reduce callback: rows without a category leave the object as it is. */
  function CountInto(acc: Acc, row: ExpenseRow): Acc
  {
    if row.category.Some? then Bump(acc, row.category.value.name) else acc
  }

  /**
   * After the names `names` have been counted: the keys hold each name once
   * in first-insertion order, the counts their tally, and the counts add up
   * to the number of names.
   */
  ghost predicate Counted(acc: Acc, names: seq<string>)
  {
    && acc.keys == Distinct(names)
    && Tally(acc.counts, names)
    && (forall k :: k in acc.keys ==> k in acc.counts)
    && SumCounts(acc.keys, acc.counts) == |names|
  }

  lemma CountOneKeys(acc: Acc, names: seq<string>, name: string)
    requires Counted(acc, names)
    ensures Bump(acc, name).keys == Distinct(names + [name])
  {
    DistinctMembers(names);
    DistinctStep(names, name);
  }

  /** Counting one more name adds one to the total of the counts. */
  lemma BumpSum(acc: Acc, name: string)
    requires forall k :: k in acc.keys ==> k in acc.counts
    requires forall i, j :: 0 <= i < j < |acc.keys| ==> acc.keys[i] != acc.keys[j]
    requires name in acc.counts <==> name in acc.keys
    ensures forall k :: k in Bump(acc, name).keys ==> k in Bump(acc, name).counts
    ensures SumCounts(Bump(acc, name).keys, Bump(acc, name).counts) == SumCounts(acc.keys, acc.counts) + 1
  {
    var r := Bump(acc, name);
    assert forall k :: k in r.keys ==> k in acc.keys || k == name;
    if name in acc.counts {
      SumCountsIncrement(acc.keys, acc.counts, name);
    } else {
      SumCountsOther(acc.keys, acc.counts, name, 1);
      assert r.keys[..|acc.keys|] == acc.keys;
    }
  }

  lemma CountOneSum(acc: Acc, names: seq<string>, name: string)
    requires Counted(acc, names)
    ensures forall k :: k in Bump(acc, name).keys ==> k in Bump(acc, name).counts
    ensures SumCounts(Bump(acc, name).keys, Bump(acc, name).counts) == |names| + 1
  {
    DistinctMembers(names);
    BumpSum(acc, name);
  }

  /** Counting one more name keeps `Counted`. */
  lemma CountOne(acc: Acc, names: seq<string>, name: string)
    requires Counted(acc, names)
    ensures Counted(Bump(acc, name), names + [name])
  {
    CountOneKeys(acc, names, name);
    CountsStep(acc.counts, names, name);
    CountOneSum(acc, names, name);
  }

  /** Once every row has been seen, `Counted` speaks about all of them. */
  lemma CountedWhole(acc: Acc, rows: seq<ExpenseRow>)
    requires Counted(acc, Names(rows[..|rows|]))
    ensures acc.keys == Distinct(Names(rows))
    ensures Tally(acc.counts, Names(rows))
    ensures forall k :: k in acc.keys ==> k in acc.counts
    ensures SumCounts(acc.keys, acc.counts) == |Names(rows)|
  {
    assert rows[..|rows|] == rows;
  }

  /** The next row is counted when it has a category, and skipped otherwise. */
  lemma CountRow(acc: Acc, rows: seq<ExpenseRow>, i: int)
    requires 0 <= i < |rows|
    requires Counted(acc, Names(rows[..i]))
    ensures Counted(CountInto(acc, rows[i]), Names(rows[..i + 1]))
  {
    NamesStep(rows, i);
    if rows[i].category.Some? {
      CountOne(acc, Names(rows[..i]), rows[i].category.value.name);
    }
  }

  /**
   * The `categoryCount` reduce: for each categorised row, one more for its
   * category name. `keys` is the order in which names were first added.
   */
  method CountByCategory(rows: seq<ExpenseRow>) returns (counts: map<string, nat>, keys: seq<string>)
    ensures keys == Distinct(Names(rows))
    ensures Tally(counts, Names(rows))
    ensures forall k :: k in keys ==> k in counts
    ensures SumCounts(keys, counts) == |Names(rows)|
  {
    var acc := Acc([], map[]);
    var i := 0;
    while i < |rows|
      invariant 0 <= i <= |rows|
      invariant Counted(acc, Names(rows[..i]))
    {
      CountRow(acc, rows, i);
      acc := CountInto(acc, rows[i]);
      i := i + 1;
    }
    counts, keys := acc.counts, acc.keys;
    CountedWhole(acc, rows);
  }

  // ---- the most used category ----

  /** One `[name, count]` pair of `Object.entries(categoryCount)`. */
  datatype Entry = Entry(name: string, count: nat)

  function Entries(keys: seq<string>, counts: map<string, nat>): (r: seq<Entry>)
    requires forall k :: k in keys ==> k in counts
    ensures |r| == |keys|
    ensures forall i :: 0 <= i < |r| ==> r[i] == Entry(keys[i], counts[keys[i]])
  {
    seq(|keys|, i requires 0 <= i < |keys| => Entry(keys[i], counts[keys[i]]))
  }

  predicate CountDescending(s: seq<Entry>)
  {
    forall i, j :: 0 <= i < j < |s| ==> s[j].count <= s[i].count
  }

  lemma HeadByCount(h: Entry, s: seq<Entry>)
    requires CountDescending(s)
    requires forall y :: y in s ==> y.count <= h.count
    ensures CountDescending([h] + s)
  {
    var r := [h] + s;
    forall i, j | 0 <= i < j < |r| ensures r[j].count <= r[i].count {
      if i == 0 {
        assert r[j] == s[j - 1];
      } else {
        assert r[i] == s[i - 1] && r[j] == s[j - 1];
      }
    }
  }

  /** Inserts `x` before the first entry whose count is not greater than its own. */
  function InsertByCount(x: Entry, s: seq<Entry>): (r: seq<Entry>)
    requires CountDescending(s)
    ensures CountDescending(r)
    ensures forall y :: y in r ==> y == x || y in s
    ensures multiset(r) == multiset(s) + multiset{x}
  {
    if s == [] || x.count >= s[0].count then
      HeadByCount(x, s);
      [x] + s
    else
      assert s == [s[0]] + s[1..];
      var rest := InsertByCount(x, s[1..]);
      assert forall y :: y in s[1..] ==> y.count <= s[0].count by {
        forall y | y in s[1..] ensures y.count <= s[0].count {
          var k :| 0 <= k < |s[1..]| && s[1..][k] == y;
          assert s[k + 1] == y;
        }
      }
      HeadByCount(s[0], rest);
      [s[0]] + rest
  }

  /** `x` goes first exactly when its count is at least that of the current head. */
  lemma InsertHead(x: Entry, s: seq<Entry>)
    requires CountDescending(s)
    ensures s == [] || x.count >= s[0].count ==> InsertByCount(x, s)[0] == x
    ensures s != [] && x.count < s[0].count ==> InsertByCount(x, s)[0] == s[0]
  {
  }

  /**
   * `sort(([, a], [, b]) => b - a)`: by count, largest first. The sort is
   * stable, so equal counts keep their key order.
   */
  function SortByCount(s: seq<Entry>): (r: seq<Entry>)
    ensures CountDescending(r)
    ensures multiset(r) == multiset(s)
    ensures |r| == |s|
  {
    if s == [] then []
    else
      assert s == [s[0]] + s[1..];
      var r := InsertByCount(s[0], SortByCount(s[1..]));
      assert |r| == |multiset(r)|;
      r
  }

  /** `i` is the first position holding a largest count. */
  predicate FirstMax(s: seq<Entry>, i: int)
  {
    && 0 <= i < |s|
    && (forall j :: 0 <= j < |s| ==> s[j].count <= s[i].count)
    && (forall j :: 0 <= j < i ==> s[j].count < s[i].count)
  }

  /** The head of the stable descending sort is the first entry with the largest count. */
  lemma {:induction false} SortedHeadIsFirstMax(s: seq<Entry>)
    requires s != []
    ensures exists i :: FirstMax(s, i) && SortByCount(s)[0] == s[i]
  {
    assert s == [s[0]] + s[1..];
    var tail := s[1..];
    if tail == [] {
      assert FirstMax(s, 0);
    } else {
      SortedHeadIsFirstMax(tail);
      var k :| FirstMax(tail, k) && SortByCount(tail)[0] == tail[k];
      InsertHead(s[0], SortByCount(tail));
      if s[0].count >= tail[k].count {
        assert FirstMax(s, 0) by {
          forall j | 0 < j < |s| ensures s[j].count <= s[0].count {
            assert s[j] == tail[j - 1];
          }
        }
      } else {
        assert FirstMax(s, k + 1) by {
          forall j | 0 <= j < |s| ensures s[j].count <= s[k + 1].count {
            if j > 0 { assert s[j] == tail[j - 1]; }
          }
          forall j | 0 <= j < k + 1 ensures s[j].count < s[k + 1].count {
            if j > 0 { assert s[j] == tail[j - 1]; }
          }
        }
      }
    }
  }

  /** `mostUsedCategory`: the name at the head of the sorted entries, absent when there are none. */
  function MostUsed(entries: seq<Entry>): (top: Option<string>)
    ensures top.None? <==> entries == []
    ensures top.Some? ==> exists i :: FirstMax(entries, i) && top.value == entries[i].name
  {
    if entries == [] then None
    else
      SortedHeadIsFirstMax(entries);
      Some(SortByCount(entries)[0].name)
  }

  /** `mostUsedCategory || "N/A"`. */
  function TopLabel(top: Option<string>): (shown: string)
    ensures top.Some? && top.value != "" ==> shown == top.value
    ensures top.None? || top.value == "" ==> shown == "N/A"
  {
    if top.Some? && top.value != "" then top.value else "N/A"
  }

  /**
   * `keys[i]` has the largest count, and every key before it a smaller one:
   * what the stable sort puts first.
   */
  ghost predicate TopKey(keys: seq<string>, counts: map<string, nat>, i: int)
  {
    && 0 <= i < |keys|
    && (forall j :: 0 <= j < |keys| ==> keys[j] in counts)
    && (forall j :: 0 <= j < |keys| ==> counts[keys[j]] <= counts[keys[i]])
    && (forall j :: 0 <= j < i ==> counts[keys[j]] < counts[keys[i]])
  }

  lemma EntriesTop(keys: seq<string>, counts: map<string, nat>, i: int)
    requires forall k :: k in keys ==> k in counts
    requires FirstMax(Entries(keys, counts), i)
    ensures TopKey(keys, counts, i)
  {
    var entries := Entries(keys, counts);
    forall j | 0 <= j < |keys| ensures counts[keys[j]] <= counts[keys[i]] {
      assert entries[j].count == counts[keys[j]];
    }
    forall j | 0 <= j < i ensures counts[keys[j]] < counts[keys[i]] {
      assert entries[j].count == counts[keys[j]];
    }
  }

  datatype Stats = Stats(
    thisMonth: seq<ExpenseRow>,
    totalThisMonth: real,
    totalCount: nat,
    recent: seq<ExpenseRow>,
    categoryCount: map<string, nat>,
    mostUsedCategory: Option<string>)

  /** The statistics block of the dashboard, for the user's rows and the current month's start. */
  method DashboardStats(rows: seq<ExpenseRow>, monthStart: Timestamp) returns (s: Stats)
    ensures s.thisMonth == ThisMonth(rows, monthStart)
    ensures s.totalThisMonth == SumAmounts(s.thisMonth)
    ensures s.totalCount == |rows| && s.recent == Recent(rows)
    ensures Tally(s.categoryCount, Names(rows))
    ensures forall k :: k in Distinct(Names(rows)) ==> k in s.categoryCount
    ensures SumCounts(Distinct(Names(rows)), s.categoryCount) == |Names(rows)|
    ensures s.mostUsedCategory.None? <==> forall row :: row in rows ==> row.category.None?
    ensures s.mostUsedCategory.Some? ==>
      exists i :: TopKey(Distinct(Names(rows)), s.categoryCount, i) &&
                  Distinct(Names(rows))[i] == s.mostUsedCategory.value
  {
    var thisMonth := ThisMonth(rows, monthStart);
    var total := TotalThisMonth(rows, monthStart);
    var counts, keys := CountByCategory(rows);
    NoNamesIffUncategorised(rows);
    var entries := Entries(keys, counts);
    var top := MostUsed(entries);
    if top.Some? {
      var i :| FirstMax(entries, i) && top.value == entries[i].name;
      EntriesTop(keys, counts, i);
    }
    s := Stats(thisMonth, total, |rows|, Recent(rows), counts, top);
  }
}
