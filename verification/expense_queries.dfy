/**
 * Reads of the expenses table. Every query is scoped by the owning user; its
 * rows are left-joined with their category and ordered by a sort key.
 */
module ExpenseQueries {
  import opened Wrappers
  import opened Seqs
  import opened Schema

  /** The category columns a query selects next to an expense (`category: {id, name, color, icon}`). */
  datatype CategoryInfo = CategoryInfo(id: Id, name: string, color: Option<string>, icon: Option<string>)

  /** One row of an expense query: the expense and its category, absent when the LEFT JOIN found none. */
  datatype ExpenseRow = ExpenseRow(expense: Expense, category: Option<CategoryInfo>)

  function InfoOf(c: Category): CategoryInfo { CategoryInfo(c.id, c.name, c.color, c.icon) }

  /** `LEFT JOIN categories ON expenses.category_id = categories.id` for one expense. */
  function JoinRow(e: Expense, cats: seq<Category>): (r: ExpenseRow)
    ensures r.expense == e
    ensures r.category.Some? <==> e.categoryId.Some? && e.categoryId.value in CategoryIds(cats)
    ensures r.category.Some? ==>
      exists c :: c in cats && c.id == e.categoryId.value && r.category == Some(InfoOf(c))
  {
    if e.categoryId.None? then ExpenseRow(e, None)
    else
      match FirstWhere(cats, (c: Category) => c.id == e.categoryId.value)
      case Some(c) => ExpenseRow(e, Some(InfoOf(c)))
      case None => ExpenseRow(e, None)
  }

  function JoinAll(es: seq<Expense>, cats: seq<Category>): (r: seq<ExpenseRow>)
    ensures |r| == |es|
    ensures forall i :: 0 <= i < |es| ==> r[i] == JoinRow(es[i], cats)
  {
    seq(|es|, i requires 0 <= i < |es| => JoinRow(es[i], cats))
  }

  /** The expense column of a result, without the joined category. */
  function ExpensesOf(rows: seq<ExpenseRow>): (r: seq<Expense>)
    ensures |r| == |rows|
    ensures forall i :: 0 <= i < |rows| ==> r[i] == rows[i].expense
  {
    seq(|rows|, i requires 0 <= i < |rows| => rows[i].expense)
  }

  datatype SortKey = ByDate | ByAmount
  datatype Direction = Asc | Desc

  function Key(e: Expense, column: SortKey): real
  {
    if column == ByAmount then e.amount else e.date as real
  }

  /** `a` may come before `b` under `ORDER BY key dir`. */
  predicate InOrder(a: Expense, b: Expense, column: SortKey, dir: Direction)
  {
    if dir == Asc then Key(a, column) <= Key(b, column) else Key(b, column) <= Key(a, column)
  }

  predicate SortedBy(s: seq<Expense>, column: SortKey, dir: Direction)
  {
    forall i, j :: 0 <= i < j < |s| ==> InOrder(s[i], s[j], column, dir)
  }

  lemma HeadFirst(h: Expense, s: seq<Expense>, column: SortKey, dir: Direction)
    requires SortedBy(s, column, dir)
    requires forall y :: y in s ==> InOrder(h, y, column, dir)
    ensures SortedBy([h] + s, column, dir)
  {
    var r := [h] + s;
    forall i, j | 0 <= i < j < |r| ensures InOrder(r[i], r[j], column, dir) {
      if i == 0 {
        assert r[j] == s[j - 1];
      } else {
        assert r[i] == s[i - 1] && r[j] == s[j - 1];
      }
    }
  }

  /** Inserts `x` into a sorted sequence before the first element it may precede. */
  function Insert(x: Expense, s: seq<Expense>, column: SortKey, dir: Direction): (r: seq<Expense>)
    requires SortedBy(s, column, dir)
    ensures SortedBy(r, column, dir)
    ensures forall y :: y in r ==> y == x || y in s
    ensures multiset(r) == multiset(s) + multiset{x}
  {
    if s == [] then [x]
    else if InOrder(x, s[0], column, dir) then
      HeadFirst(x, s, column, dir);
      [x] + s
    else
      assert s == [s[0]] + s[1..];
      var rest := Insert(x, s[1..], column, dir);
      assert forall y :: y in s[1..] ==> InOrder(s[0], y, column, dir) by {
        forall y | y in s[1..] ensures InOrder(s[0], y, column, dir) {
          var k :| 0 <= k < |s[1..]| && s[1..][k] == y;
          assert s[k + 1] == y;
        }
      }
      HeadFirst(s[0], rest, column, dir);
      [s[0]] + rest
  }

  /** `ORDER BY key dir`: a sorted permutation of the input (ties in input order). */
  function Sort(s: seq<Expense>, column: SortKey, dir: Direction): (r: seq<Expense>)
    ensures SortedBy(r, column, dir)
    ensures multiset(r) == multiset(s)
  {
    if s == [] then []
    else
      assert s == [s[0]] + s[1..];
      Insert(s[0], Sort(s[1..], column, dir), column, dir)
  }

  /** Sequences with the same multiset have the same elements. */
  lemma SameElements(a: seq<Expense>, b: seq<Expense>)
    requires multiset(a) == multiset(b)
    ensures forall e :: e in a <==> e in b
  {
    forall e ensures e in a <==> e in b {
      assert e in a <==> e in multiset(a);
      assert e in b <==> e in multiset(b);
    }
  }

  /**
   * `SELECT … FROM expenses LEFT JOIN categories … WHERE p ORDER BY key dir`:
   * exactly the matching expenses, each once per row, each with its category,
   * in sort order.
   */
  function SelectJoined(es: seq<Expense>, cats: seq<Category>, p: Expense -> bool, column: SortKey, dir: Direction)
    : (r: seq<ExpenseRow>)
    ensures ExpensesOf(r) == Sort(Filter(es, p), column, dir)
    ensures forall i :: 0 <= i < |r| ==> r[i] == JoinRow(r[i].expense, cats)
    ensures multiset(ExpensesOf(r)) == multiset(Filter(es, p))
    ensures forall e :: e in ExpensesOf(r) <==> e in es && p(e)
    ensures SortedBy(ExpensesOf(r), column, dir)
  {
    var sorted := Sort(Filter(es, p), column, dir);
    var r := JoinAll(sorted, cats);
    assert ExpensesOf(r) == sorted;
    SameElements(sorted, Filter(es, p));
    r
  }

  function BelongsTo(userId: Id): Expense -> bool
  {
    (e: Expense) => e.userId == userId
  }

  /** `getExpensesByUserId`: all of the user's expenses, newest first. */
  function ExpensesByUserId(es: seq<Expense>, cats: seq<Category>, userId: Id): (r: seq<ExpenseRow>)
    ensures forall e :: e in ExpensesOf(r) <==> e in es && e.userId == userId
    ensures multiset(ExpensesOf(r)) == multiset(Filter(es, BelongsTo(userId)))
    ensures forall i :: 0 <= i < |r| ==> r[i] == JoinRow(r[i].expense, cats)
    ensures SortedBy(ExpensesOf(r), ByDate, Desc)
  {
    SelectJoined(es, cats, BelongsTo(userId), ByDate, Desc)
  }

  /**
   * `getExpenseById`: scoped by both id and owner, so another user's expense
   * gives the same answer as a missing one.
   */
  function ExpenseById(es: seq<Expense>, cats: seq<Category>, id: Id, userId: Id): (r: Option<ExpenseRow>)
    ensures r.Some? <==> exists e :: e in es && e.id == id && e.userId == userId
    ensures r.Some? ==>
      && r.value.expense in es && r.value.expense.id == id && r.value.expense.userId == userId
      && r.value == JoinRow(r.value.expense, cats)
  {
    match FirstWhere(es, (e: Expense) => e.id == id && e.userId == userId)
    case Some(e) => Some(JoinRow(e, cats))
    case None => None
  }

  /** Another user's expense is not found, exactly as if it did not exist. */
  lemma ForeignExpenseInvisible(es: seq<Expense>, cats: seq<Category>, e: Expense, userId: Id)
    requires UniqueBy(es, ExpenseId)
    requires e in es && e.userId != userId
    ensures ExpenseById(es, cats, e.id, userId) == None
  {
    var r := ExpenseById(es, cats, e.id, userId);
    if r.Some? {
      SameKeySameRow(es, ExpenseId, r.value.expense, e);
    }
  }

  function InDateRange(userId: Id, startDate: Timestamp, endDate: Timestamp): Expense -> bool
  {
    (e: Expense) => e.userId == userId && startDate <= e.date && e.date <= endDate
  }

  /** `getExpensesByDateRange`: the user's expenses dated within both bounds, inclusive, newest first. */
  function ExpensesByDateRange(es: seq<Expense>, cats: seq<Category>, userId: Id, startDate: Timestamp, endDate: Timestamp)
    : (r: seq<ExpenseRow>)
    ensures forall e :: e in ExpensesOf(r) <==>
      e in es && e.userId == userId && startDate <= e.date <= endDate
    ensures multiset(ExpensesOf(r)) == multiset(Filter(es, InDateRange(userId, startDate, endDate)))
    ensures forall i :: 0 <= i < |r| ==> r[i] == JoinRow(r[i].expense, cats)
    ensures SortedBy(ExpensesOf(r), ByDate, Desc)
  {
    SelectJoined(es, cats, InDateRange(userId, startDate, endDate), ByDate, Desc)
  }

  function InCategory(userId: Id, categoryId: Id): Expense -> bool
  {
    (e: Expense) => e.userId == userId && e.categoryId == Some(categoryId)
  }

  /** `getExpensesByCategoryId`: the user's expenses in that category, newest first. */
  function ExpensesByCategoryId(es: seq<Expense>, cats: seq<Category>, userId: Id, categoryId: Id)
    : (r: seq<ExpenseRow>)
    ensures forall e :: e in ExpensesOf(r) <==>
      e in es && e.userId == userId && e.categoryId == Some(categoryId)
    ensures multiset(ExpensesOf(r)) == multiset(Filter(es, InCategory(userId, categoryId)))
    ensures forall i :: 0 <= i < |r| ==> r[i] == JoinRow(r[i].expense, cats)
    ensures SortedBy(ExpensesOf(r), ByDate, Desc)
  {
    SelectJoined(es, cats, InCategory(userId, categoryId), ByDate, Desc)
  }

  /**
   * The options of `getExpensesPaginated`. `sortBy` and `sortOrder` are any
   * strings at run time: only "amount" and "asc" select the non-default branch.
   */
  datatype PageOptions = PageOptions(
    limit: Option<int>,
    offset: Option<int>,
    categoryId: Option<Id>,
    startDate: Option<Timestamp>,
    endDate: Option<Timestamp>,
    sortBy: Option<string>,
    sortOrder: Option<string>)

  function LimitOf(o: PageOptions): int { if o.limit.Some? then o.limit.value else 10 }
  function OffsetOf(o: PageOptions): int { if o.offset.Some? then o.offset.value else 0 }
  function SortKeyOf(o: PageOptions): SortKey { if o.sortBy == Some("amount") then ByAmount else ByDate }
  function DirectionOf(o: PageOptions): Direction { if o.sortOrder == Some("asc") then Asc else Desc }

  /**
   * What the paginated query selects: the user's expenses, restricted by each
   * filter that is present. An empty category id is falsy and skipped; a date
   * filter is a Date object, always truthy, so only an absent one is skipped.
   */
  function MatchesOptions(userId: Id, o: PageOptions): Expense -> bool
  {
    (e: Expense) =>
      && e.userId == userId
      && (Truthy(o.categoryId) ==> e.categoryId == o.categoryId)
      && (o.startDate.Some? ==> o.startDate.value <= e.date)
      && (o.endDate.Some? ==> e.date <= o.endDate.value)
  }

  /** One entry of the `conditions` array of `getExpensesPaginated`. */
  datatype Condition =
    | UserIs(userId: Id)
    | CategoryIs(categoryId: Id)
    | NotBefore(startDate: Timestamp)
    | NotAfter(endDate: Timestamp)

  predicate Holds(c: Condition, e: Expense)
  {
    match c
    case UserIs(u) => e.userId == u
    case CategoryIs(k) => e.categoryId == Some(k)
    case NotBefore(t) => t <= e.date
    case NotAfter(t) => e.date <= t
  }

  /** `and(...conditions)`. */
  function AllHold(cs: seq<Condition>): Expense -> bool
  {
    (e: Expense) => forall c :: c in cs ==> Holds(c, e)
  }

  /** Pushing a condition conjoins it to the WHERE clause. */
  lemma PushConjoins(cs: seq<Condition>, c: Condition)
    ensures forall e :: AllHold(cs + [c])(e) == (AllHold(cs)(e) && Holds(c, e))
  {
    forall e ensures AllHold(cs + [c])(e) == (AllHold(cs)(e) && Holds(c, e)) {
      assert forall d :: d in cs + [c] <==> d in cs || d == c;
    }
  }

  /** Builds the WHERE clause by successive pushes; its conjunction is exactly the selection. */
  method BuildConditions(userId: Id, o: PageOptions) returns (cs: seq<Condition>)
    ensures |cs| >= 1 && cs[0] == UserIs(userId)
    ensures forall e :: AllHold(cs)(e) == MatchesOptions(userId, o)(e)
  {
    cs := [UserIs(userId)];
    forall e ensures AllHold(cs)(e) == (e.userId == userId) {
      assert UserIs(userId) in cs;
    }
    if Truthy(o.categoryId) {
      PushConjoins(cs, CategoryIs(o.categoryId.value));
      cs := cs + [CategoryIs(o.categoryId.value)];
    }
    assert forall e :: (AllHold(cs)(e) ==
      (e.userId == userId && (Truthy(o.categoryId) ==> e.categoryId == o.categoryId)));
    if o.startDate.Some? {
      PushConjoins(cs, NotBefore(o.startDate.value));
      cs := cs + [NotBefore(o.startDate.value)];
    }
    assert forall e :: (AllHold(cs)(e) ==
      (&& e.userId == userId && (Truthy(o.categoryId) ==> e.categoryId == o.categoryId)
       && (o.startDate.Some? ==> o.startDate.value <= e.date)));
    if o.endDate.Some? {
      PushConjoins(cs, NotAfter(o.endDate.value));
      cs := cs + [NotAfter(o.endDate.value)];
    }
  }

  /** The whole ordered selection that the paginated query takes a window of. */
  function PaginatedSelection(es: seq<Expense>, userId: Id, o: PageOptions): seq<Expense>
  {
    Sort(Filter(es, MatchesOptions(userId, o)), SortKeyOf(o), DirectionOf(o))
  }

  /**
   * `getExpensesPaginated`: filter, then sort on the chosen key and direction,
   * then keep the rows `[offset, offset + limit)`.
   */
  method ExpensesPaginated(es: seq<Expense>, cats: seq<Category>, userId: Id, o: PageOptions)
    returns (rows: seq<ExpenseRow>)
    ensures LimitOf(o) >= 0 ==> |rows| <= LimitOf(o)
    ensures ExpensesOf(rows) == SqlWindow(PaginatedSelection(es, userId, o), OffsetOf(o), LimitOf(o))
    ensures forall i :: 0 <= i < |rows| ==>
      && rows[i].expense in es
      && MatchesOptions(userId, o)(rows[i].expense)
      && rows[i] == JoinRow(rows[i].expense, cats)
    ensures SortedBy(ExpensesOf(rows), SortKeyOf(o), DirectionOf(o))
  {
    var limit := if o.limit.Some? then o.limit.value else 10;
    var offset := if o.offset.Some? then o.offset.value else 0;
    var conditions := BuildConditions(userId, o);
    var column := if o.sortBy == Some("amount") then ByAmount else ByDate;
    var dir := if o.sortOrder == Some("asc") then Asc else Desc;
    var all := SelectJoined(es, cats, AllHold(conditions), column, dir);
    rows := SqlWindow(all, offset, limit);
    FilterCongruent(es, AllHold(conditions), MatchesOptions(userId, o));
    SqlWindowOfRows(all, offset, limit, cats, es, MatchesOptions(userId, o), column, dir);
  }

  /** What a `LIMIT`/`OFFSET` window of a joined, filtered and sorted result keeps of it. */
  lemma SqlWindowOfRows(all: seq<ExpenseRow>, offset: int, limit: int, cats: seq<Category>,
                        es: seq<Expense>, p: Expense -> bool, column: SortKey, dir: Direction)
    requires forall i :: 0 <= i < |all| ==> all[i] == JoinRow(all[i].expense, cats)
    requires forall e :: e in ExpensesOf(all) ==> e in es && p(e)
    requires SortedBy(ExpensesOf(all), column, dir)
    ensures limit >= 0 ==> |SqlWindow(all, offset, limit)| <= limit
    ensures ExpensesOf(SqlWindow(all, offset, limit)) == SqlWindow(ExpensesOf(all), offset, limit)
    ensures forall i :: 0 <= i < |SqlWindow(all, offset, limit)| ==>
      var row := SqlWindow(all, offset, limit)[i];
      row.expense in es && p(row.expense) && row == JoinRow(row.expense, cats)
    ensures SortedBy(ExpensesOf(SqlWindow(all, offset, limit)), column, dir)
  {
    var lo: nat := if offset < 0 then 0 else offset;
    WindowOfRows(all, lo, if limit < 0 then |all| else limit, cats, es, p, column, dir);
  }

  /** What a window of a joined, filtered and sorted result keeps of it. */
  lemma WindowOfRows(all: seq<ExpenseRow>, offset: nat, limit: nat, cats: seq<Category>,
                     es: seq<Expense>, p: Expense -> bool, column: SortKey, dir: Direction)
    requires forall i :: 0 <= i < |all| ==> all[i] == JoinRow(all[i].expense, cats)
    requires forall e :: e in ExpensesOf(all) ==> e in es && p(e)
    requires SortedBy(ExpensesOf(all), column, dir)
    ensures ExpensesOf(Window(all, offset, limit)) == Window(ExpensesOf(all), offset, limit)
    ensures forall i :: 0 <= i < |Window(all, offset, limit)| ==>
      var row := Window(all, offset, limit)[i];
      row.expense in es && p(row.expense) && row == JoinRow(row.expense, cats)
    ensures SortedBy(ExpensesOf(Window(all, offset, limit)), column, dir)
  {
    var w := Window(all, offset, limit);
    var ew := ExpensesOf(w);
    var ea := ExpensesOf(all);
    assert |ew| == |Window(ea, offset, limit)|;
    forall i | 0 <= i < |w|
      ensures ew[i] == Window(ea, offset, limit)[i]
      ensures w[i].expense in es && p(w[i].expense) && w[i] == JoinRow(w[i].expense, cats)
    {
      assert w[i] == all[offset + i];
      assert ea[offset + i] == all[offset + i].expense;
    }
    forall i, j | 0 <= i < j < |ew| ensures InOrder(ew[i], ew[j], column, dir) {
      assert ew[i] == ea[offset + i] && ew[j] == ea[offset + j];
    }
  }
}
