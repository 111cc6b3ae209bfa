/** `/api/expenses`: one page of the user's expenses, and creating an expense. */
module ExpensesRoute {
  import opened Wrappers
  import opened Seqs
  import opened Schema
  import opened CategoryQueries
  import opened ExpenseQueries
  import opened Validations
  import opened Http
  import opened ApiHelpers
  import opened Store

  /**
   * The query string of GET. A parameter that is absent or empty is `None`;
   * `page` and `limit` are the integers read from their text, and the two
   * dates the instants read from theirs.
   */
  datatype ExpenseQuery = ExpenseQuery(
    page: Option<int>,
    limit: Option<int>,
    categoryId: Option<string>,
    startDate: Option<Timestamp>,
    endDate: Option<Timestamp>,
    sortBy: Option<string>,
    sortOrder: Option<string>)

  /** `x || fallback` on a query parameter: an empty text is falsy. */
  function OrDefault(x: Option<string>, fallback: string): (r: string)
    ensures Truthy(x) ==> r == x.value
    ensures !Truthy(x) ==> r == fallback
  {
    if x.Some? && x.value != "" then x.value else fallback
  }

  function PageOf(q: ExpenseQuery): int { if q.page.Some? then q.page.value else 1 }
  function PageLimitOf(q: ExpenseQuery): int { if q.limit.Some? then q.limit.value else 10 }

  /** The options GET passes to the paginated query. */
  function OptionsOf(q: ExpenseQuery): (o: PageOptions)
    ensures LimitOf(o) == PageLimitOf(q)
    ensures OffsetOf(o) == (PageOf(q) - 1) * PageLimitOf(q)
    ensures Truthy(o.categoryId) <==> Truthy(q.categoryId)
    ensures Truthy(q.categoryId) ==> o.categoryId == q.categoryId
    ensures o.startDate == q.startDate && o.endDate == q.endDate
    ensures SortKeyOf(o) == (if q.sortBy == Some("amount") then ByAmount else ByDate)
    ensures DirectionOf(o) == (if q.sortOrder == Some("asc") then Asc else Desc)
  {
    var page := PageOf(q);
    var limit := PageLimitOf(q);
    PageOptions(
      Some(limit),
      Some((page - 1) * limit),
      if Truthy(q.categoryId) then q.categoryId else None,
      q.startDate,
      q.endDate,
      Some(OrDefault(q.sortBy, "date")),
      Some(OrDefault(q.sortOrder, "desc")))
  }

  /**
   * The handler of GET: the page of the acting user's matching expenses, in
   * the requested order, and `hasMore` exactly when the page is full.
   */
  method GetHandler(db: Database, req: Request, q: ExpenseQuery) returns (resp: Response)
    requires Admitted(req)
    ensures resp.status == 200 && resp.body.ExpensesBody?
    ensures resp.body.pagination.page == PageOf(q) && resp.body.pagination.limit == PageLimitOf(q)
    ensures resp.body.pagination.hasMore <==> |resp.body.expenses| == PageLimitOf(q)
    ensures ExpensesOf(resp.body.expenses) ==
      SqlWindow(PaginatedSelection(db.expenses, ActingUserId(req), OptionsOf(q)),
                (PageOf(q) - 1) * PageLimitOf(q), PageLimitOf(q))
    ensures forall i :: 0 <= i < |resp.body.expenses| ==>
      && resp.body.expenses[i].expense in db.expenses
      && resp.body.expenses[i].expense.userId == ActingUserId(req)
      && resp.body.expenses[i] == JoinRow(resp.body.expenses[i].expense, db.categories)
  {
    var userId := ActingUserId(req);
    var page := PageOf(q);
    var limit := PageLimitOf(q);
    var o := OptionsOf(q);
    var rows := ExpensesPaginated(db.expenses, db.categories, userId, o);
    forall i | 0 <= i < |rows| ensures rows[i].expense.userId == userId {
      assert MatchesOptions(userId, o)(rows[i].expense);
    }
    resp := Response(200, ExpensesBody(rows, Pagination(page, limit, |rows| == limit)));
  }

  /** GET, behind the authentication gate. */
  method Get(db: Database, req: Request, session: Option<SessionUser>, q: ExpenseQuery) returns (resp: Response)
    modifies req
    ensures !SignedIn(session) ==> resp == Unauthorized
    ensures SignedIn(session) ==>
      && resp.status == 200 && resp.body.ExpensesBody?
      && ExpensesOf(resp.body.expenses) ==
         SqlWindow(PaginatedSelection(db.expenses, session.value.id.value, OptionsOf(q)),
                   (PageOf(q) - 1) * PageLimitOf(q), PageLimitOf(q))
      && (resp.body.pagination.hasMore <==> |resp.body.expenses| == PageLimitOf(q))
      && resp.body.pagination.page == PageOf(q)
      && resp.body.pagination.limit == PageLimitOf(q)
      && forall i :: 0 <= i < |resp.body.expenses| ==>
           && resp.body.expenses[i].expense in db.expenses
           && resp.body.expenses[i].expense.userId == session.value.id.value
           && resp.body.expenses[i] == JoinRow(resp.body.expenses[i].expense, db.categories)
  {
    var denied := WithAuth(req, session);
    if denied.Some? {
      return denied.value;
    }
    resp := GetHandler(db, req, q);
  }

  /** The offsets of consecutive pages are `limit` apart, starting at 0. */
  lemma PageOffsets(page: int, limit: int)
    requires page >= 1 && limit >= 1
    ensures (page - 1) * limit >= 0
    ensures page * limit == (page - 1) * limit + limit
  {
  }

  /** Every row of the selection sits on exactly one page, at a known place. */
  lemma {:induction false} PagesCoverSelection<T>(s: seq<T>, limit: nat, i: nat)
    requires limit >= 1 && i < |s|
    ensures var page := i / limit + 1;
      var w := SqlWindow(s, (page - 1) * limit, limit);
      i % limit < |w| && w[i % limit] == s[i]
  {
    var q := i / limit;
    var offset := (q + 1 - 1) * limit;
    assert offset == q * limit;
    PageOffsets(q + 1, limit);
    assert offset + i % limit == i;
    var w := Window(s, offset, limit);
    assert SqlWindow(s, offset, limit) == w;
    assert offset < |s|;
  }

  /** A page shorter than the limit (`hasMore` false) is the last one: the next page is empty. */
  lemma {:induction false} ShortPageIsLast<T>(s: seq<T>, page: int, limit: int)
    requires page >= 1 && limit >= 1
    requires |SqlWindow(s, (page - 1) * limit, limit)| < limit
    ensures SqlWindow(s, page * limit, limit) == []
  {
    var offset := (page - 1) * limit;
    PageOffsets(page, limit);
    var next := page * limit;
    assert next == offset + limit;
    assert SqlWindow(s, offset, limit) == Window(s, offset, limit);
    assert next >= |s|;
    assert SqlWindow(s, next, limit) == Window(s, next, limit);
  }

  /**
   * `hasMore` is a guess: when the selection ends exactly at the end of a full
   * page, that page reports more rows, yet the next page is empty.
   */
  lemma {:induction false} FullLastPageClaimsMore<T>(s: seq<T>, page: int, limit: int)
    requires page >= 1 && limit >= 1 && |s| == page * limit
    ensures |SqlWindow(s, (page - 1) * limit, limit)| == limit
    ensures SqlWindow(s, page * limit, limit) == []
  {
    var offset := (page - 1) * limit;
    PageOffsets(page, limit);
    assert offset + limit == |s|;
    assert SqlWindow(s, offset, limit) == Window(s, offset, limit);
    assert SqlWindow(s, page * limit, limit) == Window(s, page * limit, limit);
  }

  /** `validatedData.categoryId || undefined`: absent, null and empty all mean no category. */
  function CategoryChoice(body: ExpenseInput): (r: Option<Id>)
    ensures r.Some? <==> body.categoryId.Some? && body.categoryId.value.Some? && body.categoryId.value.value != ""
    ensures r.Some? ==> body.categoryId == Some(r)
  {
    match body.categoryId
    case Some(Some(k)) => if k != "" then Some(k) else None
    case _ => None
  }

  const CategoryDenied := Response(400, ErrorBody("Category not found or access denied"))

  /**
   * What POST does to the expenses table and what it answers, in the order
   * the handler checks: the body, the named category's visibility to the
   * user, then the store's own constraints.
   */
  ghost predicate PostOutcome(before: seq<Expense>, after: seq<Expense>, users: seq<User>, cats: seq<Category>,
                              resp: Response, userId: Id, body: ExpenseInput, newId: Id, now: Timestamp)
  {
    if !ValidCreateExpense(body) then
      after == before && resp == HandleApiError(ValidationFailure(CreateExpenseIssues(body)))
    else if CategoryChoice(body).Some? && CategoryById(cats, CategoryChoice(body).value, Some(userId)).None? then
      after == before && resp == CategoryDenied
    else if newId in ExpenseIds(before) then
      after == before && resp == Response(500, ErrorBody(DbMessage(UniqueViolation("expenses.id"))))
    else if userId !in UserIds(users) then
      after == before && resp == Response(500, ErrorBody(DbMessage(ForeignKeyViolation)))
    else
      var e := Expense(newId, userId, CategoryChoice(body), body.amount.value, body.description.value,
                       body.date.value, now, now);
      after == before + [e] && resp == Response(201, ExpenseBody(e))
  }

  /** The handler of POST. */
  method PostHandler(db: Database, req: Request, body: ExpenseInput, newId: Id, now: Timestamp)
    returns (resp: Response)
    requires Admitted(req) && db.Valid()
    modifies db
    ensures db.Valid()
    ensures db.users == old(db.users) && db.categories == old(db.categories)
    ensures PostOutcome(old(db.expenses), db.expenses, db.users, db.categories, resp,
                        ActingUserId(req), body, newId, now)
    ensures resp.status != 201 ==> db.expenses == old(db.expenses)
    ensures resp.status == 201 ==>
      && resp.body.ExpenseBody?
      && db.expenses == old(db.expenses) + [resp.body.expense]
      && resp.body.expense.userId == ActingUserId(req)
      && (resp.body.expense.categoryId.Some? ==>
            exists c :: c in db.categories && c.id == resp.body.expense.categoryId.value &&
                        (c.userId == Some(ActingUserId(req)) || IsDefault(c)))
  {
    var userId := ActingUserId(req);
    var validated := ValidateRequest(CreateExpenseIssues, body);
    if validated.Failure? {
      return HandleApiError(validated.error);
    }
    var data := validated.value;
    var choice := CategoryChoice(data);
    if choice.Some? {
      var category := CategoryById(db.categories, choice.value, Some(userId));
      if category.None? {
        return CategoryDenied;
      }
    }
    if choice.Some? {
      var c := CategoryById(db.categories, choice.value, Some(userId)).value;
      assert c in db.categories && c.id == choice.value;
    }
    var created := db.CreateExpense(newId,
      NewExpense(userId, choice, data.amount.value, data.description.value, data.date.value), now);
    match created
    case Failure(e) => resp := HandleApiError(Error(DbMessage(e)));
    case Success(e) =>
      resp := Response(201, ExpenseBody(e));
  }

  /** POST, behind the authentication gate. */
  method Post(db: Database, req: Request, session: Option<SessionUser>, body: ExpenseInput, newId: Id, now: Timestamp)
    returns (resp: Response)
    requires db.Valid()
    modifies req, db
    ensures db.Valid()
    ensures db.users == old(db.users) && db.categories == old(db.categories)
    ensures !SignedIn(session) ==> resp == Unauthorized && db.expenses == old(db.expenses)
    ensures SignedIn(session) ==>
      PostOutcome(old(db.expenses), db.expenses, db.users, db.categories, resp,
                  session.value.id.value, body, newId, now)
  {
    var denied := WithAuth(req, session);
    if denied.Some? {
      return denied.value;
    }
    resp := PostHandler(db, req, body, newId, now);
  }
}
