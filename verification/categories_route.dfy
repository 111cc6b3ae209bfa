/** `/api/categories`: list the categories a user can see, and create one of their own. */
module CategoriesRoute {
  import opened Wrappers
  import opened Schema
  import opened CategoryQueries
  import opened Validations
  import opened Http
  import opened ApiHelpers
  import opened Store

  /** The handler of GET: every category the acting user can see. */
  method GetHandler(db: Database, req: Request) returns (resp: Response)
    requires Admitted(req)
    ensures resp.status == 200 && resp.body.CategoriesBody?
    ensures forall c :: c in resp.body.categories <==>
      c in db.categories && (c.userId == Some(ActingUserId(req)) || IsDefault(c))
    ensures resp.body.categories == AllCategoriesForUser(db.categories, ActingUserId(req))
  {
    var userId := ActingUserId(req);
    var categories := AllCategoriesForUser(db.categories, userId);
    resp := Response(200, CategoriesBody(categories));
  }

  /** GET, behind the authentication gate. */
  method Get(db: Database, req: Request, session: Option<SessionUser>) returns (resp: Response)
    modifies req
    ensures !SignedIn(session) ==> resp == Unauthorized
    ensures SignedIn(session) ==>
      resp == Response(200, CategoriesBody(AllCategoriesForUser(db.categories, session.value.id.value)))
  {
    var denied := WithAuth(req, session);
    if denied.Some? {
      return denied.value;
    }
    resp := GetHandler(db, req);
  }

  /**
   * What POST does to the categories table and what it answers: an invalid
   * body is a 400 and inserts nothing; a store failure is a 500 with the
   * store's message; otherwise one category owned by the acting user is
   * inserted and returned with 201.
   */
  ghost predicate PostOutcome(before: seq<Category>, after: seq<Category>, resp: Response,
                              userId: Id, body: CategoryInput, newId: Id, now: Timestamp)
  {
    if !ValidCreateCategory(body) then
      after == before && resp == HandleApiError(ValidationFailure(CreateCategoryIssues(body)))
    else if newId in CategoryIds(before) then
      after == before && resp == Response(500, ErrorBody(DbMessage(UniqueViolation("categories.id"))))
    else
      var c := Category(newId, body.name.value, body.color, body.icon, Some(userId), now);
      after == before + [c] && resp == Response(201, CategoryBody(c))
  }

  /** The handler of POST: validate, then insert with the acting user as owner. */
  method PostHandler(db: Database, req: Request, body: CategoryInput, newId: Id, now: Timestamp)
    returns (resp: Response)
    requires Admitted(req) && db.Valid()
    modifies db
    ensures db.Valid()
    ensures db.users == old(db.users) && db.expenses == old(db.expenses)
    ensures PostOutcome(old(db.categories), db.categories, resp, ActingUserId(req), body, newId, now)
    ensures resp.status == 400 <==> !ValidCreateCategory(body)
    ensures resp.status != 201 ==> db.categories == old(db.categories)
    ensures forall c :: c in db.categories ==> c in old(db.categories) || c.userId == Some(ActingUserId(req))
  {
    var userId := ActingUserId(req);
    var validated := ValidateRequest(CreateCategoryIssues, body);
    if validated.Failure? {
      return HandleApiError(validated.error);
    }
    var data := validated.value;
    var created := db.CreateCategory(newId, NewCategory(data.name.value, data.color, data.icon, Some(userId)), now);
    match created
    case Failure(e) => resp := HandleApiError(Error(DbMessage(e)));
    case Success(c) => resp := Response(201, CategoryBody(c));
  }

  /** POST, behind the authentication gate. */
  method Post(db: Database, req: Request, session: Option<SessionUser>, body: CategoryInput, newId: Id, now: Timestamp)
    returns (resp: Response)
    requires db.Valid()
    modifies req, db
    ensures db.Valid()
    ensures !SignedIn(session) ==> resp == Unauthorized && db.categories == old(db.categories)
    ensures db.users == old(db.users) && db.expenses == old(db.expenses)
    ensures SignedIn(session) ==>
      PostOutcome(old(db.categories), db.categories, resp, session.value.id.value, body, newId, now)
  {
    var denied := WithAuth(req, session);
    if denied.Some? {
      return denied.value;
    }
    resp := PostHandler(db, req, body, newId, now);
  }
}
