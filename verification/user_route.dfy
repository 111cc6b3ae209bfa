/** `/api/user`: read and edit the signed-in user's profile. */
module UserRoute {
  import opened Wrappers
  import opened Schema
  import opened UserQueries
  import opened Validations
  import opened Http
  import opened ApiHelpers
  import opened Store

  /** The user without the password hash: what the client is sent. */
  function WithoutPassword(u: User): (p: PublicUser)
    ensures p.id == u.id && p.email == u.email && p.name == u.name
    ensures p.createdAt == u.createdAt && p.updatedAt == u.updatedAt
  {
    PublicUser(u.id, u.email, u.name, u.createdAt, u.updatedAt)
  }

  /** What the client is sent about a user does not depend on the password hash. */
  lemma PasswordNeverSent(u: User, v: User)
    requires u.(password := v.password) == v
    ensures WithoutPassword(u) == WithoutPassword(v)
  {
  }

  /** The body PATCH accepts; any other field is stripped by the schema. */
  datatype ProfileInput = ProfileInput(name: Option<string>, email: Option<string>)

  /**
   * `updateProfileSchema`: an optional name of at least one character and an
   * optional email address; `isEmail` is zod's address check.
   */
  function ProfileIssues(input: ProfileInput, isEmail: string -> bool): (r: seq<Issue>)
    ensures r == [] <==>
      (input.name.Some? ==> Utf16Length(input.name.value) >= 1) && (input.email.Some? ==> isEmail(input.email.value))
    ensures forall i :: 0 <= i < |r| ==> r[i].path == ["name"] || r[i].path == ["email"]
  {
    (if input.name.Some? && Utf16Length(input.name.value) < 1 then [Issue(["name"], "Name is required")] else [])
    + (if input.email.Some? && !isEmail(input.email.value) then [Issue(["email"], "Invalid email address")] else [])
  }

  const UserNotFound := Response(404, ErrorBody("User not found"))

  /** The handler of GET: the acting user's row without its password, or 404. */
  method GetHandler(db: Database, req: Request) returns (resp: Response)
    requires Admitted(req)
    ensures ActingUserId(req) !in UserIds(db.users) ==> resp == UserNotFound
    ensures ActingUserId(req) in UserIds(db.users) ==>
      exists u :: u in db.users && u.id == ActingUserId(req) && resp == Response(200, UserBody(WithoutPassword(u)))
  {
    var user := UserById(db.users, ActingUserId(req));
    if user.None? {
      return UserNotFound;
    }
    resp := Response(200, UserBody(WithoutPassword(user.value)));
  }

  /** GET, behind the authentication gate. */
  method Get(db: Database, req: Request, session: Option<SessionUser>) returns (resp: Response)
    modifies req
    ensures !SignedIn(session) ==> resp == Unauthorized
    ensures SignedIn(session) && session.value.id.value !in UserIds(db.users) ==> resp == UserNotFound
    ensures SignedIn(session) && session.value.id.value in UserIds(db.users) ==>
      exists u :: u in db.users && u.id == session.value.id.value && resp == Response(200, UserBody(WithoutPassword(u)))
  {
    var denied := WithAuth(req, session);
    if denied.Some? {
      return denied.value;
    }
    resp := GetHandler(db, req);
  }

  const ProfileNotUpdated := Response(500, ErrorBody("Failed to update profile"))

  /** The users table after the acting user's row is patched, every other row as it was. */
  ghost predicate PatchedOnly(before: seq<User>, after: seq<User>, userId: Id, p: UserPatch, now: Timestamp)
  {
    && |after| == |before|
    && forall i :: 0 <= i < |after| ==>
         after[i] == if before[i].id == userId then PatchUser(before[i], p, now) else before[i]
  }

  /**
   * What PATCH does to the users table and what it answers: an invalid body
   * or a taken email changes nothing; a missing user is a 500; otherwise the
   * name and email present in the body are written and the updated row is
   * sent back without its password.
   */
  ghost predicate PatchOutcome(before: seq<User>, after: seq<User>, resp: Response, userId: Id,
                               body: ProfileInput, isEmail: string -> bool, now: Timestamp)
  {
    var p := UserPatch(body.email, body.name, None);
    if ProfileIssues(body, isEmail) != [] then
      after == before && resp == HandleApiError(ValidationFailure(ProfileIssues(body, isEmail)))
    else if userId !in UserIds(before) then
      after == before && resp == ProfileNotUpdated
    else if body.email.Some? && exists v :: v in before && v.id != userId && v.email == body.email.value then
      after == before && resp == Response(500, ErrorBody(DbMessage(UniqueViolation("users.email"))))
    else
      && PatchedOnly(before, after, userId, p, now)
      && exists u :: u in before && u.id == userId && resp == Response(200, UserBody(WithoutPassword(PatchUser(u, p, now))))
  }

  /** The handler of PATCH. */
  method PatchHandler(db: Database, req: Request, body: ProfileInput, isEmail: string -> bool, now: Timestamp)
    returns (resp: Response)
    requires Admitted(req) && db.Valid()
    modifies db
    ensures db.Valid()
    ensures db.categories == old(db.categories) && db.expenses == old(db.expenses)
    ensures PatchOutcome(old(db.users), db.users, resp, ActingUserId(req), body, isEmail, now)
    ensures forall i :: 0 <= i < |db.users| ==> db.users[i].password == old(db.users)[i].password
  {
    var userId := ActingUserId(req);
    var validated := ValidateRequest((b: ProfileInput) => ProfileIssues(b, isEmail), body);
    if validated.Failure? {
      return HandleApiError(validated.error);
    }
    var data := validated.value;
    var updated := db.UpdateUser(userId, UserPatch(data.email, data.name, None), now);
    match updated
    case Failure(e) => resp := HandleApiError(Error(DbMessage(e)));
    case Success(None) => resp := ProfileNotUpdated;
    case Success(Some(u)) => resp := Response(200, UserBody(WithoutPassword(u)));
  }

  /** PATCH, behind the authentication gate. */
  method Patch(db: Database, req: Request, session: Option<SessionUser>, body: ProfileInput,
               isEmail: string -> bool, now: Timestamp)
    returns (resp: Response)
    requires db.Valid()
    modifies req, db
    ensures db.Valid()
    ensures db.categories == old(db.categories) && db.expenses == old(db.expenses)
    ensures !SignedIn(session) ==> resp == Unauthorized && db.users == old(db.users)
    ensures SignedIn(session) ==>
      PatchOutcome(old(db.users), db.users, resp, session.value.id.value, body, isEmail, now)
  {
    var denied := WithAuth(req, session);
    if denied.Some? {
      return denied.value;
    }
    resp := PatchHandler(db, req, body, isEmail, now);
  }
}
