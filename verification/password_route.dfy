/** `/api/user/password`: change the signed-in user's password. */
module PasswordRoute {
  import opened Wrappers
  import opened Seqs
  import opened Schema
  import opened UserQueries
  import opened Validations
  import opened Http
  import opened ApiHelpers
  import opened Store
  import opened UserRoute

  datatype PasswordInput = PasswordInput(currentPassword: Option<string>, newPassword: Option<string>)

  /** `changePasswordSchema`: a non-empty current password and a new one of at least 8 characters. */
  function PasswordIssues(input: PasswordInput): (r: seq<Issue>)
    ensures r == [] <==>
      && input.currentPassword.Some? && Utf16Length(input.currentPassword.value) >= 1
      && input.newPassword.Some? && Utf16Length(input.newPassword.value) >= 8
  {
    (match input.currentPassword
     case None => [Issue(["currentPassword"], Required)]
     case Some(c) => if Utf16Length(c) < 1 then [Issue(["currentPassword"], "Current password is required")] else [])
    + (match input.newPassword
       case None => [Issue(["newPassword"], Required)]
       case Some(n) => if Utf16Length(n) < 8 then [Issue(["newPassword"], "New password must be at least 8 characters")] else [])
  }

  /** Four emoji are eight code units: long enough for a new password. */
  lemma FourEmojiPasswordAccepted()
    ensures var pw := seq(4, _ => '\U{1F600}');
      |pw| == 4 && PasswordIssues(PasswordInput(Some("x"), Some(pw))) == []
  {
    var pw := seq(4, _ => '\U{1F600}');
    Utf16LengthOfAstral(pw);
    assert "x"[..0] == [];
  }

  const WrongPassword := Response(400, ErrorBody("Current password is incorrect"))

  /**
   * What POST does to the users table and what it answers. `verify` is the
   * comparison of a plain password with a stored hash and `hash` the hashing
   * of a new password. Only a correct current password changes anything, and
   * then only the acting user's hash.
   */
  ghost predicate ChangeOutcome(before: seq<User>, after: seq<User>, resp: Response, userId: Id,
                                body: PasswordInput, verify: (string, string) -> bool,
                                hash: string -> string, now: Timestamp)
  {
    if PasswordIssues(body) != [] then
      after == before && resp == HandleApiError(ValidationFailure(PasswordIssues(body)))
    else if userId !in UserIds(before) then
      after == before && resp == UserNotFound
    else if exists u :: u in before && u.id == userId && !verify(body.currentPassword.value, u.password) then
      after == before && resp == WrongPassword
    else
      && PatchedOnly(before, after, userId, UserPatch(None, None, Some(hash(body.newPassword.value))), now)
      && resp == Response(200, SuccessBody)
  }

  /** The handler of POST. */
  method ChangeHandler(db: Database, req: Request, body: PasswordInput,
                       verify: (string, string) -> bool, hash: string -> string, now: Timestamp)
    returns (resp: Response)
    requires Admitted(req) && db.Valid()
    modifies db
    ensures db.Valid()
    ensures db.categories == old(db.categories) && db.expenses == old(db.expenses)
    ensures ChangeOutcome(old(db.users), db.users, resp, ActingUserId(req), body, verify, hash, now)
  {
    var userId := ActingUserId(req);
    var validated := ValidateRequest(PasswordIssues, body);
    if validated.Failure? {
      return HandleApiError(validated.error);
    }
    var data := validated.value;
    var user := UserById(db.users, userId);
    if user.None? {
      return UserNotFound;
    }
    var isPasswordValid := verify(data.currentPassword.value, user.value.password);
    forall u | u in db.users && u.id == userId ensures u == user.value {
      SameKeySameRow(db.users, UserId, u, user.value);
    }
    if !isPasswordValid {
      return WrongPassword;
    }
    var hashedPassword := hash(data.newPassword.value);
    var _ := db.UpdateUser(userId, UserPatch(None, None, Some(hashedPassword)), now);
    resp := Response(200, SuccessBody);
  }

  /** POST, behind the authentication gate. */
  method Change(db: Database, req: Request, session: Option<SessionUser>, body: PasswordInput,
                verify: (string, string) -> bool, hash: string -> string, now: Timestamp)
    returns (resp: Response)
    requires db.Valid()
    modifies req, db
    ensures db.Valid()
    ensures db.categories == old(db.categories) && db.expenses == old(db.expenses)
    ensures !SignedIn(session) ==> resp == Unauthorized && db.users == old(db.users)
    ensures SignedIn(session) ==>
      ChangeOutcome(old(db.users), db.users, resp, session.value.id.value, body, verify, hash, now)
  {
    var denied := WithAuth(req, session);
    if denied.Some? {
      return denied.value;
    }
    resp := ChangeHandler(db, req, body, verify, hash, now);
  }

  /**
   * After a successful change, the acting user's stored hash is the hash of
   * the new password, and every other user's row is untouched.
   */
  lemma ChangeStoresNewHash(before: seq<User>, after: seq<User>, resp: Response, userId: Id,
                            body: PasswordInput, verify: (string, string) -> bool,
                            hash: string -> string, now: Timestamp, i: int)
    requires ChangeOutcome(before, after, resp, userId, body, verify, hash, now)
    requires resp.status == 200 && 0 <= i < |after|
    ensures after[i].id == userId ==> after[i].password == hash(body.newPassword.value) && after[i].updatedAt == now
    ensures after[i].id != userId ==> after[i] == before[i]
  {
    assert PasswordIssues(body) == [];
  }
}
