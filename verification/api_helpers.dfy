/**
 * The glue every API route shares: turning a thrown value into an error
 * response, running a schema, and the authentication gate that attaches the
 * acting user to the request before the route's handler runs.
 */
module ApiHelpers {
  import opened Wrappers
  import opened Schema
  import opened Validations
  import opened Http

  /** What a handler can throw: a `ZodError`, another `Error`, or a value that is not an `Error`. */
  datatype Thrown =
    | ValidationFailure(issues: seq<Issue>)
    | Error(message: string)
    | NonError

  /** `path.join(".")`. */
  function JoinPath(path: seq<string>): (r: string)
    ensures path == [] ==> r == ""
    ensures |path| == 1 ==> r == path[0]
  {
    if path == [] then ""
    else if |path| == 1 then path[0]
    else path[0] + "." + JoinPath(path[1..])
  }

  /** `String.prototype.split(".")`: the partner of `JoinPath`. */
  function SplitPath(s: string): (r: seq<string>)
    ensures |r| >= 1
  {
    if s == [] then [""]
    else if s[0] == '.' then [""] + SplitPath(s[1..])
    else
      var rest := SplitPath(s[1..]);
      [[s[0]] + rest[0]] + rest[1..]
  }

  lemma {:induction false} SplitPlain(a: string)
    requires '.' !in a
    ensures SplitPath(a) == [a]
  {
    if a != [] {
      SplitPlain(a[1..]);
      assert [a[0]] + a[1..] == a;
    }
  }

  lemma {:induction false} SplitAtFirstDot(a: string, t: string)
    requires '.' !in a
    ensures SplitPath(a + "." + t) == [a] + SplitPath(t)
  {
    if a == [] {
      assert a + "." + t == "." + t;
      assert ("." + t)[1..] == t;
    } else {
      assert (a + "." + t)[1..] == a[1..] + "." + t;
      SplitAtFirstDot(a[1..], t);
      assert [a[0]] + a[1..] == a;
    }
  }

  /**
   * A field name in an error detail identifies its issue path: when no path
   * segment contains a dot, splitting the field gives the path back.
   */
  lemma {:induction false} FieldRoundTrip(path: seq<string>)
    requires path != []
    requires forall k :: 0 <= k < |path| ==> '.' !in path[k]
    ensures SplitPath(JoinPath(path)) == path
  {
    if |path| == 1 {
      SplitPlain(path[0]);
    } else {
      FieldRoundTrip(path[1..]);
      SplitAtFirstDot(path[0], JoinPath(path[1..]));
      assert path == [path[0]] + path[1..];
    }
  }

  /** The detail list of a validation error: one entry per issue, in order. */
  function Details(issues: seq<Issue>): (r: seq<FieldError>)
    ensures |r| == |issues|
    ensures forall i :: 0 <= i < |issues| ==>
      r[i].field == JoinPath(issues[i].path) && r[i].message == issues[i].message
  {
    seq(|issues|, i requires 0 <= i < |issues| => FieldError(JoinPath(issues[i].path), issues[i].message))
  }

  /**
   * `handleApiError`: a validation error is a 400 listing every issue; any
   * other `Error` is a 500 with its message; anything else is a 500 with a
   * fixed message.
   */
  function HandleApiError(e: Thrown): (r: Response)
    ensures r.status == 400 <==> e.ValidationFailure?
    ensures r.status == 500 <==> !e.ValidationFailure?
    ensures e.ValidationFailure? ==>
      r.body.ValidationErrorBody? && r.body.error == "Validation error"
      && |r.body.details| == |e.issues|
      && forall i :: 0 <= i < |e.issues| ==>
           r.body.details[i] == FieldError(JoinPath(e.issues[i].path), e.issues[i].message)
    ensures e.Error? ==> r.body == ErrorBody(e.message)
    ensures e.NonError? ==> r.body == ErrorBody("An unexpected error occurred")
  {
    match e
    case ValidationFailure(issues) => Response(400, ValidationErrorBody("Validation error", Details(issues)))
    case Error(message) => Response(500, ErrorBody(message))
    case NonError => Response(500, ErrorBody("An unexpected error occurred"))
  }

  /**
   * `validateRequest(schema, data)`: returns the data when the schema has no
   * issue with it, and otherwise throws every issue.
   */
  function ValidateRequest<T>(schema: T -> seq<Issue>, data: T): (r: Result<T, Thrown>)
    ensures r.Success? <==> schema(data) == []
    ensures r.Success? ==> r.value == data
    ensures r.Failure? ==> r.error == ValidationFailure(schema(data))
  {
    var issues := schema(data);
    if issues == [] then Success(data) else Failure(ValidationFailure(issues))
  }

  /** The user of the session, as the session lookup reports it; its `id` may be missing. */
  datatype SessionUser = SessionUser(id: Option<Id>)

  /** The acting user's id when the session has a user with a truthy id. */
  predicate SignedIn(session: Option<SessionUser>)
  {
    session.Some? && Truthy(session.value.id)
  }

  /** `requireAuth`: the session user, or `Error("Unauthorized")` when there is none or its id is falsy. */
  function RequireAuth(session: Option<SessionUser>): (r: Result<SessionUser, Thrown>)
    ensures r.Success? <==> SignedIn(session)
    ensures r.Success? ==> r.value == session.value && r.value.id.value != ""
    ensures r.Failure? ==> r.error == Error("Unauthorized")
  {
    if session.None? || !Truthy(session.value.id) then Failure(Error("Unauthorized"))
    else Success(session.value)
  }

  const Unauthorized := Response(401, ErrorBody("Unauthorized"))

  /** An incoming request; the authentication gate attaches the acting user to it. */
  class Request {
    var user: Option<SessionUser>

    constructor ()
      ensures user.None?
    {
      user := None;
    }
  }

  /** The request carries a user with a truthy id: the gate let it through. */
  predicate Admitted(req: Request)
    reads req
  {
    SignedIn(req.user)
  }

  /** `getUser(req).id`: the id of the user the gate stored on the request. */
  function ActingUserId(req: Request): (id: Id)
    reads req
    requires Admitted(req)
    ensures id != "" && req.user == Some(SessionUser(Some(id)))
  {
    req.user.value.id.value
  }

  /**
   * The part of `withAuth` that runs before the handler: authenticate, then
   * attach the user to the request. A denied request gets 401 and the handler
   * is not run; an admitted one carries the session user.
   */
  method WithAuth(req: Request, session: Option<SessionUser>) returns (denied: Option<Response>)
    modifies req
    ensures denied.Some? <==> !SignedIn(session)
    ensures denied.Some? ==> denied.value == Unauthorized && req.user == old(req.user)
    ensures denied.None? ==> req.user == session && Admitted(req)
  {
    var auth := RequireAuth(session);
    if auth.Failure? {
      // the thrown error is Error("Unauthorized"), which the catch turns into a 401
      return Some(Unauthorized);
    }
    req.user := Some(auth.value);
    denied := None;
  }
}
