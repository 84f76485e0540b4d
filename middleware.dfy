/**
 * The API's two access middlewares: authentication from a Bearer token
 * (apps/api/internal/middleware/auth.go) and authorisation through a
 * policy enforcer (apps/api/internal/middleware/authorization.go).  Each is
 * a chain of early returns that ends either by passing the request on
 * (`c.Next()`) or by answering with an error.
 */
module Middleware {
  import opened Wrappers
  import opened Text
  import opened ApiTypes

  /** What a middleware does with a request. */
  datatype Decision = Next | Reject(error: ApiError)

  const NotAuthenticated := Unauthorized("Unauthorized")

  /** RequireAuth's verdict, with the user id it stores in `c.Locals`. */
  datatype AuthVerdict = Authenticated(userId: string) | Denied(error: ApiError)

  /**
   * RequireAuth.  The Authorization header must be exactly two
   * white-space-separated words, the first "Bearer" in any case.  The token
   * is the second, trimmed; `verify` is the JWT check (HMAC signature,
   * expiry), giving the token's subject or None; the subject must be a
   * non-empty UUID (`isUuid` is uuid.Parse's success).  Every refusal is
   * 401 "Unauthorized".
   */
  function RequireAuth(header: string, verify: string -> Option<string>, isUuid: string -> bool): (v: AuthVerdict)
    ensures v.Denied? ==> v.error == NotAuthenticated
    ensures v.Authenticated? <==>
              |Fields(header)| == 2 && EqualFold(Fields(header)[0], "Bearer")
              && verify(Fields(header)[1]).Some? && verify(Fields(header)[1]).value != ""
              && isUuid(verify(Fields(header)[1]).value)
    ensures v.Authenticated? ==> v.userId == verify(Fields(header)[1]).value
  {
    var parts := Fields(header);
    if |parts| != 2 || !EqualFold(parts[0], "Bearer") then Denied(NotAuthenticated)
    else
      var rawToken := TrimSpace(parts[1]);
      EmptyTokenUnreachable(header);
      if rawToken == "" then Denied(NotAuthenticated)
      else
        var claims := verify(rawToken);
        if claims.None? then Denied(NotAuthenticated)
        else if claims.value == "" then Denied(NotAuthenticated)
        else if !isUuid(claims.value) then Denied(NotAuthenticated)
        else Authenticated(claims.value)
  }

  /** strings.Fields never yields an empty or padded word, so the token's
      TrimSpace changes nothing and its emptiness check never fires. */
  lemma EmptyTokenUnreachable(header: string)
    requires |Fields(header)| == 2
    ensures TrimSpace(Fields(header)[1]) == Fields(header)[1] != ""
  {
    var t := Fields(header)[1];
    assert !IsSpace(t[0]) && !IsSpace(t[|t| - 1]);
    TrimSpaceOfTrimmed(t);
  }

  /** A scheme, white space, a token and optional trailing white space are
      two fields. */
  lemma TwoWordFields(scheme: string, sp: string, token: string, trailing: string)
    requires scheme != "" && NoSpace(scheme) && token != "" && NoSpace(token)
    requires sp != "" && AllSpace(sp) && AllSpace(trailing)
    ensures Fields(scheme + sp + token + trailing) == [scheme, token]
  {
    assert Fields(trailing) == [] by {
      FieldsSkip(trailing, "");
      assert trailing + "" == trailing;
    }
    var tail := token + trailing;
    assert Fields(tail) == [token] by {
      FieldsCons(token, trailing);
    }
    var rest := sp + tail;
    assert Fields(rest) == [token] by {
      FieldsSkip(sp, tail);
    }
    assert IsSpace(rest[0]) by {
      assert rest[0] == sp[0];
    }
    ConcatRight4(scheme, sp, token, trailing);
    FieldsCons(scheme, rest);
  }

  /**
   * A header made of a scheme equal to "Bearer" in any case, white space,
   * a token and optional trailing white space is decided by the token alone:
   * the request passes exactly when the token verifies to a UUID subject.
   */
  lemma BearerHeader(scheme: string, sp: string, token: string, trailing: string,
                     verify: string -> Option<string>, isUuid: string -> bool)
    requires EqualFold(scheme, "Bearer") && NoSpace(scheme)
    requires sp != "" && AllSpace(sp) && AllSpace(trailing)
    requires token != "" && NoSpace(token)
    ensures RequireAuth(scheme + sp + token + trailing, verify, isUuid)
            == if verify(token).Some? && verify(token).value != "" && isUuid(verify(token).value)
               then Authenticated(verify(token).value) else Denied(NotAuthenticated)
  {
    assert |scheme| == 6;
    TwoWordFields(scheme, sp, token, trailing);
  }

  /** A header with a third word after the token is refused. */
  lemma ThreeWordsRefused(scheme: string, sp: string, token: string, sp2: string, extra: string,
                          verify: string -> Option<string>, isUuid: string -> bool)
    requires scheme != "" && NoSpace(scheme) && token != "" && NoSpace(token) && extra != "" && NoSpace(extra)
    requires sp != "" && AllSpace(sp) && sp2 != "" && AllSpace(sp2)
    ensures RequireAuth(scheme + sp + token + sp2 + extra, verify, isUuid) == Denied(NotAuthenticated)
  {
    var t3 := sp2 + extra;
    var t2 := token + t3;
    var t1 := sp + t2;
    ConcatRight5(scheme, sp, token, sp2, extra);
    FieldsCons(scheme, t1);
    FieldsSkip(sp, t2);
    FieldsCons(token, t3);
    FieldsSkip(sp2, extra);
    assert |Fields(extra)| >= 1 by {
      assert extra + "" == extra;
      FieldsCons(extra, "");
    }
    assert |Fields(scheme + sp + token + sp2 + extra)| >= 3;
  }

  // ------------------------------------------------------ authorisation

  /** Who asks: the authenticated user. */
  datatype Subject = Subject(id: string, email: string, isAdmin: bool)

  /** What is asked for: the route pattern, the path, its parameters and query. */
  datatype Object = Object(route: string, path: string, params: map<string, string>, query: map<string, string>)

  /** One question put to the enforcer. */
  datatype EnforceRequest = EnforceRequest(subject: Subject, obj: Object, action: string)

  /** The request as the authorisation middleware sees it. */
  datatype Request = Request(
    userId: string, isAdmin: bool, email: string,
    routePath: Option<string>,   // the matched route's path, None when no route matched
    path: string, params: map<string, string>, query: map<string, string>, httpMethod: string)

  /** routePattern: the matched route's path when there is one and it is not
      empty, otherwise the request path. */
  function RoutePattern(routePath: Option<string>, path: string): (r: string)
    ensures r == path || (routePath.Some? && r == routePath.value)
    ensures routePath.Some? && routePath.value != "" ==> r == routePath.value
    ensures r == "" ==> path == ""
  {
    if routePath.Some? && routePath.value != "" then routePath.value else path
  }

  /** The question RequireAuthorization puts to the enforcer for a request. */
  function EnforceRequestOf(req: Request): (q: EnforceRequest)
    ensures q.subject == Subject(req.userId, req.email, req.isAdmin)
    ensures q.obj.route == RoutePattern(req.routePath, req.path) && q.obj.path == req.path
    ensures q.action == req.httpMethod
  {
    EnforceRequest(Subject(req.userId, req.email, req.isAdmin),
                   Object(RoutePattern(req.routePath, req.path), req.path, req.params, req.query),
                   req.httpMethod)
  }

  /** RequireAuthorization's decision, and the question it asked the enforcer, if any. */
  datatype AuthzOutcome = AuthzOutcome(decision: Decision, asked: Option<EnforceRequest>)

  /**
   * RequireAuthorization.  No user id is 401 before anything else; an
   * admin passes without the enforcer; without an enforcer a non-admin is
   * 500.  Otherwise the enforcer is asked once (`enforce` is its answer):
   * an error is 500, a denial 403 "Forbidden", an allow passes.
   */
  function RequireAuthorization(req: Request, hasEnforcer: bool, enforce: EnforceRequest -> Result<bool, string>)
    : (o: AuthzOutcome)
    ensures req.userId == "" ==> o == AuthzOutcome(Reject(NotAuthenticated), None)
    ensures req.userId != "" && req.isAdmin ==> o == AuthzOutcome(Next, None)
    ensures req.userId != "" && !req.isAdmin && !hasEnforcer ==> o == AuthzOutcome(Reject(InternalServerError), None)
    ensures o.asked.Some? <==> req.userId != "" && !req.isAdmin && hasEnforcer
    ensures o.asked.Some? ==> o.asked.value == EnforceRequestOf(req) && !o.asked.value.subject.isAdmin
    ensures o.asked.Some? ==>
              o.decision == match enforce(EnforceRequestOf(req))
                            case Failure(_) => Reject(InternalServerError)
                            case Success(allowed) => if allowed then Next else Reject(Forbidden("Forbidden"))
    ensures o.decision.Next? <==> req.userId != "" && (req.isAdmin || (hasEnforcer && enforce(EnforceRequestOf(req)) == Success(true)))
  {
    if req.userId == "" then AuthzOutcome(Reject(NotAuthenticated), None)
    else if req.isAdmin then AuthzOutcome(Next, None)
    else if !hasEnforcer then AuthzOutcome(Reject(InternalServerError), None)
    else
      var q := EnforceRequestOf(req);
      match enforce(q)
      case Failure(_) => AuthzOutcome(Reject(InternalServerError), Some(q))
      case Success(allowed) =>
        if allowed then AuthzOutcome(Next, Some(q)) else AuthzOutcome(Reject(Forbidden("Forbidden")), Some(q))
  }
}
