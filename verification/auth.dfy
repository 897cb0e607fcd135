/**
 * The authorization middleware of inventory-backend/middleware/auth.js:
 * `authenticate` takes the bearer token from the Authorization header and
 * verifies it; `isAdmin` and `isCustomer` test the role of the verified user.
 * Token verification (a JWT library) is a parameter of the model.
 */
module Auth {
  import opened Wrappers
  import opened Text

  /** The payload a verified token carries: `{id, email, role}`. */
  datatype Claims = Claims(id: nat, email: string, role: string)

  /** What a middleware does with a request: call `next`, or answer it with an error. */
  datatype Gate = Next | Deny(status: nat, message: string)

  /** What `authenticate` does: call `next` with `req.user` set, or answer 401. */
  datatype AuthResult = Authenticated(user: Claims) | Unauthorized(message: string)

  /**
   * `req.headers.authorization?.split(" ")[1]`, kept only when it is truthy:
   * no header, no second piece and an empty second piece all give no token.
   */
  function ExtractToken(authorization: Option<string>): (token: Option<string>)
    ensures authorization.None? ==> token.None?
    ensures token.Some? ==> token.value != [] && ' ' !in token.value
  {
    match authorization
    case None => None
    case Some(h) =>
      var parts := Split(h, ' ');
      if |parts| >= 2 && parts[1] != [] then Some(parts[1]) else None
  }

  /** A header `"<scheme> <token>"` yields the token. */
  lemma BearerToken(scheme: string, token: string)
    requires ' ' !in scheme && ' ' !in token && token != []
    ensures ExtractToken(Some(scheme + " " + token)) == Some(token)
  {
    SplitFirst(scheme, ' ', token);
    SplitWhole(token, ' ');
  }

  /**
   * `h` is `s + " " + t + rest`: a first word `s`, one space, a non-empty
   * word `t`, and then nothing or a space.
   */
  ghost predicate TokenAt(h: string, s: string, t: string, rest: string)
  {
    && h == s + " " + t + rest
    && ' ' !in s && ' ' !in t && t != []
    && (rest == [] || rest[0] == ' ')
  }

  /** A second word followed by nothing or a space is the token. */
  lemma TokenOf(s: string, t: string, rest: string)
    requires ' ' !in s && ' ' !in t && t != []
    requires rest == [] || rest[0] == ' '
    ensures ExtractToken(Some(s + " " + t + rest)) == Some(t)
  {
    assert s + " " + t + rest == s + [' '] + (t + rest);
    SplitFirst(s, ' ', t + rest);
    if rest == [] {
      assert t + rest == t;
      SplitWhole(t, ' ');
    } else {
      assert t + rest == t + [' '] + rest[1..];
      SplitFirst(t, ' ', rest[1..]);
    }
  }

  /**
   * The header yields token `t` exactly when `t` is its second word: the
   * text between the first space and the next space or the end, non-empty.
   */
  lemma ExtractTokenIff(h: string, t: string)
    ensures ExtractToken(Some(h)) == Some(t) <==> exists s, rest :: TokenAt(h, s, t, rest)
  {
    if ExtractToken(Some(h)) == Some(t) {
      var parts := Split(h, ' ');
      SplitJoin(h, ' ');
      var rest := if |parts| > 2 then [' '] + Join(parts[2..], ' ') else [];
      assert parts[1..][1..] == parts[2..];
      assert Join(parts[1..], ' ') == t + rest;
      assert h == parts[0] + [' '] + (t + rest);
      assert h == parts[0] + " " + t + rest;
      assert TokenAt(h, parts[0], t, rest);
    }
    if s, rest :| TokenAt(h, s, t, rest) {
      TokenOf(s, t, rest);
    }
  }

  /** Two spaces after the scheme leave an empty second piece, so no token and a 401. */
  lemma DoubleSpaceNoToken()
    ensures ExtractToken(Some("Bearer  x")) == None
  {
    assert "Bearer  x" == "Bearer" + [' '] + ([' '] + "x");
    SplitFirst("Bearer", ' ', [' '] + "x");
    assert [' '] + "x" == [] + [' '] + "x";
    SplitFirst([], ' ', "x");
  }

  /** A header without a space carries no token. */
  lemma NoSpaceNoToken(h: string)
    requires ' ' !in h
    ensures ExtractToken(Some(h)) == None
  {
    SplitWhole(h, ' ');
  }

  /**
   * `authenticate`: 401 "No token provided" without a token, 401 "Invalid
   * token" when `verify` rejects it, otherwise the decoded payload becomes
   * the request's user. `verify` stands for `jwt.verify` with the server's secret.
   */
  function Authenticate(authorization: Option<string>, verify: string -> Option<Claims>): (r: AuthResult)
    ensures ExtractToken(authorization) == None ==> r == Unauthorized("No token provided")
    ensures (ExtractToken(authorization).Some? && verify(ExtractToken(authorization).value) == None)
      ==> r == Unauthorized("Invalid token")
    ensures r.Authenticated? <==>
      ExtractToken(authorization).Some? && verify(ExtractToken(authorization).value).Some?
    ensures r.Authenticated? ==> verify(ExtractToken(authorization).value) == Some(r.user)
  {
    match ExtractToken(authorization)
    case None => Unauthorized("No token provided")
    case Some(token) =>
      match verify(token)
      case None => Unauthorized("Invalid token")
      case Some(user) => Authenticated(user)
  }

  const AdminRole: string := "admin"
  const CustomerRole: string := "customer"

  /** `isAdmin`: passes exactly a present user whose role is "admin"; otherwise 403. */
  function IsAdmin(user: Option<Claims>): (g: Gate)
    ensures g.Next? <==> user.Some? && user.value.role == AdminRole
    ensures g.Deny? ==> g == Deny(403, "Admin access required")
  {
    if user.Some? && user.value.role == AdminRole then Next
    else Deny(403, "Admin access required")
  }

  /** `isCustomer`: passes a present user whose role is "customer" or "admin"; otherwise 403. */
  function IsCustomer(user: Option<Claims>): (g: Gate)
    ensures g.Next? <==> user.Some? && (user.value.role == CustomerRole || user.value.role == AdminRole)
    ensures g.Deny? ==> g == Deny(403, "Customer access required")
  {
    if user.Some? && (user.value.role == CustomerRole || user.value.role == AdminRole) then Next
    else Deny(403, "Customer access required")
  }

  /** Every request `isAdmin` lets through, `isCustomer` lets through too. */
  lemma AdminIsCustomer(user: Option<Claims>)
    ensures IsAdmin(user).Next? ==> IsCustomer(user).Next?
  {
  }

  /** A verified token with the admin role passes the admin-only chain `authenticate, isAdmin`. */
  lemma AdminChain(scheme: string, token: string, verify: string -> Option<Claims>, user: Claims)
    requires ' ' !in scheme && ' ' !in token && token != []
    requires verify(token) == Some(user) && user.role == AdminRole
    ensures Authenticate(Some(scheme + " " + token), verify) == Authenticated(user)
    ensures IsAdmin(Some(user)).Next?
  {
    BearerToken(scheme, token);
  }
}
