/*
 * middlewares/authenticate.js and middlewares/authorize.js: the bearer-token
 * guard chain in front of protected routes and the role check behind it.
 * jwt.verify is the parameter `decode` (None when it throws); the user lookup
 * is a search of the collection, and `fault` stands for a lookup that throws.
 */
module Auth {
  import opened Common

  const MSG_LOGIN_REQUIRED: string := "Please log in to access this resource"
  const MSG_USER_GONE: string := "The user belonging to this token no longer exists"
  const MSG_PASSWORD_CHANGED: string := "User recently changed password! Please log in again"
  const MSG_INVALID_TOKEN: string := "Invalid token. Please log in again"
  const MSG_NOT_AUTHENTICATED: string := "User not authenticated"
  const MSG_FORBIDDEN: string := "You do not have permission to perform this action"

  /** The fields of a looked-up user that the guards read; passwordChangedAt is in ms. */
  datatype Principal = Principal(id: string, role: string, passwordChangedAt: Option<int>)

  /** The decoded JWT payload: the user id and the issue time in seconds. */
  datatype Claims = Claims(id: string, iat: int)

  predicate StartsWith(s: string, prefix: string)
  {
    |prefix| <= |s| && s[..|prefix|] == prefix
  }

  predicate IsSpace(c: char)
  {
    c == ' '
  }

  /** header.split(' ')[1]: the text between the first space and the next one; undefined with no space. */
  function SecondField(s: string): (r: Option<string>)
    ensures r.None? <==> ' ' !in s
    ensures r.Some? ==> ' ' !in r.value
  {
    var i := FindIndex(s, IsSpace);
    if i < 0 then None
    else
      var rest := s[i + 1..];
      var j := FindIndex(rest, IsSpace);
      Some(if j < 0 then rest else rest[..j])
  }

  /** The second field is recovered from any header laid out as `a b rest` with no space in a or b. */
  lemma SecondFieldOf(a: string, b: string, rest: string)
    requires ' ' !in a && ' ' !in b && (rest == [] || rest[0] == ' ')
    ensures SecondField(a + [' '] + b + rest) == Some(b)
  {
    var s := a + [' '] + b + rest;
    assert s[|a|] == ' ';
    assert forall j :: 0 <= j < |a| ==> s[j] == a[j];
    var i := FindIndex(s, IsSpace);
    assert i == |a|;
    var tail := s[i + 1..];
    assert tail == b + rest;
    assert forall j :: 0 <= j < |b| ==> tail[j] == b[j];
    if rest != [] {
      assert tail[|b|] == ' ';
      assert FindIndex(tail, IsSpace) == |b|;
      assert tail[..|b|] == b;
    } else {
      assert tail == b;
    }
  }

  /** Step 1: a token only from an Authorization header that starts with "Bearer". */
  function BearerToken(header: Option<string>): (token: Option<string>)
    ensures token.Some? ==> Truthy(header) && StartsWith(header.value, "Bearer") && ' ' !in token.value
    ensures Truthy(header) && StartsWith(header.value, "Bearer") && ' ' in header.value ==> token.Some?
  {
    if Truthy(header) && StartsWith(header.value, "Bearer") then SecondField(header.value) else None
  }

  /** "Bearer <t>" yields t for every t without spaces. */
  lemma BearerRoundTrip(t: string)
    requires ' ' !in t
    ensures BearerToken(Some("Bearer " + t)) == Some(t)
  {
    assert "Bearer " + t == "Bearer" + [' '] + t + [];
    SecondFieldOf("Bearer", t, []);
  }

  /** parseInt(ms / 1000, 10): seconds, truncated toward zero. */
  function SecondsOf(ms: int): (s: int)
    ensures ms >= 0 ==> s * 1000 <= ms < s * 1000 + 1000
    ensures ms < 0 ==> s * 1000 - 1000 < ms <= s * 1000
  {
    if ms >= 0 then ms / 1000 else -((-ms) / 1000)
  }

  /** The first user with this id (findById). */
  function IndexOfPrincipal(users: seq<Principal>, id: string): (i: int)
    ensures -1 <= i < |users|
    ensures 0 <= i ==> users[i].id == id && forall k :: 0 <= k < i ==> users[k].id != id
    ensures i < 0 ==> forall k :: 0 <= k < |users| ==> users[k].id != id
  {
    FindIndex(users, (u: Principal) => u.id == id)
  }

  /** authenticate: the guards in the source's order; whatever is thrown becomes "Invalid token". */
  function Authenticate(header: Option<string>, decode: string -> Option<Claims>, users: seq<Principal>, fault: bool)
    : (r: Result<Principal>)
    ensures r.Fail? ==> r.error.AppError? && r.error.status == 401
    ensures !Truthy(BearerToken(header)) ==> r == Fail(AppError(401, MSG_LOGIN_REQUIRED))
    ensures r.Ok? ==> Truthy(BearerToken(header)) && !fault &&
                      var c := decode(BearerToken(header).value);
                      c.Some? && r.value in users && r.value.id == c.value.id &&
                      (r.value.passwordChangedAt.Some? ==> c.value.iat >= SecondsOf(r.value.passwordChangedAt.value))
  {
    var token := BearerToken(header);
    if !Truthy(token) then Fail(AppError(401, MSG_LOGIN_REQUIRED))
    else
      var claims := decode(token.value);
      if claims.None? || fault then Fail(AppError(401, MSG_INVALID_TOKEN))
      else
        var i := IndexOfPrincipal(users, claims.value.id);
        if i < 0 then Fail(AppError(401, MSG_USER_GONE))
        else
          var u := users[i];
          if u.passwordChangedAt.Some? && claims.value.iat < SecondsOf(u.passwordChangedAt.value)
          then Fail(AppError(401, MSG_PASSWORD_CHANGED))
          else Ok(u)
  }

  /**
   * A token issued in the same second as the password change, or later, is
   * accepted; one issued in an earlier second is refused.
   */
  lemma PasswordChangeCutoff(t: string, decode: string -> Option<Claims>, users: seq<Principal>, changedAt: int)
    requires ' ' !in t && t != ""
    requires decode(t).Some? && changedAt >= 0
    requires var i := IndexOfPrincipal(users, decode(t).value.id);
             i >= 0 && users[i].passwordChangedAt == Some(changedAt)
    ensures var r := Authenticate(Some("Bearer " + t), decode, users, false);
            r.Ok? <==> decode(t).value.iat * 1000 + 1000 > changedAt
    ensures var r := Authenticate(Some("Bearer " + t), decode, users, false);
            r.Fail? ==> r == Fail(AppError(401, MSG_PASSWORD_CHANGED))
  {
    BearerRoundTrip(t);
  }

  /** The current user schema has no passwordChangedAt, so any decodable token of an existing user passes. */
  lemma NoChangeFieldAdmitsEveryToken(t: string, decode: string -> Option<Claims>, users: seq<Principal>)
    requires ' ' !in t && t != "" && decode(t).Some?
    requires forall k :: 0 <= k < |users| ==> users[k].passwordChangedAt.None?
    ensures var r := Authenticate(Some("Bearer " + t), decode, users, false);
            r.Ok? <==> exists k :: 0 <= k < |users| && users[k].id == decode(t).value.id
  {
    BearerRoundTrip(t);
  }

  /** authorize(roles): 401 without a user, every user for an empty list, 403 for a role outside it. */
  function Authorize(user: Option<Principal>, roles: seq<string>): (r: Result<Principal>)
    ensures r.Ok? <==> user.Some? && (roles == [] || user.value.role in roles)
    ensures r.Ok? ==> r.value == user.value
    ensures user.None? ==> r == Fail(AppError(401, MSG_NOT_AUTHENTICATED))
    ensures user.Some? && roles != [] && user.value.role !in roles ==> r == Fail(AppError(403, MSG_FORBIDDEN))
  {
    if user.None? then Fail(AppError(401, MSG_NOT_AUTHENTICATED))
    else if |roles| == 0 then Ok(user.value)
    else if user.value.role !in roles then Fail(AppError(403, MSG_FORBIDDEN))
    else Ok(user.value)
  }

  /** The decision depends only on whether a user is present, the list and the role. */
  lemma AuthorizeDependsOnRoleOnly(u1: Principal, u2: Principal, roles: seq<string>)
    requires u1.role == u2.role
    ensures Authorize(Some(u1), roles).Ok? == Authorize(Some(u2), roles).Ok?
    ensures Authorize(Some(u1), roles).Fail? ==> Authorize(Some(u1), roles) == Authorize(Some(u2), roles)
  {
  }

  /** authenticate followed by authorize, as the routes chain them. */
  function Guard(header: Option<string>, decode: string -> Option<Claims>, users: seq<Principal>, fault: bool,
                 roles: seq<string>): (r: Result<Principal>)
    ensures r.Ok? ==> Authenticate(header, decode, users, fault) == Ok(r.value) && (roles == [] || r.value.role in roles)
  {
    var a := Authenticate(header, decode, users, fault);
    if a.Fail? then a else Authorize(Some(a.value), roles)
  }

  /** Behind a successful authenticate, only a 403 can come from the role check. */
  lemma GuardFailsOnlyForbiddenAfterAuthentication(header: Option<string>, decode: string -> Option<Claims>,
                                                   users: seq<Principal>, fault: bool, roles: seq<string>)
    requires Authenticate(header, decode, users, fault).Ok?
    ensures Guard(header, decode, users, fault, roles).Fail? ==>
              Guard(header, decode, users, fault, roles) == Fail(AppError(403, MSG_FORBIDDEN))
  {
  }
}
