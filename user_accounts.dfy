/*
 * repositories/UserRepository.js and services/UserService.js: the user
 * collection, its field updates, and the register / login / verify-email /
 * refresh-token / logout flows built on them. JWT signing and verification,
 * bcrypt and SHA-256 are inputs: fresh tokens and digests are parameters,
 * `decode` stands for jwt.verify and `matches` for bcrypt.compare.
 */
module UserAccounts {
  import opened Common
  import US = UserSecurity
  import LegacyUser

  const REFRESH_TOKEN_TTL_MS: int := 7 * DAY_MS

  const MSG_EMAIL_TAKEN: string := "Email already registered"
  const MSG_BAD_CREDENTIALS: string := "Invalid email or password"
  const MSG_LOCKED: string := "Account is locked. Please try again later"
  const MSG_VERIFY_FIRST: string := "Please verify your email first"
  const MSG_BAD_VERIFICATION: string := "Invalid or expired verification token"
  const MSG_BAD_REFRESH: string := "Invalid refresh token"

  datatype Status = Active | Inactive | Suspended | PendingVerification

  datatype DeviceInfo = DeviceInfo(userAgent: string, ip: string, deviceId: string)

  /** One entry of refreshTokens. */
  datatype RefreshToken = RefreshToken(token: string, createdAt: int, expiresAt: int, device: DeviceInfo)

  /** The stored user document, restricted to the fields these flows read or write. */
  datatype User = User(
    id: string,
    email: string,
    password: string,
    status: Status,
    isVerified: bool,
    verifiedAt: Option<int>,
    verificationToken: Option<string>,
    verificationExpires: Option<int>,
    resetToken: Option<string>,
    resetExpires: Option<int>,
    lastResetAt: Option<int>,
    lockout: US.Lockout,
    lastLogin: Option<int>,
    lastLoginIP: Option<string>,
    refreshTokens: seq<RefreshToken>)

  /** The update documents the repository sends with findByIdAndUpdate. */
  datatype Change =
    | SetVerificationToken(token: string, expires: int)
    | MarkVerified(at: int)
    | SetResetToken(token: string, expires: int)
    | SetPassword(hashed: string, at: int)
    | PushToken(entry: RefreshToken)
    | PullToken(token: string)
    | SetLockout(lockout: US.Lockout)
    | LoginStamp(at: int, ip: string)

  /** $pull: { refreshTokens: { token } }: the other entries, in their order and multiplicity. */
  function WithoutToken(ts: seq<RefreshToken>, token: string): (r: seq<RefreshToken>)
    ensures forall t :: t in r <==> t in ts && t.token != token
    ensures |r| <= |ts|
  {
    if ts == [] then []
    else WithoutToken(ts[..|ts| - 1], token) + (if ts[|ts| - 1].token != token then [ts[|ts| - 1]] else [])
  }

  /** Removing a token that is not present leaves the list as it was. */
  lemma {:induction false} WithoutAbsentToken(ts: seq<RefreshToken>, token: string)
    requires forall t :: t in ts ==> t.token != token
    ensures WithoutToken(ts, token) == ts
  {
    if ts != [] {
      WithoutAbsentToken(ts[..|ts| - 1], token);
      assert ts[..|ts| - 1] + [ts[|ts| - 1]] == ts;
    }
  }

  /** The pull is the filter on the other tokens: every other entry stays, in order and as often as stored. */
  lemma {:induction false} WithoutTokenExact(ts: seq<RefreshToken>, token: string)
    ensures WithoutToken(ts, token) == Filter(ts, (t: RefreshToken) => t.token != token)
    ensures forall t :: multiset(WithoutToken(ts, token))[t] == if t.token != token then multiset(ts)[t] else 0
  {
    var p := (t: RefreshToken) => t.token != token;
    if ts != [] {
      WithoutTokenExact(ts[..|ts| - 1], token);
    }
    FilterMultiset(ts, p);
  }

  function ApplyChange(u: User, c: Change): (r: User)
    ensures r.id == u.id && r.email == u.email
  {
    match c
    case SetVerificationToken(token, expires) =>
      u.(verificationToken := Some(token), verificationExpires := Some(expires))
    case MarkVerified(at) =>
      u.(isVerified := true, verifiedAt := Some(at), verificationToken := None, verificationExpires := None,
         status := Active)
    case SetResetToken(token, expires) =>
      u.(resetToken := Some(token), resetExpires := Some(expires))
    case SetPassword(hashed, at) =>
      u.(password := hashed, resetToken := None, resetExpires := None, lastResetAt := Some(at))
    case PushToken(entry) => u.(refreshTokens := u.refreshTokens + [entry])
    case PullToken(token) => u.(refreshTokens := WithoutToken(u.refreshTokens, token))
    case SetLockout(lockout) => u.(lockout := lockout)
    case LoginStamp(at, ip) =>
      u.(lockout := US.Lockout(0, None), lastLogin := Some(at), lastLoginIP := Some(ip))
  }

  predicate UniqueIds(users: seq<User>)
  {
    forall i, j :: 0 <= i < j < |users| ==> users[i].id != users[j].id
  }

  predicate UniqueEmails(users: seq<User>)
  {
    forall i, j :: 0 <= i < j < |users| ==> users[i].email != users[j].email
  }

  /** The schema stores e-mails lower-cased (lowercase: true). */
  predicate LowerEmails(users: seq<User>)
  {
    forall i :: 0 <= i < |users| ==> Lower(users[i].email) == users[i].email
  }

  predicate WellFormed(users: seq<User>)
  {
    UniqueIds(users) && UniqueEmails(users) && LowerEmails(users)
  }

  function IndexOfId(users: seq<User>, id: string): (i: int)
    ensures -1 <= i < |users|
    ensures 0 <= i ==> users[i].id == id && forall j :: 0 <= j < i ==> users[j].id != id
    ensures i == -1 ==> forall j :: 0 <= j < |users| ==> users[j].id != id
  {
    if users == [] then -1
    else if users[0].id == id then 0
    else
      var k := IndexOfId(users[1..], id);
      if k == -1 then -1 else k + 1
  }

  function IndexOfEmail(users: seq<User>, email: string): (i: int)
    ensures -1 <= i < |users|
    ensures 0 <= i ==> users[i].email == email && forall j :: 0 <= j < i ==> users[j].email != email
    ensures i == -1 ==> forall j :: 0 <= j < |users| ==> users[j].email != email
  {
    if users == [] then -1
    else if users[0].email == email then 0
    else
      var k := IndexOfEmail(users[1..], email);
      if k == -1 then -1 else k + 1
  }

  /** findByIdAndUpdate(id, change): the document with that id changes; a missing id changes nothing. */
  function Update(users: seq<User>, id: string, c: Change): (r: seq<User>)
    ensures |r| == |users|
    ensures forall k :: 0 <= k < |users| ==> r[k] == (if users[k].id == id then ApplyChange(users[k], c) else users[k])
  {
    seq(|users|, k requires 0 <= k < |users| => if users[k].id == id then ApplyChange(users[k], c) else users[k])
  }

  /** Lookups by id depend on the ids alone. */
  lemma {:induction false} SameIdsSameIndex(a: seq<User>, b: seq<User>, x: string)
    requires |a| == |b| && forall k :: 0 <= k < |a| ==> a[k].id == b[k].id
    ensures IndexOfId(a, x) == IndexOfId(b, x)
  {
    if a != [] {
      SameIdsSameIndex(a[1..], b[1..], x);
    }
  }

  /** Lookups by e-mail depend on the e-mails alone. */
  lemma {:induction false} SameEmailsSameIndex(a: seq<User>, b: seq<User>, e: string)
    requires |a| == |b| && forall k :: 0 <= k < |a| ==> a[k].email == b[k].email
    ensures IndexOfEmail(a, e) == IndexOfEmail(b, e)
  {
    if a != [] {
      SameEmailsSameIndex(a[1..], b[1..], e);
    }
  }

  /** Field updates keep ids and e-mails, so the collection stays well formed and lookups stay put. */
  lemma UpdateKeepsShape(users: seq<User>, id: string, c: Change)
    requires WellFormed(users)
    ensures WellFormed(Update(users, id, c))
    ensures forall x :: IndexOfId(Update(users, id, c), x) == IndexOfId(users, x)
    ensures forall e :: IndexOfEmail(Update(users, id, c), e) == IndexOfEmail(users, e)
  {
    var r := Update(users, id, c);
    assert forall k :: 0 <= k < |users| ==> r[k].id == users[k].id && r[k].email == users[k].email;
    forall x ensures IndexOfId(r, x) == IndexOfId(users, x) {
      SameIdsSameIndex(r, users, x);
    }
    forall e ensures IndexOfEmail(r, e) == IndexOfEmail(users, e) {
      SameEmailsSameIndex(r, users, e);
    }
  }

  /** verifyEmail marks the address verified, activates the account and clears the one-time token. */
  lemma VerifyEmailEffect(u: User, at: int)
    ensures var r := ApplyChange(u, MarkVerified(at));
            r.isVerified && r.verifiedAt == Some(at) && r.status == Active &&
            r.verificationToken == None && r.verificationExpires == None &&
            r.password == u.password && r.refreshTokens == u.refreshTokens && r.lockout == u.lockout
  {
  }

  /** resetPassword stores the new hash, clears the reset token and stamps lastResetAt. */
  lemma ResetPasswordEffect(u: User, hashed: string, at: int)
    ensures var r := ApplyChange(u, SetPassword(hashed, at));
            r.password == hashed && r.resetToken == None && r.resetExpires == None &&
            r.lastResetAt == Some(at) && r.refreshTokens == u.refreshTokens && r.isVerified == u.isVerified
  {
  }

  /** Which user model the service is wired to: the current one throws on a mismatch, the earlier one answers false. */
  datatype Wiring = CurrentModel | EarlierModel

  function Compare(w: Wiring, stored: string, candidate: string, matches: (string, string) -> bool): Result<bool>
  {
    match w
    case CurrentModel => US.ComparePassword(Some(stored), candidate, matches)
    case EarlierModel => LegacyUser.ComparePassword(Some(stored), candidate, matches)
  }

  /** The result of one service call and the collection afterwards. */
  datatype Outcome<T> = Outcome(result: Result<T>, users: seq<User>)

  datatype Session = Session(userId: string, accessToken: string, refreshToken: string)

  /** The user document create() would store for a registration. */
  function NewUser(id: string, email: string, hashed: string): User
  {
    User(id, Lower(email), hashed, PendingVerification, false, None, None, None, None, None, None,
         US.Lockout(0, None), None, None, [])
  }

  /**
   * The user register hands back: password and verification token and
   * expiry are set to undefined (here the empty string and None) after the
   * token has been stored.
   */
  function Sanitized(u: User): (r: User)
    ensures r.password == "" && r.verificationToken.None? && r.verificationExpires.None?
    ensures r.(password := u.password, verificationToken := u.verificationToken,
               verificationExpires := u.verificationExpires) == u
  {
    u.(password := "", verificationToken := None, verificationExpires := None)
  }

  /** register. */
  function RegisterSpec(users: seq<User>, id: string, email: string, hashed: string, raw: string, digest: string, now: int)
    : Outcome<(User, string)>
  {
    if IndexOfEmail(users, Lower(email)) >= 0 then Outcome(Fail(AppError(400, MSG_EMAIL_TAKEN)), users)
    else
      var u := NewUser(id, email, hashed);
      Outcome(Ok((Sanitized(u), raw)),
              Update(users + [u], id, SetVerificationToken(digest, now + US.VERIFICATION_TOKEN_TTL_MS)))
  }

  /** login, with the steps in the source's order. */
  function LoginSpec(users: seq<User>, w: Wiring, email: string, password: string, device: DeviceInfo, now: int,
                     matches: (string, string) -> bool, access: string, refresh: string): Outcome<Session>
  {
    var i := IndexOfEmail(users, Lower(email));
    if i < 0 then Outcome(Fail(AppError(401, MSG_BAD_CREDENTIALS)), users)
    else
      var u := users[i];
      if US.IsLocked(u.lockout, now) then Outcome(Fail(AppError(401, MSG_LOCKED)), users)
      else
        var cmp := Compare(w, u.password, password, matches);
        if cmp.Fail? then Outcome(Fail(cmp.error), users)
        else if !cmp.value then
          Outcome(Fail(AppError(401, MSG_BAD_CREDENTIALS)),
                  Update(users, u.id, SetLockout(US.IncAttempts(u.lockout, now))))
        else if !u.isVerified then Outcome(Fail(AppError(401, MSG_VERIFY_FIRST)), users)
        else
          var withToken := Update(users, u.id, PushToken(RefreshToken(refresh, now, now + REFRESH_TOKEN_TTL_MS, device)));
          Outcome(Ok(Session(u.id, access, refresh)), Update(withToken, u.id, LoginStamp(now, device.ip)))
  }

  /** The user holds this refresh token and it has not expired. */
  predicate HoldsLiveToken(u: User, token: string, now: int)
  {
    exists k :: 0 <= k < |u.refreshTokens| && u.refreshTokens[k].token == token && u.refreshTokens[k].expiresAt > now
  }

  /** refreshToken: rotate a live token; every failure reads as 401 "Invalid refresh token". */
  function RefreshSpec(users: seq<User>, token: string, device: DeviceInfo, now: int,
                       decode: string -> Option<string>, access: string, newToken: string): Outcome<(string, string)>
  {
    var claim := decode(token);
    if claim.None? then Outcome(Fail(AppError(401, MSG_BAD_REFRESH)), users)
    else
      var i := IndexOfId(users, claim.value);
      if i < 0 || !HoldsLiveToken(users[i], token, now) then Outcome(Fail(AppError(401, MSG_BAD_REFRESH)), users)
      else
        var pulled := Update(users, claim.value, PullToken(token));
        Outcome(Ok((access, newToken)),
                Update(pulled, claim.value, PushToken(RefreshToken(newToken, now, now + REFRESH_TOKEN_TTL_MS, device))))
  }

  /** verifyEmail: the first user whose stored digest matches and whose expiry is still ahead. */
  function IndexOfVerification(users: seq<User>, digest: string, now: int): (i: int)
    ensures -1 <= i < |users|
    ensures 0 <= i ==> users[i].verificationToken == Some(digest) && users[i].verificationExpires.Some? &&
                       users[i].verificationExpires.value > now
    ensures i == -1 ==> forall j :: 0 <= j < |users| ==>
              !(users[j].verificationToken == Some(digest) && users[j].verificationExpires.Some? &&
                users[j].verificationExpires.value > now)
  {
    if users == [] then -1
    else if users[0].verificationToken == Some(digest) && users[0].verificationExpires.Some? &&
            users[0].verificationExpires.value > now then 0
    else
      var k := IndexOfVerification(users[1..], digest, now);
      if k == -1 then -1 else k + 1
  }

  function VerifyEmailSpec(users: seq<User>, digest: string, now: int): Outcome<string>
  {
    var i := IndexOfVerification(users, digest, now);
    if i < 0 then Outcome(Fail(AppError(400, MSG_BAD_VERIFICATION)), users)
    else Outcome(Ok("Email verified successfully"), Update(users, users[i].id, MarkVerified(now)))
  }

  /** Registration keeps e-mails unique and lower-cased, whatever case the caller used. */
  lemma RegisterKeepsEmailsUnique(users: seq<User>, id: string, email: string, hashed: string, raw: string,
                                  digest: string, now: int)
    requires WellFormed(users) && IndexOfId(users, id) < 0
    ensures WellFormed(RegisterSpec(users, id, email, hashed, raw, digest, now).users)
  {
    if IndexOfEmail(users, Lower(email)) < 0 {
      var u := NewUser(id, email, hashed);
      LowerIdempotent(email);
      var grown := users + [u];
      assert WellFormed(grown);
      UpdateKeepsShape(grown, id, SetVerificationToken(digest, now + US.VERIFICATION_TOKEN_TTL_MS));
    }
  }

  /**
   * A successful registration stores the user with its hash and the token's
   * digest and expiry, and hands back the same user without them, together
   * with the raw token.
   */
  lemma RegisterHidesSecrets(users: seq<User>, id: string, email: string, hashed: string, raw: string,
                             digest: string, now: int)
    requires IndexOfId(users, id) < 0 && IndexOfEmail(users, Lower(email)) < 0
    ensures var out := RegisterSpec(users, id, email, hashed, raw, digest, now);
            out.result.Ok? && out.result.value.1 == raw && |out.users| == |users| + 1 &&
            out.users[..|users|] == users &&
            var returned := out.result.value.0;
            returned.id == id && returned.email == Lower(email) && returned.status == PendingVerification &&
            returned.password == "" && returned.verificationToken.None? && returned.verificationExpires.None? &&
            out.users[|users|] == returned.(password := hashed, verificationToken := Some(digest),
                                            verificationExpires := Some(now + US.VERIFICATION_TOKEN_TTL_MS))
  {
    var out := RegisterSpec(users, id, email, hashed, raw, digest, now);
    assert out.users[..|users|] == users;
  }

  /** A second registration of the same address in any letter case is refused. */
  lemma RegisterRejectsAnyCase(users: seq<User>, id: string, id2: string, email: string, email2: string,
                               hashed: string, raw: string, digest: string, now: int)
    requires WellFormed(users) && IndexOfId(users, id) < 0
    requires IndexOfEmail(users, Lower(email)) < 0 && Lower(email2) == Lower(email)
    ensures RegisterSpec(RegisterSpec(users, id, email, hashed, raw, digest, now).users, id2, email2, hashed, raw, digest, now).result
            == Fail(AppError(400, MSG_EMAIL_TAKEN))
  {
    var u := NewUser(id, email, hashed);
    var grown := users + [u];
    var c := SetVerificationToken(digest, now + US.VERIFICATION_TOKEN_TTL_MS);
    assert grown[|users|].email == Lower(email);
    assert IndexOfEmail(grown, Lower(email)) >= 0;
    LowerIdempotent(email);
    assert WellFormed(grown);
    UpdateKeepsShape(grown, id, c);
  }

  /** Login answers identically for an unknown e-mail and, with a boolean comparison, for a wrong password. */
  lemma LoginHidesWhichCredentialFailed(users: seq<User>, email: string, password: string, device: DeviceInfo,
                                        now: int, matches: (string, string) -> bool, access: string, refresh: string)
    requires var i := IndexOfEmail(users, Lower(email));
             i < 0 || (!US.IsLocked(users[i].lockout, now) && !matches(password, users[i].password))
    ensures LoginSpec(users, EarlierModel, email, password, device, now, matches, access, refresh).result
            == Fail(AppError(401, MSG_BAD_CREDENTIALS))
  {
  }

  /** The lock check comes first: a locked account is refused even with the right password. */
  lemma LockedRefusedEvenWithRightPassword(users: seq<User>, w: Wiring, email: string, password: string,
                                           device: DeviceInfo, now: int, matches: (string, string) -> bool,
                                           access: string, refresh: string)
    requires var i := IndexOfEmail(users, Lower(email));
             i >= 0 && US.IsLocked(users[i].lockout, now) && matches(password, users[i].password)
    ensures LoginSpec(users, w, email, password, device, now, matches, access, refresh)
            == Outcome(Fail(AppError(401, MSG_LOCKED)), users)
  {
  }

  /** A successful login appends one seven-day refresh token and clears the lock-out state. */
  lemma LoginSuccessEffect(users: seq<User>, w: Wiring, email: string, password: string, device: DeviceInfo,
                           now: int, matches: (string, string) -> bool, access: string, refresh: string)
    requires WellFormed(users)
    requires LoginSpec(users, w, email, password, device, now, matches, access, refresh).result.Ok?
    ensures var i := IndexOfEmail(users, Lower(email));
            var after := LoginSpec(users, w, email, password, device, now, matches, access, refresh).users;
            0 <= i < |after| &&
            after[i].refreshTokens == users[i].refreshTokens + [RefreshToken(refresh, now, now + REFRESH_TOKEN_TTL_MS, device)] &&
            after[i].lockout == US.Lockout(0, None) && after[i].lastLogin == Some(now) &&
            (forall k :: 0 <= k < |users| && k != i ==> after[k] == users[k])
  {
    var i := IndexOfEmail(users, Lower(email));
    var u := users[i];
    var withToken := Update(users, u.id, PushToken(RefreshToken(refresh, now, now + REFRESH_TOKEN_TTL_MS, device)));
    assert forall k :: 0 <= k < |users| && k != i ==> users[k].id != u.id;
  }

  /** Applying n failed logins with the given wiring. */
  function FailedLogins(users: seq<User>, w: Wiring, email: string, password: string, device: DeviceInfo, now: int,
                        matches: (string, string) -> bool, n: nat): seq<User>
  {
    if n == 0 then users
    else LoginSpec(FailedLogins(users, w, email, password, device, now, matches, n - 1), w, email, password, device, now,
                   matches, "", "").users
  }

  /**
   * As written: the current model's comparePassword throws on a mismatch, so
   * login never reaches incLoginAttempts and any number of wrong passwords
   * leaves the stored counter untouched.
   */
  lemma {:induction false} WrongPasswordsNeverCount(users: seq<User>, email: string, password: string, device: DeviceInfo,
                                                    now: int, matches: (string, string) -> bool, n: nat)
    requires var i := IndexOfEmail(users, Lower(email));
             i >= 0 && users[i].password != "" && !matches(password, users[i].password)
    ensures FailedLogins(users, CurrentModel, email, password, device, now, matches, n) == users
  {
    if n > 0 {
      WrongPasswordsNeverCount(users, email, password, device, now, matches, n - 1);
    }
  }

  /** The user list with only the lock-out state of position i replaced. */
  function WithLockout(users: seq<User>, i: int, lk: US.Lockout): seq<User>
    requires 0 <= i < |users|
  {
    users[i := users[i].(lockout := lk)]
  }

  /**
   * With a comparison that answers false (the earlier model's), n wrong
   * passwords from a clean account change nothing but that user's lock-out
   * state, which is n failures' worth.
   */
  lemma {:induction false} WrongPasswordsLockWithBooleanCompare(users: seq<User>, email: string, password: string,
                                                                device: DeviceInfo, now: int,
                                                                matches: (string, string) -> bool, n: nat)
    requires WellFormed(users)
    requires var i := IndexOfEmail(users, Lower(email));
             i >= 0 && users[i].lockout == US.Lockout(0, None) && !matches(password, users[i].password)
    requires n <= US.MAX_LOGIN_ATTEMPTS
    ensures var i := IndexOfEmail(users, Lower(email));
            FailedLogins(users, EarlierModel, email, password, device, now, matches, n) ==
              WithLockout(users, i, US.FailTimes(US.Lockout(0, None), now, n))
  {
    var i := IndexOfEmail(users, Lower(email));
    if n == 0 {
      assert WithLockout(users, i, US.Lockout(0, None)) == users;
    } else {
      WrongPasswordsLockWithBooleanCompare(users, email, password, device, now, matches, n - 1);
      var lk := US.FailTimes(US.Lockout(0, None), now, n - 1);
      US.FailuresLockAfterFive(now, n - 1);
      OneFailedLogin(users, email, password, device, now, matches, i, lk);
    }
  }

  /** One wrong password with a boolean comparison counts one failure against that user only. */
  lemma OneFailedLogin(users: seq<User>, email: string, password: string, device: DeviceInfo, now: int,
                       matches: (string, string) -> bool, i: int, lk: US.Lockout)
    requires WellFormed(users) && i == IndexOfEmail(users, Lower(email)) && i >= 0
    requires !US.IsLocked(lk, now) && !matches(password, users[i].password)
    ensures LoginSpec(WithLockout(users, i, lk), EarlierModel, email, password, device, now, matches, "", "").users ==
            WithLockout(users, i, US.IncAttempts(lk, now))
  {
    var prev := WithLockout(users, i, lk);
    SameEmailsSameIndex(prev, users, Lower(email));
    var u := prev[i];
    assert Compare(EarlierModel, u.password, password, matches) == Ok(false);
    var c := SetLockout(US.IncAttempts(lk, now));
    var after := Update(prev, u.id, c);
    assert LoginSpec(prev, EarlierModel, email, password, device, now, matches, "", "").users == after;
    forall k | 0 <= k < |after|
      ensures after[k] == WithLockout(users, i, US.IncAttempts(lk, now))[k]
    {
      if k != i {
        assert users[k].id != users[i].id;
      }
    }
  }

  lemma FiveWrongPasswordsLockWithBooleanCompare(users: seq<User>, email: string, password: string,
                                                 device: DeviceInfo, now: int, matches: (string, string) -> bool)
    requires WellFormed(users)
    requires var i := IndexOfEmail(users, Lower(email));
             i >= 0 && users[i].lockout == US.Lockout(0, None) && !matches(password, users[i].password)
    ensures var i := IndexOfEmail(users, Lower(email));
            var after := FailedLogins(users, EarlierModel, email, password, device, now, matches, 5);
            0 <= i < |after| && US.IsLocked(after[i].lockout, now)
  {
    WrongPasswordsLockWithBooleanCompare(users, email, password, device, now, matches, 5);
    US.FiveFailuresLock(now);
  }

  /** A rotated refresh token cannot be used again. */
  lemma RefreshTokenIsSingleUse(users: seq<User>, token: string, device: DeviceInfo, now: int, later: int,
                                decode: string -> Option<string>, access: string, newToken: string,
                                access2: string, fresh2: string)
    requires WellFormed(users) && newToken != token
    requires RefreshSpec(users, token, device, now, decode, access, newToken).result.Ok?
    ensures RefreshSpec(RefreshSpec(users, token, device, now, decode, access, newToken).users, token, device, later,
                        decode, access2, fresh2).result == Fail(AppError(401, MSG_BAD_REFRESH))
  {
    var id := decode(token).value;
    var i := IndexOfId(users, id);
    var pulled := Update(users, id, PullToken(token));
    var entry := RefreshToken(newToken, now, now + REFRESH_TOKEN_TTL_MS, device);
    var after := Update(pulled, id, PushToken(entry));
    UpdateKeepsShape(users, id, PullToken(token));
    UpdateKeepsShape(pulled, id, PushToken(entry));
    var ts := after[i].refreshTokens;
    assert ts == WithoutToken(users[i].refreshTokens, token) + [entry];
    forall k | 0 <= k < |ts|
      ensures ts[k].token != token
    {
      assert ts[k] in WithoutToken(users[i].refreshTokens, token) + [entry];
    }
    assert !HoldsLiveToken(after[i], token, later);
  }

  /** A successful refresh removes the presented token and appends exactly the new one. */
  lemma RefreshRotates(users: seq<User>, token: string, device: DeviceInfo, now: int,
                       decode: string -> Option<string>, access: string, newToken: string)
    requires WellFormed(users)
    requires RefreshSpec(users, token, device, now, decode, access, newToken).result.Ok?
    ensures var i := IndexOfId(users, decode(token).value);
            var after := RefreshSpec(users, token, device, now, decode, access, newToken).users;
            0 <= i < |after| &&
            after[i].refreshTokens == WithoutToken(users[i].refreshTokens, token) + [RefreshToken(newToken, now, now + REFRESH_TOKEN_TTL_MS, device)] &&
            (forall k :: 0 <= k < |users| && k != i ==> after[k] == users[k])
  {
    var id := decode(token).value;
    var i := IndexOfId(users, id);
    assert forall k :: 0 <= k < |users| && k != i ==> users[k].id != id;
  }

  class UserRepository {
    var users: seq<User>

    predicate Valid()
      reads this
    {
      WellFormed(users)
    }

    constructor ()
      ensures Valid() && users == []
    {
      users := [];
    }

    /** findByEmail / findByEmailAndSelectPassword: look the address up lower-cased. */
    method FindByEmail(email: string) returns (r: Option<User>)
      ensures r.Some? <==> exists k :: 0 <= k < |users| && users[k].email == Lower(email)
      ensures r.Some? ==> r.value in users && r.value.email == Lower(email)
      ensures r.Some? ==> r.value == users[IndexOfEmail(users, Lower(email))]
    {
      var i := IndexOfEmail(users, Lower(email));
      r := if i < 0 then None else Some(users[i]);
    }

    method FindById(id: string) returns (r: Option<User>)
      ensures r.Some? <==> exists k :: 0 <= k < |users| && users[k].id == id
      ensures r.Some? ==> r.value in users && r.value.id == id
    {
      var i := IndexOfId(users, id);
      r := if i < 0 then None else Some(users[i]);
    }

    /** create: the unique index on email refuses a second document with the same address. */
    method Create(u: User) returns (r: Result<User>)
      requires Valid() && IndexOfId(users, u.id) < 0 && Lower(u.email) == u.email
      modifies this
      ensures Valid()
      ensures IndexOfEmail(old(users), u.email) >= 0 ==> r == Fail(Thrown(MSG_DUPLICATE_KEY)) && users == old(users)
      ensures IndexOfEmail(old(users), u.email) < 0 ==> r == Ok(u) && users == old(users) + [u]
    {
      if IndexOfEmail(users, u.email) >= 0 {
        return Fail(Thrown(MSG_DUPLICATE_KEY));
      }
      users := users + [u];
      r := Ok(u);
    }

    /** update(id, change); null (None) when no document has that id. */
    method UpdateById(id: string, c: Change) returns (r: Option<User>)
      requires Valid()
      modifies this
      ensures Valid()
      ensures users == Update(old(users), id, c)
      ensures IndexOfId(old(users), id) < 0 ==> r == None
      ensures IndexOfId(old(users), id) >= 0 ==> r == Some(users[IndexOfId(old(users), id)])
    {
      UpdateKeepsShape(users, id, c);
      users := Update(users, id, c);
      var i := IndexOfId(users, id);
      r := if i < 0 then None else Some(users[i]);
    }

    method CreateVerificationToken(id: string, token: string, expires: int) returns (r: Option<User>)
      requires Valid()
      modifies this
      ensures Valid() && users == Update(old(users), id, SetVerificationToken(token, expires))
    {
      r := UpdateById(id, SetVerificationToken(token, expires));
    }

    method VerifyEmail(id: string, now: int) returns (r: Option<User>)
      requires Valid()
      modifies this
      ensures Valid() && users == Update(old(users), id, MarkVerified(now))
    {
      r := UpdateById(id, MarkVerified(now));
    }

    method ResetPassword(id: string, hashed: string, now: int) returns (r: Option<User>)
      requires Valid()
      modifies this
      ensures Valid() && users == Update(old(users), id, SetPassword(hashed, now))
    {
      r := UpdateById(id, SetPassword(hashed, now));
    }

    method AddRefreshToken(id: string, entry: RefreshToken) returns (r: Option<User>)
      requires Valid()
      modifies this
      ensures Valid() && users == Update(old(users), id, PushToken(entry))
    {
      r := UpdateById(id, PushToken(entry));
    }

    method RemoveRefreshToken(id: string, token: string) returns (r: Option<User>)
      requires Valid()
      modifies this
      ensures Valid() && users == Update(old(users), id, PullToken(token))
    {
      r := UpdateById(id, PullToken(token));
    }
  }

  class UserService {
    const repo: UserRepository
    const wiring: Wiring

    /**
     * The source wires the current model (CurrentModel), under which wrong
     * passwords never count; EarlierModel gives the boolean comparison the
     * lock-out rule needs.
     */
    constructor (repo: UserRepository, wiring: Wiring)
      ensures this.repo == repo && this.wiring == wiring
    {
      this.repo := repo;
      this.wiring := wiring;
    }

    /** register; `hashed` is the pre-save bcrypt hash, `raw`/`digest` the verification token and its SHA-256. */
    method Register(id: string, email: string, hashed: string, raw: string, digest: string, now: int)
      returns (r: Result<(User, string)>)
      requires repo.Valid() && IndexOfId(repo.users, id) < 0
      modifies repo
      ensures repo.Valid()
      ensures Outcome(r, repo.users) == RegisterSpec(old(repo.users), id, email, hashed, raw, digest, now)
    {
      var existing := repo.FindByEmail(email);
      if existing.Some? {
        return Fail(AppError(400, MSG_EMAIL_TAKEN));
      }
      var u := NewUser(id, email, hashed);
      LowerIdempotent(email);
      var created := repo.Create(u);
      var _ := repo.CreateVerificationToken(id, digest, now + US.VERIFICATION_TOKEN_TTL_MS);
      r := Ok((Sanitized(u), raw));
    }

    /** login. */
    method Login(email: string, password: string, device: DeviceInfo, now: int, matches: (string, string) -> bool,
                 access: string, refresh: string) returns (r: Result<Session>)
      requires repo.Valid()
      modifies repo
      ensures repo.Valid()
      ensures Outcome(r, repo.users) == LoginSpec(old(repo.users), wiring, email, password, device, now, matches, access, refresh)
    {
      var found := repo.FindByEmail(email);
      if found.None? {
        return Fail(AppError(401, MSG_BAD_CREDENTIALS));
      }
      var user := found.value;
      if user.lockout.lockUntil.Some? && user.lockout.lockUntil.value > now {
        return Fail(AppError(401, MSG_LOCKED));
      }
      var cmp := Compare(wiring, user.password, password, matches);
      if cmp.Fail? {
        return Fail(cmp.error);
      }
      if !cmp.value {
        var _ := repo.UpdateById(user.id, SetLockout(US.IncAttempts(user.lockout, now)));
        return Fail(AppError(401, MSG_BAD_CREDENTIALS));
      }
      if !user.isVerified {
        return Fail(AppError(401, MSG_VERIFY_FIRST));
      }
      var _ := repo.AddRefreshToken(user.id, RefreshToken(refresh, now, now + REFRESH_TOKEN_TTL_MS, device));
      var _ := repo.UpdateById(user.id, LoginStamp(now, device.ip));
      r := Ok(Session(user.id, access, refresh));
    }

    /** verifyEmail; `digest` is the SHA-256 of the presented token. */
    method VerifyEmail(digest: string, now: int) returns (r: Result<string>)
      requires repo.Valid()
      modifies repo
      ensures repo.Valid()
      ensures Outcome(r, repo.users) == VerifyEmailSpec(old(repo.users), digest, now)
    {
      var i := IndexOfVerification(repo.users, digest, now);
      if i < 0 {
        return Fail(AppError(400, MSG_BAD_VERIFICATION));
      }
      var _ := repo.VerifyEmail(repo.users[i].id, now);
      r := Ok("Email verified successfully");
    }

    /** refreshToken. */
    method Refresh(token: string, device: DeviceInfo, now: int, decode: string -> Option<string>,
                   access: string, newToken: string) returns (r: Result<(string, string)>)
      requires repo.Valid()
      modifies repo
      ensures repo.Valid()
      ensures Outcome(r, repo.users) == RefreshSpec(old(repo.users), token, device, now, decode, access, newToken)
    {
      var claim := decode(token);
      if claim.None? {
        return Fail(AppError(401, MSG_BAD_REFRESH));
      }
      var found := repo.FindById(claim.value);
      if found.None? || !HoldsLiveToken(found.value, token, now) {
        return Fail(AppError(401, MSG_BAD_REFRESH));
      }
      var _ := repo.RemoveRefreshToken(claim.value, token);
      var _ := repo.AddRefreshToken(claim.value, RefreshToken(newToken, now, now + REFRESH_TOKEN_TTL_MS, device));
      r := Ok((access, newToken));
    }

    /** logout: pull the one token; a missing user is not an error. */
    method Logout(userId: string, token: string) returns (message: string)
      requires repo.Valid()
      modifies repo
      ensures repo.Valid()
      ensures repo.users == Update(old(repo.users), userId, PullToken(token))
      ensures message == "Logged out successfully"
    {
      var _ := repo.RemoveRefreshToken(userId, token);
      message := "Logged out successfully";
    }
  }

  /**
   * Logout removes exactly the entries with the given token from that user,
   * keeps the others in order and as often as stored, and touches nothing else.
   */
  lemma LogoutRemovesOnlyThatToken(users: seq<User>, userId: string, token: string)
    requires WellFormed(users)
    ensures var after := Update(users, userId, PullToken(token));
            forall k :: 0 <= k < |users| ==>
              if users[k].id == userId then
                after[k] == users[k].(refreshTokens := WithoutToken(users[k].refreshTokens, token)) &&
                (forall t :: multiset(after[k].refreshTokens)[t] ==
                               if t.token != token then multiset(users[k].refreshTokens)[t] else 0)
              else after[k] == users[k]
  {
    forall k | 0 <= k < |users| && users[k].id == userId
      ensures forall t :: multiset(WithoutToken(users[k].refreshTokens, token))[t] ==
                            if t.token != token then multiset(users[k].refreshTokens)[t] else 0
    {
      WithoutTokenExact(users[k].refreshTokens, token);
    }
  }
}
