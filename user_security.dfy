/*
 * models/user/user.model.js (the user model the services use): lock-out
 * counter, password history, password comparison, token expiries and the
 * serialisation transform. bcrypt and SHA-256 are inputs: `matches` stands
 * for bcrypt.compare and hashed values are passed in.
 */
module UserSecurity {
  import opened Common

  const MAX_LOGIN_ATTEMPTS: int := 5
  const LOCK_TIME_MS: int := 2 * HOUR_MS
  const PASSWORD_HISTORY_LIMIT: int := 5
  const RESET_TOKEN_TTL_MS: int := 10 * MINUTE_MS
  const VERIFICATION_TOKEN_TTL_MS: int := DAY_MS

  const MSG_NOT_SELECTED: string := "Password comparison failed: Password field not selected in query"
  const MSG_INVALID_PASSWORD: string := "Password comparison failed: Invalid password"

  /** security.loginAttempts and security.lockUntil (a Date, so any set value is truthy). */
  datatype Lockout = Lockout(loginAttempts: int, lockUntil: Option<int>)

  /** isLocked: lockUntil is set and strictly later than now. */
  predicate IsLocked(s: Lockout, now: int)
  {
    s.lockUntil.Some? && s.lockUntil.value > now
  }

  /** The update incLoginAttempts sends to the database. */
  function IncAttempts(s: Lockout, now: int): (r: Lockout)
    ensures s.lockUntil.Some? && s.lockUntil.value < now ==> r == Lockout(1, None)
    ensures !(s.lockUntil.Some? && s.lockUntil.value < now) ==> r.loginAttempts == s.loginAttempts + 1
    ensures IsLocked(s, now) ==> r.lockUntil == s.lockUntil
    ensures !(s.lockUntil.Some? && s.lockUntil.value < now) && !IsLocked(s, now) ==>
              r.lockUntil == (if s.loginAttempts + 1 >= MAX_LOGIN_ATTEMPTS then Some(now + LOCK_TIME_MS) else s.lockUntil)
  {
    if s.lockUntil.Some? && s.lockUntil.value < now then
      Lockout(1, None)
    else
      var updated := s.(loginAttempts := s.loginAttempts + 1);
      if s.loginAttempts + 1 >= MAX_LOGIN_ATTEMPTS && !IsLocked(s, now) then
        updated.(lockUntil := Some(now + LOCK_TIME_MS))
      else
        updated
  }

  /** resetLoginAttempts: counter 0, lock cleared. */
  function ResetAttempts(s: Lockout): (r: Lockout)
    ensures r.loginAttempts == 0
    ensures forall now :: !IsLocked(r, now)
  {
    Lockout(0, None)
  }

  /** n failed attempts in a row at the same instant. */
  function FailTimes(s: Lockout, now: int, n: nat): Lockout
  {
    if n == 0 then s else IncAttempts(FailTimes(s, now, n - 1), now)
  }

  /**
   * From a clean account, n failures at one instant leave n attempts, and the
   * fifth one sets a two-hour lock that the later ones do not extend.
   */
  lemma {:induction false} FailuresLockAfterFive(now: int, n: nat)
    ensures FailTimes(Lockout(0, None), now, n).loginAttempts == n
    ensures n < MAX_LOGIN_ATTEMPTS ==> FailTimes(Lockout(0, None), now, n).lockUntil == None
    ensures n >= MAX_LOGIN_ATTEMPTS ==> FailTimes(Lockout(0, None), now, n).lockUntil == Some(now + LOCK_TIME_MS)
  {
    if n > 0 {
      FailuresLockAfterFive(now, n - 1);
    }
  }

  /** Five failures lock the account; four do not. */
  lemma FiveFailuresLock(now: int)
    ensures IsLocked(FailTimes(Lockout(0, None), now, 5), now)
    ensures !IsLocked(FailTimes(Lockout(0, None), now, 4), now)
  {
    FailuresLockAfterFive(now, 5);
    FailuresLockAfterFive(now, 4);
  }

  /** Once the lock has passed, the next failure restarts the count at 1 with no lock. */
  lemma ExpiredLockRestartsCount(s: Lockout, now: int)
    requires s.lockUntil.Some? && s.lockUntil.value < now
    ensures IncAttempts(s, now) == Lockout(1, None) && !IsLocked(IncAttempts(s, now), now)
  {
  }

  /** One entry of security.passwordHistory. */
  datatype HistoryEntry = HistoryEntry(password: string, changedAt: int)

  /** The history update of the pre-save hook: drop the oldest entry when 5 are held, then append. */
  function PushHistory(h: seq<HistoryEntry>, e: HistoryEntry): (r: seq<HistoryEntry>)
    ensures |r| > 0 && r[|r| - 1] == e
    ensures |h| <= PASSWORD_HISTORY_LIMIT ==> |r| <= PASSWORD_HISTORY_LIMIT
    ensures |h| < PASSWORD_HISTORY_LIMIT ==> r == h + [e]
  {
    if |h| >= PASSWORD_HISTORY_LIMIT then h[1..] + [e] else h + [e]
  }

  /** The history left by a series of password changes starting from an empty one. */
  function HistoryAfter(changes: seq<HistoryEntry>): seq<HistoryEntry>
  {
    if changes == [] then [] else PushHistory(HistoryAfter(changes[..|changes| - 1]), changes[|changes| - 1])
  }

  /** The history always holds exactly the last min(n, 5) changes, oldest first. */
  lemma {:induction false} HistoryKeepsLastFive(changes: seq<HistoryEntry>)
    ensures HistoryAfter(changes) == changes[|changes| - Kept(|changes|)..]
  {
    if changes != [] {
      var n := |changes|;
      var init, e := changes[..n - 1], changes[n - 1];
      assert init + [e] == changes;
      HistoryKeepsLastFive(init);
      var prev := init[n - 1 - Kept(n - 1)..];
      assert HistoryAfter(changes) == PushHistory(prev, e);
      if n - 1 < PASSWORD_HISTORY_LIMIT {
        assert prev == init;
      } else {
        assert prev[1..] == changes[n - PASSWORD_HISTORY_LIMIT..n - 1];
        assert changes[n - PASSWORD_HISTORY_LIMIT..] == changes[n - PASSWORD_HISTORY_LIMIT..n - 1] + [e];
      }
    }
  }

  /** How many of n changes the history retains. */
  function Kept(n: nat): nat
  {
    if n < PASSWORD_HISTORY_LIMIT then n else PASSWORD_HISTORY_LIMIT
  }

  /**
   * comparePassword of this model: a mismatch or a missing (unselected)
   * password is thrown, so the result is never Ok(false).
   */
  function ComparePassword(stored: Option<string>, candidate: string, matches: (string, string) -> bool): (r: Result<bool>)
    ensures r.Ok? ==> r.value
    ensures r.Ok? <==> stored.Some? && stored.value != "" && matches(candidate, stored.value)
    ensures (stored.None? || stored.value == "") ==> r == Fail(Thrown(MSG_NOT_SELECTED))
  {
    if stored.None? || stored.value == "" then Fail(Thrown(MSG_NOT_SELECTED))
    else if !matches(candidate, stored.value) then Fail(Thrown(MSG_INVALID_PASSWORD))
    else Ok(true)
  }

  /** The fields the toJSON / toObject transform deletes. */
  const SECRET_FIELDS: set<string> := {"password", "refreshTokens", "emailVerification", "passwordReset"}

  /** The toJSON / toObject transform over a document seen as field name to value. */
  function Serialize<V>(doc: map<string, V>): (r: map<string, V>)
    ensures forall k :: k in r <==> k in doc && k !in SECRET_FIELDS
    ensures forall k :: k in r ==> r[k] == doc[k]
  {
    map k | k in doc && k !in SECRET_FIELDS :: doc[k]
  }

  lemma SerializeIdempotent<V>(doc: map<string, V>)
    ensures Serialize(Serialize(doc)) == Serialize(doc)
    ensures "password" !in Serialize(doc) && "refreshTokens" !in Serialize(doc)
  {
  }

  /** The security part of one user document, with the fields its methods change. */
  class AccountDoc {
    var password: Option<string>
    var passwordModified: bool
    var lockout: Lockout
    var passwordHistory: seq<HistoryEntry>
    var lastPasswordChange: Option<int>
    var lastLogin: Option<int>
    var lastLoginIP: Option<string>
    var loginCount: int
    var resetToken: Option<string>
    var resetExpires: Option<int>
    var verificationToken: Option<string>
    var verificationExpires: Option<int>

    predicate Valid()
      reads this
    {
      |passwordHistory| <= PASSWORD_HISTORY_LIMIT && lockout.loginAttempts >= 0
    }

    /** A new document with the schema defaults; the password is set and not yet hashed. */
    constructor (plain: string)
      ensures Valid()
      ensures password == Some(plain) && passwordModified
      ensures lockout == Lockout(0, None) && passwordHistory == [] && loginCount == 0
    {
      password := Some(plain);
      passwordModified := true;
      lockout := Lockout(0, None);
      passwordHistory := [];
      lastPasswordChange := None;
      lastLogin := None;
      lastLoginIP := None;
      loginCount := 0;
      resetToken := None;
      resetExpires := None;
      verificationToken := None;
      verificationExpires := None;
    }

    /** Assigning user.password marks the path modified. */
    method SetPassword(plain: string)
      modifies this
      ensures password == Some(plain) && passwordModified
      ensures lockout == old(lockout) && passwordHistory == old(passwordHistory)
      ensures lastPasswordChange == old(lastPasswordChange) && loginCount == old(loginCount)
    {
      password := Some(plain);
      passwordModified := true;
    }

    /** The password pre-save hook; `hashed` is bcrypt.hash of the current password. */
    method Save(now: int, hashed: string)
      requires Valid()
      modifies this
      ensures Valid()
      ensures old(passwordModified) ==>
                password == Some(hashed) &&
                passwordHistory == PushHistory(old(passwordHistory), HistoryEntry(hashed, now)) &&
                lastPasswordChange == Some(now)
      ensures !old(passwordModified) ==>
                password == old(password) && passwordHistory == old(passwordHistory) &&
                lastPasswordChange == old(lastPasswordChange)
      ensures !passwordModified && lockout == old(lockout) && loginCount == old(loginCount)
    {
      if passwordModified {
        password := Some(hashed);
        passwordHistory := PushHistory(passwordHistory, HistoryEntry(hashed, now));
        lastPasswordChange := Some(now);
      }
      passwordModified := false;
    }

    /** isLocked. */
    method Locked(now: int) returns (locked: bool)
      ensures locked <==> lockout.lockUntil.Some? && lockout.lockUntil.value > now
    {
      locked := lockout.lockUntil.Some? && lockout.lockUntil.value > now;
    }

    /** incLoginAttempts. */
    method IncLoginAttempts(now: int)
      requires Valid()
      modifies this
      ensures Valid()
      ensures lockout == IncAttempts(old(lockout), now)
      ensures password == old(password) && passwordHistory == old(passwordHistory)
    {
      if lockout.lockUntil.Some? && lockout.lockUntil.value < now {
        lockout := Lockout(1, None);
        return;
      }
      var lockNow := lockout.loginAttempts + 1 >= MAX_LOGIN_ATTEMPTS && !IsLocked(lockout, now);
      lockout := lockout.(loginAttempts := lockout.loginAttempts + 1);
      if lockNow {
        lockout := lockout.(lockUntil := Some(now + LOCK_TIME_MS));
      }
    }

    /** resetLoginAttempts. */
    method ResetLoginAttempts()
      requires Valid()
      modifies this
      ensures Valid()
      ensures lockout == Lockout(0, None)
      ensures password == old(password) && passwordHistory == old(passwordHistory)
    {
      lockout := Lockout(0, None);
    }

    /** updateLastLogin: stamp time and address and count the login. */
    method UpdateLastLogin(now: int, ip: string)
      requires Valid()
      modifies this
      ensures Valid()
      ensures lastLogin == Some(now) && lastLoginIP == Some(ip) && loginCount == old(loginCount) + 1
      ensures lockout == old(lockout) && password == old(password)
    {
      lastLogin := Some(now);
      lastLoginIP := Some(ip);
      loginCount := loginCount + 1;
    }

    /** createPasswordResetToken: `raw` is the hex token handed out, `digest` its SHA-256. */
    method CreatePasswordResetToken(raw: string, digest: string, now: int) returns (token: string)
      modifies this
      ensures token == raw
      ensures resetToken == Some(digest) && resetExpires == Some(now + RESET_TOKEN_TTL_MS)
      ensures lockout == old(lockout) && password == old(password)
    {
      resetToken := Some(digest);
      resetExpires := Some(now + RESET_TOKEN_TTL_MS);
      token := raw;
    }

    /** createEmailVerificationToken: valid for 24 hours. */
    method CreateEmailVerificationToken(raw: string, digest: string, now: int) returns (token: string)
      modifies this
      ensures token == raw
      ensures verificationToken == Some(digest) && verificationExpires == Some(now + VERIFICATION_TOKEN_TTL_MS)
      ensures lockout == old(lockout) && password == old(password)
    {
      verificationToken := Some(digest);
      verificationExpires := Some(now + VERIFICATION_TOKEN_TTL_MS);
      token := raw;
    }
  }
}
