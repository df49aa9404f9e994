/*
 * services/OTPService.js: a Redis hash per (type, identifier) holding the
 * code, an attempts counter and a creation stamp, with a ten-minute TTL.
 * Redis is modelled as a map from key to record plus the absolute expiry
 * instant; a key counts as present while now <= expiresAt. A store failure
 * is the `fault` input.
 */
module OtpService {
  import opened Common
  import OtpCodes

  const OTP_EXPIRY_SECONDS: int := 10 * 60
  const MAX_ATTEMPTS: int := 3

  const MSG_NOT_FOUND: string := "OTP expired or not found"
  const MSG_MAX_ATTEMPTS: string := "Maximum attempts exceeded"
  const MSG_GENERATE_FAILED: string := "Failed to generate OTP"
  const MSG_VERIFY_FAILED: string := "Failed to verify OTP"
  const MSG_STATUS_FAILED: string := "Failed to check OTP status"
  const MSG_TIME_FAILED: string := "Failed to get OTP remaining time"
  const MSG_ATTEMPTS_FAILED: string := "Failed to get OTP remaining attempts"
  const MSG_DELETE_FAILED: string := "Failed to delete OTP"

  /** The hash stored under one key: fields otp, attempts, createdAt, and the key's expiry instant (ms). */
  datatype OtpRecord = OtpRecord(otp: string, attempts: int, createdAt: int, expiresAt: int)

  type Store = map<string, OtpRecord>

  /** _getOTPKey: `otp:<type>:<identifier>`. */
  function OtpKey(kind: string, identifier: string): string
  {
    "otp:" + kind + ":" + identifier
  }

  /** Keys do not collide as long as the type contains no colon. */
  lemma KeyInjective(k1: string, i1: string, k2: string, i2: string)
    requires ':' !in k1 && ':' !in k2
    requires OtpKey(k1, i1) == OtpKey(k2, i2)
    ensures k1 == k2 && i1 == i2
  {
    var s := OtpKey(k1, i1);
    assert s == "otp:" + k1 + ":" + i1;
    assert s == "otp:" + k2 + ":" + i2;
    assert s[4 + |k1|] == ':' && s[4 + |k2|] == ':';
    assert |k1| == |k2|;
    assert k1 == s[4..4 + |k1|] == k2;
    assert i1 == s[5 + |k1|..] == i2;
  }

  /** The key exists in Redis: it was written and its TTL has not run out. */
  predicate Live(store: Store, key: string, now: int)
  {
    key in store && now <= store[key].expiresAt
  }

  /** Every stored counter lies within 0..MAX_ATTEMPTS. */
  predicate CountersBounded(store: Store)
  {
    forall k :: k in store ==> 0 <= store[k].attempts <= MAX_ATTEMPTS
  }

  /** The outcome of one call: what it returns or throws, and the store afterwards. */
  datatype Step<T> = Step(result: Result<T>, store: Store)

  /** The record generateAndStoreOTP writes (hset otp, attempts '0', createdAt; expire 600). */
  function Generated(store: Store, key: string, otp: string, now: int): Store
  {
    store[key := OtpRecord(otp, 0, now, now + OTP_EXPIRY_SECONDS * SECOND_MS)]
  }

  /** verifyOTP on a working store. */
  function VerifyStep(store: Store, key: string, code: string, now: int): Step<bool>
  {
    if !Live(store, key, now) || store[key].otp == "" then
      Step(Fail(AppError(400, MSG_NOT_FOUND)), store)
    else
      var rec := store[key];
      var attempts := rec.attempts + 1;
      if attempts > MAX_ATTEMPTS then
        Step(Fail(AppError(400, MSG_MAX_ATTEMPTS)), store - {key})
      else
        var counted := store[key := rec.(attempts := attempts)];
        if rec.otp != code then Step(Ok(false), counted)
        else Step(Ok(true), counted - {key})
  }

  lemma VerifyAbsentChangesNothing(store: Store, key: string, code: string, now: int)
    requires !Live(store, key, now)
    ensures VerifyStep(store, key, code, now) == Step(Fail(AppError(400, MSG_NOT_FOUND)), store)
  {
  }

  lemma VerifyWrongCodeKeepsRecord(store: Store, key: string, code: string, now: int)
    requires Live(store, key, now) && store[key].otp != "" && store[key].otp != code
    requires store[key].attempts + 1 <= MAX_ATTEMPTS
    ensures VerifyStep(store, key, code, now).result == Ok(false)
    ensures VerifyStep(store, key, code, now).store == store[key := store[key].(attempts := store[key].attempts + 1)]
  {
  }

  lemma VerifyPreservesBound(store: Store, key: string, code: string, now: int)
    requires CountersBounded(store)
    ensures CountersBounded(VerifyStep(store, key, code, now).store)
  {
  }

  /** Three wrong codes followed by the right one fail: the fourth call exceeds the limit. */
  lemma ThreeWrongThenRightFails(store: Store, key: string, code: string, wrong: string, now: int)
    requires code != "" && wrong != code
    ensures var s0 := Generated(store, key, code, now);
            var s1 := VerifyStep(s0, key, wrong, now);
            var s2 := VerifyStep(s1.store, key, wrong, now);
            var s3 := VerifyStep(s2.store, key, wrong, now);
            var s4 := VerifyStep(s3.store, key, code, now);
            s1.result == s2.result == s3.result == Ok(false) &&
            s4.result == Fail(AppError(400, MSG_MAX_ATTEMPTS)) && key !in s4.store
  {
  }

  /** A successful verification consumes the code: repeating it reports not found. */
  lemma MatchConsumesCode(store: Store, key: string, code: string, now: int, later: int)
    requires Live(store, key, now) && store[key].otp == code && code != ""
    requires store[key].attempts + 1 <= MAX_ATTEMPTS
    ensures VerifyStep(store, key, code, now).result == Ok(true)
    ensures VerifyStep(VerifyStep(store, key, code, now).store, key, code, later).result
            == Fail(AppError(400, MSG_NOT_FOUND))
  {
  }

  /** How many more verifications of this key can still return a boolean. */
  function Budget(store: Store, key: string, now: int): int
  {
    if Live(store, key, now) && store[key].otp != "" then MAX_ATTEMPTS - store[key].attempts else 0
  }

  /** The number of calls in a run of verifications that return a boolean rather than an error. */
  function Answered(store: Store, key: string, codes: seq<string>, now: int): nat
    decreases |codes|
  {
    if codes == [] then 0
    else
      var st := VerifyStep(store, key, codes[0], now);
      (if st.result.Ok? then 1 else 0) + Answered(st.store, key, codes[1..], now)
  }

  /** However the guesses are chosen, no more than the remaining budget of them get an answer. */
  lemma {:induction false} AnsweredWithinBudget(store: Store, key: string, codes: seq<string>, now: int)
    requires Live(store, key, now) ==> store[key].attempts <= MAX_ATTEMPTS
    ensures Answered(store, key, codes, now) <= if Budget(store, key, now) < 0 then 0 else Budget(store, key, now)
    decreases |codes|
  {
    if codes != [] {
      var st := VerifyStep(store, key, codes[0], now);
      AnsweredWithinBudget(st.store, key, codes[1..], now);
    }
  }

  /** A freshly generated code answers at most MAX_ATTEMPTS verifications. */
  lemma AtMostThreeGuesses(store: Store, key: string, otp: string, codes: seq<string>, now: int)
    ensures Answered(Generated(store, key, otp, now), key, codes, now) <= MAX_ATTEMPTS
  {
    AnsweredWithinBudget(Generated(store, key, otp, now), key, codes, now);
  }

  /** Redis TTL reply in seconds: -2 for a missing key, otherwise the remaining time rounded. */
  function TtlSeconds(store: Store, key: string, now: int): int
  {
    if Live(store, key, now) then (store[key].expiresAt - now + 500) / 1000 else -2
  }

  lemma TtlRightAfterGenerate(store: Store, key: string, otp: string, now: int)
    ensures TtlSeconds(Generated(store, key, otp, now), key, now) == OTP_EXPIRY_SECONDS
  {
  }

  class OtpStore {
    var store: Store

    predicate Valid()
      reads this
    {
      CountersBounded(store)
    }

    constructor ()
      ensures Valid() && store == map[]
    {
      store := map[];
    }

    /** generateAndStoreOTP: `bytes` are the six random bytes generateOTP draws. */
    method GenerateAndStore(kind: string, identifier: string, bytes: seq<OtpCodes.byte>, now: int, fault: bool)
      returns (r: Result<string>)
      requires Valid()
      requires |bytes| == OtpCodes.DEFAULT_OTP_LENGTH
      modifies this
      ensures Valid()
      ensures fault ==> r == Fail(AppError(500, MSG_GENERATE_FAILED)) && store == old(store)
      ensures !fault ==> r.Ok? && |r.value| == 6 && (forall i :: 0 <= i < 6 ==> '0' <= r.value[i] <= '9')
      ensures !fault ==> forall i :: 0 <= i < 6 ==> r.value[i] as int - '0' as int == bytes[i] as int % 10
      ensures !fault ==> store == Generated(old(store), OtpKey(kind, identifier), r.value, now)
    {
      if fault {
        return Fail(AppError(500, MSG_GENERATE_FAILED));
      }
      var otp := OtpCodes.GenerateOtp(bytes);
      var key := OtpKey(kind, identifier);
      store := store[key := OtpRecord(otp, 0, now, now + OTP_EXPIRY_SECONDS * SECOND_MS)];
      r := Ok(otp);
    }

    /** verifyOTP: read, count the attempt, compare, delete on success or exhaustion. */
    method Verify(kind: string, identifier: string, code: string, now: int, fault: bool) returns (r: Result<bool>)
      requires Valid()
      modifies this
      ensures Valid()
      ensures fault ==> r == Fail(AppError(500, MSG_VERIFY_FAILED)) && store == old(store)
      ensures !fault ==> Step(r, store) == VerifyStep(old(store), OtpKey(kind, identifier), code, now)
    {
      if fault {
        return Fail(AppError(500, MSG_VERIFY_FAILED));
      }
      var key := OtpKey(kind, identifier);
      if !(key in store && now <= store[key].expiresAt) || store[key].otp == "" {
        return Fail(AppError(400, MSG_NOT_FOUND));
      }
      var data := store[key];
      var attempts := data.attempts + 1;
      if attempts > MAX_ATTEMPTS {
        store := store - {key};
        return Fail(AppError(400, MSG_MAX_ATTEMPTS));
      }
      store := store[key := data.(attempts := attempts)];
      if data.otp != code {
        return Ok(false);
      }
      store := store - {key};
      r := Ok(true);
    }

    /** hasValidOTP: exists(key) === 1. */
    method HasValid(kind: string, identifier: string, now: int, fault: bool) returns (r: Result<bool>)
      ensures fault ==> r == Fail(AppError(500, MSG_STATUS_FAILED))
      ensures !fault ==> r.Ok? && (r.value <==> OtpKey(kind, identifier) in store && now <= store[OtpKey(kind, identifier)].expiresAt)
    {
      if fault {
        return Fail(AppError(500, MSG_STATUS_FAILED));
      }
      var key := OtpKey(kind, identifier);
      r := Ok(key in store && now <= store[key].expiresAt);
    }

    /** getOTPRemainingTime: the key's TTL in seconds, -2 when it does not exist. */
    method RemainingTime(kind: string, identifier: string, now: int, fault: bool) returns (r: Result<int>)
      ensures fault ==> r == Fail(AppError(500, MSG_TIME_FAILED))
      ensures !fault ==> r == Ok(TtlSeconds(store, OtpKey(kind, identifier), now))
      ensures !fault && !Live(store, OtpKey(kind, identifier), now) ==> r.value == -2
      ensures !fault && Live(store, OtpKey(kind, identifier), now) ==> r.value >= 0
    {
      if fault {
        return Fail(AppError(500, MSG_TIME_FAILED));
      }
      r := Ok(TtlSeconds(store, OtpKey(kind, identifier), now));
    }

    /** getOTPRemainingAttempts: MAX_ATTEMPTS - (parseInt(attempts) || 0); a missing key reads as 0 attempts. */
    method RemainingAttempts(kind: string, identifier: string, now: int, fault: bool) returns (r: Result<int>)
      requires Valid()
      ensures fault ==> r == Fail(AppError(500, MSG_ATTEMPTS_FAILED))
      ensures !fault && !Live(store, OtpKey(kind, identifier), now) ==> r == Ok(MAX_ATTEMPTS)
      ensures !fault && Live(store, OtpKey(kind, identifier), now) ==>
                r == Ok(MAX_ATTEMPTS - store[OtpKey(kind, identifier)].attempts)
      ensures r.Ok? ==> 0 <= r.value <= MAX_ATTEMPTS
    {
      if fault {
        return Fail(AppError(500, MSG_ATTEMPTS_FAILED));
      }
      var key := OtpKey(kind, identifier);
      var used := if key in store && now <= store[key].expiresAt then store[key].attempts else 0;
      r := Ok(MAX_ATTEMPTS - used);
    }

    /** deleteOTP. */
    method Delete(kind: string, identifier: string, fault: bool) returns (r: Result<()>)
      requires Valid()
      modifies this
      ensures Valid()
      ensures fault ==> r == Fail(AppError(500, MSG_DELETE_FAILED)) && store == old(store)
      ensures !fault ==> r == Ok(()) && store == old(store) - {OtpKey(kind, identifier)}
    {
      if fault {
        return Fail(AppError(500, MSG_DELETE_FAILED));
      }
      store := store - {OtpKey(kind, identifier)};
      r := Ok(());
    }
  }
}
