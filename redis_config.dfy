/*
 * config/redis.config.js: per-environment connection settings and the
 * reconnect back-off shared by all three environments.
 */
module RedisConfig {

  const RETRY_STEP_MS: int := 50
  const RETRY_CAP_MS: int := 2000

  /** retryStrategy: Math.min(times * 50, 2000). */
  function RetryDelay(times: int): (delay: int)
    ensures delay <= RETRY_CAP_MS
    ensures delay == RETRY_CAP_MS || delay == RETRY_STEP_MS * times
    ensures times * RETRY_STEP_MS <= RETRY_CAP_MS ==> delay == RETRY_STEP_MS * times
    ensures times * RETRY_STEP_MS >= RETRY_CAP_MS ==> delay == RETRY_CAP_MS
  {
    if times * RETRY_STEP_MS < RETRY_CAP_MS then times * RETRY_STEP_MS else RETRY_CAP_MS
  }

  /** The delay never decreases as the retry count grows. */
  lemma RetryDelayMonotone(a: int, b: int)
    requires a <= b
    ensures RetryDelay(a) <= RetryDelay(b)
  {
  }

  /** Up to 40 retries the delay grows linearly; from the 40th on it stays at the cap. */
  lemma RetryDelayLinearThenFlat(times: int)
    ensures times <= 40 ==> RetryDelay(times) == 50 * times
    ensures times >= 40 ==> RetryDelay(times) == 2000
  {
  }

  /** Total time spent waiting over the first n retries (times = 1..n). */
  function TotalBackoff(n: nat): int
  {
    if n == 0 then 0 else TotalBackoff(n - 1) + RetryDelay(n)
  }

  lemma {:induction false} TotalBackoffClosedForm(n: nat)
    ensures n <= 40 ==> TotalBackoff(n) == 25 * n * (n + 1)
    ensures n >= 40 ==> TotalBackoff(n) == 41000 + 2000 * (n - 40)
  {
    if n > 0 {
      TotalBackoffClosedForm(n - 1);
    }
  }

  datatype Environment = Development | Test | Production

  datatype Settings = Settings(
    db: int,
    maxRetriesPerRequest: int,
    enableReadyCheck: bool,
    enableOfflineQueue: bool,
    connectTimeout: int,
    commandTimeout: int,
    keepAlive: int,
    family: int,
    keyPrefix: string,
    tls: bool)

  function SettingsFor(env: Environment): (s: Settings)
  {
    match env
    case Development => Settings(0, 3, true, false, 10000, 5000, 30000, 4, "dev:", false)
    case Test => Settings(1, 3, true, false, 10000, 5000, 30000, 4, "test:", false)
    case Production => Settings(0, 3, true, false, 10000, 5000, 30000, 4, "prod:", true)
  }

  /** The settings every environment shares. */
  lemma SharedSettings(env: Environment)
    ensures SettingsFor(env).maxRetriesPerRequest == 3
    ensures SettingsFor(env).connectTimeout == 10000 && SettingsFor(env).commandTimeout == 5000
    ensures SettingsFor(env).keepAlive == 30000 && !SettingsFor(env).enableOfflineQueue
    ensures SettingsFor(env).db == (if env == Test then 1 else 0)
    ensures SettingsFor(env).tls <==> env == Production
  {
  }

  predicate IsPrefix(p: string, s: string)
  {
    |p| <= |s| && s[..|p|] == p
  }

  /**
   * Development and production share database 0, but no environment's key
   * prefix is a prefix of another's (they already differ in the first
   * character), so no key written by one is visible under another's prefix.
   */
  lemma PrefixesSeparateEnvironments(e1: Environment, e2: Environment)
    requires e1 != e2
    ensures !IsPrefix(SettingsFor(e1).keyPrefix, SettingsFor(e2).keyPrefix)
  {
    var p1, p2 := SettingsFor(e1).keyPrefix, SettingsFor(e2).keyPrefix;
    assert p1[0] != p2[0];
  }
}
