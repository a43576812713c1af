/** Connection settings for the shared Redis instance (`redisConfig`). */
module RedisConfig {
  import opened Wrappers
  import opened Text

  /** `process.env[key] || default`: an unset or empty variable takes the default. */
  function EnvOr(env: map<string, string>, key: string, default: string): (r: string)
    ensures key !in env || env[key] == "" ==> r == default
    ensures key in env && env[key] != "" ==> r == env[key]
  {
    if key in env && env[key] != "" then env[key] else default
  }

  /** `port` and `db` hold the result of `parseInt`, `None` standing for `NaN`. */
  datatype Config = Config(
    host: string,
    port: Option<int>,
    password: Option<string>,
    db: Option<int>,
    maxRetriesPerRequest: nat,
    enableReadyCheck: bool,
    lazyConnect: bool)

  function FromEnv(env: map<string, string>): (c: Config)
    ensures c.maxRetriesPerRequest == 3 && c.enableReadyCheck && c.lazyConnect
    ensures c.host == EnvOr(env, "REDIS_HOST", "db-server-redis")
    ensures c.port == ParseInt(EnvOr(env, "REDIS_PORT", "6379"))
    ensures c.db == ParseInt(EnvOr(env, "REDIS_DB", "0"))
    ensures c.password.None? <==> ("REDIS_PASSWORD" !in env || env["REDIS_PASSWORD"] == "")
  {
    Config(
      EnvOr(env, "REDIS_HOST", "db-server-redis"),
      ParseInt(EnvOr(env, "REDIS_PORT", "6379")),
      if "REDIS_PASSWORD" in env && env["REDIS_PASSWORD"] != "" then Some(env["REDIS_PASSWORD"]) else None,
      ParseInt(EnvOr(env, "REDIS_DB", "0")),
      3, true, true)
  }

  /** With nothing configured the client connects to port 6379, database 0. */
  lemma DefaultsWhenUnset(env: map<string, string>)
    requires "REDIS_PORT" !in env && "REDIS_DB" !in env
    ensures FromEnv(env).port == Some(6379) && FromEnv(env).db == Some(0)
  {
    assert NatToString(6379) == "6379" by {
      assert NatToString(6) == "6";
      assert NatToString(63) == "63";
      assert NatToString(637) == "637";
    }
    ParseIntOfNatToString(6379);
    assert NatToString(0) == "0";
    ParseIntOfNatToString(0);
  }

  /** A configured decimal port is read back exactly. */
  lemma ConfiguredPortIsRead(env: map<string, string>, port: nat)
    requires "REDIS_PORT" in env && env["REDIS_PORT"] == NatToString(port)
    ensures FromEnv(env).port == Some(port)
  {
    ParseIntOfNatToString(port);
  }

  /** `retryStrategy(times)`: the delay before reconnection attempt `times`. */
  function RetryDelay(times: int): int {
    if times * 50 < 2000 then times * 50 else 2000
  }

  lemma RetryDelayShape(times: int)
    ensures RetryDelay(times) <= 2000
    ensures times <= 40 ==> RetryDelay(times) == 50 * times
    ensures times >= 40 ==> RetryDelay(times) == 2000
    ensures times >= 0 ==> RetryDelay(times) >= 0
  {
  }

  lemma RetryDelayMonotone(a: int, b: int)
    requires a <= b
    ensures RetryDelay(a) <= RetryDelay(b)
  {
  }
}
