/** `PrismaService`'s constructor: when `DATABASE_URL` is unset it is assembled from
    the `DB_*` variables, with the password percent-encoded. */
module PrismaConfig {
  import opened Wrappers
  import opened Text
  import opened Percent

  /** The process environment, which the constructor writes to. */
  class ProcessEnv {
    var vars: map<string, string>

    constructor (initial: map<string, string>)
      ensures vars == initial
    {
      vars := initial;
    }
  }

  /** `process.env[key] || default`. */
  function EnvOr(vars: map<string, string>, key: string, default: string): (r: string)
    ensures key !in vars || vars[key] == "" ==> r == default
    ensures key in vars && vars[key] != "" ==> r == vars[key]
  {
    if key in vars && vars[key] != "" then vars[key] else default
  }

  const Scheme := "postgresql://"

  function PostgresUrl(user: string, password: string, host: string, port: string, name: string): string {
    Scheme + (user + ":" + EncodeURIComponent(password)) + "@" + (host + ":" + port + "/" + name + "?schema=public")
  }

  /** The URL built from the `DB_*` variables and their defaults. */
  function BuiltUrl(vars: map<string, string>): string {
    PostgresUrl(EnvOr(vars, "DB_USER", "dbadmin"), EnvOr(vars, "DB_PASSWORD", ""),
                EnvOr(vars, "DB_HOST", "db-server-postgres"), EnvOr(vars, "DB_PORT", "5432"),
                EnvOr(vars, "DB_NAME", "ecommerce"))
  }

  /** The environment after the constructor has run. */
  function Configured(vars: map<string, string>): map<string, string> {
    if "DATABASE_URL" in vars && vars["DATABASE_URL"] != "" then vars
    else vars["DATABASE_URL" := BuiltUrl(vars)]
  }

  method ConfigureDatabaseUrl(env: ProcessEnv)
    modifies env
    ensures env.vars == Configured(old(env.vars))
  {
    if !("DATABASE_URL" in env.vars && env.vars["DATABASE_URL"] != "") {
      var dbHost := EnvOr(env.vars, "DB_HOST", "db-server-postgres");
      var dbPort := EnvOr(env.vars, "DB_PORT", "5432");
      var dbUser := EnvOr(env.vars, "DB_USER", "dbadmin");
      var dbPassword := EnvOr(env.vars, "DB_PASSWORD", "");
      var dbName := EnvOr(env.vars, "DB_NAME", "ecommerce");
      var encodedPassword := EncodeURIComponent(dbPassword);
      env.vars := env.vars["DATABASE_URL" := Scheme + (dbUser + ":" + encodedPassword) + "@"
                                           + (dbHost + ":" + dbPort + "/" + dbName + "?schema=public")];
    }
  }

  /** An already-set URL is kept, and no other variable is ever touched. */
  lemma ConfiguredKeepsOthers(vars: map<string, string>)
    ensures "DATABASE_URL" in vars && vars["DATABASE_URL"] != "" ==> Configured(vars) == vars
    ensures forall k :: k in vars && k != "DATABASE_URL" ==> k in Configured(vars) && Configured(vars)[k] == vars[k]
    ensures "DATABASE_URL" in Configured(vars) && Configured(vars)["DATABASE_URL"] != ""
  {
  }

  /** With none of the `DB_*` variables set, the URL is built from the defaults alone. */
  lemma DefaultUrl(vars: map<string, string>)
    requires forall k :: k in vars ==> vars[k] == ""
    ensures Configured(vars)["DATABASE_URL"] == PostgresUrl("dbadmin", "", "db-server-postgres", "5432", "ecommerce")
  {
    assert !("DATABASE_URL" in vars && vars["DATABASE_URL"] != "");
  }

  /** The empty password, the default, leaves nothing between the `:` after the user
      name and the `@`. */
  lemma EmptyPasswordUrl(user: string, host: string, port: string, name: string)
    ensures var u := PostgresUrl(user, "", host, port, name);
      |u| >= |Scheme| + |user| + 2 && u[|Scheme| + |user|..|Scheme| + |user| + 2] == ":@"
  {
    assert EncodeURIComponent("") == "";
    var u := PostgresUrl(user, "", host, port, name);
    assert u == (Scheme + user) + ":@" + (host + ":" + port + "/" + name + "?schema=public");
  }

  lemma {:induction false} FirstIndexAfter(a: string, c: char, b: string)
    requires c !in a
    ensures c in a + [c] + b && FirstIndex(a + [c] + b, c) == |a|
    decreases |a|
  {
    if |a| > 0 {
      assert (a + [c] + b)[1..] == a[1..] + [c] + b;
      FirstIndexAfter(a[1..], c, b);
    }
  }

  /** How a reader of the URL finds the credentials: after the scheme and up to the
      first `@`, split at the first `:` into the user name and the encoded password. */
  function Credentials(url: string): Option<(string, string)> {
    if |url| >= |Scheme| && url[..|Scheme|] == Scheme && '@' in url[|Scheme|..] then
      var rest := url[|Scheme|..];
      var info := rest[..FirstIndex(rest, '@')];
      if ':' in info then Some((info[..FirstIndex(info, ':')], info[FirstIndex(info, ':') + 1..])) else None
    else None
  }

  /** The password can be recovered from the URL: when the user name holds neither `:`
      nor `@`, reading the credentials back gives the user name and a text that
      percent-decodes to the UTF-8 bytes of the password. */
  lemma PasswordRecoverable(user: string, password: string, host: string, port: string, name: string)
    requires ':' !in user && '@' !in user
    ensures var c := Credentials(PostgresUrl(user, password, host, port, name));
            c.Some? && c.value.0 == user && DecodeBytes(c.value.1) == Utf8String(password)
  {
    var enc := EncodeURIComponent(password);
    EncodedHasNoDelimiter(password);
    var info := user + ":" + enc;
    var tail := host + ":" + port + "/" + name + "?schema=public";
    var url := PostgresUrl(user, password, host, port, name);
    assert url == Scheme + info + "@" + tail;
    NoneInJoin(user, ':', enc, '@');
    assert url[..|Scheme|] == Scheme && url[|Scheme|..] == info + "@" + tail;
    Cut(info, tail, '@');
    Cut(user, enc, ':');
    EncodeURIComponentRoundTrip(password);
  }

  /** `x` does not occur in `a + [c] + b` when it occurs in neither part and is not `c`. */
  lemma NoneInJoin(a: string, c: char, b: string, x: char)
    requires x !in a && x !in b && x != c
    ensures x !in a + [c] + b
  {
    forall k | 0 <= k < |a + [c] + b| ensures (a + [c] + b)[k] != x {
      if k < |a| { assert (a + [c] + b)[k] == a[k]; }
      else if k > |a| { assert (a + [c] + b)[k] == b[k - |a| - 1]; }
    }
  }

  /** Cutting `a + [c] + b` at its first `c`, when `a` holds none, gives back `a` and `b`. */
  lemma Cut(a: string, b: string, c: char)
    requires c !in a
    ensures var s := a + [c] + b; c in s && s[..FirstIndex(s, c)] == a && s[FirstIndex(s, c) + 1..] == b
  {
    FirstIndexAfter(a, c, b);
    assert (a + [c] + b)[..|a|] == a;
    assert (a + [c] + b)[|a| + 1..] == b;
  }
}
