/** The configuration manager: a YAML document (or the built-in defaults
    when no file is found), read by dotted keys, and the Redis and InfluxDB
    settings with environment overrides.

    Finding and parsing the file is not modelled: `Load` receives the parsed
    document, or nothing when no file exists. The environment is a map. */
module Config {
  import opened Common

  /** A parsed YAML value. */
  datatype Yaml =
    | YDict(entries: map<string, Yaml>)
    | YStr(s: string)
    | YInt(i: int)
    | YReal(r: real)
    | YBool(b: bool)
    | YNull

  // -----------------------------------------------------------------------
  // get

  /** The value at `keys`, descending one dictionary level per segment, or
      `default` when a segment is missing or a level is not a dictionary. */
  function Lookup(value: Yaml, keys: seq<string>, default: Yaml): Yaml
    decreases |keys|
  {
    if keys == [] then value
    else if value.YDict? && keys[0] in value.entries then Lookup(value.entries[keys[0]], keys[1..], default)
    else default
  }

  /** `get(key, default)`. */
  function Get(config: Yaml, key: string, default: Yaml): Yaml
  {
    Lookup(config, SplitOn(key, '.'), default)
  }

  /** The document holding `v` under the nested keys `path`. */
  function Nest(path: seq<string>, v: Yaml): Yaml
  {
    if path == [] then v else YDict(map[path[0] := Nest(path[1..], v)])
  }

  /** A value stored under a path is found under that path. */
  lemma {:induction false} LookupNest(path: seq<string>, v: Yaml, default: Yaml)
    ensures Lookup(Nest(path, v), path, default) == v
  {
    if path != [] {
      LookupNest(path[1..], v, default);
    }
  }

  /** The value reached along `keys`, if every segment is found. */
  function Path(value: Yaml, keys: seq<string>): Option<Yaml>
    decreases |keys|
  {
    if keys == [] then Some(value)
    else if value.YDict? && keys[0] in value.entries then Path(value.entries[keys[0]], keys[1..])
    else None
  }

  /** `get` returns the value reached along the segments, or `default`
      exactly when some segment is missing or a level is not a dictionary. */
  lemma {:induction false} LookupIsPath(value: Yaml, keys: seq<string>, default: Yaml)
    ensures Lookup(value, keys, default) == (if Path(value, keys).Some? then Path(value, keys).value else default)
    decreases |keys|
  {
    if keys != [] && value.YDict? && keys[0] in value.entries {
      LookupIsPath(value.entries[keys[0]], keys[1..], default);
    }
  }

  /** Extending a path by one segment descends into the dictionary reached. */
  lemma {:induction false} PathExtend(value: Yaml, keys: seq<string>, k: string)
    ensures Path(value, keys + [k]) ==
            (match Path(value, keys)
             case Some(w) => if w.YDict? && k in w.entries then Some(w.entries[k]) else None
             case None => None)
    decreases |keys|
  {
    if keys == [] {
      assert keys + [k] == [k];
    } else {
      assert (keys + [k])[1..] == keys[1..] + [k];
      if value.YDict? && keys[0] in value.entries {
        PathExtend(value.entries[keys[0]], keys[1..], k);
      }
    }
  }

  /** Once a segment is missing, longer keys are missing too. */
  lemma {:induction false} PathMissingStays(value: Yaml, keys: seq<string>, more: seq<string>)
    requires Path(value, keys).None?
    ensures Path(value, keys + more).None?
    decreases |keys|
  {
    assert keys != [];
    assert (keys + more)[1..] == keys[1..] + more;
    if value.YDict? && keys[0] in value.entries {
      PathMissingStays(value.entries[keys[0]], keys[1..], more);
    }
  }

  /** A found value is the one reached by descending one level per segment. */
  lemma LookupDescends(m: map<string, Yaml>, k: string, rest: seq<string>, default: Yaml)
    requires k in m
    ensures Lookup(YDict(m), [k] + rest, default) == Lookup(m[k], rest, default)
  {
    assert ([k] + rest)[1..] == rest;
  }

  /** The loop of `get`. */
  method GetValue(config: Yaml, key: string, default: Yaml) returns (value: Yaml)
    ensures value == Get(config, key, default)
  {
    var keys := SplitOn(key, '.');
    value := config;
    for i := 0 to |keys|
      invariant Lookup(value, keys[i..], default) == Get(config, key, default)
    {
      if value.YDict? && keys[i] in value.entries {
        assert keys[i..][1..] == keys[i + 1..];
        value := value.entries[keys[i]];
      } else {
        return default;
      }
    }
  }

  // -----------------------------------------------------------------------
  // Defaults

  function Str(s: string): Yaml { YStr(s) }

  function Dict2(k1: string, v1: Yaml, k2: string, v2: Yaml): Yaml
  {
    YDict(map[k1 := v1, k2 := v2])
  }

  function Dict3(k1: string, v1: Yaml, k2: string, v2: Yaml, k3: string, v3: Yaml): Yaml
  {
    YDict(map[k1 := v1, k2 := v2, k3 := v3])
  }

  function DefaultUser(): Yaml
  {
    YDict(map["id" := Str("primary")])
  }

  function DefaultDatabases(): Yaml
  {
    Dict3("influxdb", DefaultInflux(), "sqlite", DefaultSqlite(), "redis", DefaultRedis())
  }

  function DefaultInflux(): Yaml
  {
    Dict3("url", Str("http://localhost:8086"), "org", Str("seclyzer"), "bucket", Str("seclyzer"))
  }

  function DefaultSqlite(): Yaml
  {
    YDict(map["path" := Str("/var/lib/seclyzer/databases/seclyzer.db")])
  }

  function DefaultRedis(): Yaml
  {
    Dict2("host", Str("localhost"), "port", YInt(6379))
  }

  function DefaultExtractors(): Yaml
  {
    Dict3("keystroke", Dict3("window_seconds", YInt(30), "update_interval", YInt(5), "enabled", YBool(true)),
          "mouse", Dict3("window_seconds", YInt(30), "update_interval", YInt(5), "enabled", YBool(true)),
          "app", Dict2("update_interval", YInt(60), "enabled", YBool(true)))
  }

  function DefaultModels(): Yaml
  {
    Dict3("keystroke", Dict2("threshold", YReal(0.5), "weight", YReal(0.5)),
          "mouse", Dict2("threshold", YReal(0.5), "weight", YReal(0.3)),
          "app", Dict2("threshold", YReal(0.3), "weight", YReal(0.2)))
  }

  function DefaultTrustScorer(): Yaml
  {
    Dict3("window_size", YInt(10), "warning_threshold", YReal(0.4), "alert_threshold", YReal(0.3))
  }

  function DefaultPaths(): Yaml
  {
    Dict3("data_dir", Str("/var/lib/seclyzer"), "config_dir", Str("/etc/seclyzer"), "log_dir", Str("/var/log/seclyzer"))
  }

  /** `_get_defaults`. */
  function Defaults(): Yaml
  {
    YDict(map["user" := DefaultUser(), "databases" := DefaultDatabases(),
              "extractors" := DefaultExtractors(), "models" := DefaultModels(),
              "trust_scorer" := DefaultTrustScorer(),
              "logging" := Dict2("level", Str("INFO"), "format", Str("json")),
              "paths" := DefaultPaths()])
  }

  lemma SplitTwo(a: string, b: string)
    requires '.' !in a && '.' !in b
    ensures SplitOn(a + "." + b, '.') == [a, b]
  {
    assert JoinWith([a, b], '.') == a + "." + b by {
      assert [a, b][1..] == [b];
    }
    SplitJoinOn([a, b], '.');
  }

  lemma SplitThree(a: string, b: string, c: string)
    requires '.' !in a && '.' !in b && '.' !in c
    ensures SplitOn(a + "." + b + "." + c, '.') == [a, b, c]
  {
    assert JoinWith([a, b, c], '.') == a + "." + b + "." + c by {
      assert [a, b, c][1..] == [b, c];
      assert [b, c][1..] == [c];
      assert JoinWith([b, c], '.') == b + "." + c;
      assert JoinWith([a, b, c], '.') == a + "." + (b + "." + c);
    }
    SplitJoinOn([a, b, c], '.');
  }

  /** A dotted key of two plain names reads the nested entry. */
  lemma GetTwoLevels(config: Yaml, a: string, b: string, default: Yaml)
    requires '.' !in a && '.' !in b
    requires config.YDict? && a in config.entries
    requires config.entries[a].YDict? && b in config.entries[a].entries
    ensures Get(config, a + "." + b, default) == config.entries[a].entries[b]
  {
    SplitTwo(a, b);
    LookupDescends(config.entries, a, [b], default);
    LookupDescends(config.entries[a].entries, b, [], default);
    assert [b] + [] == [b];
  }

  /** A dotted key of three plain names reads the nested entry. */
  lemma GetThreeLevels(config: Yaml, a: string, b: string, c: string, default: Yaml)
    requires '.' !in a && '.' !in b && '.' !in c
    requires config.YDict? && a in config.entries
    requires config.entries[a].YDict? && b in config.entries[a].entries
    requires config.entries[a].entries[b].YDict? && c in config.entries[a].entries[b].entries
    ensures Get(config, a + "." + b + "." + c, default) == config.entries[a].entries[b].entries[c]
  {
    SplitThree(a, b, c);
    var inner := config.entries[a];
    LookupDescends(config.entries, a, [b, c], default);
    LookupDescends(inner.entries, b, [c], default);
    LookupDescends(inner.entries[b].entries, c, [], default);
    assert [b] + [c] == [b, c];
    assert [a] + [b, c] == [a, b, c];
    assert [c] + [] == [c];
  }

  /** With no configuration file the user is "primary". */
  lemma DefaultUserId(default: Yaml)
    ensures Get(Defaults(), "user.id", default) == YStr("primary")
  {
    assert Defaults().entries["user"] == DefaultUser();
    GetTwoLevels(Defaults(), "user", "id", default);
    UserIdKey();
  }

  /** An entry of the default database section. */
  lemma DefaultDatabase(section: string, key: string, default: Yaml)
    requires '.' !in section && '.' !in key
    requires section in DefaultDatabases().entries
    requires DefaultDatabases().entries[section].YDict? && key in DefaultDatabases().entries[section].entries
    ensures Get(Defaults(), "databases" + "." + section + "." + key, default)
            == DefaultDatabases().entries[section].entries[key]
  {
    assert Defaults().entries["databases"] == DefaultDatabases();
    GetThreeLevels(Defaults(), "databases", section, key, default);
  }

  /** The SQLite database file is seclyzer.db under the data directory. */
  lemma DefaultSqlitePath(default: Yaml)
    ensures Get(Defaults(), "databases.sqlite.path", default) == YStr("/var/lib/seclyzer/databases/seclyzer.db")
  {
    assert DefaultDatabases().entries["sqlite"] == DefaultSqlite();
    DefaultDatabase("sqlite", "path", default);
    SqlitePathKey();
  }

  /** Redis listens on localhost by default ... */
  lemma DefaultRedisHost(default: Yaml)
    ensures Get(Defaults(), "databases.redis.host", default) == YStr("localhost")
  {
    assert DefaultDatabases().entries["redis"] == DefaultRedis();
    assert "host" in DefaultRedis().entries;
    DefaultDatabase("redis", "host", default);
    RedisHostKey();
  }

  /** ... on port 6379. */
  lemma DefaultRedisPort(default: Yaml)
    ensures Get(Defaults(), "databases.redis.port", default) == YInt(6379)
  {
    assert DefaultDatabases().entries["redis"] == DefaultRedis();
    assert "port" in DefaultRedis().entries;
    DefaultDatabase("redis", "port", default);
    RedisPortKey();
  }

  // The dotted keys of the defaults, spelled out.
  lemma UserIdKey() ensures "user" + "." + "id" == "user.id" {}
  lemma SqlitePathKey() ensures "databases" + "." + "sqlite" + "." + "path" == "databases.sqlite.path" {}
  lemma RedisHostKey() ensures "databases" + "." + "redis" + "." + "host" == "databases.redis.host" {}
  lemma RedisPortKey() ensures "databases" + "." + "redis" + "." + "port" == "databases.redis.port" {}

  // -----------------------------------------------------------------------
  // int() and the Redis and InfluxDB settings

  /** `int(v)` for a configuration value; `None` where it raises. */
  function ToInt(v: Yaml): Option<int>
  {
    match v
    case YInt(i) => Some(i)
    case YBool(b) => Some(if b then 1 else 0)
    case YReal(r) => Some(Trunc(r))
    case YStr(s) => ParseInt(s)
    case _ => None
  }

  /** `os.getenv(name, fallback)`. */
  function GetEnv(env: map<string, string>, name: string, fallback: Yaml): Yaml
  {
    if name in env then YStr(env[name]) else fallback
  }

  datatype RedisConfig = RedisConfig(host: Yaml, port: int, password: Option<string>)

  /** `get_redis_config`; `None` where `int()` raises. */
  function RedisSettings(config: Yaml, env: map<string, string>): Option<RedisConfig>
  {
    var host := GetEnv(env, "REDIS_HOST", Get(config, "databases.redis.host", Str("localhost")));
    var port := ToInt(GetEnv(env, "REDIS_PORT", Get(config, "databases.redis.port", YInt(6379))));
    if port.None? then None
    else Some(RedisConfig(host, port.value, if "REDIS_PASSWORD" in env then Some(env["REDIS_PASSWORD"]) else None))
  }

  /** The environment wins over the configuration, and the port is an int. */
  lemma RedisPrefersEnvironment(config: Yaml, env: map<string, string>)
    ensures "REDIS_HOST" in env && RedisSettings(config, env).Some? ==>
              RedisSettings(config, env).value.host == YStr(env["REDIS_HOST"])
    ensures "REDIS_HOST" !in env && RedisSettings(config, env).Some? ==>
              RedisSettings(config, env).value.host == Get(config, "databases.redis.host", Str("localhost"))
    ensures "REDIS_PORT" in env ==>
              (RedisSettings(config, env).Some? <==> ParseInt(env["REDIS_PORT"]).Some?)
              && (RedisSettings(config, env).Some? ==> RedisSettings(config, env).value.port == ParseInt(env["REDIS_PORT"]).value)
    ensures "REDIS_PORT" !in env && Get(config, "databases.redis.port", YInt(6379)).YInt? ==>
              RedisSettings(config, env).Some?
              && RedisSettings(config, env).value.port == Get(config, "databases.redis.port", YInt(6379)).i
  {
    RedisPortSource(config, env);
  }

  /** The port is read from `REDIS_PORT` when set, else from the configuration. */
  lemma RedisPortSource(config: Yaml, env: map<string, string>)
    ensures RedisSettings(config, env).None? <==> RedisPort(config, env).None?
    ensures RedisSettings(config, env).Some? ==> RedisSettings(config, env).value.port == RedisPort(config, env).value
  {
  }

  function RedisPort(config: Yaml, env: map<string, string>): Option<int>
  {
    if "REDIS_PORT" in env then ParseInt(env["REDIS_PORT"]) else ToInt(Get(config, "databases.redis.port", YInt(6379)))
  }

  /** With the defaults and no environment, Redis is localhost:6379 with no
      password. */
  lemma RedisDefaults()
    ensures RedisSettings(Defaults(), map[]) == Some(RedisConfig(YStr("localhost"), 6379, None))
  {
    DefaultRedisHost(Str("localhost"));
    DefaultRedisPort(YInt(6379));
  }

  datatype InfluxConfig = InfluxConfig(url: Yaml, token: string, org: Yaml, bucket: Yaml)

  /** `get_influx_config`. */
  function InfluxSettings(config: Yaml, env: map<string, string>): InfluxConfig
  {
    InfluxConfig(
      GetEnv(env, "INFLUX_URL", Get(config, "databases.influxdb.url", Str("http://localhost:8086"))),
      if "INFLUX_TOKEN" in env then env["INFLUX_TOKEN"] else "",
      GetEnv(env, "INFLUX_ORG", Get(config, "databases.influxdb.org", Str("seclyzer"))),
      GetEnv(env, "INFLUX_BUCKET", Get(config, "databases.influxdb.bucket", Str("seclyzer"))))
  }

  lemma InfluxPrefersEnvironment(config: Yaml, env: map<string, string>)
    ensures "INFLUX_URL" in env ==> InfluxSettings(config, env).url == YStr(env["INFLUX_URL"])
    ensures "INFLUX_ORG" in env ==> InfluxSettings(config, env).org == YStr(env["INFLUX_ORG"])
    ensures "INFLUX_BUCKET" in env ==> InfluxSettings(config, env).bucket == YStr(env["INFLUX_BUCKET"])
    ensures "INFLUX_URL" !in env ==>
              InfluxSettings(config, env).url == Get(config, "databases.influxdb.url", Str("http://localhost:8086"))
  {
  }

  // -----------------------------------------------------------------------
  // The manager object

  class ConfigManager {
    var config: Yaml

    /** `__init__`, which loads. */
    constructor(found: Option<Yaml>)
      ensures config == (if found.Some? then found.value else Defaults())
    {
      config := if found.Some? then found.value else Defaults();
    }

    /** `load`: the parsed file when one was found, else the defaults. */
    method Load(found: Option<Yaml>)
      modifies this
      ensures config == (if found.Some? then found.value else Defaults())
    {
      if found.Some? {
        config := found.value;
      } else {
        config := Defaults();
      }
    }

    method GetKey(key: string, default: Yaml) returns (v: Yaml)
      ensures v == Get(config, key, default)
    {
      v := GetValue(config, key, default);
    }

    /** `get_user_id`. */
    method GetUserId() returns (v: Yaml)
      ensures v == Get(config, "user.id", Str("primary"))
      ensures config == Defaults() ==> v == YStr("primary")
    {
      DefaultUserId(Str("primary"));
      v := GetValue(config, "user.id", Str("primary"));
    }

    method GetRedisConfig(env: map<string, string>) returns (r: Option<RedisConfig>)
      ensures r == RedisSettings(config, env)
    {
      var host := GetValue(config, "databases.redis.host", Str("localhost"));
      if "REDIS_HOST" in env {
        host := YStr(env["REDIS_HOST"]);
      }
      var rawPort := GetValue(config, "databases.redis.port", YInt(6379));
      if "REDIS_PORT" in env {
        rawPort := YStr(env["REDIS_PORT"]);
      }
      var port := ToInt(rawPort);
      if port.None? {
        return None;
      }
      var password := if "REDIS_PASSWORD" in env then Some(env["REDIS_PASSWORD"]) else None;
      r := Some(RedisConfig(host, port.value, password));
    }
  }
}
