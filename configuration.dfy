/**
 * The tool's configuration: an insertion-ordered dictionary from setting names to values
 * that are either None or a string, built from the process environment (load_config),
 * checked for required settings (validate_config) and displayed with secrets masked
 * (print_config).
 */
module Configuration {
  import opened Wrappers
  import opened Strings

  /** A Python dict: the keys in insertion order and the value stored under each. */
  datatype Config = Config(order: seq<string>, values: map<string, Option<string>>)

  /** What makes `order` and `values` one dictionary: every key once, in both. */
  predicate WellFormed(c: Config) {
    (forall i, j :: 0 <= i < j < |c.order| ==> c.order[i] != c.order[j])
    && c.values.Keys == set k | k in c.order
  }

  /** `config.get(key)`: None both for a missing key and for a key holding None. */
  function Lookup(c: Config, key: string): Option<string> {
    if key in c.values then c.values[key] else None
  }

  /** `config.get(key, default)` rendered as an f-string renders it. */
  function LookupOr(c: Config, key: string, default: string): string {
    if key in c.values then PyStr(c.values[key]) else default
  }

  /** `os.getenv(name)`. */
  function Getenv(env: map<string, string>, name: string): Option<string> {
    if name in env then Some(env[name]) else None
  }

  /** The keys load_config produces, in the order it produces them. */
  const CONFIG_KEYS: seq<string> := [
    "DATABRICKS_HOST", "DATABRICKS_TOKEN",
    "AWS_ACCESS_KEY_ID", "AWS_SECRET_ACCESS_KEY", "AWS_REGION",
    "EMR_CLUSTER_ID", "EMR_PEM_PATH",
    "S3_BUCKET", "GLUE_DATABASE",
    "CATALOG_NAME"
  ]

  /** The region used when AWS_DEFAULT_REGION is not in the environment. */
  const DEFAULT_REGION: string := "us-west-2"

  /**
   * The value load_config stores under `key`: the environment variable of the same name,
   * except for the region, which is read from AWS_DEFAULT_REGION with a default, and the
   * bucket and database names, whose defaults carry `uniqueId`.
   */
  function Setting(env: map<string, string>, uniqueId: string, key: string): Option<string> {
    if key == "AWS_REGION" then Some(Getenv(env, "AWS_DEFAULT_REGION").GetOr(DEFAULT_REGION))
    else if key == "S3_BUCKET" then Some(Getenv(env, "S3_BUCKET").GetOr("iceberg-v3-upgrade-demo-" + uniqueId))
    else if key == "GLUE_DATABASE" then Some(Getenv(env, "GLUE_DATABASE").GetOr("iceberg_v3_demo_" + uniqueId))
    else Getenv(env, key)
  }

  /**
   * load_config over the environment as it stands after the `.env` file has been read;
   * `uniqueId` stands for the eight hex digits taken from a random UUID.
   */
  function LoadConfig(env: map<string, string>, uniqueId: string): (c: Config)
    ensures c.order == CONFIG_KEYS
    ensures c.values.Keys == set k | k in CONFIG_KEYS
    ensures WellFormed(c)
  {
    Config(CONFIG_KEYS, map k | k in CONFIG_KEYS :: Setting(env, uniqueId, k))
  }

  /** The region comes from AWS_DEFAULT_REGION, us-west-2 when that is unset. */
  lemma LoadConfigRegion(env: map<string, string>, uniqueId: string)
    ensures Lookup(LoadConfig(env, uniqueId), "AWS_REGION")
         == Some(if "AWS_DEFAULT_REGION" in env then env["AWS_DEFAULT_REGION"] else "us-west-2")
  {
    assert "AWS_REGION" in CONFIG_KEYS;
  }

  /** The bucket and database names default to demo names carrying the unique suffix. */
  lemma LoadConfigDemoDefaults(env: map<string, string>, uniqueId: string)
    ensures Lookup(LoadConfig(env, uniqueId), "S3_BUCKET")
         == Some(if "S3_BUCKET" in env then env["S3_BUCKET"] else "iceberg-v3-upgrade-demo-" + uniqueId)
    ensures Lookup(LoadConfig(env, uniqueId), "GLUE_DATABASE")
         == Some(if "GLUE_DATABASE" in env then env["GLUE_DATABASE"] else "iceberg_v3_demo_" + uniqueId)
  {
    assert "S3_BUCKET" in CONFIG_KEYS && "GLUE_DATABASE" in CONFIG_KEYS;
  }

  /** Every other setting without a default is the environment variable of its own name, None when unset. */
  lemma LoadConfigPassThrough(env: map<string, string>, uniqueId: string, key: string)
    requires key in CONFIG_KEYS && key != "AWS_REGION" && key != "S3_BUCKET" && key != "GLUE_DATABASE"
    ensures Lookup(LoadConfig(env, uniqueId), key) == Getenv(env, key)
  {
  }

  /** The settings validate_config requires when the caller names none. */
  const DEFAULT_REQUIRED_KEYS: seq<string> := [
    "AWS_ACCESS_KEY_ID", "AWS_SECRET_ACCESS_KEY", "AWS_REGION", "EMR_CLUSTER_ID", "EMR_PEM_PATH"
  ]

  /** The key list validate_config works through: the caller's, or the default five. */
  function RequiredKeys(requiredKeys: Option<seq<string>>): seq<string> {
    if requiredKeys.Some? then requiredKeys.value else DEFAULT_REQUIRED_KEYS
  }

  /** The keys of `keys` whose value is unset or empty, in the order of `keys`. */
  function MissingKeys(c: Config, keys: seq<string>): seq<string>
    decreases |keys|
  {
    if keys == [] then []
    else
      var last := keys[|keys| - 1];
      MissingKeys(c, keys[..|keys| - 1]) + (if Truthy(Lookup(c, last)) then [] else [last])
  }

  /** A key is reported missing exactly when it is required and its value is falsy. */
  lemma {:induction false} MissingKeysExactly(c: Config, keys: seq<string>, k: string)
    ensures k in MissingKeys(c, keys) <==> k in keys && !Truthy(Lookup(c, k))
    decreases |keys|
  {
    if keys != [] {
      var init, last := keys[..|keys| - 1], keys[|keys| - 1];
      MissingKeysExactly(c, init, k);
      assert keys == init + [last];
    }
  }

  /** Missing keys are collected in the order the keys are required. */
  lemma {:induction false} MissingKeysConcat(c: Config, a: seq<string>, b: seq<string>)
    ensures MissingKeys(c, a + b) == MissingKeys(c, a) + MissingKeys(c, b)
    decreases |b|
  {
    if b == [] {
      assert a + b == a;
    } else {
      var init := b[..|b| - 1];
      MissingKeysConcat(c, a, init);
      assert (a + b)[..|a + b| - 1] == a + init;
    }
  }

  /** The error validate_config raises: the missing keys, joined with ", " in its message. */
  datatype ConfigError = MissingConfiguration(keys: seq<string>)

  /** validate_config: collect the falsy required keys in order; raise if any, else return True. */
  method ValidateConfig(c: Config, requiredKeys: Option<seq<string>>) returns (r: Result<bool, ConfigError>)
    ensures r.Ok? <==> forall k :: k in RequiredKeys(requiredKeys) ==> Truthy(Lookup(c, k))
    ensures r.Ok? ==> r.value
    ensures r.Err? ==> r.error.keys == MissingKeys(c, RequiredKeys(requiredKeys)) && r.error.keys != []
  {
    var keys := RequiredKeys(requiredKeys);
    var missing: seq<string> := [];
    for i := 0 to |keys|
      invariant missing == MissingKeys(c, keys[..i])
    {
      assert keys[..i + 1][..i] == keys[..i];
      if !Truthy(Lookup(c, keys[i])) {
        missing := missing + [keys[i]];
      }
    }
    assert keys[..|keys|] == keys;
    forall k | k in keys ensures k !in missing <==> Truthy(Lookup(c, k)) {
      MissingKeysExactly(c, keys, k);
    }
    if missing != [] {
      MissingKeysExactly(c, keys, missing[0]);
      r := Err(MissingConfiguration(missing));
    } else {
      r := Ok(true);
    }
  }

  /** The substrings that mark a setting as secret. */
  const SECRET_MARKERS: seq<string> := ["TOKEN", "SECRET", "PASSWORD", "KEY"]

  /** A key is secret when its upper-cased form contains one of the markers. */
  predicate IsSecretKey(key: string) {
    exists i :: 0 <= i < |SECRET_MARKERS| && Contains(Upper(key), SECRET_MARKERS[i])
  }

  /** The text print_config shows for one setting. */
  function Display(key: string, value: Option<string>, maskSecrets: bool): string {
    if value.None? then "(not set)"
    else if maskSecrets && IsSecretKey(key) then
      if value.value != "" then "********" + LastChars(value.value, 4) else "(not set)"
    else value.value
  }

  /**
   * The masking rule: an unset value reads "(not set)"; a masked secret shows eight stars
   * and at most its last four characters, never more than twelve characters in all; every
   * other value is shown unchanged.
   */
  lemma DisplayRule(key: string, value: Option<string>, maskSecrets: bool)
    ensures value.None? ==> Display(key, value, maskSecrets) == "(not set)"
    ensures value.Some? && maskSecrets && IsSecretKey(key) && value.value == "" ==>
              Display(key, value, maskSecrets) == "(not set)"
    ensures value.Some? && maskSecrets && IsSecretKey(key) && value.value != "" ==>
              var d := Display(key, value, maskSecrets);
              |d| <= 12 && d[..8] == "********"
              && d[8..] == value.value[|value.value| - |d[8..]|..]
              && |d[8..]| == (if |value.value| < 4 then |value.value| else 4)
    ensures value.Some? && !(maskSecrets && IsSecretKey(key)) ==> Display(key, value, maskSecrets) == value.value
  {
  }

  /** The lines print_config writes for the settings, in the dictionary's order. */
  function ConfigLines(c: Config, maskSecrets: bool): (lines: seq<string>)
    ensures |lines| == |c.order|
  {
    seq(|c.order|, i requires 0 <= i < |c.order| =>
      "  " + c.order[i] + ": " + Display(c.order[i], Lookup(c, c.order[i]), maskSecrets))
  }
}
