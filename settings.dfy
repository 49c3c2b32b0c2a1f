/**
 * The handler's configuration, read once from the process environment when
 * the module is loaded (lambda/index.py lines 10-14). The environment itself
 * is a parameter here: a map from variable names to their string values.
 */
module Settings {
  import opened Json

  const TRAIL_NAME_VAR := "TRAIL_NAME"
  const MULTI_REGION_VAR := "IS_MULTI_REGION_TRAIL"
  const LOG_BUCKET_VAR := "LOG_BUCKET_NAME"
  const KMS_KEY_VAR := "KMS_KEY_ID"

  /**
   * The configuration the handler runs with. The home region only selects the
   * client's endpoint and is not part of the model.
   */
  datatype Config = Config(
    trailName: string,
    isMultiRegion: bool,
    logBucketName: Option<string>,
    kmsKeyId: Option<string>)

  /** Python truthiness of a `str | None`: present and non-empty. */
  predicate IsSet(o: Option<string>)
  {
    o.Some? && o.value != ""
  }

  /** `os.environ.get(name)`. */
  function EnvGet(env: map<string, string>, name: string): Option<string>
  {
    if name in env then Some(env[name]) else None
  }

  /** One character of `str.lower()`; only the ASCII capitals are folded. */
  function LowerChar(c: char): char
  {
    if 'A' <= c <= 'Z' then (c as int - 'A' as int + 'a' as int) as char else c
  }

  /** `str.lower()`, character by character. */
  function Lower(s: string): (r: string)
    ensures |r| == |s|
    ensures forall i :: 0 <= i < |s| ==> r[i] == LowerChar(s[i])
  {
    if s == [] then [] else [LowerChar(s[0])] + Lower(s[1..])
  }

  /** `s` is "true" in any mix of upper and lower case. */
  predicate SpellsTrue(s: string)
  {
    && |s| == 4
    && (s[0] == 't' || s[0] == 'T')
    && (s[1] == 'r' || s[1] == 'R')
    && (s[2] == 'u' || s[2] == 'U')
    && (s[3] == 'e' || s[3] == 'E')
  }

  lemma LowerIsTrue(s: string)
    ensures Lower(s) == "true" <==> SpellsTrue(s)
  {
  }

  /**
   * `os.environ.get("IS_MULTI_REGION_TRAIL", "true").lower() == "true"`:
   * an unset variable means multi-region, a set one must spell "true".
   */
  function ParseMultiRegion(raw: Option<string>): (multiRegion: bool)
    ensures multiRegion <==> raw.None? || SpellsTrue(raw.value)
  {
    var text := if raw.Some? then raw.value else "true";
    LowerIsTrue(text);
    Lower(text) == "true"
  }

  /** `os.environ.get(name) or None`: an empty value counts as unset. */
  function OrNone(raw: Option<string>): (r: Option<string>)
    ensures r.Some? <==> raw.Some? && raw.value != ""
    ensures r.Some? ==> r == raw
    ensures IsSet(r) <==> IsSet(raw)
  {
    match raw
    case Some(s) => if s == "" then None else raw
    case None => None
  }

  /** The configuration derived from the environment, as at module load. */
  function FromEnvironment(env: map<string, string>): (config: Config)
    ensures config.trailName == (if TRAIL_NAME_VAR in env then env[TRAIL_NAME_VAR] else "")
    ensures config.isMultiRegion <==>
              MULTI_REGION_VAR !in env || SpellsTrue(env[MULTI_REGION_VAR])
    ensures config.logBucketName ==
              (if LOG_BUCKET_VAR in env && env[LOG_BUCKET_VAR] != "" then Some(env[LOG_BUCKET_VAR]) else None)
    ensures config.kmsKeyId ==
              (if KMS_KEY_VAR in env && env[KMS_KEY_VAR] != "" then Some(env[KMS_KEY_VAR]) else None)
    ensures config.logBucketName.Some? <==> IsSet(config.logBucketName)
    ensures config.kmsKeyId.Some? <==> IsSet(config.kmsKeyId)
  {
    Config(
      if TRAIL_NAME_VAR in env then env[TRAIL_NAME_VAR] else "",
      ParseMultiRegion(EnvGet(env, MULTI_REGION_VAR)),
      OrNone(EnvGet(env, LOG_BUCKET_VAR)),
      OrNone(EnvGet(env, KMS_KEY_VAR)))
  }
}
