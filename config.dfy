/**
 * The application configuration of `stock_analyzer.config`: the settings are read
 * from an environment (a map from variable name to value), the three credentials
 * are validated in a fixed order and the delete flag is parsed case-insensitively.
 */
module Config {
  import opened Wrappers

  /** A process environment; a variable absent from the map is unset. */
  type Env = map<string, string>

  const OpenAiKeyVar: string := "OPENAI_API_KEY"
  const AlphaVantageKeyVar: string := "ALPHAVANTAGE_API_KEY"
  const AlphaVantageUrlVar: string := "ALPHAVANTAGE_BASE_URL"
  const DeleteIfExistsVar: string := "DELETE_IF_EXISTS"
  const AssistantNameVar: string := "ASSISTANT_NAME"
  const AssistantInstructionsVar: string := "ASSISTANT_INSTRUCTIONS"

  const OpenAiKeyMissing: string := "OPENAI_API_KEY not present"
  const AlphaVantageKeyMissing: string := "ALPHAVANTAGE_API_KEY not present"
  const AlphaVantageUrlMissing: string := "ALPHAVANTAGE_BASE_URL not configured"

  /** The frozen `AppConfig` record. */
  datatype AppConfig = AppConfig(
    assistantName: Option<string>,
    assistantInstructions: Option<string>,
    openAiApiKey: string,
    alphaVantageApiKey: string,
    alphaVantageBaseUrl: string,
    deleteIfExists: bool)

  /** The `RuntimeError` raised for a missing setting, with its message. */
  datatype ConfigError = RuntimeError(message: string)

  /** `os.getenv(name)`. */
  function Getenv(env: Env, name: string): (r: Option<string>)
    ensures r.Some? <==> name in env
    ensures r.Some? ==> r.value == env[name]
  {
    if name in env then Some(env[name]) else None
  }

  /** Python truthiness of `os.getenv(name)`: set and not empty. */
  predicate IsSet(env: Env, name: string) {
    name in env && env[name] != ""
  }

  /** `str.lower` on one character; only ASCII letters matter for comparing with "true". */
  function LowerChar(c: char): (l: char)
    ensures 'A' <= c <= 'Z' ==> l as int == c as int + 32
    ensures !('A' <= c <= 'Z') ==> l == c
  {
    if 'A' <= c <= 'Z' then (c as int + 32) as char else c
  }

  function Lower(s: string): (r: string)
    ensures |r| == |s|
    ensures forall i :: 0 <= i < |s| ==> r[i] == LowerChar(s[i])
  {
    seq(|s|, i requires 0 <= i < |s| => LowerChar(s[i]))
  }

  /** The sixteen spellings of "true" in any mix of upper and lower case. */
  predicate SpellsTrue(v: string) {
    |v| == 4 && v[0] in "tT" && v[1] in "rR" && v[2] in "uU" && v[3] in "eE"
  }

  /** `os.getenv("DELETE_IF_EXISTS", "False").lower() == "true"`: set, and "true" in
      any case; unset falls back to "False" and so gives false. */
  function DeleteFlag(env: Env): (flag: bool)
    ensures flag <==> DeleteIfExistsVar in env && SpellsTrue(env[DeleteIfExistsVar])
  {
    var v := Getenv(env, DeleteIfExistsVar).GetOr("False");
    var l := Lower(v);
    assert l == "true" <==> |v| == 4 && l[0] == 't' && l[1] == 'r' && l[2] == 'u' && l[3] == 'e';
    l == "true"
  }

  /** `get_config`: the first missing credential, in the order OpenAI key, Alpha Vantage key,
      Alpha Vantage base URL, raises; otherwise every field is copied from the environment. */
  function GetConfig(env: Env): (r: Result<AppConfig, ConfigError>)
    ensures r.Ok? <==> IsSet(env, OpenAiKeyVar) && IsSet(env, AlphaVantageKeyVar) && IsSet(env, AlphaVantageUrlVar)
    ensures !IsSet(env, OpenAiKeyVar) ==> r == Err(RuntimeError(OpenAiKeyMissing))
    ensures IsSet(env, OpenAiKeyVar) && !IsSet(env, AlphaVantageKeyVar) ==> r == Err(RuntimeError(AlphaVantageKeyMissing))
    ensures IsSet(env, OpenAiKeyVar) && IsSet(env, AlphaVantageKeyVar) && !IsSet(env, AlphaVantageUrlVar) ==>
              r == Err(RuntimeError(AlphaVantageUrlMissing))
    ensures r.Ok? ==>
              && r.value.openAiApiKey == env[OpenAiKeyVar]
              && r.value.alphaVantageApiKey == env[AlphaVantageKeyVar]
              && r.value.alphaVantageBaseUrl == env[AlphaVantageUrlVar]
              && r.value.assistantName == Getenv(env, AssistantNameVar)
              && r.value.assistantInstructions == Getenv(env, AssistantInstructionsVar)
              && r.value.deleteIfExists == DeleteFlag(env)
  {
    if !IsSet(env, OpenAiKeyVar) then Err(RuntimeError(OpenAiKeyMissing))
    else if !IsSet(env, AlphaVantageKeyVar) then Err(RuntimeError(AlphaVantageKeyMissing))
    else if !IsSet(env, AlphaVantageUrlVar) then Err(RuntimeError(AlphaVantageUrlMissing))
    else Ok(AppConfig(
      assistantName := Getenv(env, AssistantNameVar),
      assistantInstructions := Getenv(env, AssistantInstructionsVar),
      openAiApiKey := env[OpenAiKeyVar],
      alphaVantageApiKey := env[AlphaVantageKeyVar],
      alphaVantageBaseUrl := env[AlphaVantageUrlVar],
      deleteIfExists := DeleteFlag(env)))
  }
}
