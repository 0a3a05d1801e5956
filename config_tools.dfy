/**
 * `load_configs` of `stock_analyzer.config.tools`: the other configuration loader,
 * which main.py does not call.
 * It validates only the OpenAI key and treats any non-empty
 * DELETE_ASSISTANT_IF_EXISTS value as true.
 */
module ConfigTools {
  import opened Wrappers
  import opened Config

  const DeleteAssistantIfExistsVar: string := "DELETE_ASSISTANT_IF_EXISTS"

  /** The `EnvironmentError` raised when the OpenAI key is missing. */
  datatype LoadError = EnvironmentError(message: string)

  /** The returned tuple (assistant name, assistant instructions, API key, delete flag). */
  type Loaded = (Option<string>, Option<string>, string, bool)

  /** `bool(os.getenv("DELETE_ASSISTANT_IF_EXISTS"))`: Python truthiness of a string. */
  function LoadDeleteFlag(env: Env): (flag: bool)
    ensures flag <==> DeleteAssistantIfExistsVar in env && |env[DeleteAssistantIfExistsVar]| > 0
  {
    match Getenv(env, DeleteAssistantIfExistsVar)
    case None => false
    case Some(v) => v != ""
  }

  /** `load_configs`: raises when OPENAI_API_KEY is unset or empty, otherwise returns
      the tuple with name and instructions possibly absent. */
  function LoadConfigs(env: Env): (r: Result<Loaded, LoadError>)
    ensures r.Err? <==> !IsSet(env, OpenAiKeyVar)
    ensures r.Err? ==> r.error == EnvironmentError(OpenAiKeyMissing)
    ensures r.Ok? ==>
              && r.value.0 == Getenv(env, AssistantNameVar)
              && r.value.1 == Getenv(env, AssistantInstructionsVar)
              && r.value.2 == env[OpenAiKeyVar]
              && r.value.3 == LoadDeleteFlag(env)
  {
    match Getenv(env, OpenAiKeyVar)
    case None => Err(EnvironmentError(OpenAiKeyMissing))
    case Some(apiKey) =>
      if apiKey == "" then Err(EnvironmentError(OpenAiKeyMissing))
      else Ok((Getenv(env, AssistantNameVar), Getenv(env, AssistantInstructionsVar), apiKey, LoadDeleteFlag(env)))
  }

  /** The two loaders disagree on the delete flag: whenever both variables hold the
      same non-empty value that does not spell "true" ("False", "0", "no", ...), the
      flag is on in `load_configs` and off in `get_config`. */
  lemma FlagRulesDiffer(env: Env, v: string)
    requires DeleteAssistantIfExistsVar in env && env[DeleteAssistantIfExistsVar] == v
    requires DeleteIfExistsVar in env && env[DeleteIfExistsVar] == v
    requires v != "" && !SpellsTrue(v)
    ensures LoadDeleteFlag(env)
    ensures !DeleteFlag(env)
  {
  }

  /** Whenever `get_config` succeeds, `load_configs` succeeds too, with the same
      key, name and instructions. */
  lemma GetConfigImpliesLoadConfigs(env: Env)
    requires GetConfig(env).Ok?
    ensures LoadConfigs(env).Ok?
    ensures LoadConfigs(env).value.0 == GetConfig(env).value.assistantName
    ensures LoadConfigs(env).value.1 == GetConfig(env).value.assistantInstructions
    ensures LoadConfigs(env).value.2 == GetConfig(env).value.openAiApiKey
  {
  }
}
