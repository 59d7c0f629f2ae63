/** `llm_service`: an older OpenAI key lookup that reads
    `backend/config_openai.json` and has its own placeholder. */
module LlmService {
  import opened Common
  import opened ApiService

  const LlmConfigPath: string := "backend/config_openai.json"
  const LlmPlaceholder: string := "YOUR_API_KEY_HERE"

  /** `get_openai_api_key`, with its early returns. */
  function GetOpenAIApiKey(env: Env, files: Files): (r: Option<string>)
    ensures r.Some? ==> r.value != ""
  {
    if OpenAIVariable in env && env[OpenAIVariable] != "" then Some(env[OpenAIVariable])
    else if LlmConfigPath in files then
      match files[LlmConfigPath]
      case Unreadable => None
      case Parsed(fields) =>
        if OpenAIVariable in fields && fields[OpenAIVariable] != "" && fields[OpenAIVariable] != LlmPlaceholder
        then Some(fields[OpenAIVariable])
        else None
    else None
  }

  /** It is the shared lookup over its own file and placeholder. */
  lemma SameRuleAsApiService(env: Env, files: Files)
    ensures GetOpenAIApiKey(env, files) == LookupKey(env, files, LlmConfigPath, OpenAIVariable, LlmPlaceholder)
  {
  }

  /** With the environment variable set, both services give the same key. */
  lemma ServicesAgreeOnEnvironment(env: Env, files: Files)
    requires EnvSet(env, OpenAIVariable)
    ensures GetOpenAIApiKey(env, files) == ApiService.GetOpenAIApiKey(env, files)
  {
  }

  /** Without it they can disagree: each accepts the other's placeholder,
      and they read different files. */
  lemma ServicesDisagreeOnPlaceholders()
    ensures var files := map[ConfigPath := Parsed(map[OpenAIVariable := LlmPlaceholder]),
                             LlmConfigPath := Parsed(map[OpenAIVariable := OpenAIPlaceholder])];
      && GetOpenAIApiKey(map[], files) == Some(OpenAIPlaceholder)
      && ApiService.GetOpenAIApiKey(map[], files) == Some(LlmPlaceholder)
  {
  }
}
