/** `api_service`: where the OpenAI and OpenWeatherMap keys come from. The
    environment variable wins when it is set and non-empty; otherwise the
    key is read from `backend/config.json`, and a value that is empty or
    still the template's placeholder counts as no key. */
module ApiService {
  import opened Common

  /** The process environment, `os.environ`. */
  type Env = map<string, string>

  /** A configuration file as `json.load` sees it: opening, reading or
      parsing it raises, or it holds a JSON object. */
  datatype ConfigFile = Unreadable | Parsed(fields: map<string, string>)

  /** The configuration files on disk, by path; a path not in the map does
      not exist. */
  type Files = map<string, ConfigFile>

  const ConfigPath: string := "backend/config.json"
  const OpenAIVariable: string := "OPENAI_API_KEY"
  const OpenAIPlaceholder: string := "YOUR_OPENAI_API_KEY_HERE"
  const WeatherVariable: string := "OPENWEATHERMAP_API_KEY"
  const WeatherPlaceholder: string := "YOUR_OPENWEATHERMAP_API_KEY_HERE"

  /** `os.environ.get(name)`, when it is truthy. */
  predicate EnvSet(env: Env, name: string) {
    name in env && env[name] != ""
  }

  /** The config file at `path` holds a usable value for `name`. */
  predicate ConfigHolds(files: Files, path: string, name: string, placeholder: string) {
    && path in files && files[path].Parsed? && name in files[path].fields
    && files[path].fields[name] != "" && files[path].fields[name] != placeholder
  }

  /** The lookup both getters of this module follow. */
  function LookupKey(env: Env, files: Files, path: string, name: string, placeholder: string): (r: Option<string>)
    ensures EnvSet(env, name) ==> r == Some(env[name])
    ensures !EnvSet(env, name) ==>
      (r.Some? <==> ConfigHolds(files, path, name, placeholder))
      && (r.Some? ==> r.value == files[path].fields[name])
    ensures r.Some? ==> r.value != ""
  {
    if name in env && env[name] != "" then Some(env[name])
    else if path !in files then None
    else match files[path]
      case Unreadable => None
      case Parsed(fields) =>
        if name in fields && fields[name] != "" && fields[name] != placeholder then Some(fields[name])
        else None
  }

  /** `get_openai_api_key`. */
  function GetOpenAIApiKey(env: Env, files: Files): Option<string> {
    LookupKey(env, files, ConfigPath, OpenAIVariable, OpenAIPlaceholder)
  }

  /** `get_openweathermap_api_key`. */
  function GetOpenWeatherMapApiKey(env: Env, files: Files): Option<string> {
    LookupKey(env, files, ConfigPath, WeatherVariable, WeatherPlaceholder)
  }

  /** A set environment variable decides alone: the config file is not
      consulted. */
  lemma EnvironmentWins(env: Env, files1: Files, files2: Files, path: string, name: string, placeholder: string)
    requires EnvSet(env, name)
    ensures LookupKey(env, files1, path, name, placeholder) == LookupKey(env, files2, path, name, placeholder)
  {
  }

  /** The template's placeholder is never handed out as a key from the
      file: what the config yields is never the placeholder. */
  lemma PlaceholderNeverReturned(env: Env, files: Files)
    requires !EnvSet(env, OpenAIVariable) && !EnvSet(env, WeatherVariable)
    ensures GetOpenAIApiKey(env, files) != Some(OpenAIPlaceholder)
    ensures GetOpenWeatherMapApiKey(env, files) != Some(WeatherPlaceholder)
  {
  }

  /** Without the environment variable, a missing or unreadable config file
      gives no key. */
  lemma NoFileNoKey(env: Env, files: Files)
    requires !EnvSet(env, OpenAIVariable)
    requires ConfigPath !in files || files[ConfigPath] == Unreadable
    ensures GetOpenAIApiKey(env, files) == None
  {
  }

  /** The two keys are read independently: each depends only on its own
      variable and its own field. */
  lemma KeysIndependent(env: Env, files: Files, other: string, v: string)
    requires other != OpenAIVariable
    ensures GetOpenAIApiKey(env[other := v], files) == GetOpenAIApiKey(env, files)
  {
  }
}
