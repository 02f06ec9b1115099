/** `getEnvironmentVariable` and `config` of week2/config.ts. The
    environment is a parameter: `processEnv` is `process.env` as the code
    sees it at run time, `inlined` the values the build substituted for the
    literal `process.env.NEXT_PUBLIC_…` reads of `CLIENT_ENVS`. */
module Config {
  import opened Js

  const BaseUrlName := "NEXT_PUBLIC_BASE_URL"
  const ApiUrlName := "NEXT_PUBLIC_API_URL"

  /** `CLIENT_ENVS`: only the two public names. */
  function ClientEnvs(inlined: map<string, string>): (r: map<string, string>)
    ensures r.Keys <= {BaseUrlName, ApiUrlName}
    ensures forall k :: k in r ==> k in inlined && r[k] == inlined[k]
    ensures forall k :: k in {BaseUrlName, ApiUrlName} && k in inlined ==> k in r
  {
    map k | k in inlined.Keys && k in {BaseUrlName, ApiUrlName} :: inlined[k]
  }

  /** `env[name]`: `undefined` when absent. */
  function Get(env: map<string, string>, name: string): Option<string> {
    if name in env then Some(env[name]) else None
  }

  /** The result: the value, or the message both alerted and thrown. */
  datatype Env = Found(value: string) | Missing(message: string)

  /** `process.env[name] || CLIENT_ENVS[name]`, failing on a falsy value. */
  function GetEnvironmentVariable(processEnv: map<string, string>, inlined: map<string, string>, name: string): (r: Env)
    ensures r.Found? ==> r.value != ""
    ensures name in processEnv && processEnv[name] != "" ==> r == Found(processEnv[name])
    ensures (&& !(name in processEnv && processEnv[name] != "") && name in {BaseUrlName, ApiUrlName}
             && name in inlined && inlined[name] != "")
            ==> r == Found(inlined[name])
    ensures r.Missing? <==> !(name in processEnv && processEnv[name] != "")
                            && !(name in {BaseUrlName, ApiUrlName} && name in inlined && inlined[name] != "")
    ensures r.Missing? ==> r.message == "Couldn't find environment variable: " + name
  {
    var fromProcess := Get(processEnv, name);
    var fromClient := Get(ClientEnvs(inlined), name);
    if TruthyText(fromProcess) then Found(fromProcess.value)
    else if TruthyText(fromClient) then Found(fromClient.value)
    else Missing("Couldn't find environment variable: " + name)
  }

  /** A name outside `CLIENT_ENVS` has only `process.env` to fall back on. */
  lemma OnlyPublicNamesFallBack(processEnv: map<string, string>, inlined: map<string, string>, name: string)
    requires name != BaseUrlName && name != ApiUrlName
    ensures GetEnvironmentVariable(processEnv, inlined, name).Found?
            <==> name in processEnv && processEnv[name] != ""
  {
  }

  datatype AppConfig = AppConfig(baseUrl: string, apiUrl: string)

  /** The module's `config`: the base URL is read first, so its absence
      aborts before the API URL is looked up. */
  function LoadConfig(processEnv: map<string, string>, inlined: map<string, string>): (r: Result)
    ensures var base := GetEnvironmentVariable(processEnv, inlined, BaseUrlName);
      var api := GetEnvironmentVariable(processEnv, inlined, ApiUrlName);
      && (base.Missing? ==> r == Aborted(base.message))
      && (base.Found? && api.Missing? ==> r == Aborted(api.message))
      && (r.Loaded? <==> base.Found? && api.Found?)
      && (r.Loaded? ==> r.config == AppConfig(base.value, api.value) && r.config.baseUrl != "" && r.config.apiUrl != "")
  {
    match GetEnvironmentVariable(processEnv, inlined, BaseUrlName)
    case Missing(m) => Aborted(m)
    case Found(base) =>
      match GetEnvironmentVariable(processEnv, inlined, ApiUrlName)
      case Missing(m) => Aborted(m)
      case Found(api) => Loaded(AppConfig(base, api))
  }

  datatype Result = Loaded(config: AppConfig) | Aborted(message: string)

  /** With nothing set anywhere, loading stops at the base URL. */
  lemma NothingSet()
    ensures LoadConfig(map[], map[]) == Aborted("Couldn't find environment variable: " + BaseUrlName)
  {
    assert GetEnvironmentVariable(map[], map[], BaseUrlName).Missing?;
  }
}
