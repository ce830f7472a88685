/** Process configuration (config.py): the environment variables read at
    import time, the active preset with its fallback, the check for missing
    required variables and the per-project scratch directory. */
module Config {

  import opened Common
  import opened Paths
  import Settings

  /** The process environment, as `os.getenv` sees it. */
  type Env = map<string, string>

  /** `os.getenv(name)`. */
  function GetEnv(env: Env, name: string): Option<string>
  {
    if name in env then Some(env[name]) else None
  }

  const DefaultTimezone := "America/Sao_Paulo"
  const DefaultPreset := "padrao"

  /** The module-level settings of config.py. */
  datatype Config = Config(
    hostIp: Option<string>,
    timezone: string,
    supabaseUrl: Option<string>,
    supabaseKey: Option<string>,
    webodmUrl: Option<string>,
    webodmPort: Option<string>,
    webodmToken: Option<string>,
    activePreset: string,
    webhookUrl: Option<string>,
    apiKey: Option<string>,
    baseDir: string,
    tempDir: string)

  /** Reads the configuration from the environment; `baseDir` is the
      directory that holds config.py. */
  function Load(env: Env, baseDir: string): (c: Config)
    ensures c.activePreset == (if "ACTIVE_PRESET" in env then env["ACTIVE_PRESET"] else DefaultPreset)
    ensures c.timezone == (if "TIMEZONE" in env then env["TIMEZONE"] else DefaultTimezone)
    ensures c.webhookUrl.Some? <==> "WEBHOOK_URL" in env
    ensures c.baseDir == baseDir && c.tempDir == Join(baseDir, "temp")
  {
    Config(
      hostIp := GetEnv(env, "HOST_IP"),
      timezone := GetEnv(env, "TIMEZONE").GetOr(DefaultTimezone),
      supabaseUrl := GetEnv(env, "SUPABASE_URL"),
      supabaseKey := GetEnv(env, "SUPABASE_KEY"),
      webodmUrl := GetEnv(env, "WEBODM_URL"),
      webodmPort := GetEnv(env, "WEBODM_PORT"),
      webodmToken := GetEnv(env, "WEBODM_TOKEN"),
      activePreset := GetEnv(env, "ACTIVE_PRESET").GetOr(DefaultPreset),
      webhookUrl := GetEnv(env, "WEBHOOK_URL"),
      apiKey := GetEnv(env, "API_KEY"),
      baseDir := baseDir,
      tempDir := Join(baseDir, "temp"))
  }

  /** With an empty environment the documented defaults apply. */
  lemma EnvDefaults(baseDir: string)
    ensures Load(map[], baseDir).activePreset == "padrao"
    ensures Load(map[], baseDir).timezone == "America/Sao_Paulo"
    ensures !ValidateConfig(Load(map[], baseDir))
  {
    assert !Truthy(Load(map[], baseDir).supabaseUrl);
  }

  /** The preset name actually used: the configured one when the table has
      it, otherwise "padrao". */
  function ResolvedPresetName(name: string): (r: string)
    ensures r in Settings.QualityPresets
    ensures name in Settings.QualityPresets ==> r == name
    ensures name !in Settings.QualityPresets ==> r == DefaultPreset
  {
    if name in Settings.QualityPresets then name else DefaultPreset
  }

  /** `get_active_preset()`: always one of the four table entries. */
  function GetActivePreset(c: Config): (p: Settings.Preset)
    ensures p in Settings.QualityPresets.Values
    ensures c.activePreset in Settings.QualityPresets ==> p == Settings.QualityPresets[c.activePreset]
    ensures c.activePreset !in Settings.QualityPresets ==> p == Settings.Padrao
    ensures Settings.AuxiliaryOutputsOff(p)
  {
    Settings.EveryPresetDisablesAuxiliaryOutputs(ResolvedPresetName(c.activePreset));
    Settings.QualityPresets[ResolvedPresetName(c.activePreset)]
  }

  /** The `required_vars` list, in its order. */
  function RequiredVars(c: Config): (vars: seq<(string, Option<string>)>)
    ensures |vars| == 7
  {
    [ ("SUPABASE_URL", c.supabaseUrl),
      ("SUPABASE_KEY", c.supabaseKey),
      ("WEBODM_URL", c.webodmUrl),
      ("WEBODM_PORT", c.webodmPort),
      ("WEBODM_TOKEN", c.webodmToken),
      ("API_KEY", c.apiKey),
      ("WEBHOOK_URL", c.webhookUrl) ]
  }

  /** `[name for name, value in vars if not value]`. */
  function MissingNames(vars: seq<(string, Option<string>)>): (r: seq<string>)
    ensures |r| <= |vars|
    ensures r == [] <==> forall i :: 0 <= i < |vars| ==> Truthy(vars[i].1)
    ensures forall n :: n in r <==> exists i :: 0 <= i < |vars| && vars[i].0 == n && !Truthy(vars[i].1)
  {
    if vars == [] then []
    else (if Truthy(vars[0].1) then [] else [vars[0].0]) + MissingNames(vars[1..])
  }

  /** The missing-variable list keeps the order of the variables it is
      computed from: it distributes over concatenation. */
  lemma {:induction false} MissingNamesConcat(a: seq<(string, Option<string>)>, b: seq<(string, Option<string>)>)
    ensures MissingNames(a + b) == MissingNames(a) + MissingNames(b)
  {
    if a == [] {
      assert a + b == b;
    } else {
      assert (a + b)[1..] == a[1..] + b;
      MissingNamesConcat(a[1..], b);
    }
  }

  /** `validate_config()`. */
  function ValidateConfig(c: Config): (ok: bool)
    ensures ok <==> forall i :: 0 <= i < |RequiredVars(c)| ==> Truthy(RequiredVars(c)[i].1)
  {
    MissingNames(RequiredVars(c)) == []
  }

  /** The configuration is invalid exactly when one of the seven required
      variables is unset or empty. */
  lemma ValidateConfigNames(c: Config)
    ensures !ValidateConfig(c) <==>
      !Truthy(c.supabaseUrl) || !Truthy(c.supabaseKey) || !Truthy(c.webodmUrl) ||
      !Truthy(c.webodmPort) || !Truthy(c.webodmToken) || !Truthy(c.apiKey) || !Truthy(c.webhookUrl)
  {
    var vars := RequiredVars(c);
    assert vars[0].1 == c.supabaseUrl && vars[1].1 == c.supabaseKey && vars[2].1 == c.webodmUrl;
    assert vars[3].1 == c.webodmPort && vars[4].1 == c.webodmToken && vars[5].1 == c.apiKey;
    assert vars[6].1 == c.webhookUrl;
  }

  /** `get_project_temp_dir(id)` without its `makedirs` side effect. */
  function ProjectTempDir(c: Config, projectId: string): (d: string)
    ensures IsAbsolute(projectId) ==> d == projectId
    ensures (!IsAbsolute(projectId) && c.tempDir != "" && c.tempDir[|c.tempDir| - 1] != '/')
              ==> d == c.tempDir + "/" + projectId
  {
    Join(c.tempDir, projectId)
  }

  /** The scratch directory of a loaded configuration is never empty and
      never ends with a separator. */
  lemma TempDirShape(env: Env, baseDir: string)
    ensures Load(env, baseDir).tempDir != ""
    ensures Load(env, baseDir).tempDir[|Load(env, baseDir).tempDir| - 1] == 'p'
  {
  }

  /** Different relative project ids get different scratch directories. */
  lemma ProjectTempDirInjective(c: Config, id1: string, id2: string)
    requires !IsAbsolute(id1) && !IsAbsolute(id2)
    requires ProjectTempDir(c, id1) == ProjectTempDir(c, id2)
    ensures id1 == id2
  {
    JoinInjective(c.tempDir, id1, id2);
  }

  /** An absolute project id is its own scratch directory: `join` discards
      TEMP_DIR. */
  lemma AbsoluteProjectIdEscapesTempDir(c: Config, projectId: string)
    requires IsAbsolute(projectId)
    ensures ProjectTempDir(c, projectId) == projectId
  {
  }
}
