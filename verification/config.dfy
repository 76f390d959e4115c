/** Configuration resolution (analyzer/config_manager.py): a `config.py` that
    exists and loads supplies every setting, falling back to built-in
    defaults attribute by attribute; otherwise every setting comes from the
    environment, falling back to the same defaults. The file system, the
    module import and `os.getenv` are parameters: the state of the file, its
    attributes as values, and the environment as a map. */
module Config {
  import opened Wrappers
  import opened Text
  import Json

  /** What importing `config.py` gives. */
  datatype ConfigFile =
    | Missing                                    // the file does not exist
    | Broken                                     // executing it raised
    | Loaded(attrs: map<string, Json.Value>)     // its module attributes

  type Env = map<string, string>

  /** The resolved `self.config` dictionary, one field per key. */
  datatype Settings = Settings(
    emailSender: Json.Value, emailAuthCode: Json.Value, emailReceiver: Json.Value,
    headers: Json.Value, reportsDir: Json.Value, industries: Json.Value)

  const DefaultUserAgent := "Mozilla/5.0 (Macintosh; Intel Mac OS X 10_15_7) " + "AppleWebKit/537.36 (KHTML, like Gecko) Chrome/120.0.0.0 Safari/537.36"
  const DefaultReferer := "https://quote.eastmoney.com/"
  const DefaultIndustry := "军工"

  /** The header dictionary sent with every quote request. */
  function HeaderDict(userAgent: string, referer: string): (h: Json.Value)
    ensures h.Obj? && h.fields.Keys == {"User-Agent", "Referer"}
    ensures h.fields["User-Agent"] == Json.Str(userAgent) && h.fields["Referer"] == Json.Str(referer)
  {
    Json.Obj(map["User-Agent" := Json.Str(userAgent), "Referer" := Json.Str(referer)])
  }

  /** A lookup with a default: `getattr(config_module, name, default)` on the
      module's attributes and `os.getenv(name, default)` on the environment. */
  function Lookup<V>(m: map<string, V>, name: string, default: V): (v: V)
    ensures name in m ==> v == m[name]
    ensures name !in m ==> v == default
  {
    if name in m then m[name] else default
  }

  /** The list of strings as Python values. */
  function Strs(xs: seq<string>): (v: Json.Value)
    ensures v.Arr? && |v.items| == |xs|
    ensures forall i | 0 <= i < |xs| :: v.items[i] == Json.Str(xs[i])
  {
    Json.Arr(seq(|xs|, i requires 0 <= i < |xs| => Json.Str(xs[i])))
  }

  /** The settings taken from a loaded `config.py`. */
  function FromFile(attrs: map<string, Json.Value>): Settings {
    Settings(
      Lookup(attrs, "EMAIL_SENDER", Json.Str("")),
      Lookup(attrs, "EMAIL_AUTH_CODE", Json.Str("")),
      Lookup(attrs, "EMAIL_RECEIVER", Json.Str("")),
      Lookup(attrs, "HEADERS", HeaderDict(DefaultUserAgent, DefaultReferer)),
      Lookup(attrs, "REPORTS_DIR", Json.Str("")),
      Lookup(attrs, "CYCLICAL_INDUSTRIES", Strs([DefaultIndustry])))
  }

  /** `_set_defaults()`: every setting from the environment or its default;
      the industries are the comma-separated pieces of the variable. */
  function FromEnv(env: Env): Settings {
    Settings(
      Json.Str(Lookup(env, "EMAIL_SENDER", "")),
      Json.Str(Lookup(env, "EMAIL_AUTH_CODE", "")),
      Json.Str(Lookup(env, "EMAIL_RECEIVER", "")),
      HeaderDict(Lookup(env, "USER_AGENT", DefaultUserAgent), Lookup(env, "REFERER", DefaultReferer)),
      Json.Str(Lookup(env, "REPORTS_DIR", "")),
      Strs(Split(Lookup(env, "CYCLICAL_INDUSTRIES", DefaultIndustry), ',')))
  }

  /** `ConfigManager()`: the file wins when it loads; a missing or failing
      file leaves everything to the environment. */
  function Resolve(file: ConfigFile, env: Env): (s: Settings)
    ensures file.Loaded? ==> s == FromFile(file.attrs)
    ensures !file.Loaded? ==> s == FromEnv(env)
  {
    match file
    case Loaded(attrs) => FromFile(attrs)
    case _ => FromEnv(env)
  }

  /** With a loaded file the environment is never consulted, and each setting
      is the file's attribute when present and the built-in default when not. */
  lemma LoadedIgnoresEnv(attrs: map<string, Json.Value>, env1: Env, env2: Env)
    ensures Resolve(Loaded(attrs), env1) == Resolve(Loaded(attrs), env2)
    ensures var s := Resolve(Loaded(attrs), env1);
      ("EMAIL_SENDER" in attrs ==> s.emailSender == attrs["EMAIL_SENDER"])
      && ("HEADERS" in attrs ==> s.headers == attrs["HEADERS"])
      && ("HEADERS" !in attrs ==> s.headers == HeaderDict(DefaultUserAgent, DefaultReferer))
      && ("REPORTS_DIR" !in attrs ==> s.reportsDir == Json.Str(""))
      && ("CYCLICAL_INDUSTRIES" in attrs ==> s.industries == attrs["CYCLICAL_INDUSTRIES"])
  {
  }

  /** A missing file and a file that fails to load resolve alike, and an
      empty environment gives the built-in defaults. */
  lemma WithoutFileUsesEnv(env: Env)
    ensures Resolve(Missing, env) == Resolve(Broken, env)
    ensures var s := Resolve(Missing, env);
      s.emailSender == Json.Str(if "EMAIL_SENDER" in env then env["EMAIL_SENDER"] else "")
      && s.headers.fields["User-Agent"] == Json.Str(if "USER_AGENT" in env then env["USER_AGENT"] else DefaultUserAgent)
      && s.headers.fields["Referer"] == Json.Str(if "REFERER" in env then env["REFERER"] else DefaultReferer)
      && s.reportsDir == Json.Str(if "REPORTS_DIR" in env then env["REPORTS_DIR"] else "")
  {
  }

  /** The industry list from the environment is the comma-split of the
      variable: joining it back with commas gives the variable, and no piece
      holds a comma. Without the variable, both paths give `["军工"]`. */
  lemma IndustriesFromEnv(env: Env, attrs: map<string, Json.Value>)
    ensures var v := Resolve(Missing, env).industries;
      var pieces := Split(Lookup(env, "CYCLICAL_INDUSTRIES", DefaultIndustry), ',');
      v == Strs(pieces)
      && Join(pieces, ",") == Lookup(env, "CYCLICAL_INDUSTRIES", DefaultIndustry)
      && forall i | 0 <= i < |pieces| :: ',' !in pieces[i]
    ensures "CYCLICAL_INDUSTRIES" !in env ==> Resolve(Missing, env).industries == Strs([DefaultIndustry])
    ensures "CYCLICAL_INDUSTRIES" !in attrs ==> Resolve(Loaded(attrs), env).industries == Strs([DefaultIndustry])
  {
    if "CYCLICAL_INDUSTRIES" !in env {
      assert ',' !in DefaultIndustry;
    }
  }

  /** The `reports_dir` property given the home directory: the configured
      path when it is truthy, otherwise `~/stock-reports/reports`. A truthy
      value that is not a string makes `Path(...)` raise TypeError (`None`). */
  function ReportsDir(s: Settings, home: string): (r: Option<string>)
    ensures s.reportsDir.Str? && s.reportsDir.s != "" ==> r == Some(s.reportsDir.s)
    ensures !Json.Truthy(s.reportsDir) ==> r == Some(home + "/stock-reports/reports")
    ensures r.None? <==> Json.Truthy(s.reportsDir) && !s.reportsDir.Str?
  {
    if !Json.Truthy(s.reportsDir) then Some(home + "/stock-reports/reports")
    else if s.reportsDir.Str? then Some(s.reportsDir.s)
    else None
  }

  /** An unset or empty `REPORTS_DIR` gives the home default on both paths;
      a set one is used as is. */
  lemma ReportsDirDefault(file: ConfigFile, env: Env, home: string)
    ensures !file.Loaded? && "REPORTS_DIR" !in env ==>
      ReportsDir(Resolve(file, env), home) == Some(home + "/stock-reports/reports")
    ensures file.Loaded? && "REPORTS_DIR" !in file.attrs ==>
      ReportsDir(Resolve(file, env), home) == Some(home + "/stock-reports/reports")
    ensures !file.Loaded? && "REPORTS_DIR" in env && env["REPORTS_DIR"] != "" ==>
      ReportsDir(Resolve(file, env), home) == Some(env["REPORTS_DIR"])
  {
  }
}
