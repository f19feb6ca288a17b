/**
 * Application configuration read from an environment map. Each upper-case annotated field
 * is required unless it has a class default; an environment value overrides the default
 * and is cast to the field's type; the first missing field or failed cast raises.
 */
module Config {
  import opened Wrappers
  import opened PyStr

  /** A configured value, by the field's declared type. Floats are kept as their text. */
  datatype Setting =
    | IntSetting(i: int)
    | FloatSetting(text: string)
    | StrSetting(s: string)
    | BoolSetting(b: bool)

  /** One annotated class attribute: its name, its type and its class default, if any. */
  datatype Annotation =
    | IntField(name: string, intDefault: Option<int>)
    | FloatField(name: string, floatDefault: Option<string>)
    | StrField(name: string, strDefault: Option<string>)
    | BoolField(name: string, boolDefault: Option<bool>)

  predicate HasDefault(a: Annotation) {
    match a
    case IntField(_, d) => d.Some?
    case FloatField(_, d) => d.Some?
    case StrField(_, d) => d.Some?
    case BoolField(_, d) => d.Some?
  }

  /** The annotated attributes of the configuration class, in declaration order. */
  const AppConfigAnnotations: seq<Annotation> := [
    IntField("MAX_NEW_TOKENS", Some(200)),
    FloatField("TEMPERATURE", Some("0.15")),
    StrField("AZURE_OPENAI_LLM_DEPLOYMENT", Some("gpt-35-turbo")),
    StrField("AZURE_OPENAI_ENDPOINT", None),
    StrField("AZURE_OPENAI_API_VERSION", Some("2024-12-01-preview")),
    StrField("AZURE_OPENAI_KEY", None),
    FloatField("TOP_P", Some("0.9")),
    StrField("TAVILY_API_KEY", None) ]

  datatype AppConfigError =
    | MissingField(field: string)
    | CastError(field: string, raw: string, typeName: string)

  /** The text the raised error carries. */
  function ErrorMessage(e: AppConfigError): (m: string)
    ensures e.MissingField? ==> m == "The " + e.field + " field is required"
    ensures e.CastError? ==>
      m == "Unable to cast value of \"" + e.raw + "\" to type \"" + e.typeName + "\" for \"" + e.field + "\" field"
  {
    match e
    case MissingField(f) => "The " + f + " field is required"
    case CastError(f, raw, t) => "Unable to cast value of \"" + raw + "\" to type \"" + t + "\" for \"" + f + "\" field"
  }

  /** The two kinds of argument the boolean parser takes. */
  datatype BoolOrText = BoolArg(b: bool) | TextArg(s: string)

  /** A boolean is returned as is; a text is true when, lower-cased, it is "true", "yes" or "1". */
  function ParseBool(val: BoolOrText): (r: bool)
    ensures val.BoolArg? ==> r == val.b
  {
    match val
    case BoolArg(b) => b
    case TextArg(s) => Lower(s) in ["true", "yes", "1"]
  }

  /** Python's `str(b)` for a boolean. */
  function BoolText(b: bool): string { if b then "True" else "False" }

  /** Parsing the text of a boolean gives the boolean back. */
  lemma ParseBoolOfBoolText(b: bool)
    ensures ParseBool(TextArg(BoolText(b))) == b
  {
    if b {
      assert Lower("True") == "true";
    } else {
      var l := Lower("False");
      assert l[0] == 'f';
      assert l != "true" && l != "yes" && l != "1";
    }
  }

  /** The parser ignores the case of its text. */
  lemma ParseBoolIgnoresCase(s: string)
    ensures ParseBool(TextArg(Lower(s))) == ParseBool(TextArg(s))
  {
    LowerIdempotent(s);
  }

  /** What processing one annotation does. */
  datatype Step = Skip | Store(v: Setting) | Raise(e: AppConfigError)

  /** One turn of the loop: skip, store the cast value, or raise. */
  function ProcessField(a: Annotation, env: map<string, string>): (s: Step)
    ensures !IsUpper(a.name) ==> s == Skip
    ensures IsUpper(a.name) && !HasDefault(a) && a.name !in env ==> s == Raise(MissingField(a.name))
    ensures s.Raise? && s.e.CastError? ==> a.name in env && s.e.field == a.name && s.e.raw == env[a.name]
    ensures IsUpper(a.name) && a.name !in env && HasDefault(a) ==> s.Store?
  {
    if !IsUpper(a.name) then Skip
    else if !HasDefault(a) && a.name !in env then Raise(MissingField(a.name))
    else if a.name in env then
      var raw := env[a.name];
      match a
      case IntField(_, _) =>
        (match ParseInt(raw)
         case Some(n) => Store(IntSetting(n))
         case None => Raise(CastError(a.name, raw, "<class 'int'>")))
      case FloatField(_, _) =>
        if IsFloatText(raw) then Store(FloatSetting(raw)) else Raise(CastError(a.name, raw, "<class 'float'>"))
      case StrField(_, _) => Store(StrSetting(raw))
      case BoolField(_, _) => Store(BoolSetting(ParseBool(TextArg(raw))))
    else
      match a
      case IntField(_, d) => Store(IntSetting(d.value))
      case FloatField(_, d) => Store(FloatSetting(d.value))
      case StrField(_, d) => Store(StrSetting(d.value))
      case BoolField(_, d) => Store(BoolSetting(ParseBool(BoolArg(d.value))))
  }

  /** A string field: the environment's text as it is, else the default, else missing. */
  lemma StrFieldStep(name: string, d: Option<string>, env: map<string, string>)
    requires IsUpper(name)
    ensures ProcessField(StrField(name, d), env)
         == if name in env then Store(StrSetting(env[name]))
            else if d.None? then Raise(MissingField(name))
            else Store(StrSetting(d.value))
  {
  }

  /** An integer field with a default: the environment's text through `int()`, else the default. */
  lemma IntFieldStep(name: string, n: int, env: map<string, string>)
    requires IsUpper(name)
    ensures ProcessField(IntField(name, Some(n)), env)
         == if name !in env then Store(IntSetting(n))
            else match ParseInt(env[name])
              case Some(k) => Store(IntSetting(k))
              case None => Raise(CastError(name, env[name], "<class 'int'>"))
  {
  }

  /** A float field with a default: the environment's text if `float()` accepts it, else the default. */
  lemma FloatFieldStep(name: string, t: string, env: map<string, string>)
    requires IsUpper(name)
    ensures ProcessField(FloatField(name, Some(t)), env)
         == if name !in env then Store(FloatSetting(t))
            else if IsFloatText(env[name]) then Store(FloatSetting(env[name]))
            else Raise(CastError(name, env[name], "<class 'float'>"))
  {
  }

  /** A boolean field: the environment's text through the boolean parser, else the default. */
  lemma BoolFieldStep(name: string, b: bool, env: map<string, string>)
    requires IsUpper(name)
    ensures ProcessField(BoolField(name, Some(b)), env)
         == Store(BoolSetting(if name in env then ParseBool(TextArg(env[name])) else b))
  {
  }

  /** The attributes set and the error raised, if any, after processing some annotations. */
  datatype Loaded = Loaded(settings: map<string, Setting>, error: Option<AppConfigError>)

  predicate NamedIn(k: string, anns: seq<Annotation>) {
    exists i :: 0 <= i < |anns| && anns[i].name == k
  }

  /** Processing the annotations in order, stopping at the first that raises. */
  function Load(anns: seq<Annotation>, env: map<string, string>): (r: Loaded)
    decreases |anns|
  {
    if anns == [] then Loaded(map[], None)
    else
      var p := Load(anns[..|anns| - 1], env);
      var last := anns[|anns| - 1];
      if p.error.Some? then p
      else match ProcessField(last, env)
        case Skip => p
        case Store(v) => Loaded(p.settings[last.name := v], None)
        case Raise(e) => Loaded(p.settings, Some(e))
  }

  /** Only upper-case annotated names are ever set. */
  lemma {:induction false} LoadSetsOnlyUpperAnnotated(anns: seq<Annotation>, env: map<string, string>)
    ensures forall k :: k in Load(anns, env).settings ==> IsUpper(k) && NamedIn(k, anns)
    decreases |anns|
  {
    if anns != [] {
      var prefix := anns[..|anns| - 1];
      LoadSetsOnlyUpperAnnotated(prefix, env);
      forall k | NamedIn(k, prefix) ensures NamedIn(k, anns) {
        var i :| 0 <= i < |prefix| && prefix[i].name == k;
        assert anns[i] == prefix[i];
      }
      assert NamedIn(anns[|anns| - 1].name, anns);
    }
  }

  predicate NoneRaises(anns: seq<Annotation>, env: map<string, string>) {
    forall i :: 0 <= i < |anns| ==> !ProcessField(anns[i], env).Raise?
  }

  /** Loading succeeds exactly when no annotation raises. */
  lemma {:induction false} LoadSucceedsIffNoneRaises(anns: seq<Annotation>, env: map<string, string>)
    ensures Load(anns, env).error.None? <==> NoneRaises(anns, env)
    decreases |anns|
  {
    if anns != [] {
      var prefix := anns[..|anns| - 1];
      LoadSucceedsIffNoneRaises(prefix, env);
      assert forall i :: 0 <= i < |prefix| ==> prefix[i] == anns[i];
    }
  }

  /** The error raised is that of the first annotation that raises. */
  lemma {:induction false} LoadReportsFirstFailure(anns: seq<Annotation>, env: map<string, string>, i: nat)
    requires i < |anns| && ProcessField(anns[i], env).Raise?
    requires NoneRaises(anns[..i], env)
    ensures Load(anns, env).error == Some(ProcessField(anns[i], env).e)
    decreases |anns|
  {
    var prefix := anns[..|anns| - 1];
    if i == |anns| - 1 {
      assert prefix == anns[..i];
      LoadSucceedsIffNoneRaises(prefix, env);
    } else {
      assert prefix[i] == anns[i] && prefix[..i] == anns[..i];
      LoadReportsFirstFailure(prefix, env, i);
    }
  }

  predicate DistinctNames(anns: seq<Annotation>) {
    forall i, j :: 0 <= i < j < |anns| ==> anns[i].name != anns[j].name
  }

  /** After a successful load every upper-case field holds the value its own turn computed. */
  lemma {:induction false} LoadStoresEachField(anns: seq<Annotation>, env: map<string, string>, i: nat)
    requires DistinctNames(anns) && Load(anns, env).error.None?
    requires i < |anns| && IsUpper(anns[i].name)
    ensures anns[i].name in Load(anns, env).settings
    ensures Store(Load(anns, env).settings[anns[i].name]) == ProcessField(anns[i], env)
    decreases |anns|
  {
    var prefix := anns[..|anns| - 1];
    var last := anns[|anns| - 1];
    var p := Load(prefix, env);
    assert p.error.None?;
    if i < |anns| - 1 {
      assert prefix[i] == anns[i];
      assert anns[i].name != last.name;
      assert forall j, k :: 0 <= j < k < |prefix| ==> prefix[j] == anns[j] && prefix[k] == anns[k];
      LoadStoresEachField(prefix, env, i);
    }
  }

  /** Stopping at an error: a later annotation changes nothing. */
  lemma {:induction false} LoadStopsAtError(anns: seq<Annotation>, env: map<string, string>, n: nat)
    requires n <= |anns| && Load(anns[..n], env).error.Some?
    ensures Load(anns, env) == Load(anns[..n], env)
    decreases |anns|
  {
    if n < |anns| {
      var prefix := anns[..|anns| - 1];
      assert prefix[..n] == anns[..n];
      LoadStopsAtError(prefix, env, n);
    } else {
      assert anns[..n] == anns;
    }
  }

  /** One more annotation after a prefix that raised nothing. */
  lemma LoadStep(anns: seq<Annotation>, env: map<string, string>, i: nat)
    requires i < |anns| && Load(anns[..i], env).error == None
    ensures Load(anns[..i + 1], env) == match ProcessField(anns[i], env)
      case Skip => Load(anns[..i], env)
      case Store(v) => Loaded(Load(anns[..i], env).settings[anns[i].name := v], None)
      case Raise(e) => Loaded(Load(anns[..i], env).settings, Some(e))
  {
    assert anns[..i + 1][..i] == anns[..i];
    assert anns[..i + 1][i] == anns[i];
  }

  // ---------------------------------------------------------------- the configuration class

  /** Setting a key after merging two maps is setting it in the right-hand one. */
  lemma UpdateAfterMerge(m: map<string, Setting>, n: map<string, Setting>, k: string, v: Setting)
    ensures (m + n)[k := v] == m + n[k := v]
  {
  }

  /** The configuration object; `settings` is its instance dictionary. */
  class AppConfig {
    var settings: map<string, Setting>

    constructor()
      ensures settings == map[]
    {
      settings := map[];
    }

    /** The initialiser: processes the class's own annotations. */
    method Init(env: map<string, string>) returns (err: Option<AppConfigError>)
      modifies this
      ensures settings == old(settings) + Load(AppConfigAnnotations, env).settings
      ensures err == Load(AppConfigAnnotations, env).error
    {
      err := SetFields(AppConfigAnnotations, env);
    }

    /** The initialiser's loop: sets each field in turn, or raises. */
    method SetFields(anns: seq<Annotation>, env: map<string, string>) returns (err: Option<AppConfigError>)
      modifies this
      ensures settings == old(settings) + Load(anns, env).settings
      ensures err == Load(anns, env).error
    {
      var i := 0;
      assert anns[..0] == [];
      while i < |anns|
        invariant 0 <= i <= |anns|
        invariant Load(anns[..i], env).error == None
        invariant settings == old(settings) + Load(anns[..i], env).settings
      {
        LoadStep(anns, env, i);
        var a := anns[i];
        var step := ProcessField(a, env);
        match step {
          case Skip =>
          case Store(v) =>
            UpdateAfterMerge(old(settings), Load(anns[..i], env).settings, a.name, v);
            settings := settings[a.name := v];
          case Raise(e) =>
            LoadStopsAtError(anns, env, i + 1);
            return Some(e);
        }
        i := i + 1;
      }
      assert anns[..i] == anns;
      return None;
    }
  }

  // ---------------------------------------------------------------- the application's fields

  /** A name starting with a capital and holding no small letter passes the upper-case test. */
  lemma CapitalNameIsUpper(s: string)
    requires |s| > 0 && IsAsciiUpper(s[0])
    requires forall i :: 0 <= i < |s| ==> !IsAsciiLower(s[i])
    ensures IsUpper(s)
  {
  }

  // One lemma per field name keeps each literal's character check in a proof of its own.
  lemma MaxNewTokensNameUpper() ensures IsUpper("MAX_NEW_TOKENS") { CapitalNameIsUpper("MAX_NEW_TOKENS"); }
  lemma TemperatureNameUpper() ensures IsUpper("TEMPERATURE") { CapitalNameIsUpper("TEMPERATURE"); }
  lemma DeploymentNameUpper() ensures IsUpper("AZURE_OPENAI_LLM_DEPLOYMENT") { CapitalNameIsUpper("AZURE_OPENAI_LLM_DEPLOYMENT"); }
  lemma EndpointNameUpper() ensures IsUpper("AZURE_OPENAI_ENDPOINT") { CapitalNameIsUpper("AZURE_OPENAI_ENDPOINT"); }
  lemma ApiVersionNameUpper() ensures IsUpper("AZURE_OPENAI_API_VERSION") { CapitalNameIsUpper("AZURE_OPENAI_API_VERSION"); }
  lemma KeyNameUpper() ensures IsUpper("AZURE_OPENAI_KEY") { CapitalNameIsUpper("AZURE_OPENAI_KEY"); }
  lemma TopPNameUpper() ensures IsUpper("TOP_P") { CapitalNameIsUpper("TOP_P"); }
  lemma TavilyKeyNameUpper() ensures IsUpper("TAVILY_API_KEY") { CapitalNameIsUpper("TAVILY_API_KEY"); }

  /** Every field of the configuration class is processed: none is skipped. */
  lemma AppConfigNamesUpper()
    ensures IsUpper("MAX_NEW_TOKENS") && IsUpper("TEMPERATURE") && IsUpper("AZURE_OPENAI_LLM_DEPLOYMENT")
    ensures IsUpper("AZURE_OPENAI_ENDPOINT") && IsUpper("AZURE_OPENAI_API_VERSION") && IsUpper("AZURE_OPENAI_KEY")
    ensures IsUpper("TOP_P") && IsUpper("TAVILY_API_KEY")
  {
    MaxNewTokensNameUpper();
    TemperatureNameUpper();
    DeploymentNameUpper();
    EndpointNameUpper();
    ApiVersionNameUpper();
    KeyNameUpper();
    TopPNameUpper();
    TavilyKeyNameUpper();
  }

  /** The name of each field of the configuration class passes the upper-case test. */
  lemma AppConfigNameUpper(i: nat)
    requires i < 8
    ensures IsUpper(AppConfigAnnotations[i].name)
  {
    var a := AppConfigAnnotations;
    if i == 0 {
      assert a[0].name == "MAX_NEW_TOKENS";
      MaxNewTokensNameUpper();
    } else if i == 1 {
      assert a[1].name == "TEMPERATURE";
      TemperatureNameUpper();
    } else if i == 2 {
      assert a[2].name == "AZURE_OPENAI_LLM_DEPLOYMENT";
      DeploymentNameUpper();
    } else if i == 3 {
      assert a[3].name == "AZURE_OPENAI_ENDPOINT";
      EndpointNameUpper();
    } else if i == 4 {
      assert a[4].name == "AZURE_OPENAI_API_VERSION";
      ApiVersionNameUpper();
    } else if i == 5 {
      assert a[5].name == "AZURE_OPENAI_KEY";
      KeyNameUpper();
    } else if i == 6 {
      assert a[6].name == "TOP_P";
      TopPNameUpper();
    } else {
      assert a[7].name == "TAVILY_API_KEY";
      TavilyKeyNameUpper();
    }
  }

  lemma AppConfigNamesDistinct()
    ensures DistinctNames(AppConfigAnnotations)
  {
  }

  predicate RequiredKeysPresent(env: map<string, string>) {
    "AZURE_OPENAI_ENDPOINT" in env && "AZURE_OPENAI_KEY" in env && "TAVILY_API_KEY" in env
  }

  predicate CastsSucceed(env: map<string, string>) {
    && ("MAX_NEW_TOKENS" in env ==> ParseInt(env["MAX_NEW_TOKENS"]).Some?)
    && ("TEMPERATURE" in env ==> IsFloatText(env["TEMPERATURE"]))
    && ("TOP_P" in env ==> IsFloatText(env["TOP_P"]))
  }

  /** Which turns of the loop raise, for the configuration class's fields. */
  lemma AppConfigSteps(env: map<string, string>)
    ensures |AppConfigAnnotations| == 8
    ensures (ProcessField(AppConfigAnnotations[0], env).Raise? <==> "MAX_NEW_TOKENS" in env && ParseInt(env["MAX_NEW_TOKENS"]).None?)
    ensures (ProcessField(AppConfigAnnotations[1], env).Raise? <==> "TEMPERATURE" in env && !IsFloatText(env["TEMPERATURE"]))
    ensures !ProcessField(AppConfigAnnotations[2], env).Raise?
    ensures (ProcessField(AppConfigAnnotations[3], env).Raise? <==> "AZURE_OPENAI_ENDPOINT" !in env)
    ensures !ProcessField(AppConfigAnnotations[4], env).Raise?
    ensures (ProcessField(AppConfigAnnotations[5], env).Raise? <==> "AZURE_OPENAI_KEY" !in env)
    ensures (ProcessField(AppConfigAnnotations[6], env).Raise? <==> "TOP_P" in env && !IsFloatText(env["TOP_P"]))
    ensures (ProcessField(AppConfigAnnotations[7], env).Raise? <==> "TAVILY_API_KEY" !in env)
  {
    MaxNewTokensStep(env);
    TemperatureStep(env);
    DeploymentStep(env);
    EndpointStep(env);
    ApiVersionStep(env);
    KeyStep(env);
    TopPStep(env);
    TavilyKeyStep(env);
  }

  lemma MaxNewTokensStep(env: map<string, string>)
    ensures ProcessField(AppConfigAnnotations[0], env).Raise? <==> "MAX_NEW_TOKENS" in env && ParseInt(env["MAX_NEW_TOKENS"]).None?
  {
    assert AppConfigAnnotations[0] == IntField("MAX_NEW_TOKENS", Some(200));
    MaxNewTokensNameUpper();
    IntFieldStep("MAX_NEW_TOKENS", 200, env);
  }

  lemma TemperatureStep(env: map<string, string>)
    ensures ProcessField(AppConfigAnnotations[1], env).Raise? <==> "TEMPERATURE" in env && !IsFloatText(env["TEMPERATURE"])
  {
    assert AppConfigAnnotations[1] == FloatField("TEMPERATURE", Some("0.15"));
    TemperatureNameUpper();
    FloatFieldStep("TEMPERATURE", "0.15", env);
  }

  lemma DeploymentStep(env: map<string, string>)
    ensures !ProcessField(AppConfigAnnotations[2], env).Raise?
  {
    assert AppConfigAnnotations[2] == StrField("AZURE_OPENAI_LLM_DEPLOYMENT", Some("gpt-35-turbo"));
    DeploymentNameUpper();
    StrFieldStep("AZURE_OPENAI_LLM_DEPLOYMENT", Some("gpt-35-turbo"), env);
  }

  lemma EndpointStep(env: map<string, string>)
    ensures ProcessField(AppConfigAnnotations[3], env).Raise? <==> "AZURE_OPENAI_ENDPOINT" !in env
  {
    assert AppConfigAnnotations[3] == StrField("AZURE_OPENAI_ENDPOINT", None);
    EndpointNameUpper();
    StrFieldStep("AZURE_OPENAI_ENDPOINT", None, env);
  }

  lemma ApiVersionStep(env: map<string, string>)
    ensures !ProcessField(AppConfigAnnotations[4], env).Raise?
  {
    assert AppConfigAnnotations[4] == StrField("AZURE_OPENAI_API_VERSION", Some("2024-12-01-preview"));
    ApiVersionNameUpper();
    StrFieldStep("AZURE_OPENAI_API_VERSION", Some("2024-12-01-preview"), env);
  }

  lemma KeyStep(env: map<string, string>)
    ensures ProcessField(AppConfigAnnotations[5], env).Raise? <==> "AZURE_OPENAI_KEY" !in env
  {
    assert AppConfigAnnotations[5] == StrField("AZURE_OPENAI_KEY", None);
    KeyNameUpper();
    StrFieldStep("AZURE_OPENAI_KEY", None, env);
  }

  lemma TopPStep(env: map<string, string>)
    ensures ProcessField(AppConfigAnnotations[6], env).Raise? <==> "TOP_P" in env && !IsFloatText(env["TOP_P"])
  {
    assert AppConfigAnnotations[6] == FloatField("TOP_P", Some("0.9"));
    TopPNameUpper();
    FloatFieldStep("TOP_P", "0.9", env);
  }

  lemma TavilyKeyStep(env: map<string, string>)
    ensures ProcessField(AppConfigAnnotations[7], env).Raise? <==> "TAVILY_API_KEY" !in env
  {
    assert AppConfigAnnotations[7] == StrField("TAVILY_API_KEY", None);
    TavilyKeyNameUpper();
    StrFieldStep("TAVILY_API_KEY", None, env);
  }

  /**
   * The configuration loads exactly when the three fields without a default are in the
   * environment and every numeric value given there casts.
   */
  lemma AppConfigLoadsIff(env: map<string, string>)
    ensures Load(AppConfigAnnotations, env).error.None? <==> RequiredKeysPresent(env) && CastsSucceed(env)
  {
    AppConfigSteps(env);
    LoadSucceedsIffNoneRaises(AppConfigAnnotations, env);
    NoneOfEightRaises(AppConfigAnnotations, env);
  }

  lemma NoneOfEightRaises(a: seq<Annotation>, env: map<string, string>)
    requires |a| == 8
    ensures NoneRaises(a, env) <==>
      && !ProcessField(a[0], env).Raise? && !ProcessField(a[1], env).Raise?
      && !ProcessField(a[2], env).Raise? && !ProcessField(a[3], env).Raise?
      && !ProcessField(a[4], env).Raise? && !ProcessField(a[5], env).Raise?
      && !ProcessField(a[6], env).Raise? && !ProcessField(a[7], env).Raise?
  {
  }

  /**
   * When the required fields are present and the numbers cast, the load succeeds and each
   * field holds the environment's value, cast to its type, or else its class default.
   */
  lemma AppConfigValues(env: map<string, string>)
    requires RequiredKeysPresent(env) && CastsSucceed(env)
    ensures Load(AppConfigAnnotations, env).error.None?
    ensures var m := Load(AppConfigAnnotations, env).settings;
      && m.Keys == {"MAX_NEW_TOKENS", "TEMPERATURE", "AZURE_OPENAI_LLM_DEPLOYMENT", "AZURE_OPENAI_ENDPOINT",
                    "AZURE_OPENAI_API_VERSION", "AZURE_OPENAI_KEY", "TOP_P", "TAVILY_API_KEY"}
      && m["MAX_NEW_TOKENS"] == IntSetting(if "MAX_NEW_TOKENS" in env then ParseInt(env["MAX_NEW_TOKENS"]).value else 200)
      && m["TEMPERATURE"] == FloatSetting(if "TEMPERATURE" in env then env["TEMPERATURE"] else "0.15")
      && m["AZURE_OPENAI_LLM_DEPLOYMENT"] == StrSetting(if "AZURE_OPENAI_LLM_DEPLOYMENT" in env then env["AZURE_OPENAI_LLM_DEPLOYMENT"] else "gpt-35-turbo")
      && m["AZURE_OPENAI_ENDPOINT"] == StrSetting(env["AZURE_OPENAI_ENDPOINT"])
      && m["AZURE_OPENAI_API_VERSION"] == StrSetting(if "AZURE_OPENAI_API_VERSION" in env then env["AZURE_OPENAI_API_VERSION"] else "2024-12-01-preview")
      && m["AZURE_OPENAI_KEY"] == StrSetting(env["AZURE_OPENAI_KEY"])
      && m["TOP_P"] == FloatSetting(if "TOP_P" in env then env["TOP_P"] else "0.9")
      && m["TAVILY_API_KEY"] == StrSetting(env["TAVILY_API_KEY"])
  {
    AppConfigLoadsIff(env);
    AppConfigKeys(env);
    MaxNewTokensValue(env);
    TemperatureValue(env);
    DeploymentValue(env);
    EndpointValue(env);
    ApiVersionValue(env);
    KeyValue(env);
    TopPValue(env);
    TavilyKeyValue(env);
  }

  lemma MaxNewTokensValue(env: map<string, string>)
    requires RequiredKeysPresent(env) && CastsSucceed(env)
    ensures var m := Load(AppConfigAnnotations, env).settings;
      "MAX_NEW_TOKENS" in m && m["MAX_NEW_TOKENS"] == IntSetting(if "MAX_NEW_TOKENS" in env then ParseInt(env["MAX_NEW_TOKENS"]).value else 200)
  {
    var a := AppConfigAnnotations;
    AppConfigLoadsIff(env);
    AppConfigStores(env, 0);
    assert a[0] == IntField("MAX_NEW_TOKENS", Some(200));
    MaxNewTokensNameUpper();
    IntFieldStep("MAX_NEW_TOKENS", 200, env);
  }

  lemma TemperatureValue(env: map<string, string>)
    requires RequiredKeysPresent(env) && CastsSucceed(env)
    ensures var m := Load(AppConfigAnnotations, env).settings;
      "TEMPERATURE" in m && m["TEMPERATURE"] == FloatSetting(if "TEMPERATURE" in env then env["TEMPERATURE"] else "0.15")
  {
    var a := AppConfigAnnotations;
    AppConfigLoadsIff(env);
    AppConfigStores(env, 1);
    assert a[1] == FloatField("TEMPERATURE", Some("0.15"));
    TemperatureNameUpper();
    FloatFieldStep("TEMPERATURE", "0.15", env);
  }

  lemma DeploymentValue(env: map<string, string>)
    requires RequiredKeysPresent(env) && CastsSucceed(env)
    ensures var m := Load(AppConfigAnnotations, env).settings;
      "AZURE_OPENAI_LLM_DEPLOYMENT" in m && m["AZURE_OPENAI_LLM_DEPLOYMENT"] == StrSetting(if "AZURE_OPENAI_LLM_DEPLOYMENT" in env then env["AZURE_OPENAI_LLM_DEPLOYMENT"] else "gpt-35-turbo")
  {
    var a := AppConfigAnnotations;
    AppConfigLoadsIff(env);
    AppConfigStores(env, 2);
    assert a[2] == StrField("AZURE_OPENAI_LLM_DEPLOYMENT", Some("gpt-35-turbo"));
    DeploymentNameUpper();
    StrFieldStep("AZURE_OPENAI_LLM_DEPLOYMENT", Some("gpt-35-turbo"), env);
  }

  lemma EndpointValue(env: map<string, string>)
    requires RequiredKeysPresent(env) && CastsSucceed(env)
    ensures var m := Load(AppConfigAnnotations, env).settings;
      "AZURE_OPENAI_ENDPOINT" in m && m["AZURE_OPENAI_ENDPOINT"] == StrSetting(env["AZURE_OPENAI_ENDPOINT"])
  {
    var a := AppConfigAnnotations;
    AppConfigLoadsIff(env);
    AppConfigStores(env, 3);
    assert a[3] == StrField("AZURE_OPENAI_ENDPOINT", None);
    EndpointNameUpper();
    StrFieldStep("AZURE_OPENAI_ENDPOINT", None, env);
  }

  lemma ApiVersionValue(env: map<string, string>)
    requires RequiredKeysPresent(env) && CastsSucceed(env)
    ensures var m := Load(AppConfigAnnotations, env).settings;
      "AZURE_OPENAI_API_VERSION" in m && m["AZURE_OPENAI_API_VERSION"] == StrSetting(if "AZURE_OPENAI_API_VERSION" in env then env["AZURE_OPENAI_API_VERSION"] else "2024-12-01-preview")
  {
    var a := AppConfigAnnotations;
    AppConfigLoadsIff(env);
    AppConfigStores(env, 4);
    assert a[4] == StrField("AZURE_OPENAI_API_VERSION", Some("2024-12-01-preview"));
    ApiVersionNameUpper();
    StrFieldStep("AZURE_OPENAI_API_VERSION", Some("2024-12-01-preview"), env);
  }

  lemma KeyValue(env: map<string, string>)
    requires RequiredKeysPresent(env) && CastsSucceed(env)
    ensures var m := Load(AppConfigAnnotations, env).settings;
      "AZURE_OPENAI_KEY" in m && m["AZURE_OPENAI_KEY"] == StrSetting(env["AZURE_OPENAI_KEY"])
  {
    var a := AppConfigAnnotations;
    AppConfigLoadsIff(env);
    AppConfigStores(env, 5);
    assert a[5] == StrField("AZURE_OPENAI_KEY", None);
    KeyNameUpper();
    StrFieldStep("AZURE_OPENAI_KEY", None, env);
  }

  lemma TopPValue(env: map<string, string>)
    requires RequiredKeysPresent(env) && CastsSucceed(env)
    ensures var m := Load(AppConfigAnnotations, env).settings;
      "TOP_P" in m && m["TOP_P"] == FloatSetting(if "TOP_P" in env then env["TOP_P"] else "0.9")
  {
    var a := AppConfigAnnotations;
    AppConfigLoadsIff(env);
    AppConfigStores(env, 6);
    assert a[6] == FloatField("TOP_P", Some("0.9"));
    TopPNameUpper();
    FloatFieldStep("TOP_P", "0.9", env);
  }

  lemma TavilyKeyValue(env: map<string, string>)
    requires RequiredKeysPresent(env) && CastsSucceed(env)
    ensures var m := Load(AppConfigAnnotations, env).settings;
      "TAVILY_API_KEY" in m && m["TAVILY_API_KEY"] == StrSetting(env["TAVILY_API_KEY"])
  {
    var a := AppConfigAnnotations;
    AppConfigLoadsIff(env);
    AppConfigStores(env, 7);
    assert a[7] == StrField("TAVILY_API_KEY", None);
    TavilyKeyNameUpper();
    StrFieldStep("TAVILY_API_KEY", None, env);
  }

  lemma AppConfigStores(env: map<string, string>, i: nat)
    requires i < 8 && Load(AppConfigAnnotations, env).error.None?
    ensures AppConfigAnnotations[i].name in Load(AppConfigAnnotations, env).settings
    ensures Store(Load(AppConfigAnnotations, env).settings[AppConfigAnnotations[i].name])
         == ProcessField(AppConfigAnnotations[i], env)
  {
    AppConfigNameUpper(i);
    AppConfigNamesDistinct();
    LoadStoresEachField(AppConfigAnnotations, env, i);
  }

  /** The names the configuration class annotates. */
  lemma AnnotatedName(k: string)
    requires NamedIn(k, AppConfigAnnotations)
    ensures k in {"MAX_NEW_TOKENS", "TEMPERATURE", "AZURE_OPENAI_LLM_DEPLOYMENT", "AZURE_OPENAI_ENDPOINT",
                  "AZURE_OPENAI_API_VERSION", "AZURE_OPENAI_KEY", "TOP_P", "TAVILY_API_KEY"}
  {
    var a := AppConfigAnnotations;
    var i :| 0 <= i < |a| && a[i].name == k;
    if i == 0 {} else if i == 1 {} else if i == 2 {} else if i == 3 {}
    else if i == 4 {} else if i == 5 {} else if i == 6 {} else {}
  }

  /** A successful load sets exactly the eight annotated fields. */
  lemma AppConfigKeys(env: map<string, string>)
    requires Load(AppConfigAnnotations, env).error.None?
    ensures Load(AppConfigAnnotations, env).settings.Keys
         == {"MAX_NEW_TOKENS", "TEMPERATURE", "AZURE_OPENAI_LLM_DEPLOYMENT", "AZURE_OPENAI_ENDPOINT",
             "AZURE_OPENAI_API_VERSION", "AZURE_OPENAI_KEY", "TOP_P", "TAVILY_API_KEY"}
  {
    var a := AppConfigAnnotations;
    var ks := {"MAX_NEW_TOKENS", "TEMPERATURE", "AZURE_OPENAI_LLM_DEPLOYMENT", "AZURE_OPENAI_ENDPOINT",
               "AZURE_OPENAI_API_VERSION", "AZURE_OPENAI_KEY", "TOP_P", "TAVILY_API_KEY"};
    var m := Load(a, env).settings;
    assert m.Keys <= ks by {
      LoadSetsOnlyUpperAnnotated(a, env);
      forall k | k in m ensures k in ks {
        AnnotatedName(k);
      }
    }
    assert a[0].name in m by { AppConfigStores(env, 0); }
    assert a[1].name in m by { AppConfigStores(env, 1); }
    assert a[2].name in m by { AppConfigStores(env, 2); }
    assert a[3].name in m by { AppConfigStores(env, 3); }
    assert a[4].name in m by { AppConfigStores(env, 4); }
    assert a[5].name in m by { AppConfigStores(env, 5); }
    assert a[6].name in m by { AppConfigStores(env, 6); }
    assert a[7].name in m by { AppConfigStores(env, 7); }
  }

  /** With nothing in the environment the load stops at the endpoint, the first required field. */
  lemma EmptyEnvironmentNeedsEndpoint()
    ensures Load(AppConfigAnnotations, map[]).error == Some(MissingField("AZURE_OPENAI_ENDPOINT"))
  {
    var a := AppConfigAnnotations;
    AppConfigSteps(map[]);
    forall i | 0 <= i < 3 ensures !ProcessField(a[..3][i], map[]).Raise? {
      assert a[..3][i] == a[i];
    }
    LoadReportsFirstFailure(a, map[], 3);
  }

  /** A token limit that `int()` refuses is reported with the offending text. */
  lemma BadTokenLimitIsReported(env: map<string, string>)
    requires "MAX_NEW_TOKENS" in env && ParseInt(env["MAX_NEW_TOKENS"]).None?
    ensures Load(AppConfigAnnotations, env).error
         == Some(CastError("MAX_NEW_TOKENS", env["MAX_NEW_TOKENS"], "<class 'int'>"))
  {
    AppConfigSteps(env);
    assert AppConfigAnnotations[..0] == [];
    LoadReportsFirstFailure(AppConfigAnnotations, env, 0);
  }
}
