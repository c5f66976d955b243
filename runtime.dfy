/** The application runtime: its configuration, the boolean flags it reads
    from the environment, and whether it shows a banner and loads `.env`. */
module Runtime {

  import opened Wrappers
  import Health

  datatype Tracing = Disabled | Jaeger

  /** Tracing is on for every exporter but `Disabled`. */
  predicate IsEnabled(t: Tracing)
  {
    !t.Disabled?
  }

  datatype ConsoleMetrics = ConsoleMetrics(enabled: bool, periodSecs: nat)

  const CONSOLE_METRICS_PERIOD_SECS := 60

  /** `ConsoleMetrics::default`: disabled, every sixty seconds. */
  function DefaultConsoleMetrics(): (c: ConsoleMetrics)
    ensures !c.enabled && c.periodSecs == 60
  {
    ConsoleMetrics(false, CONSOLE_METRICS_PERIOD_SECS)
  }

  datatype RuntimeConfig = RuntimeConfig(consoleMetrics: ConsoleMetrics, health: Health.HealthServerConfig, tracing: Tracing)

  /** `RuntimeConfig::default`: every part at its default. */
  function DefaultRuntimeConfig(): (c: RuntimeConfig)
    ensures !c.consoleMetrics.enabled && !c.health.enabled && !IsEnabled(c.tracing)
  {
    RuntimeConfig(DefaultConsoleMetrics(), Health.DefaultConfig(), Disabled)
  }

  /** The process environment: the variables that are set, with their values. */
  type Environment = map<string, string>

  function LowerChar(c: char): char
  {
    if 'A' <= c <= 'Z' then (c as int + 32) as char else c
  }

  function Lower(s: string): (r: string)
    ensures |r| == |s|
    ensures forall i :: 0 <= i < |s| ==> r[i] == LowerChar(s[i])
  {
    if s == [] then [] else [LowerChar(s[0])] + Lower(s[1..])
  }

  /** `flag_opt`: None when unset, otherwise whether the value reads "true"
      in any letter case. */
  function FlagOpt(env: Environment, name: string): (r: Option<bool>)
    ensures r.None? <==> name !in env
    ensures r.Some? ==> (r.value <==> Lower(env[name]) == "true")
  {
    if name in env then Some(Lower(env[name]) == "true") else None
  }

  /** `flag`: an unset variable counts as false. */
  function Flag(env: Environment, name: string): (b: bool)
    ensures name !in env ==> !b
    ensures b <==> FlagOpt(env, name) == Some(true)
  {
    match FlagOpt(env, name)
    case Some(v) => v
    case None => false
  }

  /** Whether a character is the given lower-case letter in either case. */
  predicate SameLetter(c: char, lower: char)
    requires 'a' <= lower <= 'z'
  {
    c == lower || c as int == lower as int - 32
  }

  /** A flag is true exactly for the four letters t, r, u, e, each in either
      case, and nothing else. */
  lemma FlagTrueSpellings(env: Environment, name: string)
    requires name in env
    ensures var v := env[name];
      Flag(env, name) <==>
        |v| == 4 && SameLetter(v[0], 't') && SameLetter(v[1], 'r') && SameLetter(v[2], 'u') && SameLetter(v[3], 'e')
  {
    var v := env[name];
    if |v| == 4 && SameLetter(v[0], 't') && SameLetter(v[1], 'r') && SameLetter(v[2], 'u') && SameLetter(v[3], 'e') {
      assert Lower(v) == "true";
    }
    if Lower(v) == "true" {
      assert LowerChar(v[0]) == 't' && LowerChar(v[1]) == 'r' && LowerChar(v[2]) == 'u' && LowerChar(v[3]) == 'e';
    }
  }

  const SHOW_BANNER_VARIABLE := "RUNTIME__SHOW_BANNER"
  const DISABLE_DOTENV_VARIABLE := "RUNTIME__DISABLE_DOTENV"

  /** The runtime's options; the component it describes is only printed. */
  class Runtime {
    var dotenv: Option<bool>
    var showBanner: Option<bool>

    /** `Runtime::new`: neither option is forced. */
    constructor ()
      ensures dotenv.None? && showBanner.None?
    {
      dotenv := None;
      showBanner := None;
    }

    /** The `dotenv` setter: forces or clears the dotenv option only. */
    method Dotenv(value: Option<bool>)
      modifies this
      ensures dotenv == value && showBanner == old(showBanner)
    {
      dotenv := value;
    }

    /** Whether the banner is shown: the forced option, else the
        `RUNTIME__SHOW_BANNER` flag, else yes. */
    function ShowsBanner(env: Environment): (b: bool)
      reads this
      ensures showBanner.Some? ==> b == showBanner.value
      ensures showBanner.None? && SHOW_BANNER_VARIABLE in env ==> (b <==> Flag(env, SHOW_BANNER_VARIABLE))
      ensures showBanner.None? && SHOW_BANNER_VARIABLE !in env ==> b
    {
      match showBanner
      case Some(v) => v
      case None =>
        match FlagOpt(env, SHOW_BANNER_VARIABLE)
        case Some(v) => v
        case None => true
    }

    /** Whether `.env` is loaded: the forced option, else unless
        `RUNTIME__DISABLE_DOTENV` is true. */
    function DotenvEnabled(env: Environment): (b: bool)
      reads this
      ensures dotenv.Some? ==> b == dotenv.value
      ensures dotenv.None? ==> (b <==> !Flag(env, DISABLE_DOTENV_VARIABLE))
    {
      match dotenv
      case Some(v) => v
      case None => !Flag(env, DISABLE_DOTENV_VARIABLE)
    }
  }

  /** A fresh runtime, in any environment that sets neither variable, shows
      the banner and loads `.env`. */
  method DefaultsWithoutVariables(env: Environment) returns (banner: bool, dotenv: bool)
    requires SHOW_BANNER_VARIABLE !in env && DISABLE_DOTENV_VARIABLE !in env
    ensures banner && dotenv
  {
    var rt := new Runtime();
    banner := rt.ShowsBanner(env);
    dotenv := rt.DotenvEnabled(env);
  }
}
