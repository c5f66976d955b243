/** CORS configuration and its translation into a CORS policy. */
module Cors {

  import opened Wrappers

  datatype CorsMode = Permissive | Disabled | Manual

  /** A snapshot of a CORS configuration, as it is passed by value. */
  datatype CorsSettings = CorsSettings(mode: CorsMode, allowOriginUrl: Option<seq<string>>, allowedMethods: Option<seq<string>>)

  /** The default configuration: disabled, with neither list given. */
  const DEFAULT_SETTINGS := CorsSettings(Disabled, None, None)

  /** The mutable CORS configuration. */
  class CorsConfig {
    var mode: CorsMode
    var allowOriginUrl: Option<seq<string>>
    var allowedMethods: Option<seq<string>>

    /** `CorsConfig::default`. */
    constructor Default()
      ensures Value() == DEFAULT_SETTINGS
    {
      mode := Disabled;
      allowOriginUrl := None;
      allowedMethods := None;
    }

    function Value(): CorsSettings
      reads this
    {
      CorsSettings(mode, allowOriginUrl, allowedMethods)
    }

    /** `set_allowed_methods`: replaces the method list, nothing else. */
    method SetAllowedMethods(methods: seq<string>)
      modifies this
      ensures Value() == old(Value()).(allowedMethods := Some(methods))
    {
      allowedMethods := Some(methods);
    }

    /** `set_allowed_urls`: replaces the origin list, nothing else. */
    method SetAllowedUrls(urls: seq<string>)
      modifies this
      ensures Value() == old(Value()).(allowOriginUrl := Some(urls))
    {
      allowOriginUrl := Some(urls);
    }
  }

  const AUTHORIZATION := "authorization"
  const CONTENT_TYPE := "content-type"
  const MAX_AGE := 3600

  /** The CORS middleware settings. A manual policy starts from the default
      builder with the two allowed headers and a max-age of one hour;
      `allowedMethods` is None while no method list was applied. */
  datatype CorsPolicy =
    | PermissivePolicy
    | ManualPolicy(allowedHeaders: seq<string>, maxAge: nat, allowedOrigins: seq<string>, allowedMethods: Option<seq<string>>)

  /** A character allowed in an HTTP token (`tchar` of section 3.2.6 of RFC 7230). */
  predicate IsTokenChar(c: char)
  {
    || ('a' <= c <= 'z') || ('A' <= c <= 'Z') || ('0' <= c <= '9')
    || c in "!#$%&'*+-.^_`|~"
  }

  /** `Method::from_str` succeeds exactly for non-empty tokens. */
  predicate IsMethod(m: string)
  {
    |m| > 0 && forall i :: 0 <= i < |m| ==> IsTokenChar(m[i])
  }

  /** The entries of the list that parse as HTTP methods, in order. */
  function ParseMethods(methods: seq<string>): (r: seq<string>)
    ensures |r| <= |methods|
    ensures forall m :: m in r <==> m in methods && IsMethod(m)
  {
    if methods == [] then []
    else (if IsMethod(methods[0]) then [methods[0]] else []) + ParseMethods(methods[1..])
  }

  /** Filtering distributes over concatenation, so the parsed list keeps the
      order of the configured one. */
  lemma {:induction false} ParseMethodsAppend(a: seq<string>, b: seq<string>)
    ensures ParseMethods(a + b) == ParseMethods(a) + ParseMethods(b)
    decreases |a|
  {
    if a == [] {
      assert a + b == b;
    } else {
      assert (a + b)[1..] == a[1..] + b;
      ParseMethodsAppend(a[1..], b);
    }
  }

  /** Valid lists pass unchanged. */
  lemma {:induction false} ValidMethodsKept(methods: seq<string>)
    requires forall i :: 0 <= i < |methods| ==> IsMethod(methods[i])
    ensures ParseMethods(methods) == methods
    decreases |methods|
  {
    if methods != [] {
      ValidMethodsKept(methods[1..]);
    }
  }

  /** The policy a configuration stands for. */
  function PolicyOf(cfg: CorsSettings): (r: Option<CorsPolicy>)
    ensures r.None? <==> cfg.mode == Disabled
    ensures cfg.mode == Permissive ==> r == Some(PermissivePolicy)
    ensures cfg.mode == Manual ==>
      && r.Some? && r.value.ManualPolicy?
      && r.value.allowedHeaders == [AUTHORIZATION, CONTENT_TYPE]
      && r.value.maxAge == MAX_AGE
      && (r.value.allowedMethods.Some? <==> cfg.allowedMethods.Some?)
  {
    match cfg.mode
    case Disabled => None
    case Permissive => Some(PermissivePolicy)
    case Manual =>
      Some(ManualPolicy([AUTHORIZATION, CONTENT_TYPE], MAX_AGE,
        if cfg.allowOriginUrl.Some? then cfg.allowOriginUrl.value else [],
        if cfg.allowedMethods.Some? then Some(ParseMethods(cfg.allowedMethods.value)) else None))
  }

  /** In manual mode the allowed origins are the configured ones, in order,
      and the allowed methods are exactly the configured entries that parse. */
  lemma ManualPolicyContents(cfg: CorsSettings)
    requires cfg.mode == Manual
    ensures var p := PolicyOf(cfg).value;
      && (cfg.allowOriginUrl.Some? ==> p.allowedOrigins == cfg.allowOriginUrl.value)
      && (cfg.allowOriginUrl.None? ==> p.allowedOrigins == [])
      && (cfg.allowedMethods.Some? ==> forall m :: m in p.allowedMethods.value <==> m in cfg.allowedMethods.value && IsMethod(m))
  {
  }

  /** `From<CorsConfig> for Option<Cors>`: builds the policy step by step,
      adding one origin at a time. */
  method IntoCors(cfg: CorsSettings) returns (r: Option<CorsPolicy>)
    ensures r == PolicyOf(cfg)
  {
    match cfg.mode {
      case Disabled =>
        r := None;
      case Permissive =>
        r := Some(PermissivePolicy);
      case Manual =>
        var cors := ManualPolicy([AUTHORIZATION, CONTENT_TYPE], MAX_AGE, [], None);
        if cfg.allowOriginUrl.Some? {
          var origins := cfg.allowOriginUrl.value;
          for i := 0 to |origins|
            invariant cors == ManualPolicy([AUTHORIZATION, CONTENT_TYPE], MAX_AGE, origins[..i], None)
          {
            cors := cors.(allowedOrigins := cors.allowedOrigins + [origins[i]]);
          }
          assert origins[..|origins|] == origins;
        }
        if cfg.allowedMethods.Some? {
          cors := cors.(allowedMethods := Some(ParseMethods(cfg.allowedMethods.value)));
        }
        r := Some(cors);
    }
  }
}
