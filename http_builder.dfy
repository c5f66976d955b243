/** The HTTP server builder: collects the configuration and decides how the
    server is set up — metrics, CORS, request logging, payload limits, TLS
    and workers. */
module HttpBuilder {

  import opened Wrappers
  import opened Cors
  import opened TlsAuth
  import opened Bind
  import Runtime

  /** The HTTP server configuration. */
  datatype HttpConfig = HttpConfig(
    bindAddr: string,
    maxJsonPayloadSize: nat,
    maxPayloadSize: nat,
    disableTls: bool,
    disableTlsPsk: bool,
    certBundleFile: Option<string>,
    keyFile: Option<string>,
    workers: Option<nat>,
    metricsNamespace: Option<string>,
    cors: Option<CorsSettings>)

  const DEFAULT_BIND_ADDR := "[::1]:8080"
  const DEFAULT_PAYLOAD_SIZE := 65536
  const DEFAULT_METRICS_NAMESPACE := "drogue"
  const PROMETHEUS_FAILED := "Failed to build prometheus middleware: "

  /** `HttpConfig::default`. */
  function DefaultHttpConfig(): (c: HttpConfig)
    ensures c.bindAddr == DEFAULT_BIND_ADDR && c.maxPayloadSize == c.maxJsonPayloadSize == DEFAULT_PAYLOAD_SIZE
    ensures !c.disableTls && !c.disableTlsPsk && c.workers.None? && c.cors.None?
  {
    HttpConfig(DEFAULT_BIND_ADDR, DEFAULT_PAYLOAD_SIZE, DEFAULT_PAYLOAD_SIZE, false, false, None, None, None, None, None)
  }

  /** An "on connect" handler, known by an opaque handle. */
  datatype OnConnect = OnConnect(handle: nat)

  /** Building the Prometheus middleware for a namespace: Ok, or the error. */
  type PrometheusBuild = string -> Result<(), string>

  /** Turning the effective CORS configuration into a policy. */
  type CorsBuild = Option<CorsSettings> -> Result<Option<CorsPolicy>, string>

  /** How a server is set up once `run` succeeds. */
  datatype ServerSetup = ServerSetup(
    metricsNamespace: string,
    cors: Option<CorsPolicy>,
    plainLogger: bool,
    tracingLogger: bool,
    maxPayloadSize: nat,
    maxJsonPayloadSize: nat,
    onConnect: Option<OnConnect>,
    server: Server,
    workers: Option<nat>)

  /** `run` sets a server up, fails with an error, or panics while binding. */
  datatype RunOutcome = Started(setup: ServerSetup) | Failed(error: string) | Panicked(message: string)

  /** The effective CORS configuration: the server's own, else the default
      registered by the application. */
  function EffectiveCors(config: HttpConfig, defaultCors: Option<CorsSettings>): (r: Option<CorsSettings>)
    ensures config.cors.Some? ==> r == config.cors
    ensures config.cors.None? ==> r == defaultCors
  {
    if config.cors.Some? then config.cors else defaultCors
  }

  /** The namespace the request metrics are recorded under. */
  function MetricsNamespace(config: HttpConfig): (ns: string)
    ensures config.metricsNamespace.Some? ==> ns == config.metricsNamespace.value
    ensures config.metricsNamespace.None? ==> ns == DEFAULT_METRICS_NAMESPACE
  {
    if config.metricsNamespace.Some? then config.metricsNamespace.value else DEFAULT_METRICS_NAMESPACE
  }

  /** The TLS configuration left once `disable_tls_psk` is applied. */
  function WithoutPskIfDisabled(config: HttpConfig, tls: TlsAuthConfig): (r: TlsAuthConfig)
    ensures r.mode == tls.mode
    ensures r.psk == (if config.disableTlsPsk then None else tls.psk)
  {
    if config.disableTlsPsk then tls.(psk := None) else tls
  }

  /** What `run` does with the builder's state. */
  function Setup(config: HttpConfig, defaultCors: Option<CorsSettings>, onConnect: Option<OnConnect>,
                 tls: TlsAuthConfig, tracing: bool, prometheus: PrometheusBuild, buildCors: CorsBuild, openssl: bool): (r: RunOutcome)
    ensures r.Failed? <==> prometheus(MetricsNamespace(config)).Err? || buildCors(EffectiveCors(config, defaultCors)).Err?
    ensures r.Started? ==>
      && r.setup.plainLogger != r.setup.tracingLogger
      && r.setup.metricsNamespace == MetricsNamespace(config)
      && r.setup.workers == config.workers
      && r.setup.onConnect == onConnect
    ensures !r.Failed? ==>
      var b := BindOutcome(config.bindAddr, WithTlsAuthConfig(config.disableTls, WithoutPskIfDisabled(config, tls)),
                           config.keyFile, config.certBundleFile, openssl);
      && (r.Started? <==> b.Bound?)
      && (r.Started? ==> r.setup.server == b.server)
      && (r.Panicked? ==> r.message == b.message)
  {
    match prometheus(MetricsNamespace(config))
    case Err(e) => Failed(PROMETHEUS_FAILED + e)
    case Ok(_) =>
      match buildCors(EffectiveCors(config, defaultCors))
      case Err(e) => Failed(e)
      case Ok(cors) =>
        match BindOutcome(config.bindAddr, WithTlsAuthConfig(config.disableTls, WithoutPskIfDisabled(config, tls)),
                          config.keyFile, config.certBundleFile, openssl)
        case Panic(msg) => Panicked(msg)
        case Bound(server) =>
          Started(ServerSetup(MetricsNamespace(config), cors, !tracing, tracing,
            config.maxPayloadSize, config.maxJsonPayloadSize, onConnect, server, config.workers))
  }

  /** The HTTP server builder. */
  class HttpBuilder {
    const config: HttpConfig
    var defaultCors: Option<CorsSettings>
    var onConnect: Option<OnConnect>
    var tlsAuthConfig: TlsAuthConfig
    const tracing: bool

    /** `HttpBuilder::new`: no default CORS, no handler, the default TLS
        settings; tracing only when a runtime with tracing is given. */
    constructor (config: HttpConfig, runtime: Option<Runtime.RuntimeConfig>)
      ensures this.config == config && defaultCors.None? && onConnect.None?
      ensures tlsAuthConfig == TlsAuth.Default()
      ensures tracing <==> runtime.Some? && Runtime.IsEnabled(runtime.value.tracing)
    {
      this.config := config;
      defaultCors := None;
      onConnect := None;
      tlsAuthConfig := TlsAuth.Default();
      tracing := runtime.Some? && Runtime.IsEnabled(runtime.value.tracing);
    }

    /** `default_cors`: only the default CORS configuration changes. */
    method DefaultCors(cors: Option<CorsSettings>)
      modifies this
      ensures defaultCors == cors
      ensures onConnect == old(onConnect) && tlsAuthConfig == old(tlsAuthConfig)
    {
      defaultCors := cors;
    }

    /** `on_connect`: only the handler changes. */
    method OnConnectHandler(handler: OnConnect)
      modifies this
      ensures onConnect == Some(handler)
      ensures defaultCors == old(defaultCors) && tlsAuthConfig == old(tlsAuthConfig)
    {
      onConnect := Some(handler);
    }

    /** `tls_auth_config`: only the TLS settings change. */
    method TlsAuthConfig(tls: TlsAuthConfig)
      modifies this
      ensures tlsAuthConfig == tls
      ensures defaultCors == old(defaultCors) && onConnect == old(onConnect)
    {
      tlsAuthConfig := tls;
    }

    /** `cors_config`. */
    function CorsConfig(): (r: Option<CorsSettings>)
      reads this
      ensures r == EffectiveCors(config, defaultCors)
    {
      if config.cors.Some? then config.cors else defaultCors
    }

    /** `run`: builds the metrics middleware and the CORS policy once, either
        failure ending the run; then takes the PSK callback out of the TLS
        settings when PSK is disabled, and binds. */
    method Run(prometheus: PrometheusBuild, buildCors: CorsBuild, openssl: bool) returns (outcome: RunOutcome)
      modifies this
      ensures outcome == Setup(config, old(defaultCors), old(onConnect), old(tlsAuthConfig), tracing, prometheus, buildCors, openssl)
      ensures defaultCors == old(defaultCors) && onConnect == old(onConnect)
      ensures tlsAuthConfig ==
        if prometheus(MetricsNamespace(config)).Ok? && buildCors(EffectiveCors(config, old(defaultCors))).Ok?
        then WithoutPskIfDisabled(config, old(tlsAuthConfig)) else old(tlsAuthConfig)
    {
      var namespace := if config.metricsNamespace.Some? then config.metricsNamespace.value else DEFAULT_METRICS_NAMESPACE;
      var metrics := prometheus(namespace);
      if metrics.Err? {
        return Failed(PROMETHEUS_FAILED + metrics.error);
      }
      var cors := CorsConfig();
      var policy := buildCors(cors);
      if policy.Err? {
        return Failed(policy.error);
      }
      var plainLogger, tracingLogger := !tracing, tracing;
      if config.disableTlsPsk {
        tlsAuthConfig := tlsAuthConfig.(psk := None);
      }
      var bound := BindHttp(config.bindAddr, WithTlsAuthConfig(config.disableTls, tlsAuthConfig),
                            config.keyFile, config.certBundleFile, openssl);
      if bound.Panic? {
        return Panicked(bound.message);
      }
      var workers: Option<nat> := None;
      if config.workers.Some? {
        workers := config.workers;
      }
      outcome := Started(ServerSetup(namespace, policy.value, plainLogger, tracingLogger,
        config.maxPayloadSize, config.maxJsonPayloadSize, onConnect, bound.server, workers));
    }
  }

  /** Exactly one request logger is active: the tracing one when tracing is
      on, the plain one otherwise. */
  lemma ExactlyOneLogger(config: HttpConfig, defaultCors: Option<CorsSettings>, onConnect: Option<OnConnect>,
                         tls: TlsAuthConfig, tracing: bool, prometheus: PrometheusBuild, buildCors: CorsBuild, openssl: bool)
    ensures var o := Setup(config, defaultCors, onConnect, tls, tracing, prometheus, buildCors, openssl);
      o.Started? ==> (o.setup.plainLogger != o.setup.tracingLogger) && (o.setup.tracingLogger <==> tracing)
  {
  }

  /** A failing metrics build ends the run before the CORS policy is built;
      the error says what failed. */
  lemma PrometheusFailureFirst(config: HttpConfig, defaultCors: Option<CorsSettings>, onConnect: Option<OnConnect>,
                               tls: TlsAuthConfig, tracing: bool, prometheus: PrometheusBuild,
                               buildCors1: CorsBuild, buildCors2: CorsBuild, openssl: bool)
    requires prometheus(MetricsNamespace(config)).Err?
    ensures Setup(config, defaultCors, onConnect, tls, tracing, prometheus, buildCors1, openssl)
         == Setup(config, defaultCors, onConnect, tls, tracing, prometheus, buildCors2, openssl)
         == Failed(PROMETHEUS_FAILED + prometheus(MetricsNamespace(config)).error)
  {
  }

  /** The CORS policy is built from the effective configuration, and a
      failure to build it ends the run with that error. */
  lemma CorsBuiltFromEffectiveConfig(config: HttpConfig, defaultCors: Option<CorsSettings>, onConnect: Option<OnConnect>,
                                     tls: TlsAuthConfig, tracing: bool, prometheus: PrometheusBuild, buildCors: CorsBuild, openssl: bool)
    requires prometheus(MetricsNamespace(config)).Ok?
    ensures var built := buildCors(EffectiveCors(config, defaultCors));
      var o := Setup(config, defaultCors, onConnect, tls, tracing, prometheus, buildCors, openssl);
      && (built.Err? ==> o == Failed(built.error))
      && (o.Started? ==> built == Ok(o.setup.cors))
  {
  }

  /** Disabling TLS always binds in plain text (or reports a key or
      certificate given without TLS); otherwise TLS is used exactly when key
      and certificate are configured and OpenSSL is built in. */
  lemma TlsOnlyWhenNotDisabled(config: HttpConfig, defaultCors: Option<CorsSettings>, onConnect: Option<OnConnect>,
                               tls: TlsAuthConfig, tracing: bool, prometheus: PrometheusBuild, buildCors: CorsBuild, openssl: bool)
    ensures var o := Setup(config, defaultCors, onConnect, tls, tracing, prometheus, buildCors, openssl);
      && (o.Started? && o.setup.server.TlsServer? ==> !config.disableTls && openssl)
      && (o.Started? && !config.disableTls ==> o.setup.server.TlsServer?)
      && (o.Started? && config.disableTls ==> o.setup.server == PlainServer(config.bindAddr))
  {
  }

  /** Once both middleware builds succeed, the TLS options decide the run: a
      key or certificate without TLS and TLS without both of them panic with
      their messages, TLS without OpenSSL panics too, and the server starts
      exactly in the two consistent combinations. */
  lemma BindingDecidesRun(config: HttpConfig, defaultCors: Option<CorsSettings>, onConnect: Option<OnConnect>,
                          tls: TlsAuthConfig, tracing: bool, prometheus: PrometheusBuild, buildCors: CorsBuild, openssl: bool)
    requires prometheus(MetricsNamespace(config)).Ok?
    requires buildCors(EffectiveCors(config, defaultCors)).Ok?
    ensures var o := Setup(config, defaultCors, onConnect, tls, tracing, prometheus, buildCors, openssl);
      var key, cert := config.keyFile, config.certBundleFile;
      && (config.disableTls && (key.Some? || cert.Some?) ==> o == Panicked(KEY_OR_CERT_WITHOUT_TLS))
      && (!config.disableTls && (key.None? || cert.None?) ==> o == Panicked(TLS_MISSING_KEY_OR_CERT))
      && (!config.disableTls && key.Some? && cert.Some? && !openssl ==> o == Panicked(NO_TLS_IMPLEMENTATION))
      && (o.Started? <==> (config.disableTls && key.None? && cert.None?)
                          || (!config.disableTls && key.Some? && cert.Some? && openssl))
  {
  }

  /** With PSK disabled the TLS handshake has no PSK callback. */
  lemma PskDisabledMeansNoPsk(config: HttpConfig, defaultCors: Option<CorsSettings>, onConnect: Option<OnConnect>,
                              tls: TlsAuthConfig, tracing: bool, prometheus: PrometheusBuild, buildCors: CorsBuild, openssl: bool)
    requires config.disableTlsPsk
    ensures var o := Setup(config, defaultCors, onConnect, tls, tracing, prometheus, buildCors, openssl);
      o.Started? && o.setup.server.TlsServer? ==> o.setup.server.acceptor.psk.None?
  {
  }

  /** The configured workers, namespace and payload limits are applied as
      configured, defaults filled in. */
  lemma ConfiguredValuesApplied(config: HttpConfig, defaultCors: Option<CorsSettings>, onConnect: Option<OnConnect>,
                                tls: TlsAuthConfig, tracing: bool, prometheus: PrometheusBuild, buildCors: CorsBuild, openssl: bool)
    ensures var o := Setup(config, defaultCors, onConnect, tls, tracing, prometheus, buildCors, openssl);
      o.Started? ==>
        && o.setup.workers == config.workers
        && o.setup.metricsNamespace == (if config.metricsNamespace.Some? then config.metricsNamespace.value else "drogue")
        && o.setup.maxPayloadSize == config.maxPayloadSize
        && o.setup.maxJsonPayloadSize == config.maxJsonPayloadSize
        && o.setup.onConnect == onConnect
  {
  }
}
