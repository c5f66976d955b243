/** Binding the HTTP server to its address, in plain text or over OpenSSL,
    after checking that the TLS settings are consistent. */
module Bind {

  import opened Wrappers
  import opened TlsAuth

  datatype VerifyMode = VerifyNone | VerifyPeer

  /** A certificate-verification callback: given whether the chain verified
      and the subject of the current certificate, whether to accept it. */
  type VerifyCallback = (bool, Option<string>) -> bool

  /** The server-side PSK callback the handshake sees: the secret's length. */
  type ServerPsk = Option<seq<bv8>> -> Result<nat, string>

  /** Accepts every client certificate, whatever its verification status. */
  const ACCEPT_ANY: VerifyCallback := (verified: bool, subject: Option<string>) => true

  const HANDSHAKE_TIMEOUT_SECS := 10

  /** A PSK callback whose errors end in a zero-length secret instead of a
      failed handshake. */
  function LenientPsk(psk: PskCallback): (r: ServerPsk)
    ensures forall identity :: psk(identity).Ok? ==> r(identity) == psk(identity)
    ensures forall identity :: psk(identity).Err? ==> r(identity) == Ok(0)
  {
    identity => match psk(identity)
      case Ok(len) => Ok(len)
      case Err(_) => Ok(0)
  }

  /** The settings an OpenSSL acceptor builder ends up with. */
  datatype AcceptorSettings = AcceptorSettings(
    privateKeyFile: Option<string>,
    certificateChainFile: Option<string>,
    verify: Option<(VerifyMode, VerifyCallback)>,
    psk: Option<ServerPsk>)

  /** An OpenSSL acceptor builder, configured step by step. */
  class SslAcceptorBuilder {
    var privateKeyFile: Option<string>
    var certificateChainFile: Option<string>
    var verify: Option<(VerifyMode, VerifyCallback)>
    var psk: Option<ServerPsk>

    /** `SslAcceptor::mozilla_intermediate_v5`: nothing configured yet. */
    constructor MozillaIntermediate()
      ensures Settings() == AcceptorSettings(None, None, None, None)
    {
      privateKeyFile := None;
      certificateChainFile := None;
      verify := None;
      psk := None;
    }

    function Settings(): AcceptorSettings
      reads this
    {
      AcceptorSettings(privateKeyFile, certificateChainFile, verify, psk)
    }

    method SetPrivateKeyFile(file: string)
      modifies this
      ensures Settings() == old(Settings()).(privateKeyFile := Some(file))
    {
      privateKeyFile := Some(file);
    }

    method SetCertificateChainFile(file: string)
      modifies this
      ensures Settings() == old(Settings()).(certificateChainFile := Some(file))
    {
      certificateChainFile := Some(file);
    }

    method SetVerifyCallback(mode: VerifyMode, callback: VerifyCallback)
      modifies this
      ensures Settings() == old(Settings()).(verify := Some((mode, callback)))
    {
      verify := Some((mode, callback));
    }

    method SetPskServerCallback(callback: ServerPsk)
      modifies this
      ensures Settings() == old(Settings()).(psk := Some(callback))
    {
      psk := Some(callback);
    }
  }

  /** What the acceptor is configured with for a TLS configuration and the
      key and certificate files. */
  function AcceptorFor(tls: TlsAuthConfig, key: string, cert: string): (r: AcceptorSettings)
    ensures r.privateKeyFile == Some(key) && r.certificateChainFile == Some(cert)
    ensures r.verify.Some? <==> tls.mode == Client
    ensures r.verify.Some? ==> r.verify.value.0 == VerifyPeer && forall ok, subject :: r.verify.value.1(ok, subject)
    ensures r.psk.Some? <==> tls.psk.Some?
  {
    AcceptorSettings(Some(key), Some(cert),
      if tls.mode == Client then Some((VerifyPeer, ACCEPT_ANY)) else None,
      if tls.psk.Some? then Some(LenientPsk(tls.psk.value)) else None)
  }

  /** A bound server: plain, or TLS with its acceptor and handshake timeout. */
  datatype Server =
    | PlainServer(addr: string)
    | TlsServer(addr: string, acceptor: AcceptorSettings, handshakeTimeoutSecs: nat)

  /** Binding yields a server or a panic with its message. */
  datatype BindResult = Bound(server: Server) | Panic(message: string)

  const TLS_MISSING_KEY_OR_CERT := "Wrong TLS configuration: TLS enabled, but key or cert is missing"
  const KEY_OR_CERT_WITHOUT_TLS := "Wrong TLS configuration: key or cert specified, but TLS is disabled"
  const NO_TLS_IMPLEMENTATION := "TLS is required, but no TLS implementation enabled"

  /** `bind_http_openssl`: configures the acceptor and binds with a ten
      second handshake timeout. */
  method BindHttpOpenSsl(tls: TlsAuthConfig, addr: string, key: string, cert: string) returns (server: Server)
    ensures server == TlsServer(addr, AcceptorFor(tls, key, cert), HANDSHAKE_TIMEOUT_SECS)
  {
    var builder := new SslAcceptorBuilder.MozillaIntermediate();
    builder.SetPrivateKeyFile(key);
    builder.SetCertificateChainFile(cert);
    if tls.mode == Client {
      builder.SetVerifyCallback(VerifyPeer, ACCEPT_ANY);
    }
    if tls.psk.Some? {
      builder.SetPskServerCallback(LenientPsk(tls.psk.value));
    }
    server := TlsServer(addr, builder.Settings(), HANDSHAKE_TIMEOUT_SECS);
  }

  /** In client mode the peer is asked for a certificate and every answer is
      accepted; otherwise no certificate is asked for. */
  lemma ClientCertificatesRequestedNotEnforced(tls: TlsAuthConfig, key: string, cert: string)
    ensures var a := AcceptorFor(tls, key, cert);
      && (tls.mode == Client <==> a.verify.Some?)
      && (a.verify.Some? ==>
            && a.verify.value.0 == VerifyPeer
            && forall verified, subject :: a.verify.value.1(verified, subject))
  {
  }

  /** The handshake's PSK callback never fails: it reports the configured
      callback's length, or zero when that callback fails. */
  lemma PskErrorsBecomeEmptySecret(tls: TlsAuthConfig, key: string, cert: string, identity: Option<seq<bv8>>)
    ensures var a := AcceptorFor(tls, key, cert);
      && (a.psk.Some? <==> tls.psk.Some?)
      && (tls.psk.Some? ==>
            var reply := tls.psk.value(identity);
            a.psk.value(identity) == Ok(if reply.Ok? then reply.value else 0))
  {
  }

  /** The outcome of `bind_http`: TLS needs the configuration, the key and
      the certificate together, plain binding needs none of them; `openssl`
      says whether a TLS implementation is built in. */
  function BindOutcome(addr: string, tls: Option<TlsAuthConfig>, key: Option<string>, cert: Option<string>, openssl: bool): (r: BindResult)
    ensures r.Bound? && r.server.TlsServer? <==> tls.Some? && key.Some? && cert.Some? && openssl
    ensures r.Bound? && r.server.TlsServer? ==>
      r.server == TlsServer(addr, AcceptorFor(tls.value, key.value, cert.value), HANDSHAKE_TIMEOUT_SECS)
    ensures r == Bound(PlainServer(addr)) <==> tls.None? && key.None? && cert.None?
    ensures r == Panic(NO_TLS_IMPLEMENTATION) <==> tls.Some? && key.Some? && cert.Some? && !openssl
    ensures r == Panic(TLS_MISSING_KEY_OR_CERT) <==> tls.Some? && (key.None? || cert.None?)
    ensures r == Panic(KEY_OR_CERT_WITHOUT_TLS) <==> tls.None? && (key.Some? || cert.Some?)
  {
    match (tls, key, cert)
    case (Some(config), Some(k), Some(c)) =>
      if openssl then Bound(TlsServer(addr, AcceptorFor(config, k, c), HANDSHAKE_TIMEOUT_SECS))
      else Panic(NO_TLS_IMPLEMENTATION)
    case (None, None, None) => Bound(PlainServer(addr))
    case (Some(_), _, _) => Panic(TLS_MISSING_KEY_OR_CERT)
    case (None, _, _) => Panic(KEY_OR_CERT_WITHOUT_TLS)
  }

  /** Exactly one of the five outcomes happens for every combination. */
  lemma BindCasesPartition(addr: string, tls: Option<TlsAuthConfig>, key: Option<string>, cert: Option<string>, openssl: bool)
    ensures var r := BindOutcome(addr, tls, key, cert, openssl);
      (r.Bound? && r.server.TlsServer?) || r == Bound(PlainServer(addr))
      || r == Panic(NO_TLS_IMPLEMENTATION) || r == Panic(TLS_MISSING_KEY_OR_CERT)
      || r == Panic(KEY_OR_CERT_WITHOUT_TLS)
  {
  }

  /** `bind_http`, configuring the OpenSSL acceptor on the TLS path. */
  method BindHttp(addr: string, tls: Option<TlsAuthConfig>, key: Option<string>, cert: Option<string>, openssl: bool)
    returns (r: BindResult)
    ensures r == BindOutcome(addr, tls, key, cert, openssl)
  {
    match (tls, key, cert) {
      case (Some(config), Some(k), Some(c)) =>
        if openssl {
          var server := BindHttpOpenSsl(config, addr, k, c);
          r := Bound(server);
        } else {
          r := Panic(NO_TLS_IMPLEMENTATION);
        }
      case (None, None, None) =>
        r := Bound(PlainServer(addr));
      case (Some(_), _, _) =>
        r := Panic(TLS_MISSING_KEY_OR_CERT);
      case (None, _, _) =>
        r := Panic(KEY_OR_CERT_WITHOUT_TLS);
    }
  }
}
