/** TLS client-authentication settings of an HTTP endpoint. */
module TlsAuth {

  import opened Wrappers

  datatype TlsMode = NoClient | Client

  /** A pre-shared-key lookup: for the identity the client presents, the
      length of the secret it wrote, or the error it failed with. */
  type PskCallback = Option<seq<bv8>> -> Result<nat, string>

  datatype TlsAuthConfig = TlsAuthConfig(mode: TlsMode, psk: Option<PskCallback>)

  /** `TlsAuthConfig::default`: no client authentication, no PSK. */
  function Default(): (c: TlsAuthConfig)
    ensures c.mode == NoClient && c.psk.None?
  {
    TlsAuthConfig(NoClient, None)
  }

  /** `WithTlsAuthConfig for bool`: the flag means "TLS disabled". */
  function WithTlsAuthConfig(disabled: bool, config: TlsAuthConfig): (r: Option<TlsAuthConfig>)
    ensures r.None? <==> disabled
    ensures r.Some? ==> r.value == config
  {
    if disabled then None else Some(config)
  }
}
