/** Credential resolution (internal/config/config.go). The four environment reads are
    parameters; resolution itself is local validation with no I/O. */
module Config {
  import opened Outcomes

  /** The resolved configuration. */
  datatype Config = Config(
    apiKey: string,
    tailnet: string,
    clientId: string,
    clientSecret: string,
    useOAuth: bool)
  {
    /** What every configuration that resolution accepts satisfies: a tailnet is named,
        the mode flag reflects the OAuth pair, and the selected mode has its credentials. */
    predicate Valid() {
      && tailnet != ""
      && (useOAuth <==> clientId != "" && clientSecret != "")
      && (!useOAuth ==> apiKey != "")
    }
  }

  /** The tailnet name meaning "the caller's default tailnet". */
  const DefaultTailnet := "-"

  const MissingCredentials :=
    "either TAILSCALE_API_KEY or both TAILSCALE_CLIENT_ID and TAILSCALE_CLIENT_SECRET must be set"

  /** LoadConfig, with the values of TAILSCALE_API_KEY, TAILSCALE_TAILNET,
      TAILSCALE_CLIENT_ID and TAILSCALE_CLIENT_SECRET given as arguments. */
  function LoadConfig(apiKey: string, tailnet: string, clientId: string, clientSecret: string): (r: Reply<Config>)
    // fails exactly when OAuth is not selected and there is no API key
    ensures r.Failed? <==> (clientId == "" || clientSecret == "") && apiKey == ""
    ensures r.Failed? ==> r.err == MissingCredentials
    ensures r.Ok? ==> r.value.Valid()
    // OAuth is selected iff both OAuth values are non-empty
    ensures r.Ok? ==> (r.value.useOAuth <==> clientId != "" && clientSecret != "")
    // the credentials are kept as given
    ensures r.Ok? ==> r.value.apiKey == apiKey && r.value.clientId == clientId && r.value.clientSecret == clientSecret
    // an empty tailnet becomes "-", any other is kept
    ensures r.Ok? ==> r.value.tailnet == if tailnet == "" then DefaultTailnet else tailnet
  {
    var read := Config(apiKey, tailnet, clientId, clientSecret, false);
    var defaulted := if read.tailnet == "" then read.(tailnet := DefaultTailnet) else read;
    var cfg := defaulted.(useOAuth := defaulted.clientId != "" && defaulted.clientSecret != "");
    if !cfg.useOAuth && cfg.apiKey == "" then Failed(MissingCredentials) else Ok(cfg)
  }

  /** Only one half of the OAuth pair does not select OAuth: resolution then stands or
      falls with the API key. */
  lemma HalfOAuthPairFallsBackToApiKey(apiKey: string, tailnet: string, clientId: string, clientSecret: string)
    requires (clientId == "") != (clientSecret == "")
    ensures LoadConfig(apiKey, tailnet, clientId, clientSecret).Ok? <==> apiKey != ""
    ensures LoadConfig(apiKey, tailnet, clientId, clientSecret).Ok? ==>
              !LoadConfig(apiKey, tailnet, clientId, clientSecret).value.useOAuth
  {
  }

  /** With both credential sets supplied, OAuth wins. */
  lemma BothModesSelectOAuth(apiKey: string, tailnet: string, clientId: string, clientSecret: string)
    requires apiKey != "" && clientId != "" && clientSecret != ""
    ensures LoadConfig(apiKey, tailnet, clientId, clientSecret).Ok?
    ensures LoadConfig(apiKey, tailnet, clientId, clientSecret).value.useOAuth
  {
  }
}
