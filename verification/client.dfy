/** The shared API client handle (internal/client/client.go). The read lock around the
    client reference is left out: the reference is a `const` field, so it is never
    reassigned after construction and reads need no synchronisation in the model. */
module Client {
  import opened Outcomes
  import opened Api
  import Config

  /** The OAuth scopes the handle asks for. */
  const OAuthScopes: seq<string> := ["all:read", "all:write"]

  const ValidationFailure := "failed to validate Tailscale connection: "

  /** The API client built from a resolved configuration: the configured tailnet, and
      either the OAuth transport or the API key, never both. */
  function NewApiClient(cfg: Config.Config): (c: ApiClient)
    ensures c.tailnet == cfg.tailnet
    ensures cfg.useOAuth ==>
              && c.http == OAuthHttp(OAuthConfig(cfg.clientId, cfg.clientSecret, ["all:read", "all:write"]))
              && c.apiKey == ""
    ensures !cfg.useOAuth ==> c.apiKey == cfg.apiKey && c.http == DefaultHttp
  {
    var client := ApiClient(cfg.tailnet, "", DefaultHttp);
    if cfg.useOAuth then
      client.(http := OAuthHttp(OAuthConfig(cfg.clientId, cfg.clientSecret, OAuthScopes)))
    else
      client.(apiKey := cfg.apiKey)
  }

  /** An API client that can authenticate: an OAuth transport with both client
      credentials, or a non-empty API key. */
  predicate Authenticated(c: ApiClient) {
    match c.http
    case OAuthHttp(oauth) => oauth.clientId != "" && oauth.clientSecret != ""
    case DefaultHttp => c.apiKey != ""
  }

  /** Whatever configuration resolution accepts yields a client that can authenticate
      against the configured, non-empty tailnet. */
  lemma LoadedConfigGivesAuthenticatedClient(apiKey: string, tailnet: string, clientId: string, clientSecret: string)
    requires Config.LoadConfig(apiKey, tailnet, clientId, clientSecret).Ok?
    ensures Authenticated(NewApiClient(Config.LoadConfig(apiKey, tailnet, clientId, clientSecret).value))
    ensures NewApiClient(Config.LoadConfig(apiKey, tailnet, clientId, clientSecret).value).tailnet != ""
  {
  }

  /** What ValidateConnection did: the calls it issued and the error it returned, if any. */
  datatype Probe = Probe(calls: seq<RemoteCall>, error: Option<string>)

  /** The handle shared by every tool catalog. */
  class TailscaleClient {
    const client: ApiClient

    /** NewTailscaleClient: builds the API client from the configuration and cannot fail. */
    constructor (cfg: Config.Config)
      ensures client == NewApiClient(cfg)
    {
      client := NewApiClient(cfg);
    }

    /** The API client stored at construction. */
    function GetClient(): (c: ApiClient)
      ensures c == client
    {
      client
    }

    /** The connectivity probe: one devices-list call, answered by `reply`. */
    function ValidateConnection<V>(reply: RemoteCall -> Reply<V>): (p: Probe)
      ensures p.calls == [DevicesList]
      ensures p.error.None? <==> reply(DevicesList).Ok?
      ensures reply(DevicesList).Failed? ==> p.error == Some(ValidationFailure + reply(DevicesList).err)
    {
      match reply(DevicesList)
      case Ok(_) => Probe([DevicesList], None)
      case Failed(err) => Probe([DevicesList], Some(ValidationFailure + err))
    }
  }
}
