/** The surface of the Tailscale API client library as this model sees it: the client
    record that internal/client/client.go fills in, the request records the tool
    handlers build, and one constructor of RemoteCall per API method a handler calls.
    What the remote side does with a call is not modelled: every call is answered by
    an oracle (see Dispatch). */
module Api {
  import opened Outcomes

  /** Client-credentials configuration handed to the OAuth transport. */
  datatype OAuthConfig = OAuthConfig(clientId: string, clientSecret: string, scopes: seq<string>)

  /** The HTTP client of the API client: the library's default, or the one obtained from
      an OAuth configuration (token acquisition and refresh happen behind it). */
  datatype HttpClient = DefaultHttp | OAuthHttp(config: OAuthConfig)

  /** The fields of tailscale.Client that this repository sets. */
  datatype ApiClient = ApiClient(tailnet: string, apiKey: string, http: HttpClient)

  // Request records

  datatype DeviceKey = DeviceKey(keyExpiryDisabled: bool)

  /** Capabilities.Devices.Create of a key creation request; `tags == None` is a nil slice. */
  datatype CreateCapabilities = CreateCapabilities(
    reusable: bool, ephemeral: bool, tags: Option<seq<string>>, preauthorized: bool)

  /** A key creation request; `expirySeconds == 0` means the field is left unset. */
  datatype CreateKeyRequest = CreateKeyRequest(
    capabilities: CreateCapabilities, description: string, expirySeconds: int)

  datatype ContactType = ContactAccount | ContactSupport | ContactSecurity

  datatype UpdateContactRequest = UpdateContactRequest(email: Option<string>)

  datatype DnsPreferences = DnsPreferences(magicDns: bool)

  /** tailscale.WebhookSubscriptionType, a string type. */
  datatype SubscriptionType = SubscriptionType(name: string)

  datatype CreateWebhookRequest = CreateWebhookRequest(endpointUrl: string, subscriptions: seq<SubscriptionType>)

  datatype LogType = LogTypeConfig | LogTypeNetwork

  /** tailscale.PostureIntegrationProvider, a string type. */
  datatype PostureProvider = PostureProvider(name: string)

  datatype CreatePostureIntegrationRequest = CreatePostureIntegrationRequest(
    provider: PostureProvider, clientId: string, clientSecret: string, tenantId: string)

  /** tailscale.RoleAllowedToJoinExternalTailnets, a string type. */
  datatype Role = Role(name: string)

  /** A partial update of the tailnet settings: `None` fields are nil and left unchanged. */
  datatype UpdateTailnetSettingsRequest = UpdateTailnetSettingsRequest(
    devicesApprovalOn: Option<bool>,
    devicesAutoUpdatesOn: Option<bool>,
    devicesKeyDurationDays: Option<int>,
    usersApprovalOn: Option<bool>,
    usersRoleAllowedToJoinExternalTailnets: Option<Role>,
    networkFlowLoggingOn: Option<bool>,
    regionalRoutingOn: Option<bool>,
    postureIdentityCollectionOn: Option<bool>)

  /** The policy file as the API returns it: HuJSON text and its ETag. */
  datatype RawPolicy = RawPolicy(huJson: string, etag: string)

  /** One call of an API method, with the arguments the handler passed. */
  datatype RemoteCall =
    // Devices()
    | DevicesList
    | DevicesListWithAllFields
    | DevicesGet(deviceId: string)
    | DevicesGetWithAllFields(deviceId: string)
    | DevicesDelete(deviceId: string)
    | DevicesSetAuthorized(deviceId: string, authorized: bool)
    | DevicesSetName(deviceId: string, name: string)
    | DevicesSetTags(deviceId: string, tags: seq<string>)
    | DevicesSetKey(deviceId: string, key: DeviceKey)
    | DevicesSubnetRoutes(deviceId: string)
    | DevicesSetSubnetRoutes(deviceId: string, routes: seq<string>)
    // Keys()
    | KeysList(all: bool)
    | KeysGet(keyId: string)
    | KeysCreate(keyRequest: CreateKeyRequest)
    | KeysDelete(keyId: string)
    // Users() and Contacts()
    | UsersList(userType: Option<string>, role: Option<string>)
    | UsersGet(userId: string)
    | ContactsGet
    | ContactsUpdate(contactType: ContactType, contactRequest: UpdateContactRequest)
    // DNS() and PolicyFile()
    | DnsNameservers
    | DnsSetNameservers(nameservers: seq<string>)
    | DnsPreferencesGet
    | DnsSetPreferences(preferences: DnsPreferences)
    | DnsSearchPaths
    | DnsSetSearchPaths(searchPaths: seq<string>)
    | PolicyRaw
    | PolicySet(policy: string, etag: string)
    | PolicyValidate(policy: string)
    // Webhooks(), Logging(), DevicePosture(), TailnetSettings()
    | WebhooksList
    | WebhooksCreate(webhookRequest: CreateWebhookRequest)
    | WebhooksGet(endpointId: string)
    | WebhooksDelete(endpointId: string)
    | LogstreamConfiguration(logType: LogType)
    | PostureListIntegrations
    | PostureCreateIntegration(postureRequest: CreatePostureIntegrationRequest)
    | PostureGetIntegration(integrationId: string)
    | PostureDeleteIntegration(integrationId: string)
    | TailnetSettingsGet
    | TailnetSettingsUpdate(settingsRequest: UpdateTailnetSettingsRequest)
}
