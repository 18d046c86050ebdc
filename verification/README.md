# tailscale-mcp-server — a verified model of its core

tailscale-mcp-server is an MCP (Model Context Protocol) server that exposes the
Tailscale admin API as 42 tools. At start-up it resolves the credentials from
the environment, builds a Tailscale API client (OAuth client credentials or an
API key) and probes the connection by listing devices. It then registers five
tool catalogs with the MCP server: devices, keys, users, DNS and policy, and
webhooks/logging/posture/settings. A tool handler does a few steps:
- it optionally binds the call's arguments (twelve handlers take none, and two bind
  only when arguments were sent);
- it may branch on them;
- it makes zero, one or two remote calls (the four user-lifecycle stubs make none,
  and neither does a contact update with an unknown contact type);
- it turns the outcome into exactly one result: either a text (a confirmation, the
  JSON encoding of what the API returned, or the raw policy text) or an error text
  with a fixed prefix.

The model is written in Dafny, one module per source file:

| module | file | source |
|---|---|---|
| `Config` | config.dfy | internal/config/config.go |
| `Client` | client.dfy | internal/client/client.go |
| `DeviceTools`, `KeyTools`, `UserTools`, `DnsTools`, `AdditionalTools` | devices.dfy, keys.dfy, users.dfy, dns.dfy, additional.dfy | pkg/tools/*.go |
| `Handlers` | handler.dfy | internal/handlers/handler.go |

These modules share some supporting modules:
- `Outcomes`: `Option` and `Reply`.
- `Api`: the Tailscale client's request records and the `RemoteCall` datatype, one
  constructor per API method the handlers use.
- `Mcp`: tool descriptors, `ToolResult`, argument binding, and the server registry,
  a class whose `AddTool` appends.
- `Ops`: the 42 handler method values.
- `Dispatch`: the record of one dispatch, and the spec predicates every handler is
  proved against.

How the model stands in for what it cannot see:
- The remote API is an oracle `reply: RemoteCall -> Reply<V>`.
- `json.MarshalIndent` is an oracle `marshal: V -> Reply<string>`.
- `BindArguments` is an opaque outcome `Bound(args) | BindFailed(reason)`. Two
  handlers skip binding when no arguments were sent; they take
  `Absent | Present(binding)` instead.

A handler returns an `Execution(calls, result)`: the remote calls it issued, in
order, and its single result. Go's `error` return is nil on every path of every
handler, so it is not modelled.

The registration methods take no oracle, so registration issues no remote calls.
Their `modifies` frame is the server alone.

Three spec predicates state the behaviour the handlers share, and most handlers'
contracts are stated in them (the policy getter, the four stubs and the unknown
contact type are stated directly):
- `Rejects`: no call, and `Invalid arguments: <reason>`.
- `Serves`: exactly the given call. The result is the encoded value only when the
  call and the encoding both succeed, otherwise `<failure><err>` or
  `<marshal failure><err>`.
- `Confirms`: exactly the given call. The result is the confirmation text only on
  success, otherwise `<failure><err>`.

## Model

| member | source | states |
|---|---|---|
| `Config.LoadConfig` | internal/config/config.go:16-35 | Fails exactly when OAuth is not selected and the API key is empty, with the fixed message. OAuth is selected iff both the client id and the secret are non-empty. The three credentials are kept as given. An empty tailnet becomes "-" and any other tailnet is kept. Every success satisfies `Valid`. |
| `Config.HalfOAuthPairFallsBackToApiKey` | internal/config/config.go:28-31 | With only one of the two OAuth values set, OAuth is not selected, and resolution succeeds iff the API key is non-empty. |
| `Config.BothModesSelectOAuth` | internal/config/config.go:28-34 | With an API key and both OAuth values supplied, resolution succeeds and selects OAuth. |
| `Client.NewApiClient` | internal/client/client.go:17-36 | The client's tailnet is the configured one. In OAuth mode the transport is an OAuth config with the configured id and secret and scopes exactly ["all:read","all:write"], and no API key is set. Otherwise the API key is the configured one and the default transport is kept. |
| `Client.LoadedConfigGivesAuthenticatedClient` | internal/client/client.go:17-31 | Every configuration that resolution accepts yields a client that can authenticate (OAuth with both credentials, or a non-empty key) against a non-empty tailnet. |
| `Client.TailscaleClient.constructor` | internal/client/client.go:17-36 | NewTailscaleClient cannot fail; it stores the client built from the configuration. |
| `Client.TailscaleClient.GetClient` | internal/client/client.go:38-42 | Returns the client stored at construction; the field is a constant and is never reassigned. |
| `Client.TailscaleClient.ValidateConnection` | internal/client/client.go:44-51 | Issues exactly one devices-list call. It returns no error iff that call succeeds, and otherwise the error after "failed to validate Tailscale connection: ". |
| `Mcp.McpServer.constructor` | cmd/main.go:28-32 | A new server has no tools. |
| `Mcp.McpServer.AddTool` | pkg/tools/devices.go:28 | The tool and its handler are added after the tools already registered; nothing else changes. |
| `Mcp.Effective` | pkg/tools/devices.go:97-101 | Absent arguments give the zero-valued struct without binding. Present arguments give exactly the binder's outcome. |
| `Mcp.DistinctConcat` | internal/handlers/handler.go:19-34 | Two duplicate-free name lists that share no name concatenate to a duplicate-free list. |
| `Mcp.DisjointConcat` | internal/handlers/handler.go:19-34 | Two name lists that are each disjoint from a third are disjoint from it when concatenated. |
| `Ops.RegisteredInOrder` | pkg/tools/devices.go:22-90 | A registry that kept its earlier tools and then gained one registration per catalog entry, in catalog order, is its earlier tools followed by the catalog's registrations. |
| `Ops.Registrations` | pkg/tools/devices.go:22-90 | Registering a catalog adds one entry per descriptor, in catalog order. Each entry pairs the descriptor with its handler method bound to the catalog's client. |
| `Dispatch.Reject` | pkg/tools/devices.go:131-133 | A binding failure issues no remote call and reports "Invalid arguments: " followed by the binder's error. |
| `Dispatch.Serve` | pkg/tools/devices.go:113-122 | Meets `Serves`: exactly one call; the remote error after the failure prefix; the encoder's error after the marshal prefix; otherwise the encoded value. |
| `Dispatch.Confirm` | pkg/tools/devices.go:167-171 | Meets `Confirms`: exactly one call; the remote error after the failure prefix; otherwise the confirmation text. |
| `Dispatch.ServedTextOnlyOnSuccess` | pkg/tools/devices.go:113-122 | A fetching handler answers with text iff the call and the encoding both succeed, and the text is then the encoder's output. A remote failure never yields the success text. |
| `Dispatch.ConfirmedOnlyOnSuccess` | pkg/tools/devices.go:167-171 | A changing handler answers with text iff its call succeeds, and the text is then the confirmation. |
| `Dispatch.FormatBool` | pkg/tools/dns.go:148 | `%v` of a bool is "true" exactly for true and "false" exactly for false. |
| `Dispatch.JoinSpace` | pkg/tools/dns.go:112 | The space-joined body of `%v` of a `[]string`: empty for no elements, otherwise every character of every element plus one space between neighbours, starting with the first element. |
| `Dispatch.FormatStrings` | pkg/tools/devices.go:230 | `%v` of a `[]string` (also dns.go:180 and devices.go:290): opens with `[` and the first element, closes with `]`, and is two characters longer than the joined body; the empty list gives `[]`. |
| `Dispatch.JoinSpaceAppend` | pkg/tools/dns.go:112 | Joining a concatenation of two non-empty lists is joining each part, separated by one space. |
| `Dispatch.FormatStringsEchoes` | pkg/tools/dns.go:112 | The `%v` text of a list shows every element, unchanged and in order, between the texts of its neighbours. |
| `DeviceTools.RegisterTools` | pkg/tools/devices.go:22-90 | The server gains the nine device tools, in declaration order, each bound to the catalog's client. Its earlier tools are kept. |
| `DeviceTools.CatalogShape` | pkg/tools/devices.go:22-90 | There are nine tools with distinct names. `device_id` is required on every tool except `tailscale_devices_list`, which does not declare it. |
| `DeviceTools.ListDevices` | pkg/tools/devices.go:92-123 | Absent arguments are not bound and give the standard list. A binding failure is rejected with no call. `fields == "all"` gives the full-field list and any other value the standard list. Errors use "Failed to list devices: " and "Failed to marshal devices: ". |
| `DeviceTools.GetDevice` | pkg/tools/devices.go:125-155 | A binding failure is rejected with no call. `fields == "all"` gives the full-field get of the bound device and any other value the standard get. Errors use "Failed to get device: " and "Failed to marshal device: ". |
| `DeviceTools.DeleteDevice` | pkg/tools/devices.go:157-172 | Deletes the bound device. On success the text is "Device <id> deleted successfully"; on failure, "Failed to delete device: " and the error. |
| `DeviceTools.AuthorizeDevice` | pkg/tools/devices.go:174-195 | Passes the bound flag. On success the text is "Device <id> authorized successfully" for true and "... deauthorized successfully" for false. |
| `DeviceTools.SetDeviceName` | pkg/tools/devices.go:197-213 | Sends the bound name for the bound device. On success the text is "Device <id> name set to <name>". |
| `DeviceTools.SetDeviceTags` | pkg/tools/devices.go:215-231 | Sends the bound tags unchanged. The confirmation echoes them in `%v` form. |
| `DeviceTools.ExpireDevice` | pkg/tools/devices.go:233-250 | Sets the device key with key expiry not disabled. On success the text is "Device <id> expired successfully". |
| `DeviceTools.ListDeviceRoutes` | pkg/tools/devices.go:252-273 | Fetches the bound device's subnet routes, with the routes error prefixes. |
| `DeviceTools.SetDeviceRoutes` | pkg/tools/devices.go:275-291 | Sends the bound routes unchanged. The confirmation echoes them in `%v` form. |
| `DeviceTools.FieldsRouting` | pkg/tools/devices.go:107-111 | Omitted arguments, "default", "" and every value other than "all" select the standard list or get. Only "all" selects the full-field variant. |
| `KeyTools.RegisterTools` | pkg/tools/keys.go:22-54 | The server gains the four key tools, in order, each bound to the catalog's client. |
| `KeyTools.CatalogShape` | pkg/tools/keys.go:22-54 | There are four tools with distinct names. |
| `KeyTools.CreateKeyRequestFor` | pkg/tools/keys.go:110-139 | The request's reusable, ephemeral, tags and preauthorized capabilities and its description equal the bound values. The expiry is copied when `expiry_seconds > 0` and is left zero otherwise, so it is never negative. |
| `KeyTools.ListKeys` | pkg/tools/keys.go:56-69 | Lists keys with `all = false`, with the keys error prefixes. |
| `KeyTools.GetKey` | pkg/tools/keys.go:71-92 | A binding failure is rejected. Otherwise it fetches the bound key, with "Failed to get key: " and "Failed to marshal key: ". |
| `KeyTools.CreateKey` | pkg/tools/keys.go:94-153 | Absent arguments skip binding and create from the zero-valued arguments. A binding failure is rejected with no call. Otherwise it sends the request built from the bound arguments, with "Failed to create key: " and "Failed to marshal key: ". |
| `KeyTools.DeleteKey` | pkg/tools/keys.go:155-170 | Deletes the bound key. On success the text is "Key <id> deleted successfully"; on failure, "Failed to delete key: ". |
| `KeyTools.CreateKeyWithoutArguments` | pkg/tools/keys.go:95-108 | Without arguments the one call creates a key with every flag false, an empty description, nil tags and no expiry. |
| `KeyTools.CreateKeyExample` | pkg/tools/keys.go:94-153 | A reusable key tagged tag:ci asks for exactly those capabilities and returns the created key's encoding. |
| `UserTools.RegisterTools` | pkg/tools/users.go:22-77 | The server gains the eight user and contact tools, in order. |
| `UserTools.CatalogShape` | pkg/tools/users.go:22-77 | There are eight tools with distinct names. `contact_type` is required and restricted to account, support and security. |
| `UserTools.ListUsers` | pkg/tools/users.go:79-92 | Lists users with both filters nil. |
| `UserTools.GetUser` | pkg/tools/users.go:94-115 | A binding failure is rejected. Otherwise it fetches the bound user, with the user error prefixes. |
| `UserTools.ApproveUser` | pkg/tools/users.go:117-128 | Never calls the remote API. A binding failure is reported first; otherwise the result is the fixed "User approval functionality is not available in the current API". |
| `UserTools.SuspendUser` | pkg/tools/users.go:130-141 | Never calls the remote API. The result is the binding error or the fixed suspension message. |
| `UserTools.RestoreUser` | pkg/tools/users.go:143-154 | Never calls the remote API. The result is the binding error or the fixed restoration message. |
| `UserTools.DeleteUser` | pkg/tools/users.go:156-167 | Never calls the remote API. The result is the binding error or the fixed deletion message. |
| `UserTools.LifecycleStubsNeverCallRemote` | pkg/tools/users.go:117-167 | However the arguments bind, the four lifecycle tools issue no call and never succeed. |
| `UserTools.GetContacts` | pkg/tools/users.go:169-182 | Fetches the contacts, with the contacts error prefixes. |
| `UserTools.ContactTypeOf` | pkg/tools/users.go:193-204 | A contact type is found exactly for "account", "support" and "security". |
| `UserTools.ContactTypeName` | pkg/tools/users.go:193-201 | Every contact type's name is one of the values the `contact_type` enumeration declares. |
| `UserTools.ContactTypeRoundTrip` | pkg/tools/users.go:193-201 | The mapping from names to contact types is one-to-one: each type's name maps back to that type, and only that name maps to it. |
| `UserTools.ContactTypeMatchesEnum` | pkg/tools/users.go:73 | The switch accepts exactly the values of the declared enumeration. |
| `UserTools.UpdateContact` | pkg/tools/users.go:184-216 | An unknown contact type gives "Invalid contact type: <v>" and no call. A known type updates that contact with the bound e-mail. On success the text is "Contact <type> updated to <email>". |
| `DnsTools.RegisterTools` | pkg/tools/dns.go:22-81 | The server gains the nine DNS and policy tools, in order. |
| `DnsTools.CatalogShape` | pkg/tools/dns.go:22-81 | There are nine tools with distinct names. |
| `DnsTools.GetNameservers` | pkg/tools/dns.go:83-96 | Takes no arguments and never binds. Fetches the nameservers with the nameserver error prefixes. |
| `DnsTools.SetNameservers` | pkg/tools/dns.go:98-113 | Sends the bound list unchanged. The confirmation "DNS nameservers set to: " echoes the list in `%v` form. |
| `DnsTools.NameserversEchoed` | pkg/tools/dns.go:108-112 | Every nameserver that is sent appears, unchanged and in order, in the confirmation. |
| `DnsTools.GetPreferences` | pkg/tools/dns.go:115-128 | Never binds. Fetches the DNS preferences. |
| `DnsTools.SetPreferences` | pkg/tools/dns.go:130-149 | Sends preferences holding just the bound MagicDNS flag. On success the text is "DNS preferences updated: MagicDNS=<v>"; on failure, "Failed to set DNS preferences: ". |
| `DnsTools.SetPreferencesFailureExample` | pkg/tools/dns.go:144-146 | A refused preferences update reports the refusal after "Failed to set DNS preferences: ". |
| `DnsTools.GetSearchPaths` | pkg/tools/dns.go:151-164 | Never binds. Fetches the search paths. |
| `DnsTools.SetSearchPaths` | pkg/tools/dns.go:166-181 | Sends the bound list unchanged and echoes it in the confirmation. |
| `DnsTools.GetPolicy` | pkg/tools/dns.go:183-191 | Issues one raw-policy call. On success the text is the HuJSON text unchanged, with no encoding step; on failure, "Failed to get policy: ". |
| `DnsTools.SetPolicy` | pkg/tools/dns.go:193-208 | Sets the bound policy with an empty ETag. On success the text is "Policy file updated successfully". |
| `DnsTools.ValidatePolicy` | pkg/tools/dns.go:210-225 | Validates the bound policy. Failure uses "Policy validation failed: " and success is "Policy validation passed". |
| `AdditionalTools.RegisterTools` | pkg/tools/additional.go:22-116 | The server gains the twelve webhook, logging, posture and settings tools, in order. |
| `AdditionalTools.CatalogShape` | pkg/tools/additional.go:22-116 | There are twelve tools with distinct names. |
| `AdditionalTools.ListWebhooks` | pkg/tools/additional.go:118-131 | Lists the webhooks, with the webhooks error prefixes. |
| `AdditionalTools.ConvertSubscriptions` | pkg/tools/additional.go:144-147 | The converted slice has the input's length, and each element carries the input string at the same index. |
| `AdditionalTools.CreateWebhook` | pkg/tools/additional.go:133-166 | A binding failure is rejected. Otherwise there is exactly one create call, for the bound URL with the subscriptions converted in order, with "Failed to create webhook: " and "Failed to marshal webhook: ". |
| `AdditionalTools.GetWebhook` | pkg/tools/additional.go:168-189 | Fetches the bound endpoint's webhook. |
| `AdditionalTools.DeleteWebhook` | pkg/tools/additional.go:191-206 | Deletes the bound endpoint. On success the text is "Webhook <id> deleted successfully". |
| `AdditionalTools.GetConfigurationLogs` | pkg/tools/additional.go:208-221 | Requests the log-stream configuration for the configuration log type. |
| `AdditionalTools.GetNetworkLogs` | pkg/tools/additional.go:223-236 | Requests the log-stream configuration for the network log type. |
| `AdditionalTools.ListPostureIntegrations` | pkg/tools/additional.go:238-251 | Lists the posture integrations. |
| `AdditionalTools.CreatePostureIntegration` | pkg/tools/additional.go:253-284 | Passes the provider, client id, secret and tenant unchanged; the tenant may be empty. |
| `AdditionalTools.GetPostureIntegration` | pkg/tools/additional.go:286-307 | Fetches the bound integration. |
| `AdditionalTools.DeletePostureIntegration` | pkg/tools/additional.go:309-324 | Deletes the bound integration. On success the text is "Posture integration <id> deleted successfully". |
| `AdditionalTools.GetTailnetSettings` | pkg/tools/additional.go:326-339 | Fetches the tailnet settings. |
| `AdditionalTools.BuildSettingsUpdate` | pkg/tools/additional.go:357-382 | The update request carries exactly the supplied fields. The role is converted with its value kept. Every field not supplied stays nil. |
| `AdditionalTools.UpdateTailnetSettings` | pkg/tools/additional.go:341-401 | The first call is the patch. If the update fails, the result is "Failed to update tailnet settings: <err>" and the settings are not read. Otherwise exactly one settings read follows, and its outcome is reported with "Failed to get updated tailnet settings: " and "Failed to marshal settings: ". |
| `AdditionalTools.PatchIsDetermined` | pkg/tools/additional.go:357-382 | The patch is determined by the arguments. |
| `AdditionalTools.EmptyPatch` | pkg/tools/additional.go:357-382 | With no field supplied, every field of the update request is nil. |
| `Handlers.Registry` | internal/handlers/handler.go:19-34 | The composed registry has 42 tools, and every handler in it holds the handler's own client. |
| `Handlers.Handler.constructor` | internal/handlers/handler.go:13-17 | NewHandler stores the given client unchanged. |
| `Handlers.Handler.RegisterTools` | internal/handlers/handler.go:19-34 | The server ends with its earlier tools followed by the device, key, user, DNS and additional catalogs. Each catalog is registered exactly once, in that order, around the same client. |
| `Handlers.RegistrationNames` | internal/handlers/handler.go:20-33 | The registered names of a catalog are its descriptors' names, in order. |
| `Handlers.NamesConcat` | internal/handlers/handler.go:19-34 | The names of two registrations in sequence are the first one's names followed by the second one's. |
| `Handlers.DeviceNamesDisjoint` | internal/handlers/handler.go:20-33 | No device tool shares its name with a key, user, DNS or additional tool. |
| `Handlers.KeyNamesDisjoint` | internal/handlers/handler.go:23-33 | No key tool shares its name with a user, DNS or additional tool. |
| `Handlers.LaterNamesDisjoint` | internal/handlers/handler.go:26-33 | No user tool shares its name with a DNS or additional tool, and no DNS tool with an additional tool. |
| `Handlers.RegistryNamesDistinct` | internal/handlers/handler.go:19-34 | The 42 registered names are pairwise distinct. |
| `Handlers.HandlerForNameIsUnique` | internal/handlers/handler.go:19-34 | Two registry positions with the same tool name are the same position, so each name selects one handler. |

## Left out

- The environment reads of `LoadConfig` are parameters: the values of TAILSCALE_API_KEY, TAILSCALE_TAILNET, TAILSCALE_CLIENT_ID and TAILSCALE_CLIENT_SECRET.
- cmd/main.go's start-up sequence, `log.Fatalf` and `server.ServeStdio` are process control and transport.
- The Tailscale API client, its HTTP behaviour and the OAuth token transport are a foreign library. Each remote call is an oracle answer, and the transport is represented only by its OAuth configuration.
- The `sync.RWMutex` of the client handle is not modelled (concurrency). `GetClient` is a plain read of a constant field.
- Context cancellation is not modelled: the `ctx` arguments are dropped.
- mcp-go's schema enforcement (`Required`, `Enum`, `Default`) and `BindArguments` belong to the library. Binding is an opaque success or failure, and no claim is made that out-of-enum values or missing required fields are rejected. The descriptors record required, default and enumeration only as declared data.
- Mcp.McpServer.AddTool: mcp-go keys tools by name, so a second tool with an existing name would replace the first. The model appends. Since the 42 names are proved pairwise distinct, both readings give the same mapping from tool name to handler. The registration order the model records has no counterpart in a map keyed by name.
- JSON encoding is not modelled beyond "may fail and otherwise yields some text". Its output format and round trip are not visible.
- The conversion of JSON numbers to Go integers for `expiry_seconds` and `devices_key_duration_days` is not modelled (library and floating-point behaviour). The model receives the integer.
- The long tool description texts and the per-parameter description texts are not modelled.
- The API client each call goes through is not recorded in an `Execution`. Every handler reads the one client its catalog holds, as `Handlers.Registry` states.
- The remote values (devices, keys, users, webhooks, settings) are a type parameter, because handlers only pass them to the encoder.
- The pre-sized subscriptions slice of CreateWebhook is a fresh array that is filled in place and then returned as a sequence. Go's slice aliasing is not observable here.
- DeviceTools.SetDeviceTags, DeviceTools.SetDeviceRoutes, DnsTools.SetNameservers, DnsTools.SetSearchPaths: the bound `[]string` is a `seq<string>`, so a nil slice (sent as JSON `null`) and an empty slice (sent as `[]`) become the same remote call. The confirmation text is the same for both. `KeyTools.CreateKey` keeps the distinction for its tags.
- A catalog entry names its handler by an `Ops.Op` tag. The tag is tied to the handler function of the same name (`Ops.GetDevice` to `DeviceTools.GetDevice`) by name only. `Handlers.HandlerForNameIsUnique` is a statement about these tags.
