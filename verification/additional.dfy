/** The webhook, logging, device-posture and tailnet-settings tools
    (pkg/tools/additional.go). */
module AdditionalTools {
  import opened Outcomes
  import opened Api
  import opened Mcp
  import opened Dispatch
  import Client
  import Ops

  /** The catalog value NewAdditionalTools returns. */
  datatype AdditionalTools = AdditionalTools(client: Client.TailscaleClient)

  // Descriptors

  const WebhooksListTool := Tool("tailscale_webhooks_list", [])
  const WebhookCreateTool := Tool("tailscale_webhook_create", [RequiredString("endpoint_url"), RequiredStrings("subscriptions")])
  const WebhookGetTool := Tool("tailscale_webhook_get", [RequiredString("endpoint_id")])
  const WebhookDeleteTool := Tool("tailscale_webhook_delete", [RequiredString("endpoint_id")])
  const ConfigurationLogsTool := Tool("tailscale_logging_configuration_get", [])
  const NetworkLogsTool := Tool("tailscale_logging_network_get", [])
  const PostureListTool := Tool("tailscale_device_posture_integrations_list", [])
  const PostureCreateTool := Tool("tailscale_device_posture_integration_create", [
    RequiredString("provider"),
    RequiredString("client_id"),
    RequiredString("client_secret"),
    OptionalString("tenant_id")
  ])
  const PostureGetTool := Tool("tailscale_device_posture_integration_get", [RequiredString("id")])
  const PostureDeleteTool := Tool("tailscale_device_posture_integration_delete", [RequiredString("id")])
  const SettingsGetTool := Tool("tailscale_tailnet_settings_get", [])
  const SettingsUpdateTool := Tool("tailscale_tailnet_settings_update", [
    OptionalBool("devices_approval_on"),
    OptionalBool("devices_auto_updates_on"),
    OptionalNumber("devices_key_duration_days"),
    OptionalBool("users_approval_on"),
    OptionalString("users_role_allowed_to_join_external_tailnets"),
    OptionalBool("network_flow_logging_on"),
    OptionalBool("regional_routing_on"),
    OptionalBool("posture_identity_collection_on")
  ])

  const Catalog: seq<Ops.Entry> := [
    ServerTool(WebhooksListTool, Ops.ListWebhooks),
    ServerTool(WebhookCreateTool, Ops.CreateWebhook),
    ServerTool(WebhookGetTool, Ops.GetWebhook),
    ServerTool(WebhookDeleteTool, Ops.DeleteWebhook),
    ServerTool(ConfigurationLogsTool, Ops.GetConfigurationLogs),
    ServerTool(NetworkLogsTool, Ops.GetNetworkLogs),
    ServerTool(PostureListTool, Ops.ListPostureIntegrations),
    ServerTool(PostureCreateTool, Ops.CreatePostureIntegration),
    ServerTool(PostureGetTool, Ops.GetPostureIntegration),
    ServerTool(PostureDeleteTool, Ops.DeletePostureIntegration),
    ServerTool(SettingsGetTool, Ops.GetTailnetSettings),
    ServerTool(SettingsUpdateTool, Ops.UpdateTailnetSettings)
  ]

  /** RegisterTools: adds the twelve tools to the server, in order. */
  method RegisterTools(at: AdditionalTools, server: McpServer<Ops.MethodValue>)
    modifies server
    ensures server.tools == old(server.tools) + Ops.Registrations(at.client, Catalog)
  {
    ghost var before := server.tools;
    var tool := WebhooksListTool;
    server.AddTool(tool, Ops.MethodValue(at.client, Ops.ListWebhooks));
    tool := WebhookCreateTool;
    server.AddTool(tool, Ops.MethodValue(at.client, Ops.CreateWebhook));
    tool := WebhookGetTool;
    server.AddTool(tool, Ops.MethodValue(at.client, Ops.GetWebhook));
    tool := WebhookDeleteTool;
    server.AddTool(tool, Ops.MethodValue(at.client, Ops.DeleteWebhook));
    tool := ConfigurationLogsTool;
    server.AddTool(tool, Ops.MethodValue(at.client, Ops.GetConfigurationLogs));
    tool := NetworkLogsTool;
    server.AddTool(tool, Ops.MethodValue(at.client, Ops.GetNetworkLogs));
    tool := PostureListTool;
    server.AddTool(tool, Ops.MethodValue(at.client, Ops.ListPostureIntegrations));
    tool := PostureCreateTool;
    server.AddTool(tool, Ops.MethodValue(at.client, Ops.CreatePostureIntegration));
    tool := PostureGetTool;
    server.AddTool(tool, Ops.MethodValue(at.client, Ops.GetPostureIntegration));
    tool := PostureDeleteTool;
    server.AddTool(tool, Ops.MethodValue(at.client, Ops.DeletePostureIntegration));
    tool := SettingsGetTool;
    server.AddTool(tool, Ops.MethodValue(at.client, Ops.GetTailnetSettings));
    tool := SettingsUpdateTool;
    server.AddTool(tool, Ops.MethodValue(at.client, Ops.UpdateTailnetSettings));
    Ops.RegisteredInOrder(before, server.tools, at.client, Catalog);
  }

  lemma CatalogShape()
    ensures |Catalog| == 12
    ensures Distinct(Names(Catalog))
  {
  }

  // Argument structs

  datatype WebhookArgs = WebhookArgs(endpointUrl: string, subscriptions: seq<string>)
  datatype EndpointArgs = EndpointArgs(endpointId: string)
  datatype PostureArgs = PostureArgs(provider: string, clientId: string, clientSecret: string, tenantId: string)
  datatype IntegrationArgs = IntegrationArgs(id: string)

  /** The settings arguments; every field is a pointer, `None` when not supplied. */
  datatype SettingsArgs = SettingsArgs(
    devicesApprovalOn: Option<bool>,
    devicesAutoUpdatesOn: Option<bool>,
    devicesKeyDurationDays: Option<int>,
    usersApprovalOn: Option<bool>,
    usersRoleAllowedToJoinExternalTailnets: Option<string>,
    networkFlowLoggingOn: Option<bool>,
    regionalRoutingOn: Option<bool>,
    postureIdentityCollectionOn: Option<bool>)

  // Webhooks

  /** `out` is `subs` converted element by element, same length, same order. */
  ghost predicate ConvertedInOrder(out: seq<SubscriptionType>, subs: seq<string>) {
    |out| == |subs| && forall i :: 0 <= i < |subs| ==> out[i] == SubscriptionType(subs[i])
  }

  /** The loop of CreateWebhook: a slice of the input's length, filled in place. */
  method ConvertSubscriptions(subs: seq<string>) returns (subscriptions: seq<SubscriptionType>)
    ensures |subscriptions| == |subs|
    ensures forall i :: 0 <= i < |subs| ==> subscriptions[i].name == subs[i]
    ensures ConvertedInOrder(subscriptions, subs)
  {
    var slice := new SubscriptionType[|subs|](_ => SubscriptionType(""));
    var i := 0;
    while i < |subs|
      invariant 0 <= i <= |subs|
      invariant forall k :: 0 <= k < i ==> slice[k] == SubscriptionType(subs[k])
    {
      slice[i] := SubscriptionType(subs[i]);
      i := i + 1;
    }
    subscriptions := slice[..];
  }

  function ListWebhooks<V>(reply: RemoteCall -> Reply<V>, marshal: V -> Reply<string>): (e: Execution)
    ensures Serves(e, WebhooksList, reply, marshal, "Failed to list webhooks: ", "Failed to marshal webhooks: ")
  {
    Serve(WebhooksList, reply, marshal, "Failed to list webhooks: ", "Failed to marshal webhooks: ")
  }

  /** Creates a webhook for the bound URL with the subscriptions converted in order. */
  method CreateWebhook<V>(b: Bound<WebhookArgs>, reply: RemoteCall -> Reply<V>, marshal: V -> Reply<string>)
    returns (e: Execution)
    ensures b.BindFailed? ==> Rejects(e, b.reason)
    ensures b.Bound? ==>
              && |e.calls| == 1
              && e.calls[0].WebhooksCreate?
              && e.calls[0].webhookRequest.endpointUrl == b.args.endpointUrl
              && ConvertedInOrder(e.calls[0].webhookRequest.subscriptions, b.args.subscriptions)
              && Serves(e, e.calls[0], reply, marshal, "Failed to create webhook: ", "Failed to marshal webhook: ")
  {
    match b
    case BindFailed(reason) =>
      e := Reject(reason);
    case Bound(args) =>
      var subscriptions := ConvertSubscriptions(args.subscriptions);
      var createReq := CreateWebhookRequest(args.endpointUrl, subscriptions);
      e := Serve(WebhooksCreate(createReq), reply, marshal, "Failed to create webhook: ", "Failed to marshal webhook: ");
  }

  function GetWebhook<V>(b: Bound<EndpointArgs>, reply: RemoteCall -> Reply<V>, marshal: V -> Reply<string>): (e: Execution)
    ensures b.BindFailed? ==> Rejects(e, b.reason)
    ensures b.Bound? ==>
              Serves(e, WebhooksGet(b.args.endpointId), reply, marshal, "Failed to get webhook: ", "Failed to marshal webhook: ")
  {
    match b
    case BindFailed(reason) => Reject(reason)
    case Bound(args) =>
      Serve(WebhooksGet(args.endpointId), reply, marshal, "Failed to get webhook: ", "Failed to marshal webhook: ")
  }

  function DeleteWebhook<V>(b: Bound<EndpointArgs>, reply: RemoteCall -> Reply<V>): (e: Execution)
    ensures b.BindFailed? ==> Rejects(e, b.reason)
    ensures b.Bound? ==>
              Confirms(e, WebhooksDelete(b.args.endpointId), reply, "Failed to delete webhook: ",
                       "Webhook " + b.args.endpointId + " deleted successfully")
  {
    match b
    case BindFailed(reason) => Reject(reason)
    case Bound(args) =>
      Confirm(WebhooksDelete(args.endpointId), reply, "Failed to delete webhook: ",
              "Webhook " + args.endpointId + " deleted successfully")
  }

  // Logging

  /** Asks for the log-stream configuration of the configuration logs. */
  function GetConfigurationLogs<V>(reply: RemoteCall -> Reply<V>, marshal: V -> Reply<string>): (e: Execution)
    ensures Serves(e, LogstreamConfiguration(LogTypeConfig), reply, marshal,
                   "Failed to get configuration logs: ", "Failed to marshal logs: ")
  {
    Serve(LogstreamConfiguration(LogTypeConfig), reply, marshal, "Failed to get configuration logs: ", "Failed to marshal logs: ")
  }

  /** Asks for the log-stream configuration of the network logs. */
  function GetNetworkLogs<V>(reply: RemoteCall -> Reply<V>, marshal: V -> Reply<string>): (e: Execution)
    ensures Serves(e, LogstreamConfiguration(LogTypeNetwork), reply, marshal,
                   "Failed to get network logs: ", "Failed to marshal logs: ")
  {
    Serve(LogstreamConfiguration(LogTypeNetwork), reply, marshal, "Failed to get network logs: ", "Failed to marshal logs: ")
  }

  // Device posture

  function ListPostureIntegrations<V>(reply: RemoteCall -> Reply<V>, marshal: V -> Reply<string>): (e: Execution)
    ensures Serves(e, PostureListIntegrations, reply, marshal,
                   "Failed to list posture integrations: ", "Failed to marshal integrations: ")
  {
    Serve(PostureListIntegrations, reply, marshal, "Failed to list posture integrations: ", "Failed to marshal integrations: ")
  }

  /** The provider, client credentials and tenant are passed as bound; the tenant may be
      empty. */
  function CreatePostureIntegration<V>(b: Bound<PostureArgs>, reply: RemoteCall -> Reply<V>,
                                       marshal: V -> Reply<string>): (e: Execution)
    ensures b.BindFailed? ==> Rejects(e, b.reason)
    ensures b.Bound? ==>
              Serves(e, PostureCreateIntegration(CreatePostureIntegrationRequest(
                          PostureProvider(b.args.provider), b.args.clientId, b.args.clientSecret, b.args.tenantId)),
                     reply, marshal, "Failed to create posture integration: ", "Failed to marshal integration: ")
  {
    match b
    case BindFailed(reason) => Reject(reason)
    case Bound(args) =>
      var createReq := CreatePostureIntegrationRequest(
        provider := PostureProvider(args.provider),
        clientId := args.clientId,
        clientSecret := args.clientSecret,
        tenantId := args.tenantId);
      Serve(PostureCreateIntegration(createReq), reply, marshal,
            "Failed to create posture integration: ", "Failed to marshal integration: ")
  }

  function GetPostureIntegration<V>(b: Bound<IntegrationArgs>, reply: RemoteCall -> Reply<V>,
                                    marshal: V -> Reply<string>): (e: Execution)
    ensures b.BindFailed? ==> Rejects(e, b.reason)
    ensures b.Bound? ==>
              Serves(e, PostureGetIntegration(b.args.id), reply, marshal,
                     "Failed to get posture integration: ", "Failed to marshal integration: ")
  {
    match b
    case BindFailed(reason) => Reject(reason)
    case Bound(args) =>
      Serve(PostureGetIntegration(args.id), reply, marshal, "Failed to get posture integration: ", "Failed to marshal integration: ")
  }

  function DeletePostureIntegration<V>(b: Bound<IntegrationArgs>, reply: RemoteCall -> Reply<V>): (e: Execution)
    ensures b.BindFailed? ==> Rejects(e, b.reason)
    ensures b.Bound? ==>
              Confirms(e, PostureDeleteIntegration(b.args.id), reply, "Failed to delete posture integration: ",
                       "Posture integration " + b.args.id + " deleted successfully")
  {
    match b
    case BindFailed(reason) => Reject(reason)
    case Bound(args) =>
      Confirm(PostureDeleteIntegration(args.id), reply, "Failed to delete posture integration: ",
              "Posture integration " + args.id + " deleted successfully")
  }

  // Tailnet settings

  function GetTailnetSettings<V>(reply: RemoteCall -> Reply<V>, marshal: V -> Reply<string>): (e: Execution)
    ensures Serves(e, TailnetSettingsGet, reply, marshal, "Failed to get tailnet settings: ", "Failed to marshal settings: ")
  {
    Serve(TailnetSettingsGet, reply, marshal, "Failed to get tailnet settings: ", "Failed to marshal settings: ")
  }

  /** The update request carries exactly the supplied fields, the role converted with
      its value kept; every field not supplied is left nil. */
  ghost predicate Patches(req: UpdateTailnetSettingsRequest, args: SettingsArgs) {
    && req.devicesApprovalOn == args.devicesApprovalOn
    && req.devicesAutoUpdatesOn == args.devicesAutoUpdatesOn
    && req.devicesKeyDurationDays == args.devicesKeyDurationDays
    && req.usersApprovalOn == args.usersApprovalOn
    && (args.usersRoleAllowedToJoinExternalTailnets.None? ==> req.usersRoleAllowedToJoinExternalTailnets.None?)
    && (args.usersRoleAllowedToJoinExternalTailnets.Some? ==>
          req.usersRoleAllowedToJoinExternalTailnets == Some(Role(args.usersRoleAllowedToJoinExternalTailnets.value)))
    && req.networkFlowLoggingOn == args.networkFlowLoggingOn
    && req.regionalRoutingOn == args.regionalRoutingOn
    && req.postureIdentityCollectionOn == args.postureIdentityCollectionOn
  }

  /** The first half of UpdateTailnetSettings: the request starts with every field nil
      and each supplied argument is copied in, one field at a time. */
  method BuildSettingsUpdate(args: SettingsArgs) returns (req: UpdateTailnetSettingsRequest)
    ensures Patches(req, args)
  {
    req := UpdateTailnetSettingsRequest(None, None, None, None, None, None, None, None);
    if args.devicesApprovalOn.Some? {
      req := req.(devicesApprovalOn := args.devicesApprovalOn);
    }
    assert req.devicesApprovalOn == args.devicesApprovalOn;
    if args.devicesAutoUpdatesOn.Some? {
      req := req.(devicesAutoUpdatesOn := args.devicesAutoUpdatesOn);
    }
    assert req.devicesAutoUpdatesOn == args.devicesAutoUpdatesOn;
    if args.devicesKeyDurationDays.Some? {
      req := req.(devicesKeyDurationDays := args.devicesKeyDurationDays);
    }
    assert req.devicesKeyDurationDays == args.devicesKeyDurationDays;
    if args.usersApprovalOn.Some? {
      req := req.(usersApprovalOn := args.usersApprovalOn);
    }
    assert req.usersApprovalOn == args.usersApprovalOn;
    if args.usersRoleAllowedToJoinExternalTailnets.Some? {
      var role := Role(args.usersRoleAllowedToJoinExternalTailnets.value);
      req := req.(usersRoleAllowedToJoinExternalTailnets := Some(role));
    }
    assert args.usersRoleAllowedToJoinExternalTailnets.None? ==> req.usersRoleAllowedToJoinExternalTailnets.None?;
    assert args.usersRoleAllowedToJoinExternalTailnets.Some? ==> req.usersRoleAllowedToJoinExternalTailnets == Some(Role(args.usersRoleAllowedToJoinExternalTailnets.value));
    if args.networkFlowLoggingOn.Some? {
      req := req.(networkFlowLoggingOn := args.networkFlowLoggingOn);
    }
    assert req.networkFlowLoggingOn == args.networkFlowLoggingOn;
    if args.regionalRoutingOn.Some? {
      req := req.(regionalRoutingOn := args.regionalRoutingOn);
    }
    assert req.regionalRoutingOn == args.regionalRoutingOn;
    if args.postureIdentityCollectionOn.Some? {
      req := req.(postureIdentityCollectionOn := args.postureIdentityCollectionOn);
    }
    assert req.postureIdentityCollectionOn == args.postureIdentityCollectionOn;
  }

  /** Updates the supplied settings, then reads the settings back and reports them. A
      failed update is reported at once and the settings are not read. */
  method UpdateTailnetSettings<V>(b: Bound<SettingsArgs>, reply: RemoteCall -> Reply<V>, marshal: V -> Reply<string>)
    returns (e: Execution)
    ensures b.BindFailed? ==> Rejects(e, b.reason)
    ensures b.Bound? ==>
              && 1 <= |e.calls| <= 2
              && e.calls[0].TailnetSettingsUpdate?
              && Patches(e.calls[0].settingsRequest, b.args)
              && (reply(e.calls[0]).Failed? ==>
                    && |e.calls| == 1
                    && e.result == Error("Failed to update tailnet settings: " + reply(e.calls[0]).err))
              && (reply(e.calls[0]).Ok? ==>
                    Serves(Execution(e.calls[1..], e.result), TailnetSettingsGet, reply, marshal,
                           "Failed to get updated tailnet settings: ", "Failed to marshal settings: "))
  {
    match b
    case BindFailed(reason) =>
      e := Reject(reason);
    case Bound(args) =>
      var updateReq := BuildSettingsUpdate(args);
      var update := TailnetSettingsUpdate(updateReq);
      match reply(update)
      case Failed(err) =>
        e := Execution([update], Error("Failed to update tailnet settings: " + err));
      case Ok(_) =>
        var settings := Serve(TailnetSettingsGet, reply, marshal,
                              "Failed to get updated tailnet settings: ", "Failed to marshal settings: ");
        e := Execution([update] + settings.calls, settings.result);
  }

  // Properties

  /** The patch is determined by the arguments: two requests that both carry exactly the
      supplied fields are the same request. */
  lemma PatchIsDetermined(r1: UpdateTailnetSettingsRequest, r2: UpdateTailnetSettingsRequest, args: SettingsArgs)
    requires Patches(r1, args) && Patches(r2, args)
    ensures r1 == r2
  {
  }

  /** With no field supplied the update request changes nothing: every field is nil. */
  lemma EmptyPatch(req: UpdateTailnetSettingsRequest)
    requires Patches(req, SettingsArgs(None, None, None, None, None, None, None, None))
    ensures req == UpdateTailnetSettingsRequest(None, None, None, None, None, None, None, None)
  {
  }
}
