/** The device tools (pkg/tools/devices.go): nine descriptors, their registration and
    their handlers. */
module DeviceTools {
  import opened Outcomes
  import opened Api
  import opened Mcp
  import opened Dispatch
  import Client
  import Ops

  /** The catalog value NewDeviceTools returns: it holds the shared client handle. */
  datatype DeviceTools = DeviceTools(client: Client.TailscaleClient)

  // Descriptors

  /** `fields`: optional, one of "all" and "default", "default" when omitted. */
  const FieldsParam := Param("fields", StringParam, false, Some(StringLiteral("default")), ["all", "default"])
  const DeviceIdParam := RequiredString("device_id")

  const ListTool := Tool("tailscale_devices_list", [FieldsParam])
  const GetTool := Tool("tailscale_device_get", [DeviceIdParam, FieldsParam])
  const DeleteTool := Tool("tailscale_device_delete", [DeviceIdParam])
  const AuthorizeTool := Tool("tailscale_device_authorize", [DeviceIdParam, RequiredBool("authorized")])
  const SetNameTool := Tool("tailscale_device_set_name", [DeviceIdParam, RequiredString("name")])
  const SetTagsTool := Tool("tailscale_device_set_tags", [DeviceIdParam, RequiredStrings("tags")])
  const ExpireTool := Tool("tailscale_device_expire", [DeviceIdParam])
  const RoutesListTool := Tool("tailscale_device_routes_list", [DeviceIdParam])
  const RoutesSetTool := Tool("tailscale_device_routes_set", [DeviceIdParam, RequiredStrings("routes")])

  /** The catalog in registration order. */
  const Catalog: seq<Ops.Entry> := [
    ServerTool(ListTool, Ops.ListDevices),
    ServerTool(GetTool, Ops.GetDevice),
    ServerTool(DeleteTool, Ops.DeleteDevice),
    ServerTool(AuthorizeTool, Ops.AuthorizeDevice),
    ServerTool(SetNameTool, Ops.SetDeviceName),
    ServerTool(SetTagsTool, Ops.SetDeviceTags),
    ServerTool(ExpireTool, Ops.ExpireDevice),
    ServerTool(RoutesListTool, Ops.ListDeviceRoutes),
    ServerTool(RoutesSetTool, Ops.SetDeviceRoutes)
  ]

  /** RegisterTools: adds the nine tools to the server, in order, each bound to its
      handler on this catalog's client handle. */
  method RegisterTools(dt: DeviceTools, server: McpServer<Ops.MethodValue>)
    modifies server
    ensures server.tools == old(server.tools) + Ops.Registrations(dt.client, Catalog)
  {
    ghost var before := server.tools;
    var tool := ListTool;
    server.AddTool(tool, Ops.MethodValue(dt.client, Ops.ListDevices));
    tool := GetTool;
    server.AddTool(tool, Ops.MethodValue(dt.client, Ops.GetDevice));
    tool := DeleteTool;
    server.AddTool(tool, Ops.MethodValue(dt.client, Ops.DeleteDevice));
    tool := AuthorizeTool;
    server.AddTool(tool, Ops.MethodValue(dt.client, Ops.AuthorizeDevice));
    tool := SetNameTool;
    server.AddTool(tool, Ops.MethodValue(dt.client, Ops.SetDeviceName));
    tool := SetTagsTool;
    server.AddTool(tool, Ops.MethodValue(dt.client, Ops.SetDeviceTags));
    tool := ExpireTool;
    server.AddTool(tool, Ops.MethodValue(dt.client, Ops.ExpireDevice));
    tool := RoutesListTool;
    server.AddTool(tool, Ops.MethodValue(dt.client, Ops.ListDeviceRoutes));
    tool := RoutesSetTool;
    server.AddTool(tool, Ops.MethodValue(dt.client, Ops.SetDeviceRoutes));
    Ops.RegisteredInOrder(before, server.tools, dt.client, Catalog);
  }

  /** Nine tools with distinct names; `device_id` is required by every tool but the
      list, which does not declare it. */
  lemma CatalogShape()
    ensures |Catalog| == 9
    ensures Distinct(Names(Catalog))
    ensures LacksParam(Catalog[0].tool, "device_id")
    ensures forall i :: 1 <= i < |Catalog| ==> RequiresParam(Catalog[i].tool, "device_id")
  {
    forall i | 1 <= i < |Catalog|
      ensures RequiresParam(Catalog[i].tool, "device_id")
    {
      assert Catalog[i].tool.params[0] == DeviceIdParam;
    }
  }

  // Argument structs

  datatype ListDevicesArgs = ListDevicesArgs(fields: string)
  datatype GetDeviceArgs = GetDeviceArgs(deviceId: string, fields: string)
  datatype DeviceIdArgs = DeviceIdArgs(deviceId: string)
  datatype AuthorizeArgs = AuthorizeArgs(deviceId: string, authorized: bool)
  datatype NameArgs = NameArgs(deviceId: string, name: string)
  datatype TagsArgs = TagsArgs(deviceId: string, tags: seq<string>)
  datatype RoutesArgs = RoutesArgs(deviceId: string, routes: seq<string>)

  // Handlers

  /** Binding is skipped when no arguments were sent; `fields == "all"` selects the
      full-field list, any other value (including "default" and "") the standard one. */
  function ListDevices<V>(request: Arguments<ListDevicesArgs>, reply: RemoteCall -> Reply<V>,
                          marshal: V -> Reply<string>): (e: Execution)
    ensures request.Present? && request.binding.BindFailed? ==> Rejects(e, request.binding.reason)
    ensures request.Absent? ==>
              Serves(e, DevicesList, reply, marshal, "Failed to list devices: ", "Failed to marshal devices: ")
    ensures request.Present? && request.binding.Bound? ==>
              Serves(e, if request.binding.args.fields == "all" then DevicesListWithAllFields else DevicesList,
                     reply, marshal, "Failed to list devices: ", "Failed to marshal devices: ")
  {
    match Effective(request, ListDevicesArgs(""))
    case BindFailed(reason) => Reject(reason)
    case Bound(args) =>
      var call := if args.fields == "all" then DevicesListWithAllFields else DevicesList;
      Serve(call, reply, marshal, "Failed to list devices: ", "Failed to marshal devices: ")
  }

  /** `fields == "all"` selects the full-field get, any other value the standard one. */
  function GetDevice<V>(b: Bound<GetDeviceArgs>, reply: RemoteCall -> Reply<V>,
                        marshal: V -> Reply<string>): (e: Execution)
    ensures b.BindFailed? ==> Rejects(e, b.reason)
    ensures b.Bound? ==>
              Serves(e, if b.args.fields == "all" then DevicesGetWithAllFields(b.args.deviceId)
                        else DevicesGet(b.args.deviceId),
                     reply, marshal, "Failed to get device: ", "Failed to marshal device: ")
  {
    match b
    case BindFailed(reason) => Reject(reason)
    case Bound(args) =>
      var call := if args.fields == "all" then DevicesGetWithAllFields(args.deviceId) else DevicesGet(args.deviceId);
      Serve(call, reply, marshal, "Failed to get device: ", "Failed to marshal device: ")
  }

  function DeleteDevice<V>(b: Bound<DeviceIdArgs>, reply: RemoteCall -> Reply<V>): (e: Execution)
    ensures b.BindFailed? ==> Rejects(e, b.reason)
    ensures b.Bound? ==>
              Confirms(e, DevicesDelete(b.args.deviceId), reply, "Failed to delete device: ",
                       "Device " + b.args.deviceId + " deleted successfully")
  {
    match b
    case BindFailed(reason) => Reject(reason)
    case Bound(args) =>
      Confirm(DevicesDelete(args.deviceId), reply, "Failed to delete device: ",
              "Device " + args.deviceId + " deleted successfully")
  }

  /** The bound flag is passed on; the confirmation says "authorized" or "deauthorized". */
  function AuthorizeDevice<V>(b: Bound<AuthorizeArgs>, reply: RemoteCall -> Reply<V>): (e: Execution)
    ensures b.BindFailed? ==> Rejects(e, b.reason)
    ensures b.Bound? && b.args.authorized ==>
              Confirms(e, DevicesSetAuthorized(b.args.deviceId, true), reply, "Failed to set device authorization: ",
                       "Device " + b.args.deviceId + " " + "authorized" + " successfully")
    ensures b.Bound? && !b.args.authorized ==>
              Confirms(e, DevicesSetAuthorized(b.args.deviceId, false), reply, "Failed to set device authorization: ",
                       "Device " + b.args.deviceId + " " + "deauthorized" + " successfully")
  {
    match b
    case BindFailed(reason) => Reject(reason)
    case Bound(args) =>
      var status := if !args.authorized then "deauthorized" else "authorized";
      Confirm(DevicesSetAuthorized(args.deviceId, args.authorized), reply, "Failed to set device authorization: ",
              "Device " + args.deviceId + " " + status + " successfully")
  }

  function SetDeviceName<V>(b: Bound<NameArgs>, reply: RemoteCall -> Reply<V>): (e: Execution)
    ensures b.BindFailed? ==> Rejects(e, b.reason)
    ensures b.Bound? ==>
              Confirms(e, DevicesSetName(b.args.deviceId, b.args.name), reply, "Failed to set device name: ",
                       "Device " + b.args.deviceId + " name set to " + b.args.name)
  {
    match b
    case BindFailed(reason) => Reject(reason)
    case Bound(args) =>
      Confirm(DevicesSetName(args.deviceId, args.name), reply, "Failed to set device name: ",
              "Device " + args.deviceId + " name set to " + args.name)
  }

  function SetDeviceTags<V>(b: Bound<TagsArgs>, reply: RemoteCall -> Reply<V>): (e: Execution)
    ensures b.BindFailed? ==> Rejects(e, b.reason)
    ensures b.Bound? ==>
              Confirms(e, DevicesSetTags(b.args.deviceId, b.args.tags), reply, "Failed to set device tags: ",
                       "Device " + b.args.deviceId + " tags set to " + FormatStrings(b.args.tags))
  {
    match b
    case BindFailed(reason) => Reject(reason)
    case Bound(args) =>
      Confirm(DevicesSetTags(args.deviceId, args.tags), reply, "Failed to set device tags: ",
              "Device " + args.deviceId + " tags set to " + FormatStrings(args.tags))
  }

  /** Expiry is requested by setting the device key with key expiry not disabled. */
  function ExpireDevice<V>(b: Bound<DeviceIdArgs>, reply: RemoteCall -> Reply<V>): (e: Execution)
    ensures b.BindFailed? ==> Rejects(e, b.reason)
    ensures b.Bound? ==>
              Confirms(e, DevicesSetKey(b.args.deviceId, DeviceKey(false)), reply, "Failed to set device key expiry: ",
                       "Device " + b.args.deviceId + " expired successfully")
  {
    match b
    case BindFailed(reason) => Reject(reason)
    case Bound(args) =>
      var deviceKey := DeviceKey(keyExpiryDisabled := false);
      Confirm(DevicesSetKey(args.deviceId, deviceKey), reply, "Failed to set device key expiry: ",
              "Device " + args.deviceId + " expired successfully")
  }

  function ListDeviceRoutes<V>(b: Bound<DeviceIdArgs>, reply: RemoteCall -> Reply<V>,
                               marshal: V -> Reply<string>): (e: Execution)
    ensures b.BindFailed? ==> Rejects(e, b.reason)
    ensures b.Bound? ==>
              Serves(e, DevicesSubnetRoutes(b.args.deviceId), reply, marshal,
                     "Failed to list device routes: ", "Failed to marshal routes: ")
  {
    match b
    case BindFailed(reason) => Reject(reason)
    case Bound(args) =>
      Serve(DevicesSubnetRoutes(args.deviceId), reply, marshal, "Failed to list device routes: ", "Failed to marshal routes: ")
  }

  function SetDeviceRoutes<V>(b: Bound<RoutesArgs>, reply: RemoteCall -> Reply<V>): (e: Execution)
    ensures b.BindFailed? ==> Rejects(e, b.reason)
    ensures b.Bound? ==>
              Confirms(e, DevicesSetSubnetRoutes(b.args.deviceId, b.args.routes), reply, "Failed to set device routes: ",
                       "Device " + b.args.deviceId + " routes set to " + FormatStrings(b.args.routes))
  {
    match b
    case BindFailed(reason) => Reject(reason)
    case Bound(args) =>
      Confirm(DevicesSetSubnetRoutes(args.deviceId, args.routes), reply, "Failed to set device routes: ",
              "Device " + args.deviceId + " routes set to " + FormatStrings(args.routes))
  }

  // Properties

  /** The routing of `fields`: omitted arguments, "default", "" and every other value but
      "all" give the standard list; only "all" gives the full-field list. */
  lemma FieldsRouting<V>(fields: string, reply: RemoteCall -> Reply<V>, marshal: V -> Reply<string>)
    ensures ListDevices(Absent, reply, marshal).calls == [DevicesList]
    ensures ListDevices(Present(Bound(ListDevicesArgs(fields))), reply, marshal).calls ==
              if fields == "all" then [DevicesListWithAllFields] else [DevicesList]
    ensures ListDevices(Present(Bound(ListDevicesArgs("default"))), reply, marshal).calls == [DevicesList]
    ensures forall id :: GetDevice(Bound(GetDeviceArgs(id, fields)), reply, marshal).calls ==
              if fields == "all" then [DevicesGetWithAllFields(id)] else [DevicesGet(id)]
  {
  }
}
