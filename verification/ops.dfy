/** The handler methods of the five tool catalogs (pkg/tools), as values: what each
    catalog's RegisterTools passes to AddTool beside the tool descriptor. */
module Ops {
  import Client
  import opened Mcp

  datatype Op =
    // pkg/tools/devices.go
    | ListDevices | GetDevice | DeleteDevice | AuthorizeDevice | SetDeviceName
    | SetDeviceTags | ExpireDevice | ListDeviceRoutes | SetDeviceRoutes
    // pkg/tools/keys.go
    | ListKeys | GetKey | CreateKey | DeleteKey
    // pkg/tools/users.go
    | ListUsers | GetUser | ApproveUser | SuspendUser | RestoreUser | DeleteUser
    | GetContacts | UpdateContact
    // pkg/tools/dns.go
    | GetNameservers | SetNameservers | GetPreferences | SetPreferences
    | GetSearchPaths | SetSearchPaths | GetPolicy | SetPolicy | ValidatePolicy
    // pkg/tools/additional.go
    | ListWebhooks | CreateWebhook | GetWebhook | DeleteWebhook
    | GetConfigurationLogs | GetNetworkLogs
    | ListPostureIntegrations | CreatePostureIntegration | GetPostureIntegration | DeletePostureIntegration
    | GetTailnetSettings | UpdateTailnetSettings

  /** A method value such as `dt.ListDevices`: the handler together with the client
      handle its catalog holds. */
  datatype MethodValue = MethodValue(client: Client.TailscaleClient, op: Op)

  /** One line of a catalog: a tool descriptor and the handler it is registered with.
      The handler is named by its tag only: that `GetDevice` stands for
      `DeviceTools.GetDevice` is a matter of names, not something the model states. */
  type Entry = ServerTool<Op>

  /** What registering a catalog adds to the server, in order, for a catalog whose
      handlers are methods of a value holding `client`. */
  function Registrations(client: Client.TailscaleClient, catalog: seq<Entry>): (r: seq<ServerTool<MethodValue>>)
    ensures |r| == |catalog|
    ensures forall i :: 0 <= i < |catalog| ==> r[i] == ServerTool(catalog[i].tool, MethodValue(client, catalog[i].handler))
  {
    seq(|catalog|, i requires 0 <= i < |catalog| => ServerTool(catalog[i].tool, MethodValue(client, catalog[i].handler)))
  }

  /** A registry that kept `before` and then gained one registration per catalog entry,
      in catalog order, is `before` followed by the catalog's registrations. */
  lemma {:induction false} RegisteredInOrder(before: seq<ServerTool<MethodValue>>, after: seq<ServerTool<MethodValue>>,
                                             client: Client.TailscaleClient, catalog: seq<Entry>)
    requires |after| == |before| + |catalog|
    requires after[..|before|] == before
    requires forall i :: 0 <= i < |catalog| ==>
               after[|before| + i] == ServerTool(catalog[i].tool, MethodValue(client, catalog[i].handler))
    ensures after == before + Registrations(client, catalog)
  {
    var r := Registrations(client, catalog);
    forall j | 0 <= j < |after|
      ensures after[j] == (before + r)[j]
    {
      if j < |before| {
        assert after[j] == after[..|before|][j];
      } else {
        assert after[|before| + (j - |before|)] == r[j - |before|];
      }
    }
  }
}
