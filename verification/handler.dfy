/** Registry composition (internal/handlers/handler.go): one handler value registers
    the five catalogs, in a fixed order, against the same client handle. */
module Handlers {
  import opened Mcp
  import Client
  import Ops
  import DeviceTools
  import KeyTools
  import UserTools
  import DnsTools
  import AdditionalTools

  /** Everything the server holds once the handler has registered its tools: the
      device, key, user, DNS and additional catalogs, in that order. */
  function Registry(client: Client.TailscaleClient): (r: seq<ServerTool<Ops.MethodValue>>)
    ensures |r| == 42
    ensures forall i :: 0 <= i < |r| ==> r[i].handler.client == client
  {
    Ops.Registrations(client, DeviceTools.Catalog)
    + Ops.Registrations(client, KeyTools.Catalog)
    + Ops.Registrations(client, UserTools.Catalog)
    + Ops.Registrations(client, DnsTools.Catalog)
    + Ops.Registrations(client, AdditionalTools.Catalog)
  }

  class Handler {
    const client: Client.TailscaleClient

    /** NewHandler: keeps the client handle it is given. */
    constructor (client: Client.TailscaleClient)
      ensures this.client == client
    {
      this.client := client;
    }

    /** RegisterTools: builds each catalog around this handler's client and registers
        it; the server ends up with its earlier tools followed by the registry. */
    method RegisterTools(mcpServer: McpServer<Ops.MethodValue>)
      modifies mcpServer
      ensures mcpServer.tools == old(mcpServer.tools) + Registry(client)
    {
      ghost var before := mcpServer.tools;
      ghost var d := Ops.Registrations(client, DeviceTools.Catalog);
      ghost var k := Ops.Registrations(client, KeyTools.Catalog);
      ghost var u := Ops.Registrations(client, UserTools.Catalog);
      ghost var n := Ops.Registrations(client, DnsTools.Catalog);
      ghost var a := Ops.Registrations(client, AdditionalTools.Catalog);

      var deviceTools := DeviceTools.DeviceTools(client);
      DeviceTools.RegisterTools(deviceTools, mcpServer);

      var keyTools := KeyTools.KeyTools(client);
      KeyTools.RegisterTools(keyTools, mcpServer);

      var userTools := UserTools.UserTools(client);
      UserTools.RegisterTools(userTools, mcpServer);

      var dnsTools := DnsTools.DnsTools(client);
      DnsTools.RegisterTools(dnsTools, mcpServer);

      var additionalTools := AdditionalTools.AdditionalTools(client);
      AdditionalTools.RegisterTools(additionalTools, mcpServer);

      AppendAssociates(before, d, k);
      AppendAssociates(before, d + k, u);
      AppendAssociates(before, d + k + u, n);
      AppendAssociates(before, d + k + u + n, a);
    }
  }

  // Names

  /** The registered names of a catalog are the catalog's names. */
  lemma {:induction false} RegistrationNames(client: Client.TailscaleClient, catalog: seq<Ops.Entry>)
    ensures Names(Ops.Registrations(client, catalog)) == Names(catalog)
  {
    var names := Names(Ops.Registrations(client, catalog));
    assert |names| == |catalog|;
    forall i | 0 <= i < |catalog|
      ensures names[i] == Names(catalog)[i]
    {
    }
  }

  /** Names distribute over concatenation of registrations. */
  lemma {:induction false} NamesConcat<H>(a: seq<ServerTool<H>>, b: seq<ServerTool<H>>)
    ensures Names(a + b) == Names(a) + Names(b)
  {
    forall i | 0 <= i < |a + b|
      ensures Names(a + b)[i] == (Names(a) + Names(b))[i]
    {
      if i < |a| {
        assert (a + b)[i] == a[i];
      } else {
        assert (a + b)[i] == b[i - |a|];
      }
    }
  }

  /** No device tool shares its name with a tool of a later catalog. */
  lemma DeviceNamesDisjoint()
    ensures Disjoint(Names(DeviceTools.Catalog), Names(KeyTools.Catalog))
    ensures Disjoint(Names(DeviceTools.Catalog), Names(UserTools.Catalog))
    ensures Disjoint(Names(DeviceTools.Catalog), Names(DnsTools.Catalog))
    ensures Disjoint(Names(DeviceTools.Catalog), Names(AdditionalTools.Catalog))
  {
  }

  /** No key tool shares its name with a tool of a later catalog. */
  lemma KeyNamesDisjoint()
    ensures Disjoint(Names(KeyTools.Catalog), Names(UserTools.Catalog))
    ensures Disjoint(Names(KeyTools.Catalog), Names(DnsTools.Catalog))
    ensures Disjoint(Names(KeyTools.Catalog), Names(AdditionalTools.Catalog))
  {
  }

  /** No user tool shares its name with a DNS or additional tool, and no DNS tool with an
      additional tool. */
  lemma LaterNamesDisjoint()
    ensures Disjoint(Names(UserTools.Catalog), Names(DnsTools.Catalog))
    ensures Disjoint(Names(UserTools.Catalog), Names(AdditionalTools.Catalog))
    ensures Disjoint(Names(DnsTools.Catalog), Names(AdditionalTools.Catalog))
  {
  }

  /** The 42 registered tools have 42 different names, so no registration replaces
      another and every tool name reaches exactly one handler. */
  lemma {:induction false} RegistryNamesDistinct(client: Client.TailscaleClient)
    ensures |Names(Registry(client))| == 42
    ensures Distinct(Names(Registry(client)))
  {
    var d := Ops.Registrations(client, DeviceTools.Catalog);
    var k := Ops.Registrations(client, KeyTools.Catalog);
    var u := Ops.Registrations(client, UserTools.Catalog);
    var n := Ops.Registrations(client, DnsTools.Catalog);
    var a := Ops.Registrations(client, AdditionalTools.Catalog);
    var dn := Names(DeviceTools.Catalog);
    var kn := Names(KeyTools.Catalog);
    var un := Names(UserTools.Catalog);
    var nn := Names(DnsTools.Catalog);
    var an := Names(AdditionalTools.Catalog);

    RegistrationNames(client, DeviceTools.Catalog);
    RegistrationNames(client, KeyTools.Catalog);
    RegistrationNames(client, UserTools.Catalog);
    RegistrationNames(client, DnsTools.Catalog);
    RegistrationNames(client, AdditionalTools.Catalog);
    NamesConcat(d, k);
    NamesConcat(d + k, u);
    NamesConcat(d + k + u, n);
    NamesConcat(d + k + u + n, a);
    assert Names(Registry(client)) == dn + kn + un + nn + an;

    DeviceTools.CatalogShape();
    KeyTools.CatalogShape();
    UserTools.CatalogShape();
    DnsTools.CatalogShape();
    AdditionalTools.CatalogShape();
    DeviceNamesDisjoint();
    KeyNamesDisjoint();
    LaterNamesDisjoint();

    DistinctConcat(dn, kn);
    DisjointConcat(dn, kn, un);
    DistinctConcat(dn + kn, un);
    DisjointConcat(dn, kn, nn);
    DisjointConcat(dn + kn, un, nn);
    DistinctConcat(dn + kn + un, nn);
    DisjointConcat(dn, kn, an);
    DisjointConcat(dn + kn, un, an);
    DisjointConcat(dn + kn + un, nn, an);
    DistinctConcat(dn + kn + un + nn, an);
  }

  /** A tool name is found at most once in the registry: the handler a name selects is
      unique. */
  lemma HandlerForNameIsUnique(client: Client.TailscaleClient, i: nat, j: nat)
    requires i < 42 && j < 42
    requires Registry(client)[i].tool.name == Registry(client)[j].tool.name
    ensures i == j
  {
    RegistryNamesDistinct(client);
    var names := Names(Registry(client));
    assert names[i] == Registry(client)[i].tool.name && names[j] == Registry(client)[j].tool.name;
  }
}
