/** The DNS and policy-file tools (pkg/tools/dns.go). */
module DnsTools {
  import opened Outcomes
  import opened Api
  import opened Mcp
  import opened Dispatch
  import Client
  import Ops

  /** The catalog value NewDNSTools returns. */
  datatype DnsTools = DnsTools(client: Client.TailscaleClient)

  // Descriptors

  const NameserversGetTool := Tool("tailscale_dns_nameservers_get", [])
  const NameserversSetTool := Tool("tailscale_dns_nameservers_set", [RequiredStrings("nameservers")])
  const PreferencesGetTool := Tool("tailscale_dns_preferences_get", [])
  const PreferencesSetTool := Tool("tailscale_dns_preferences_set", [RequiredBool("magic_dns")])
  const SearchPathsGetTool := Tool("tailscale_dns_searchpaths_get", [])
  const SearchPathsSetTool := Tool("tailscale_dns_searchpaths_set", [RequiredStrings("search_paths")])
  const PolicyGetTool := Tool("tailscale_policy_get", [])
  const PolicySetTool := Tool("tailscale_policy_set", [RequiredString("policy")])
  const PolicyValidateTool := Tool("tailscale_policy_validate", [RequiredString("policy")])

  const Catalog: seq<Ops.Entry> := [
    ServerTool(NameserversGetTool, Ops.GetNameservers),
    ServerTool(NameserversSetTool, Ops.SetNameservers),
    ServerTool(PreferencesGetTool, Ops.GetPreferences),
    ServerTool(PreferencesSetTool, Ops.SetPreferences),
    ServerTool(SearchPathsGetTool, Ops.GetSearchPaths),
    ServerTool(SearchPathsSetTool, Ops.SetSearchPaths),
    ServerTool(PolicyGetTool, Ops.GetPolicy),
    ServerTool(PolicySetTool, Ops.SetPolicy),
    ServerTool(PolicyValidateTool, Ops.ValidatePolicy)
  ]

  /** RegisterTools: adds the nine tools to the server, in order. */
  method RegisterTools(dt: DnsTools, server: McpServer<Ops.MethodValue>)
    modifies server
    ensures server.tools == old(server.tools) + Ops.Registrations(dt.client, Catalog)
  {
    ghost var before := server.tools;
    var tool := NameserversGetTool;
    server.AddTool(tool, Ops.MethodValue(dt.client, Ops.GetNameservers));
    tool := NameserversSetTool;
    server.AddTool(tool, Ops.MethodValue(dt.client, Ops.SetNameservers));
    tool := PreferencesGetTool;
    server.AddTool(tool, Ops.MethodValue(dt.client, Ops.GetPreferences));
    tool := PreferencesSetTool;
    server.AddTool(tool, Ops.MethodValue(dt.client, Ops.SetPreferences));
    tool := SearchPathsGetTool;
    server.AddTool(tool, Ops.MethodValue(dt.client, Ops.GetSearchPaths));
    tool := SearchPathsSetTool;
    server.AddTool(tool, Ops.MethodValue(dt.client, Ops.SetSearchPaths));
    tool := PolicyGetTool;
    server.AddTool(tool, Ops.MethodValue(dt.client, Ops.GetPolicy));
    tool := PolicySetTool;
    server.AddTool(tool, Ops.MethodValue(dt.client, Ops.SetPolicy));
    tool := PolicyValidateTool;
    server.AddTool(tool, Ops.MethodValue(dt.client, Ops.ValidatePolicy));
    Ops.RegisteredInOrder(before, server.tools, dt.client, Catalog);
  }

  lemma CatalogShape()
    ensures |Catalog| == 9
    ensures Distinct(Names(Catalog))
  {
  }

  // Argument structs

  datatype NameserversArgs = NameserversArgs(nameservers: seq<string>)
  datatype PreferencesArgs = PreferencesArgs(magicDns: bool)
  datatype SearchPathsArgs = SearchPathsArgs(searchPaths: seq<string>)
  datatype PolicyArgs = PolicyArgs(policy: string)

  // Handlers. The three getters take no arguments and never bind.

  function GetNameservers<V>(reply: RemoteCall -> Reply<V>, marshal: V -> Reply<string>): (e: Execution)
    ensures Serves(e, DnsNameservers, reply, marshal, "Failed to get nameservers: ", "Failed to marshal nameservers: ")
  {
    Serve(DnsNameservers, reply, marshal, "Failed to get nameservers: ", "Failed to marshal nameservers: ")
  }

  /** The bound list is sent unchanged and echoed in the confirmation. */
  function SetNameservers<V>(b: Bound<NameserversArgs>, reply: RemoteCall -> Reply<V>): (e: Execution)
    ensures b.BindFailed? ==> Rejects(e, b.reason)
    ensures b.Bound? ==>
              Confirms(e, DnsSetNameservers(b.args.nameservers), reply, "Failed to set nameservers: ",
                       "DNS nameservers set to: " + FormatStrings(b.args.nameservers))
  {
    match b
    case BindFailed(reason) => Reject(reason)
    case Bound(args) =>
      Confirm(DnsSetNameservers(args.nameservers), reply, "Failed to set nameservers: ",
              "DNS nameservers set to: " + FormatStrings(args.nameservers))
  }

  function GetPreferences<V>(reply: RemoteCall -> Reply<V>, marshal: V -> Reply<string>): (e: Execution)
    ensures Serves(e, DnsPreferencesGet, reply, marshal, "Failed to get DNS preferences: ", "Failed to marshal preferences: ")
  {
    Serve(DnsPreferencesGet, reply, marshal, "Failed to get DNS preferences: ", "Failed to marshal preferences: ")
  }

  /** Sends preferences holding only the bound MagicDNS flag. */
  function SetPreferences<V>(b: Bound<PreferencesArgs>, reply: RemoteCall -> Reply<V>): (e: Execution)
    ensures b.BindFailed? ==> Rejects(e, b.reason)
    ensures b.Bound? ==>
              Confirms(e, DnsSetPreferences(DnsPreferences(b.args.magicDns)), reply, "Failed to set DNS preferences: ",
                       "DNS preferences updated: MagicDNS=" + FormatBool(b.args.magicDns))
  {
    match b
    case BindFailed(reason) => Reject(reason)
    case Bound(args) =>
      var preferences := DnsPreferences(magicDns := args.magicDns);
      Confirm(DnsSetPreferences(preferences), reply, "Failed to set DNS preferences: ",
              "DNS preferences updated: MagicDNS=" + FormatBool(args.magicDns))
  }

  function GetSearchPaths<V>(reply: RemoteCall -> Reply<V>, marshal: V -> Reply<string>): (e: Execution)
    ensures Serves(e, DnsSearchPaths, reply, marshal, "Failed to get search paths: ", "Failed to marshal search paths: ")
  {
    Serve(DnsSearchPaths, reply, marshal, "Failed to get search paths: ", "Failed to marshal search paths: ")
  }

  /** The bound list is sent unchanged and echoed in the confirmation. */
  function SetSearchPaths<V>(b: Bound<SearchPathsArgs>, reply: RemoteCall -> Reply<V>): (e: Execution)
    ensures b.BindFailed? ==> Rejects(e, b.reason)
    ensures b.Bound? ==>
              Confirms(e, DnsSetSearchPaths(b.args.searchPaths), reply, "Failed to set search paths: ",
                       "DNS search paths set to: " + FormatStrings(b.args.searchPaths))
  {
    match b
    case BindFailed(reason) => Reject(reason)
    case Bound(args) =>
      Confirm(DnsSetSearchPaths(args.searchPaths), reply, "Failed to set search paths: ",
              "DNS search paths set to: " + FormatStrings(args.searchPaths))
  }

  /** The policy file's HuJSON text is returned as it came, without JSON encoding. */
  function GetPolicy(reply: RemoteCall -> Reply<RawPolicy>): (e: Execution)
    ensures e.calls == [PolicyRaw]
    ensures e.result.Text? <==> reply(PolicyRaw).Ok?
    ensures reply(PolicyRaw).Ok? ==> e.result.text == reply(PolicyRaw).value.huJson
    ensures reply(PolicyRaw).Failed? ==> e.result == Error("Failed to get policy: " + reply(PolicyRaw).err)
  {
    match reply(PolicyRaw)
    case Failed(err) => Execution([PolicyRaw], Error("Failed to get policy: " + err))
    case Ok(policy) => Execution([PolicyRaw], Text(policy.huJson))
  }

  /** The policy is set unconditionally: the ETag sent is empty. */
  function SetPolicy<V>(b: Bound<PolicyArgs>, reply: RemoteCall -> Reply<V>): (e: Execution)
    ensures b.BindFailed? ==> Rejects(e, b.reason)
    ensures b.Bound? ==>
              Confirms(e, PolicySet(b.args.policy, ""), reply, "Failed to set policy: ", "Policy file updated successfully")
  {
    match b
    case BindFailed(reason) => Reject(reason)
    case Bound(args) => Confirm(PolicySet(args.policy, ""), reply, "Failed to set policy: ", "Policy file updated successfully")
  }

  function ValidatePolicy<V>(b: Bound<PolicyArgs>, reply: RemoteCall -> Reply<V>): (e: Execution)
    ensures b.BindFailed? ==> Rejects(e, b.reason)
    ensures b.Bound? ==>
              Confirms(e, PolicyValidate(b.args.policy), reply, "Policy validation failed: ", "Policy validation passed")
  {
    match b
    case BindFailed(reason) => Reject(reason)
    case Bound(args) => Confirm(PolicyValidate(args.policy), reply, "Policy validation failed: ", "Policy validation passed")
  }

  // Properties

  /** The end-to-end example: turning MagicDNS off against an API that refuses the call
      reports the refusal after "Failed to set DNS preferences: ". */
  lemma SetPreferencesFailureExample<V>(reply: RemoteCall -> Reply<V>)
    requires reply(DnsSetPreferences(DnsPreferences(false))).Failed?
    ensures SetPreferences(Bound(PreferencesArgs(false)), reply).result ==
              Error("Failed to set DNS preferences: " + reply(DnsSetPreferences(DnsPreferences(false))).err)
  {
  }

  /** Every nameserver sent is shown, in order, in the confirmation. */
  lemma {:induction false} NameserversEchoed<V>(ns: seq<string>, reply: RemoteCall -> Reply<V>, i: nat)
    requires i < |ns| && reply(DnsSetNameservers(ns)).Ok?
    ensures SetNameservers(Bound(NameserversArgs(ns)), reply).result ==
              Text("DNS nameservers set to: " + EchoBefore(ns, i) + ns[i] + EchoAfter(ns, i))
  {
    var text := "DNS nameservers set to: ";
    assert SetNameservers(Bound(NameserversArgs(ns)), reply).result == Text(text + FormatStrings(ns));
    FormatStringsEchoes(ns, i);
    AppendAssociates(text, EchoBefore(ns, i) + ns[i], EchoAfter(ns, i));
    AppendAssociates(text, EchoBefore(ns, i), ns[i]);
  }
}
