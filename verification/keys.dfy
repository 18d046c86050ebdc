/** The auth-key tools (pkg/tools/keys.go). */
module KeyTools {
  import opened Outcomes
  import opened Api
  import opened Mcp
  import opened Dispatch
  import Client
  import Ops

  /** The catalog value NewKeyTools returns. */
  datatype KeyTools = KeyTools(client: Client.TailscaleClient)

  // Descriptors

  const ListTool := Tool("tailscale_keys_list", [])
  const GetTool := Tool("tailscale_key_get", [RequiredString("key_id")])
  const CreateTool := Tool("tailscale_key_create", [
    DefaultBool("reusable", false),
    DefaultBool("ephemeral", false),
    DefaultBool("preauthorized", false),
    OptionalString("description"),
    OptionalStrings("tags"),
    OptionalNumber("expiry_seconds")
  ])
  const DeleteTool := Tool("tailscale_key_delete", [RequiredString("key_id")])

  const Catalog: seq<Ops.Entry> := [
    ServerTool(ListTool, Ops.ListKeys),
    ServerTool(GetTool, Ops.GetKey),
    ServerTool(CreateTool, Ops.CreateKey),
    ServerTool(DeleteTool, Ops.DeleteKey)
  ]

  /** RegisterTools: adds the four tools to the server, in order. */
  method RegisterTools(kt: KeyTools, server: McpServer<Ops.MethodValue>)
    modifies server
    ensures server.tools == old(server.tools) + Ops.Registrations(kt.client, Catalog)
  {
    ghost var before := server.tools;
    var tool := ListTool;
    server.AddTool(tool, Ops.MethodValue(kt.client, Ops.ListKeys));
    tool := GetTool;
    server.AddTool(tool, Ops.MethodValue(kt.client, Ops.GetKey));
    tool := CreateTool;
    server.AddTool(tool, Ops.MethodValue(kt.client, Ops.CreateKey));
    tool := DeleteTool;
    server.AddTool(tool, Ops.MethodValue(kt.client, Ops.DeleteKey));
    Ops.RegisteredInOrder(before, server.tools, kt.client, Catalog);
  }

  lemma CatalogShape()
    ensures |Catalog| == 4
    ensures Distinct(Names(Catalog))
  {
  }

  // Argument structs

  datatype KeyIdArgs = KeyIdArgs(keyId: string)

  /** The create-key arguments; `tags == None` is a nil slice. */
  datatype CreateKeyArgs = CreateKeyArgs(
    reusable: bool, ephemeral: bool, preauthorized: bool,
    description: string, tags: Option<seq<string>>, expirySeconds: int)

  /** The zero-valued struct CreateKey uses when no arguments were sent. */
  const NoCreateKeyArgs := CreateKeyArgs(false, false, false, "", None, 0)

  /** The key creation request built from the arguments: the capabilities and the
      description are the bound values, and an expiry is set only for a positive
      `expiry_seconds`. */
  function CreateKeyRequestFor(args: CreateKeyArgs): (req: CreateKeyRequest)
    ensures req.capabilities.reusable == args.reusable
    ensures req.capabilities.ephemeral == args.ephemeral
    ensures req.capabilities.tags == args.tags
    ensures req.capabilities.preauthorized == args.preauthorized
    ensures req.description == args.description
    ensures args.expirySeconds > 0 ==> req.expirySeconds == args.expirySeconds
    ensures args.expirySeconds <= 0 ==> req.expirySeconds == 0
    ensures req.expirySeconds >= 0
  {
    var createReq := CreateKeyRequest(
      CreateCapabilities(args.reusable, args.ephemeral, args.tags, args.preauthorized),
      args.description,
      0);
    if args.expirySeconds > 0 then createReq.(expirySeconds := args.expirySeconds) else createReq
  }

  // Handlers

  /** Lists the tailnet's keys, without the keys of other users (`all = false`). */
  function ListKeys<V>(reply: RemoteCall -> Reply<V>, marshal: V -> Reply<string>): (e: Execution)
    ensures Serves(e, KeysList(false), reply, marshal, "Failed to list keys: ", "Failed to marshal keys: ")
  {
    Serve(KeysList(false), reply, marshal, "Failed to list keys: ", "Failed to marshal keys: ")
  }

  function GetKey<V>(b: Bound<KeyIdArgs>, reply: RemoteCall -> Reply<V>, marshal: V -> Reply<string>): (e: Execution)
    ensures b.BindFailed? ==> Rejects(e, b.reason)
    ensures b.Bound? ==> Serves(e, KeysGet(b.args.keyId), reply, marshal, "Failed to get key: ", "Failed to marshal key: ")
  {
    match b
    case BindFailed(reason) => Reject(reason)
    case Bound(args) => Serve(KeysGet(args.keyId), reply, marshal, "Failed to get key: ", "Failed to marshal key: ")
  }

  /** Binding is skipped when no arguments were sent; the zero-valued struct is used. */
  function CreateKey<V>(request: Arguments<CreateKeyArgs>, reply: RemoteCall -> Reply<V>,
                        marshal: V -> Reply<string>): (e: Execution)
    ensures request.Present? && request.binding.BindFailed? ==> Rejects(e, request.binding.reason)
    ensures request.Absent? ==>
              Serves(e, KeysCreate(CreateKeyRequestFor(NoCreateKeyArgs)), reply, marshal,
                     "Failed to create key: ", "Failed to marshal key: ")
    ensures request.Present? && request.binding.Bound? ==>
              Serves(e, KeysCreate(CreateKeyRequestFor(request.binding.args)), reply, marshal,
                     "Failed to create key: ", "Failed to marshal key: ")
  {
    match Effective(request, NoCreateKeyArgs)
    case BindFailed(reason) => Reject(reason)
    case Bound(args) =>
      Serve(KeysCreate(CreateKeyRequestFor(args)), reply, marshal, "Failed to create key: ", "Failed to marshal key: ")
  }

  function DeleteKey<V>(b: Bound<KeyIdArgs>, reply: RemoteCall -> Reply<V>): (e: Execution)
    ensures b.BindFailed? ==> Rejects(e, b.reason)
    ensures b.Bound? ==>
              Confirms(e, KeysDelete(b.args.keyId), reply, "Failed to delete key: ", "Key " + b.args.keyId + " deleted successfully")
  {
    match b
    case BindFailed(reason) => Reject(reason)
    case Bound(args) =>
      Confirm(KeysDelete(args.keyId), reply, "Failed to delete key: ", "Key " + args.keyId + " deleted successfully")
  }

  // Properties

  /** Without arguments a key is created with every flag false, no description, nil
      tags and no expiry. */
  lemma CreateKeyWithoutArguments<V>(reply: RemoteCall -> Reply<V>, marshal: V -> Reply<string>)
    ensures CreateKey(Absent, reply, marshal).calls ==
              [KeysCreate(CreateKeyRequest(CreateCapabilities(false, false, None, false), "", 0))]
  {
  }

  /** The end-to-end example: a reusable key tagged tag:ci asks for exactly those
      capabilities, and the created key's encoding is the result. */
  lemma CreateKeyExample<V>(reply: RemoteCall -> Reply<V>, marshal: V -> Reply<string>)
    requires var call := KeysCreate(CreateKeyRequest(CreateCapabilities(true, false, Some(["tag:ci"]), false), "", 0));
             reply(call).Ok? && marshal(reply(call).value).Ok?
    ensures var e := CreateKey(Present(Bound(CreateKeyArgs(true, false, false, "", Some(["tag:ci"]), 0))), reply, marshal);
            var call := KeysCreate(CreateKeyRequest(CreateCapabilities(true, false, Some(["tag:ci"]), false), "", 0));
            e.calls == [call] && e.result == Text(marshal(reply(call).value).value)
  {
  }
}
