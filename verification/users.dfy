/** The user and contact tools (pkg/tools/users.go). Four user-lifecycle tools are
    declared but never reach the remote API: their handlers only bind the arguments and
    return a fixed error. */
module UserTools {
  import opened Outcomes
  import opened Api
  import opened Mcp
  import opened Dispatch
  import Client
  import Ops

  /** The catalog value NewUserTools returns. */
  datatype UserTools = UserTools(client: Client.TailscaleClient)

  // Descriptors

  const ListTool := Tool("tailscale_users_list", [])
  const GetTool := Tool("tailscale_user_get", [RequiredString("user_id")])
  const ApproveTool := Tool("tailscale_user_approve", [RequiredString("user_id")])
  const SuspendTool := Tool("tailscale_user_suspend", [RequiredString("user_id")])
  const RestoreTool := Tool("tailscale_user_restore", [RequiredString("user_id")])
  const DeleteTool := Tool("tailscale_user_delete", [RequiredString("user_id")])
  const ContactsGetTool := Tool("tailscale_contacts_get", [])
  /** `contact_type`: required, one of account, support and security. */
  const ContactTypeParam := Param("contact_type", StringParam, true, None, ["account", "support", "security"])
  const ContactUpdateTool := Tool("tailscale_contact_update", [ContactTypeParam, RequiredString("email")])

  const Catalog: seq<Ops.Entry> := [
    ServerTool(ListTool, Ops.ListUsers),
    ServerTool(GetTool, Ops.GetUser),
    ServerTool(ApproveTool, Ops.ApproveUser),
    ServerTool(SuspendTool, Ops.SuspendUser),
    ServerTool(RestoreTool, Ops.RestoreUser),
    ServerTool(DeleteTool, Ops.DeleteUser),
    ServerTool(ContactsGetTool, Ops.GetContacts),
    ServerTool(ContactUpdateTool, Ops.UpdateContact)
  ]

  /** RegisterTools: adds the eight tools to the server, in order. */
  method RegisterTools(ut: UserTools, server: McpServer<Ops.MethodValue>)
    modifies server
    ensures server.tools == old(server.tools) + Ops.Registrations(ut.client, Catalog)
  {
    ghost var before := server.tools;
    var tool := ListTool;
    server.AddTool(tool, Ops.MethodValue(ut.client, Ops.ListUsers));
    tool := GetTool;
    server.AddTool(tool, Ops.MethodValue(ut.client, Ops.GetUser));
    tool := ApproveTool;
    server.AddTool(tool, Ops.MethodValue(ut.client, Ops.ApproveUser));
    tool := SuspendTool;
    server.AddTool(tool, Ops.MethodValue(ut.client, Ops.SuspendUser));
    tool := RestoreTool;
    server.AddTool(tool, Ops.MethodValue(ut.client, Ops.RestoreUser));
    tool := DeleteTool;
    server.AddTool(tool, Ops.MethodValue(ut.client, Ops.DeleteUser));
    tool := ContactsGetTool;
    server.AddTool(tool, Ops.MethodValue(ut.client, Ops.GetContacts));
    tool := ContactUpdateTool;
    server.AddTool(tool, Ops.MethodValue(ut.client, Ops.UpdateContact));
    Ops.RegisteredInOrder(before, server.tools, ut.client, Catalog);
  }

  /** Eight tools with distinct names; `contact_type` is required and restricted to
      account, support and security. */
  lemma CatalogShape()
    ensures |Catalog| == 8
    ensures Distinct(Names(Catalog))
    ensures Catalog[7].tool.params[0] == ContactTypeParam
    ensures ContactTypeParam.name == "contact_type" && ContactTypeParam.required
    ensures ContactTypeParam.allowed == ["account", "support", "security"]
  {
  }

  // Argument structs

  datatype UserIdArgs = UserIdArgs(userId: string)
  datatype ContactArgs = ContactArgs(contactType: string, email: string)

  // The four lifecycle operations the remote API does not offer

  const ApprovalUnavailable := "User approval functionality is not available in the current API"
  const SuspensionUnavailable := "User suspension functionality is not available in the current API"
  const RestorationUnavailable := "User restoration functionality is not available in the current API"
  const DeletionUnavailable := "User deletion functionality is not available in the current API"

  /** A stubbed handler: nothing is ever sent; a binding failure is reported first,
      otherwise the fixed error. */
  function Unavailable(b: Bound<UserIdArgs>, message: string): (e: Execution)
    ensures e.calls == []
    ensures b.BindFailed? ==> Rejects(e, b.reason)
    ensures b.Bound? ==> e.result == Error(message)
  {
    match b
    case BindFailed(reason) => Reject(reason)
    case Bound(_) => Execution([], Error(message))
  }

  function ApproveUser(b: Bound<UserIdArgs>): (e: Execution)
    ensures e.calls == []
    ensures b.BindFailed? ==> Rejects(e, b.reason)
    ensures b.Bound? ==> e.result == Error("User approval functionality is not available in the current API")
  {
    Unavailable(b, ApprovalUnavailable)
  }

  function SuspendUser(b: Bound<UserIdArgs>): (e: Execution)
    ensures e.calls == []
    ensures b.BindFailed? ==> Rejects(e, b.reason)
    ensures b.Bound? ==> e.result == Error("User suspension functionality is not available in the current API")
  {
    Unavailable(b, SuspensionUnavailable)
  }

  function RestoreUser(b: Bound<UserIdArgs>): (e: Execution)
    ensures e.calls == []
    ensures b.BindFailed? ==> Rejects(e, b.reason)
    ensures b.Bound? ==> e.result == Error("User restoration functionality is not available in the current API")
  {
    Unavailable(b, RestorationUnavailable)
  }

  function DeleteUser(b: Bound<UserIdArgs>): (e: Execution)
    ensures e.calls == []
    ensures b.BindFailed? ==> Rejects(e, b.reason)
    ensures b.Bound? ==> e.result == Error("User deletion functionality is not available in the current API")
  {
    Unavailable(b, DeletionUnavailable)
  }

  // The contact type switch

  /** The contact type named by the argument, if it is one of the three the switch knows. */
  function ContactTypeOf(s: string): (ct: Option<ContactType>)
    ensures ct.Some? <==> s == "account" || s == "support" || s == "security"
  {
    match s
    case "account" => Some(ContactAccount)
    case "support" => Some(ContactSupport)
    case "security" => Some(ContactSecurity)
    case _ => None
  }

  /** The argument value that names a contact type. */
  function ContactTypeName(ct: ContactType): (s: string)
    ensures s in ContactTypeParam.allowed
  {
    match ct
    case ContactAccount => "account"
    case ContactSupport => "support"
    case ContactSecurity => "security"
  }

  /** The switch is one-to-one: it accepts exactly the names of the three contact types,
      each for its own type. */
  lemma ContactTypeRoundTrip(s: string, ct: ContactType)
    ensures ContactTypeOf(ContactTypeName(ct)) == Some(ct)
    ensures ContactTypeOf(s) == Some(ct) ==> ContactTypeName(ct) == s
  {
  }

  /** The switch accepts exactly the values the `contact_type` enumeration declares. */
  lemma ContactTypeMatchesEnum(s: string)
    ensures ContactTypeOf(s).Some? <==> s in ContactTypeParam.allowed
  {
  }

  // Handlers

  /** Lists users with both filters nil. */
  function ListUsers<V>(reply: RemoteCall -> Reply<V>, marshal: V -> Reply<string>): (e: Execution)
    ensures Serves(e, UsersList(None, None), reply, marshal, "Failed to list users: ", "Failed to marshal users: ")
  {
    Serve(UsersList(None, None), reply, marshal, "Failed to list users: ", "Failed to marshal users: ")
  }

  function GetUser<V>(b: Bound<UserIdArgs>, reply: RemoteCall -> Reply<V>, marshal: V -> Reply<string>): (e: Execution)
    ensures b.BindFailed? ==> Rejects(e, b.reason)
    ensures b.Bound? ==> Serves(e, UsersGet(b.args.userId), reply, marshal, "Failed to get user: ", "Failed to marshal user: ")
  {
    match b
    case BindFailed(reason) => Reject(reason)
    case Bound(args) => Serve(UsersGet(args.userId), reply, marshal, "Failed to get user: ", "Failed to marshal user: ")
  }

  function GetContacts<V>(reply: RemoteCall -> Reply<V>, marshal: V -> Reply<string>): (e: Execution)
    ensures Serves(e, ContactsGet, reply, marshal, "Failed to get contacts: ", "Failed to marshal contacts: ")
  {
    Serve(ContactsGet, reply, marshal, "Failed to get contacts: ", "Failed to marshal contacts: ")
  }

  /** An unknown contact type is refused before any call; a known one is updated with
      the bound e-mail address. */
  function UpdateContact<V>(b: Bound<ContactArgs>, reply: RemoteCall -> Reply<V>): (e: Execution)
    ensures b.BindFailed? ==> Rejects(e, b.reason)
    ensures b.Bound? && ContactTypeOf(b.args.contactType).None? ==>
              e.calls == [] && e.result == Error("Invalid contact type: " + b.args.contactType)
    ensures b.Bound? && ContactTypeOf(b.args.contactType).Some? ==>
              Confirms(e, ContactsUpdate(ContactTypeOf(b.args.contactType).value, UpdateContactRequest(Some(b.args.email))),
                       reply, "Failed to update contact: ",
                       "Contact " + b.args.contactType + " updated to " + b.args.email)
  {
    match b
    case BindFailed(reason) => Reject(reason)
    case Bound(args) =>
      match ContactTypeOf(args.contactType)
      case None => Execution([], Error("Invalid contact type: " + args.contactType))
      case Some(contactType) =>
        var updateReq := UpdateContactRequest(email := Some(args.email));
        Confirm(ContactsUpdate(contactType, updateReq), reply, "Failed to update contact: ",
                "Contact " + args.contactType + " updated to " + args.email)
  }

  // Properties

  /** However the arguments bind, the four lifecycle tools never contact the remote API
      and never succeed. */
  lemma LifecycleStubsNeverCallRemote(b: Bound<UserIdArgs>)
    ensures ApproveUser(b).calls == [] && SuspendUser(b).calls == []
    ensures RestoreUser(b).calls == [] && DeleteUser(b).calls == []
    ensures ApproveUser(b).result.Error? && SuspendUser(b).result.Error?
    ensures RestoreUser(b).result.Error? && DeleteUser(b).result.Error?
  {
  }
}
