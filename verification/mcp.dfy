/** The parts of the MCP server library the tool catalogs use: tool descriptors, call
    results, argument binding, and the server's tool registry. Schema enforcement of
    `required`, `enum` and `default` belongs to the library and is not modelled; the
    descriptors only record what each tool declares. */
module Mcp {
  import opened Outcomes

  datatype ParamType = StringParam | BooleanParam | NumberParam | StringArrayParam

  datatype Literal = StringLiteral(s: string) | BoolLiteral(b: bool)

  /** A declared parameter: name, type, whether it is required, its default and its
      enumeration (empty when the parameter has none). Descriptions are left out. */
  datatype Param = Param(name: string, kind: ParamType, required: bool, default: Option<Literal>, allowed: seq<string>)

  /** mcp.NewTool: a name and an ordered list of parameters. */
  datatype Tool = Tool(name: string, params: seq<Param>)

  // The parameter options the catalogs use.

  function RequiredString(name: string): Param { Param(name, StringParam, true, None, []) }
  function OptionalString(name: string): Param { Param(name, StringParam, false, None, []) }
  function RequiredBool(name: string): Param { Param(name, BooleanParam, true, None, []) }
  function OptionalBool(name: string): Param { Param(name, BooleanParam, false, None, []) }
  function DefaultBool(name: string, b: bool): Param { Param(name, BooleanParam, false, Some(BoolLiteral(b)), []) }
  function OptionalNumber(name: string): Param { Param(name, NumberParam, false, None, []) }
  function RequiredStrings(name: string): Param { Param(name, StringArrayParam, true, None, []) }
  function OptionalStrings(name: string): Param { Param(name, StringArrayParam, false, None, []) }

  /** A parameter `name` of the tool that is declared required. */
  predicate RequiresParam(t: Tool, name: string) {
    exists i :: 0 <= i < |t.params| && t.params[i].name == name && t.params[i].required
  }

  /** The tool declares no parameter `name`. */
  predicate LacksParam(t: Tool, name: string) {
    forall i :: 0 <= i < |t.params| ==> t.params[i].name != name
  }

  /** A call result: exactly one of a text payload and an error message. */
  datatype ToolResult = Text(text: string) | Error(message: string)

  /** The outcome of request.BindArguments into a handler's argument struct. */
  datatype Bound<A> = Bound(args: A) | BindFailed(reason: string)

  /** The arguments of a request, for handlers that test whether any were sent. */
  datatype Arguments<A> = Absent | Present(binding: Bound<A>)

  /** The binding such a handler ends up with: the zero-valued struct when no arguments
      were sent, binding is skipped then. */
  function Effective<A>(request: Arguments<A>, zero: A): (b: Bound<A>)
    ensures request.Absent? ==> b == Bound(zero)
    ensures request.Present? ==> b == request.binding
  {
    match request
    case Absent => Bound(zero)
    case Present(binding) => binding
  }

  datatype ServerTool<H> = ServerTool(tool: Tool, handler: H)

  /** No two names in `names` are the same. */
  ghost predicate Distinct(names: seq<string>) {
    forall i, j :: 0 <= i < j < |names| ==> names[i] != names[j]
  }

  /** No name occurs in both sequences. */
  ghost predicate Disjoint(a: seq<string>, b: seq<string>) {
    forall i, j :: 0 <= i < |a| && 0 <= j < |b| ==> a[i] != b[j]
  }

  /** Appending a concatenation is appending its parts one after the other. */
  lemma AppendAssociates<T>(s: seq<T>, a: seq<T>, b: seq<T>)
    ensures s + (a + b) == s + a + b
  {
  }

  /** Concatenating two name lists keeps them distinct when they share no name. */
  lemma {:induction false} DistinctConcat(a: seq<string>, b: seq<string>)
    requires Distinct(a) && Distinct(b) && Disjoint(a, b)
    ensures Distinct(a + b)
  {
    forall i, j | 0 <= i < j < |a + b|
      ensures (a + b)[i] != (a + b)[j]
    {
      if j < |a| {
        assert (a + b)[i] == a[i] && (a + b)[j] == a[j];
      } else if i < |a| {
        assert (a + b)[i] == a[i] && (a + b)[j] == b[j - |a|];
      } else {
        assert (a + b)[i] == b[i - |a|] && (a + b)[j] == b[j - |a|];
      }
    }
  }

  /** Two lists each disjoint from a third are, concatenated, disjoint from it. */
  lemma {:induction false} DisjointConcat(a: seq<string>, b: seq<string>, c: seq<string>)
    requires Disjoint(a, c) && Disjoint(b, c)
    ensures Disjoint(a + b, c)
  {
    forall i, j | 0 <= i < |a + b| && 0 <= j < |c|
      ensures (a + b)[i] != c[j]
    {
      if i < |a| {
        assert (a + b)[i] == a[i];
      } else {
        assert (a + b)[i] == b[i - |a|];
      }
    }
  }

  /** The server's tool registry. */
  class McpServer<H> {
    var tools: seq<ServerTool<H>>

    /** server.NewMCPServer: an empty registry. */
    constructor ()
      ensures tools == []
    {
      tools := [];
    }

    /** AddTool: registers the tool with its handler, after the ones already there. */
    method AddTool(tool: Tool, handler: H)
      modifies this
      ensures tools == old(tools) + [ServerTool(tool, handler)]
    {
      tools := tools + [ServerTool(tool, handler)];
    }
  }

  /** The names of registered tools, in registration order. */
  function Names<H>(registered: seq<ServerTool<H>>): (names: seq<string>)
    ensures |names| == |registered|
    ensures forall i :: 0 <= i < |registered| ==> names[i] == registered[i].tool.name
  {
    seq(|registered|, i requires 0 <= i < |registered| => registered[i].tool.name)
  }
}
