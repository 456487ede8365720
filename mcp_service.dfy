/**
 * The tool registry of the MCP client: the connected servers, their
 * launch descriptors, and the flat list of every tool they expose, each
 * tagged with the connection that owns it.
 *
 * The SDK's `Client` is modelled by an opaque object whose identity is all
 * that matters; what its `connect`/`listTools` handshake and its `callTool`
 * produce is passed in by the caller.
 */
module McpService {
  import opened Wrappers
  import opened JsValues

  /** A connection to one tool server (an SDK `Client` object). */
  class Client {
    constructor ()
    {
    }
  }

  /** What a stdio transport is created from: the launcher and its arguments. */
  datatype Transport = Transport(command: string, args: seq<string>)

  /** A tool as a server's `listTools` describes it. */
  datatype ServerTool = ServerTool(name: string, description: Prop, inputSchema: Prop)

  /**
   * A tool in the registry: the server's description, its input schema
   * stored under both the `inputSchema` and the `input_schema` keys, and the
   * connection that serves it.
   */
  datatype RegisteredTool =
    RegisteredTool(name: string, description: Prop, inputSchema: Prop, input_schema: Prop, client: Client)

  /** The two facts of the running process that the launcher choice reads. */
  datatype Runtime = Runtime(platform: string, execPath: string)

  /** What `client.connect` followed by `client.listTools` gave. */
  datatype Handshake = Listed(tools: seq<ServerTool>) | HandshakeFailed(error: string)

  /** How a `connectToServer` call ended: it resolved, or it threw. */
  datatype Completion = Completed | Threw(message: string)

  /** What `client.callTool` gave: a result, or a thrown error with its `message` property. */
  datatype CallOutcome = Returned(result: Json) | Failed(message: Prop)

  /** The object `callTool` resolves to. */
  datatype ToolResult = ToolResult(content: Json, isError: bool)

  const ScriptError: string := "Server script must be a .js or .py file"
  const DefaultCallError: string := "Error calling tool"

  /** JavaScript's `s.endsWith(suffix)`. */
  predicate EndsWith(s: string, suffix: string) {
    |suffix| <= |s| && s[|s| - |suffix|..] == suffix
  }

  /** `s` ends with `suffix` exactly when it is some string followed by `suffix`. */
  lemma EndsWithIffConcat(s: string, suffix: string)
    ensures EndsWith(s, suffix) <==> exists p :: s == p + suffix
  {
    if EndsWith(s, suffix) {
      var p := s[..|s| - |suffix|];
      assert s == p + suffix;
    }
    if p :| s == p + suffix {
      assert s[|p|..] == suffix;
    }
  }

  /** No path ends with both ".js" and ".py", so the launcher choice never sees both. */
  lemma ScriptKindsExclusive(path: string)
    ensures EndsWith(path, ".js") ==> !EndsWith(path, ".py")
  {
  }

  /**
   * The command `connectToServer` launches a server script with: an error
   * unless the path ends in ".js" or ".py"; a Python interpreter for ".py"
   * ("python" on Windows, "python3" elsewhere); the running executable for ".js".
   */
  function LaunchCommand(path: string, rt: Runtime): (r: Result<string, string>)
    ensures r.Failure? <==> !EndsWith(path, ".js") && !EndsWith(path, ".py")
    ensures r.Failure? ==> r.error == ScriptError
    ensures EndsWith(path, ".py") ==> r == Success(if rt.platform == "win32" then "python" else "python3")
    ensures EndsWith(path, ".js") ==> r == Success(rt.execPath)
  {
    ScriptKindsExclusive(path);
    var isJs := EndsWith(path, ".js");
    var isPy := EndsWith(path, ".py");
    if !isJs && !isPy then Failure(ScriptError)
    else if isPy then Success(if rt.platform == "win32" then "python" else "python3")
    else Success(rt.execPath)
  }

  /** The server's tools as the registry keeps them, each tagged with `client`. */
  function Register(listed: seq<ServerTool>, client: Client): (r: seq<RegisteredTool>)
    ensures |r| == |listed|
    ensures forall i :: 0 <= i < |r| ==>
      && r[i].name == listed[i].name
      && r[i].description == listed[i].description
      && r[i].inputSchema == listed[i].inputSchema
      && r[i].input_schema == listed[i].inputSchema
      && r[i].client == client
  {
    seq(|listed|, i requires 0 <= i < |listed| =>
      RegisteredTool(listed[i].name, listed[i].description, listed[i].inputSchema, listed[i].inputSchema, client))
  }

  /**
   * `tools.find(t => t.name === name)`, as the index of the first tool with
   * that name, or `None` when there is none.
   */
  function FindTool(tools: seq<RegisteredTool>, name: string): (r: Option<nat>)
    ensures r.Some? ==> r.value < |tools| && tools[r.value].name == name
    ensures r.Some? ==> forall j :: 0 <= j < r.value ==> tools[j].name != name
    ensures r.None? <==> forall j :: 0 <= j < |tools| ==> tools[j].name != name
  {
    if tools == [] then None
    else if tools[0].name == name then Some(0)
    else match FindTool(tools[1..], name)
      case None => None
      case Some(k) => Some(k + 1)
  }

  /**
   * Appending tools never changes which tool an existing name resolves to;
   * a name only the appended tools have resolves to its first occurrence
   * among them.
   */
  lemma {:induction false} FindToolAppend(a: seq<RegisteredTool>, b: seq<RegisteredTool>, name: string)
    ensures FindTool(a, name).Some? ==> FindTool(a + b, name) == FindTool(a, name)
    ensures FindTool(a, name).None? && FindTool(b, name).Some? ==>
      FindTool(a + b, name) == Some(|a| + FindTool(b, name).value)
    ensures FindTool(a, name).None? && FindTool(b, name).None? ==> FindTool(a + b, name).None?
  {
    if a == [] {
      assert a + b == b;
    } else if a[0].name == name {
      assert (a + b)[0] == a[0];
    } else {
      assert (a + b)[0] == a[0];
      assert (a + b)[1..] == a[1..] + b;
      FindToolAppend(a[1..], b, name);
    }
  }

  /** The message `callTool` reports for a name no registered tool has. */
  function NotFoundMessage(name: string): string {
    "Tool '" + name + "' not found."
  }

  /** The registry of one MCP client. */
  class Service {
    var clients: seq<Client>
    var transports: seq<Transport>
    var tools: seq<RegisteredTool>

    /**
     * One transport per client, each client held once, every tool owned by
     * a held client, and a tool's two schema keys always agree.
     */
    ghost predicate Valid()
      reads this
    {
      && |clients| == |transports|
      && (forall i, j :: 0 <= i < j < |clients| ==> clients[i] != clients[j])
      && (forall i :: 0 <= i < |tools| ==> tools[i].client in clients)
      && (forall i :: 0 <= i < |tools| ==> tools[i].inputSchema == tools[i].input_schema)
    }

    constructor ()
      ensures Valid()
      ensures clients == [] && transports == [] && tools == []
    {
      clients := [];
      transports := [];
      tools := [];
    }

    /** The `tools` getter: the registry's tool list itself, in registration order. */
    method Tools() returns (r: seq<RegisteredTool>)
      ensures r == tools
    {
      r := tools;
    }

    /**
     * `connectToServer`: checks the script path, launches it, and on a
     * successful handshake records one client, one transport and the
     * server's tools after the existing ones. Every failure leaves the
     * registry as it was and is passed on to the caller.
     */
    method ConnectToServer(path: string, rt: Runtime, handshake: Handshake) returns (c: Completion)
      requires Valid()
      modifies this
      ensures Valid()
      ensures LaunchCommand(path, rt).Failure? ==>
        c == Threw(ScriptError) && unchanged(this)
      ensures LaunchCommand(path, rt).Success? && handshake.HandshakeFailed? ==>
        c == Threw(handshake.error) && unchanged(this)
      ensures LaunchCommand(path, rt).Success? && handshake.Listed? ==>
        && c == Completed
        && |clients| == old(|clients|) + 1
        && clients[..old(|clients|)] == old(clients)
        && fresh(clients[old(|clients|)])
        && transports == old(transports) + [Transport(LaunchCommand(path, rt).value, [path])]
        && tools == old(tools) + Register(handshake.tools, clients[old(|clients|)])
      ensures forall name :: FindTool(old(tools), name).Some? ==> FindTool(tools, name) == FindTool(old(tools), name)
    {
      var command := LaunchCommand(path, rt);
      if command.Failure? {
        return Threw(command.error);
      }
      var transport := Transport(command.value, [path]);
      var client := new Client();
      match handshake
      case HandshakeFailed(error) =>
        return Threw(error);
      case Listed(listed) =>
        var serverTools := Register(listed, client);
        clients := clients + [client];
        transports := transports + [transport];
        tools := tools + serverTools;
        forall name | FindTool(old(tools), name).Some?
          ensures FindTool(tools, name) == FindTool(old(tools), name)
        {
          FindToolAppend(old(tools), serverTools, name);
        }
        return Completed;
    }

    /**
     * `callTool`: dispatches to the connection of the first tool with the
     * given name and wraps what it gives into a result; it never throws.
     * `dispatched` is the connection the call went to, if any.
     */
    method CallTool(name: string, args: map<string, Json>, server: (Client, string, map<string, Json>) -> CallOutcome)
      returns (r: ToolResult, dispatched: Option<Client>)
      requires Valid()
      ensures dispatched.Some? ==> dispatched.value in clients
      ensures FindTool(tools, name).None? ==>
        r == ToolResult(JString(NotFoundMessage(name)), true) && dispatched == None
      ensures FindTool(tools, name).Some? ==>
        dispatched == Some(tools[FindTool(tools, name).value].client)
      ensures dispatched.Some? ==>
        match server(dispatched.value, name, args)
        case Returned(result) => r == ToolResult(result, false)
        case Failed(message) =>
          r.isError && r.content == (if Truthy(message) then message.value else JString(DefaultCallError))
    {
      var found := FindTool(tools, name);
      if found.None? {
        return ToolResult(JString(NotFoundMessage(name)), true), None;
      }
      var tool := tools[found.value];
      dispatched := Some(tool.client);
      match server(tool.client, name, args)
      case Returned(result) =>
        r := ToolResult(result, false);
      case Failed(message) =>
        r := ToolResult(if Truthy(message) then message.value else JString(DefaultCallError), true);
    }
  }

  /**
   * A tool registered twice under one name, by two servers, is served by the
   * server that connected first.
   */
  lemma FirstRegisteredWins(earlier: seq<RegisteredTool>, later: seq<RegisteredTool>, name: string, i: nat)
    requires i < |earlier| && earlier[i].name == name
    ensures FindTool(earlier + later, name).Some?
    ensures FindTool(earlier + later, name).value <= i
    ensures (earlier + later)[FindTool(earlier + later, name).value] == earlier[FindTool(earlier, name).value]
  {
    FindToolAppend(earlier, later, name);
  }
}
