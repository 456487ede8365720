# MCP client tool registry and tool selection, modelled in Dafny

This project models the two pieces of the MCP client (a terminal chat client
that connects to Model Context Protocol tool servers and asks a local Ollama
model to use their tools) that hold logic of their own:

- **`MCPService`**, the tool registry. It holds the connected clients, their
  stdio transports and one flat list of every tool the servers expose, each
  tagged with its owning client. `connectToServer` checks that the script path
  ends in `.js` or `.py`, picks the launcher, and appends the server's tools.
  `callTool` dispatches to the first tool with the requested name and turns
  every failure into an error-flagged result.
  It is modelled as the class `McpService.Service` (file `mcp_service.dfy`).
  Its three fields are sequences that the methods reassign.
- **`ToolSelectorService.selectTool`**, the step that turns the selector
  model's parsed reply into a list of tool names, or `null`. It is modelled as
  the pure function `ToolSelector.SelectedNames` (file `tool_selector.dfy`).

`js_values.dfy` holds the JavaScript values both modules exchange: parsed JSON,
property reads that may be `undefined`, and truthiness. `wrappers.dfy` holds
`Option` and `Result`.

Things outside the process become parameters:
- An SDK `Client` is an opaque object compared by identity.
- What `connect` plus `listTools` produced is a `Handshake` value.
- What a client's `callTool` produced is a function from client, name and
  arguments to a `CallOutcome`.
- `process.platform` and `process.execPath` are a `Runtime` value.
- What `JSON.parse` made of the selector's reply is a `ParseOutcome`.

Two behaviours of the code are worth noting:
- Tool names are not deduplicated across servers. Each connect appends its
  tools (MCPService.ts:57-58), and lookup takes the first match
  (`FindToolAppend`, `FirstRegisteredWins`).
- A `null` entry in `tool_calls` makes `tool.name` throw. The `catch` then
  returns `null` (`NullEntryDropsSelection`).

## Model

| member | source | states |
|---|---|---|
| `McpService.EndsWithIffConcat` | mcp-client/client-setup/services/MCPService.ts:20-21 | the suffix test used on the script path holds exactly when the path is some string followed by the suffix |
| `McpService.ScriptKindsExclusive` | mcp-client/client-setup/services/MCPService.ts:20-31 | no path ends in both ".js" and ".py", so the launcher choice never has to break a tie |
| `McpService.LaunchCommand` | mcp-client/client-setup/services/MCPService.ts:20-31 | fails with "Server script must be a .js or .py file" exactly when the path ends in neither suffix; a ".py" path gets "python" on win32 and "python3" elsewhere; a ".js" path gets the runtime's own executable |
| `McpService.Register` | mcp-client/client-setup/services/MCPService.ts:46-52 | the server's tools as the registry keeps them: one entry per listed tool, in order, with the same name and description, the input schema under both `inputSchema` and `input_schema`, and tagged with the new client |
| `McpService.FindTool` | mcp-client/client-setup/services/MCPService.ts:62 | `find` by name yields the index of a tool with that name and no earlier tool has it; it yields nothing exactly when no tool has the name |
| `McpService.FindToolAppend` | mcp-client/client-setup/services/MCPService.ts:58-62 | appending a server's tools never changes what an already registered name resolves to; a name only the new tools have resolves to its first occurrence among them, offset by the old length |
| `McpService.FirstRegisteredWins` | mcp-client/client-setup/services/MCPService.ts:58-74 | when two servers expose the same name, lookup lands on the earlier registration: the first entry with that name among the earlier tools |
| `McpService.Service.constructor` | mcp-client/client-setup/services/MCPService.ts:11-13 | a new registry holds no clients, no transports and no tools, and satisfies the registry invariant |
| `McpService.Service.Tools` | mcp-client/client-setup/services/MCPService.ts:15-17 | the `tools` getter gives the registry's own tool list, in registration order, and changes nothing |
| `McpService.Service.ConnectToServer` | mcp-client/client-setup/services/MCPService.ts:19-59 | a bad suffix throws the script error and a failed handshake rethrows its error, and in both cases clients, transports and tools are unchanged. On success, exactly one new client and one transport (launcher, [path]) are appended, and the tools become the old tools followed by the server's tools, in order and tagged with the new client. Existing names still resolve to the same tool. The invariant (as many transports as clients, distinct clients, every tool owned by a held client, both schema keys equal) is preserved |
| `McpService.Service.CallTool` | mcp-client/client-setup/services/MCPService.ts:61-86 | an unknown name gives `{content: "Tool '<name>' not found.", isError: true}` and calls no connection. Otherwise the call goes to the client of the first tool with that name, and that client is one the registry holds. A returned value gives `{content: value, isError: false}`. A thrown error gives `isError: true` with its message when that is truthy, else "Error calling tool". The registry is not modified |
| `ToolSelector.MapNames` | mcp-client/client-setup/services/ToolSelectorService.ts:45 | mapping `tool.name` over the entries fails exactly when some entry is `null`; otherwise it gives one name per entry, in the same order |
| `ToolSelector.ToolCalls` | mcp-client/client-setup/services/ToolSelectorService.ts:45-46 | `parsed?.tool_calls` gives entries to map over exactly when the parse succeeded, the value is an object, and its `tool_calls` field is an array; the entries are that array's items |
| `ToolSelector.SelectedNames` | mcp-client/client-setup/services/ToolSelectorService.ts:43-50 | a parse failure, a missing or non-array `tool_calls`, or an empty list each give `null`. The result is non-null exactly when `tool_calls` is a non-empty array with no `null` entry. It is then never empty, has the same length as `tool_calls`, and element i is the `name` of entry i |
| `ToolSelector.DuplicateNamesKept` | mcp-client/client-setup/services/ToolSelectorService.ts:45-46 | for any non-empty list of names, a reply whose `tool_calls` entries carry those names selects exactly that list: every name in order, repeated names included. No name is compared with the available tools, because this step does not receive them |
| `ToolSelector.NullEntryDropsSelection` | mcp-client/client-setup/services/ToolSelectorService.ts:45-49 | a `null` entry anywhere in `tool_calls` makes the selection `null` |
| `ToolSelector.EntryWithoutNameGivesUndefined` | mcp-client/client-setup/services/ToolSelectorService.ts:45-46 | an entry with no `name` field contributes `undefined` at its position and is not skipped |

## Left out

- `cleanup` (MCPService.ts:88-92) only calls the foreign `close` of each client in turn. There is no state of the registry for it to change.
- Process spawning, the MCP handshake and the tool call itself belong to the SDK's `Client` and `StdioClientTransport`. They are replaced by the `Handshake` and `CallOutcome` inputs. The client name and version given to `Client` come from a configuration file that is not part of this model.
- When the handshake fails, the client and transport created for it are dropped without being closed. A server process that was already spawned is not modelled.
- `McpService.Service.CallTool`: assumes the connection throws an object. If it threw `null` or `undefined`, reading `error.message` in the `catch` would itself throw and `callTool` would reject. The model does not represent that case.
- `McpService.Service.Tools`: a `seq` is a value, so the model does not capture that the getter hands out the registry's own array. A caller that mutated that array would mutate the registry.
- Operations are modelled as sequential. Two `connectToServer` calls awaiting at once could interleave their appends, and that is not modelled.
- The prompt text, the `fetch` to the selector endpoint, the `model`/`endpoint` settings, `trim`, `JSON.parse` and the `console.error` logging of `selectTool` (ToolSelectorService.ts:1-42, 48) are not modelled. The parse outcome is an input.
- JSON numbers are reals rather than IEEE doubles. Only their truthiness is ever read.
- A property read sees only the own fields of parsed objects. Built-in properties such as `length` are not modelled, and the keys read here are not built-in properties.
- `index.ts` (the chat loop and query pipeline), `LLMService.ts` (the Ollama request) and `start-all.d.ts` (the manifest read) are I/O and orchestration. `ToolService` and the result formatters are not part of this model.
