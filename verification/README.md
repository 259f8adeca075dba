# Chained MCP client and notes server, modelled in Dafny

This project models the sequential logic of a small MCP (Model Context Protocol)
package with two parts.

- **`MCPChainedClient`** is a router over several backend MCP servers. It keeps an
  insertion-ordered registry from backend name to session. It lists the tools of one
  backend exactly as that backend reports them, or the tools of all backends with
  every name rewritten to `"<backend>:<tool>"`.
  It routes a tool call in one of two ways. A name with a `:` goes to the backend
  named before the first `:`. A bare name goes to the first backend, in registry
  order, that does not raise.
- **The notes server's handlers** cover `initialize` and `ping`, the empty resource,
  prompt and tool listings, the `notes://list` resource, and `handle_call_tool`.
  That handler runs an in-memory note store and fronts a router that it builds
  anew on every call.

Everything is a pure function over immutable values.

- A Python dict is an association list in insertion order (`OrderedDict`). Assigning
  to a present key keeps its position. Assigning to a new key appends it. Deleting a
  key keeps the order of the rest.
- A backend session is a value (`ChainedClient.Session`): the tools it lists, plus a
  partial map from a call (tool name and arguments) to its reply. A call missing from
  the map is one the backend raises on.
- Each router operation also returns the backend interactions it performed, in order
  (`Closed`, `ListedTools`, `CalledTool`). This lets the contracts state which
  backends are touched and which are not.
- Exceptions become `Result` errors. The note store is passed in and returned rather
  than held in a module global.

Modules: `Wrappers` (Option, Result), `Strings` (`split(":", 1)`, `join`,
`replace`), `McpTypes` (JSON values, tools, content), `OrderedDict`, `ChainedClient`
(client.py) and `NotesServer` (server.py).

The model follows the code on these points, where a cleaner design might differ:

- `list_tools(name)` for one backend returns its list **unprefixed**. Only the
  aggregate listing prefixes names.
- Connecting a name that is already registered replaces its session in place. The
  old session is **not** closed. Nothing rejects the duplicate.
- Bare-call priority is registry insertion order. Python dicts guarantee that order,
  so the priority is deterministic.
- No `BackendUnavailable` error exists. A backend's exception passes straight
  through a prefixed call. A bare call treats it as "try the next backend".
- `connect_server` accepts a backend name containing `:`. Its tools are then listed
  under names that split at the first `:` into a different server name, so they do
  not route back to it (`ColonInBackendNameMisroutes`).
- `handle_call_tool` builds a fresh, empty router on every call. So a
  `connect-server` never persists, and `list-servers` always answers
  "No servers connected".

## Model

| member | source | states |
|---|---|---|
| `OrderedDict.Put` | src/mcp_client_and_server/client.py:27 | `d[k] = v`: afterwards `k` maps to `v` and every other key's lookup is unchanged |
| `OrderedDict.PutKeys` | src/mcp_client_and_server/client.py:27 | assignment keeps the key order when `k` was present and appends `k` at the end otherwise |
| `OrderedDict.PutKeepsUnique` | src/mcp_client_and_server/client.py:27 | assignment never creates a second entry for a key |
| `OrderedDict.Remove` | src/mcp_client_and_server/client.py:34 | `del d[k]`: afterwards `k` is absent and every other key's lookup is unchanged. No key appears that was not there. An absent `k` leaves the dict identical |
| `OrderedDict.RemoveKeepsUnique` | src/mcp_client_and_server/client.py:34 | deletion keeps keys unique |
| `OrderedDict.RemoveFirst` | src/mcp_client_and_server/client.py:34 | with unique keys, deleting the first key drops just the first entry |
| `OrderedDict.RemoveAt` | src/mcp_client_and_server/client.py:34 | deleting the key at position `i` gives exactly `d[..i] + d[i+1..]`, so the other entries keep their order |
| `OrderedDict.PutAt` | src/mcp_client_and_server/client.py:27 | re-assigning the key at position `i` changes only that entry's value, in place |
| `OrderedDict.Get` | src/mcp_client_and_server/client.py:43-45 | `d.get(k)` (and `k in d`, `d[k]`): a value is found exactly when `k` is a key of the dict |
| `OrderedDict.GetFindsEntry` | src/mcp_client_and_server/server.py:69 | a value `d.get(k)` finds is the value of an entry whose key is `k` |
| `OrderedDict.GetAt` | src/mcp_client_and_server/client.py:43-45 | with unique keys, looking up any entry's key yields that entry's value |
| `OrderedDict.PutIsMapUpdate` | src/mcp_client_and_server/client.py:27 | read as a plain map, assignment is map update `m[k := v]` |
| `OrderedDict.RemoveIsMapSubtraction` | src/mcp_client_and_server/client.py:32-34 | read as a plain map, deletion is `m - {k}` |
| `OrderedDict.RemoveUndoesPut` | src/mcp_client_and_server/client.py:27-34 | deleting a key that was just appended restores the previous dict |
| `OrderedDict.ToMapAgreesWithGet` | src/mcp_client_and_server/client.py:43-45 | the map view and ordered lookup agree on presence and value |
| `OrderedDict.Keys` | src/mcp_client_and_server/client.py:36-38 | `list(d.keys())`: one key per entry, position for position |
| `Strings.SplitOnFirst` | src/mcp_client_and_server/client.py:59-60 | `split(":", 1)`: no result exactly when the name has no `:`. Otherwise the head has no `:`, and head, `:` and rest rebuild the name |
| `Strings.SplitOnFirstOfJoined` | src/mcp_client_and_server/client.py:59-60 | round trip: splitting `head + ":" + rest` with a `:`-free head gives back `head` and `rest`, even when `rest` contains more colons |
| `Strings.JoinSnoc` | src/mcp_client_and_server/server.py:73 | `"\n".join` of one more name appends the separator and that name |
| `Strings.RemoveAll` | src/mcp_client_and_server/server.py:30 | `s.replace(pat, "")` never lengthens `s`, and an empty pattern leaves `s` unchanged |
| `Strings.RemoveAllAbsent` | src/mcp_client_and_server/server.py:30 | `replace(pat, "")` leaves text without `pat` unchanged |
| `Strings.RemoveAllLeading` | src/mcp_client_and_server/server.py:30 | `replace("notes://", "")` on `"notes://" + rest` gives `rest` when `rest` holds no further `notes://` |
| `ChainedClient.NewClient` | src/mcp_client_and_server/client.py:10-12 | a new client has the default name and an empty registry |
| `ChainedClient.Invoke` | src/mcp_client_and_server/client.py:63 | a backend answers a call exactly when the call is in its answers. Otherwise it raises, and the error names that backend and call |
| `ChainedClient.ConnectServer` | src/mcp_client_and_server/client.py:26-28 | after connecting, the name maps to the new session and other names are unchanged. A known name keeps its position and a new name is appended. No backend is closed. The session is returned |
| `ChainedClient.DisconnectServer` | src/mcp_client_and_server/client.py:30-34 | a registered name is closed once and removed, and other names are unchanged. An absent name is a no-op with no backend touched |
| `ChainedClient.DisconnectIdempotent` | src/mcp_client_and_server/client.py:30-34 | a second disconnect of the same name touches no backend and changes nothing |
| `ChainedClient.DisconnectAt` | src/mcp_client_and_server/client.py:30-34 | disconnecting the backend at position `i` removes exactly that entry and keeps the order of the rest |
| `ChainedClient.DisconnectUndoesConnect` | src/mcp_client_and_server/client.py:27-34 | connecting a new name and then disconnecting it restores the client |
| `ChainedClient.ReconnectInPlace` | src/mcp_client_and_server/client.py:27 | reconnecting a registered name swaps its session at the same position. There is no duplicate and nothing else changes |
| `ChainedClient.ListServers` | src/mcp_client_and_server/client.py:36-38 | the registered names in registry order |
| `ChainedClient.Close` | src/mcp_client_and_server/client.py:74-78 | every backend is closed once, in registry order, and the registry becomes empty |
| `ChainedClient.CloseIsDisconnectEach` | src/mcp_client_and_server/client.py:74-78 | on a client with unique names, `close` closes the same backends in the same order, and leaves the same registry, as disconnecting every registered name in registry order |
| `ChainedClient.CloseEmpties` | src/mcp_client_and_server/client.py:74-78 | after `close`, `list_servers` is empty |
| `ChainedClient.ListToolsOfOne` | src/mcp_client_and_server/client.py:42-45 | for a non-empty name: an unregistered name fails with "Server <name> not connected" and touches no backend. A registered name returns that backend's list unmodified, unprefixed, after one listing call |
| `ChainedClient.PrefixAll` | src/mcp_client_and_server/client.py:51-52 | each tool of a backend is renamed `"<backend>:<tool>"`, position for position |
| `ChainedClient.AllToolsLength` | src/mcp_client_and_server/client.py:47-54 | the aggregate listing is as long as the backends' lists together |
| `ChainedClient.AllToolsAt` | src/mcp_client_and_server/client.py:47-54 | entry `offset(i) + j` of the aggregate listing is tool `j` of backend `i`, prefixed. So the lists are concatenated in registry order |
| `ChainedClient.ListToolsOfAll` | src/mcp_client_and_server/client.py:42-54 | for every registry, empty or with tool-less backends included: with no name or an empty one, every backend is listed once in registry order, the call succeeds, and the result has length equal to the sum of the per-backend lengths. Position `offset(i) + j` holds tool `j` of backend `i`, prefixed |
| `ChainedClient.Attempts` | src/mcp_client_and_server/client.py:66-68 | the first `n` bare-call attempts are one call per backend, in registry order |
| `ChainedClient.TryEachFirstAnswer` | src/mcp_client_and_server/client.py:66-70 | if backend `i` is the first to answer, the bare loop returns its answer after calling backends `0..i` and no later one |
| `ChainedClient.TryEachNoAnswer` | src/mcp_client_and_server/client.py:66-72 | if no backend answers, the bare loop calls every backend once and fails with "Tool <name> not found in any connected server" |
| `ChainedClient.BareCall` | src/mcp_client_and_server/client.py:65-72 | a bare call returns the first answering backend's reply and skips later backends. If no backend answers, or the registry is empty, it fails with "not found" |
| `ChainedClient.PrefixedCall` | src/mcp_client_and_server/client.py:59-63 | `"<server>:<rest>"` with an unregistered server fails with "Server <server> not connected" and calls no backend. A registered server is called once with exactly `rest`, and its reply or exception is the result |
| `ChainedClient.ListedToolRoutesBack` | src/mcp_client_and_server/client.py:47-63 | round trip: the aggregate name of tool `j` of backend `i` (a backend name with no `:`) routes back to backend `i` with the tool's original name |
| `ChainedClient.ColonInBackendNameMisroutes` | src/mcp_client_and_server/client.py:52-62 | a backend registered as `a:b` lists its tool `t` as `a:b:t`, and calling that name fails with "Server a not connected" without touching any backend |
| `NotesServer.ListResources` | src/mcp_client_and_server/server.py:17-20 | no resources are listed |
| `NotesServer.ListPrompts` | src/mcp_client_and_server/server.py:37-44 | no prompts are listed |
| `NotesServer.ListTools` | src/mcp_client_and_server/server.py:46-50 | no tools are listed |
| `NotesServer.ReadResource` | src/mcp_client_and_server/server.py:22-35 | a scheme other than `notes` fails with "Unsupported URI scheme: <scheme>". Path `list` returns the note names joined by newlines. Any other path fails with "Unknown resource path: <path>" |
| `NotesServer.ReadNotesUri` | src/mcp_client_and_server/server.py:26-35 | for `notes://<rest>` where `rest` holds no further `notes://`, the path is `rest`: `list` lists the notes and anything else is an unknown path (for example `notes://non-existent`). Because `replace` deletes every occurrence, `notes://notes://list` also has path `list`; that case is outside this lemma |
| `NotesServer.Arg` | src/mcp_client_and_server/server.py:65 | `arguments[key]` gives the value, or raises `KeyError(key)` |
| `NotesServer.CallTool` | src/mcp_client_and_server/server.py:52-111 | never raises: every outcome, exceptions included, is exactly one text item. Only `add-note` can change the notes |
| `NotesServer.AddNote` | src/mcp_client_and_server/server.py:64-66 | `add-note` stores the content under the name, in place if present and at the end otherwise, and confirms with "Note '<name>' added successfully". Other notes are unchanged and keys stay unique |
| `NotesServer.AddThenGet` | src/mcp_client_and_server/server.py:64-70 | `get-note` right after `add-note` of the same name returns the added content |
| `NotesServer.GetMissingNote` | src/mcp_client_and_server/server.py:68-70 | `get-note` of an absent name answers "Note not found" |
| `NotesServer.MissingArguments` | src/mcp_client_and_server/server.py:64-85 | a missing argument answers with the `KeyError` text and the notes are unchanged, for `add-note`, `get-note`, `connect-server` and `disconnect-server`. `add-note` looks up `'content'` before `'name'`; `connect-server` looks up `'name'` before `'command'` |
| `NotesServer.UnknownTool` | src/mcp_client_and_server/server.py:106-111 | an unknown tool answers "Unknown tool: <name>" and the notes are unchanged |
| `NotesServer.ListServersAlwaysEmpty` | src/mcp_client_and_server/server.py:87-97 | the router is rebuilt empty on every call (line 62). So `list-servers` always answers "No servers connected", even after a `connect-server` |
| `NotesServer.ConnectServerReply` | src/mcp_client_and_server/server.py:75-81 | `connect-server` confirms exactly when the spawn succeeds and otherwise answers with the spawn's exception text. Notes are unchanged |
| `NotesServer.DisconnectServerReply` | src/mcp_client_and_server/server.py:83-85 | `disconnect-server` always confirms, because the fresh router has nothing to disconnect |
| `NotesServer.ReadListIsListNotes` | src/mcp_client_and_server/server.py:30-32 | the `notes://list` resource and the `list-notes` tool read the same text |
| `NotesServer.ListNotesOrder` | src/mcp_client_and_server/server.py:64-73 | adding a new note appends its name to the `list-notes` text: as the whole text on an empty store (the starting state, line 12), as one more line otherwise |
| `NotesServer.Initialize` | src/mcp_client_and_server/server.py:113-162 | succeeds exactly for acceptable options (None, or a dict with known keys whose values have the expected kinds), and then returns the fixed response. A `TypeError` is raised exactly for a non-dict, non-None argument. Unexpected keys raise a `ValueError` carrying those keys |
| `NotesServer.InitializeFieldOrder` | src/mcp_client_and_server/server.py:139-152 | with only known keys, the first mistyped field, checked in the order capabilities, protocolVersion, serverInfo, names the `ValueError` |
| `NotesServer.InitializeIgnoresOptions` | src/mcp_client_and_server/server.py:154-162 | every accepted initialize returns the same response |
| `NotesServer.Ping` | src/mcp_client_and_server/server.py:164-173 | the answer is `{}` whatever the parameters |

## Left out

- Spawning the backend process and attaching a session to its pipes
  (client.py:19-26): this is OS I/O and a library call. The router is given a
  `Session` value. In `connect-server` the spawn's outcome is a parameter
  (`SpawnOutcome`), and `command` and `cwd` are not inspected.
- A backend's `close()` and `list_tools()` never raise in the model. In the source,
  an exception from `close` would leave the entry registered (disconnect) or stop
  `close` part-way. An exception from `list_tools` would abort the aggregate listing.
- A backend's reply depends only on the tool name and arguments. Real backends may
  answer differently over time.
- The aggregate listing in the source renames the tool objects the backend returned,
  in place. The model returns renamed copies.
- async/await, the event loop, logging, `main` and `run_server`: none of these
  affect the results.
- Tool-call argument values are text (`map<string, string>`). Non-string note names
  or contents are outside the model. In the source, `add-note` would store a
  hashable non-string name (a number, a boolean, null), and then
  `"\n".join(notes.keys())` raises `TypeError`: `list-notes` answers with that
  error's text (server.py:73, 109-111) and reading `notes://list` raises it
  (server.py:32). A list or dict name cannot be a dict key: `add-note` raises
  `TypeError` at server.py:65 before storing anything, and answers with that
  error's text.
- JSON values have integers but no floats. Dict keys are strings only. A non-string
  key in the initialize options is outside the model.
- URI parsing: a resource URI is taken as its parsed scheme plus its string form.
- Tool metadata is reduced to a name and a description.
- NotesServer.Initialize: states which exception is raised and for which options,
  but not the message text. The text for unexpected keys prints a Python set, whose
  element order the source does not fix.
- ChainedClient.ListTools: carries no contract of its own. `ListToolsOfOne` and
  `ListToolsOfAll` state its behaviour.
- ChainedClient.CallTool: carries no contract of its own. `PrefixedCall`, `BareCall`
  and `ListedToolRoutesBack` state its behaviour.
- Strings.RemoveAll: its contract states only that the result is no longer than the
  input and that an empty pattern changes nothing. `RemoveAllAbsent` and
  `RemoveAllLeading` pin the results the resource handler depends on.
- Strings.Join: carries no contract of its own. `JoinSnoc` and
  `NotesServer.ListNotesOrder` state its behaviour.
- ChainedClient.AllTools: carries no contract of its own. `AllToolsLength`,
  `AllToolsAt` and `ListToolsOfAll` state its behaviour.
- ChainedClient.TryEach: carries no contract of its own. `TryEachFirstAnswer`,
  `TryEachNoAnswer` and `BareCall` state its behaviour.
- NotesServer.Str: carries no contract of its own. `MissingArguments`,
  `ConnectServerReply` and `UnknownTool` state the texts it gives.
- NotesServer.Dispatch: carries no contract of its own. `NotesServer.CallTool` and
  the lemmas after it state its behaviour.
