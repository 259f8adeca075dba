/** The notes server's request handlers: initialize and ping validation, the empty
    resource/prompt/tool listings, the `notes://list` resource, and the tool-call
    handler that runs the note store and front-ends a fresh `MCPChainedClient`. */
module NotesServer {
  import opened Wrappers
  import opened Strings
  import opened McpTypes
  import opened OrderedDict
  import ChainedClient

  const ServerName: string := "notes-server"
  const ProtocolVersion: string := "0.1.0"
  const ServerVersion: string := "0.1.0"

  /** The module-level `notes` dict: note name to note text, in insertion order. */
  type Notes = Dict<string>

  /** The exceptions the handlers raise, and the text `str(e)` gives for each. */
  datatype PyError =
    | KeyError(key: string)
    | ValueError(message: string)
    | SpawnError(message: string)

  /** `str(e)`: a `KeyError` shows its key quoted; the others show their message. */
  function Str(e: PyError): string
  {
    match e
    case KeyError(k) => "'" + k + "'"
    case ValueError(m) => m
    case SpawnError(m) => m
  }

  // Listings

  /** `handle_list_resources`: the server offers no resources. */
  function ListResources(): (r: seq<Resource>)
    ensures |r| == 0
  {
    []
  }

  /** `handle_list_prompts`: the server offers no prompts. */
  function ListPrompts(): (r: seq<Prompt>)
    ensures |r| == 0
  {
    []
  }

  /** `handle_list_tools`: the server advertises no tools. */
  function ListTools(): (r: seq<Tool>)
    ensures |r| == 0
  {
    []
  }

  // Resources

  /** A resource URI, taken as its parsed scheme and its full string form. */
  datatype Uri = Uri(scheme: string, text: string)

  const NotesScheme: string := "notes"
  const NotesPrefix: string := "notes://"

  /** `str(uri).replace("notes://", "")`. */
  function ResourcePath(uri: Uri): string
  {
    RemoveAll(uri.text, NotesPrefix)
  }

  /** `"\n".join(notes.keys())`: the note names, one per line, in insertion order. */
  function NoteNames(notes: Notes): string
  {
    Join(Keys(notes), "\n")
  }

  /** `handle_read_resource`: only the `notes` scheme is served, and of it only the
      path `list`, which reads as the note names one per line. */
  function ReadResource(uri: Uri, notes: Notes): (r: Result<string, PyError>)
    ensures uri.scheme != NotesScheme ==> r == Err(ValueError("Unsupported URI scheme: " + uri.scheme))
    ensures uri.scheme == NotesScheme && ResourcePath(uri) == "list" ==> r == Ok(NoteNames(notes))
    ensures uri.scheme == NotesScheme && ResourcePath(uri) != "list" ==>
              r == Err(ValueError("Unknown resource path: " + ResourcePath(uri)))
  {
    if uri.scheme != NotesScheme then Err(ValueError("Unsupported URI scheme: " + uri.scheme))
    else
      var path := ResourcePath(uri);
      if path == "list" then Ok(NoteNames(notes))
      else Err(ValueError("Unknown resource path: " + path))
  }

  /** For `notes://<rest>` (with no further `notes://` inside `rest`) the path is `rest`:
      `notes://list` lists the notes and any other path is unknown. */
  lemma ReadNotesUri(rest: string, notes: Notes)
    requires !Occurs(rest, NotesPrefix)
    ensures rest == "list" ==> ReadResource(Uri(NotesScheme, NotesPrefix + rest), notes) == Ok(NoteNames(notes))
    ensures rest != "list" ==>
              ReadResource(Uri(NotesScheme, NotesPrefix + rest), notes) == Err(ValueError("Unknown resource path: " + rest))
  {
    RemoveAllLeading(NotesPrefix, rest);
  }

  // Tool calls

  /** What spawning and attaching a backend process gives for one `connect-server`
      call: a session, or the exception the spawn raised. */
  datatype SpawnOutcome = Spawned(session: ChainedClient.Session) | SpawnFailed(message: string)

  /** A tool call's reply and the note store after it. */
  datatype Reply = Reply(notes: Notes, content: seq<Content>)

  /** `arguments[key]`. */
  function Arg(arguments: Arguments, key: string): (r: Result<string, PyError>)
    ensures key in arguments ==> r == Ok(arguments[key])
    ensures key !in arguments ==> r == Err(KeyError(key))
  {
    if key in arguments then Ok(arguments[key]) else Err(KeyError(key))
  }

  /** The body of the `try` in `handle_call_tool`: the new note store and the reply
      text, or the exception raised. A fresh client is built on every call. */
  function Dispatch(name: string, arguments: Arguments, notes: Notes, spawn: SpawnOutcome): Result<(Notes, string), PyError>
  {
    var client := ChainedClient.NewClient();
    if name == "add-note" then
      // `notes[arguments['name']] = arguments['content']` evaluates the value first.
      match Arg(arguments, "content")
      case Err(e) => Err(e)
      case Ok(content) =>
        match Arg(arguments, "name")
        case Err(e) => Err(e)
        case Ok(note) => Ok((Put(notes, note, content), "Note '" + note + "' added successfully"))
    else if name == "get-note" then
      match Arg(arguments, "name")
      case Err(e) => Err(e)
      case Ok(note) => Ok((notes, Get(notes, note).GetOr("Note not found")))
    else if name == "list-notes" then
      Ok((notes, NoteNames(notes)))
    else if name == "connect-server" then
      match Arg(arguments, "name")
      case Err(e) => Err(e)
      case Ok(server) =>
        match Arg(arguments, "command")
        case Err(e) => Err(e)
        case Ok(_) =>
          match spawn
          case SpawnFailed(m) => Err(SpawnError(m))
          case Spawned(session) =>
            var connected := ChainedClient.ConnectServer(client, server, session);
            Ok((notes, "Server '" + server + "' connected successfully"))
    else if name == "disconnect-server" then
      match Arg(arguments, "name")
      case Err(e) => Err(e)
      case Ok(server) =>
        var disconnected := ChainedClient.DisconnectServer(client, server);
        Ok((notes, "Server '" + server + "' disconnected successfully"))
    else if name == "list-servers" then
      var servers := ChainedClient.ListServers(client);
      if |servers| == 0 then Ok((notes, "No servers connected"))
      else Ok((notes, Join(servers, "\n")))
    else
      Err(ValueError("Unknown tool: " + name))
  }

  /** `handle_call_tool`: never raises; every outcome, exceptions included, is one text
      item, and a raised exception leaves the note store as it was. */
  function CallTool(name: string, arguments: Arguments, notes: Notes, spawn: SpawnOutcome): (r: Reply)
    ensures |r.content| == 1 && r.content[0].TextContent?
    ensures name != "add-note" ==> r.notes == notes
  {
    match Dispatch(name, arguments, notes, spawn)
    case Ok(done) => Reply(done.0, [TextContent(done.1)])
    case Err(e) => Reply(notes, [TextContent(Str(e))])
  }

  /** The text of a reply. */
  function Text(r: Reply): string
    requires |r.content| == 1 && r.content[0].TextContent?
  {
    r.content[0].text
  }

  /** `add-note` stores the content under the name, in place if the name exists and
      at the end otherwise, and leaves every other note as it was. */
  lemma AddNote(note: string, content: string, arguments: Arguments, notes: Notes, spawn: SpawnOutcome)
    requires "name" in arguments && arguments["name"] == note
    requires "content" in arguments && arguments["content"] == content
    ensures var r := CallTool("add-note", arguments, notes, spawn);
            && Text(r) == "Note '" + note + "' added successfully"
            && Get(r.notes, note) == Some(content)
            && (forall other :: other != note ==> Get(r.notes, other) == Get(notes, other))
            && Keys(r.notes) == (if note in Keys(notes) then Keys(notes) else Keys(notes) + [note])
            && (UniqueKeys(notes) ==> UniqueKeys(r.notes))
  {
    PutKeys(notes, note, content);
    if UniqueKeys(notes) {
      PutKeepsUnique(notes, note, content);
    }
  }

  /** Reading a note back after adding it gives the content just added. */
  lemma AddThenGet(note: string, content: string, notes: Notes, spawn: SpawnOutcome)
    ensures var added := CallTool("add-note", map["name" := note, "content" := content], notes, spawn);
            var got := CallTool("get-note", map["name" := note], added.notes, spawn);
            Text(got) == content && got.notes == added.notes
  {
  }

  /** `get-note` of a name with no note answers "Note not found". */
  lemma GetMissingNote(note: string, arguments: Arguments, notes: Notes, spawn: SpawnOutcome)
    requires "name" in arguments && arguments["name"] == note
    requires note !in Keys(notes)
    ensures Text(CallTool("get-note", arguments, notes, spawn)) == "Note not found"
  {
  }

  /** A missing argument becomes the text of the `KeyError` and no note changes, for
      every tool that reads arguments. Lookups happen in evaluation order: `'content'`
      before `'name'` when adding, and `'name'` before `'command'` when connecting. */
  lemma MissingArguments(arguments: Arguments, notes: Notes, spawn: SpawnOutcome)
    ensures "content" !in arguments ==>
              CallTool("add-note", arguments, notes, spawn) == Reply(notes, [TextContent("'content'")])
    ensures "content" in arguments && "name" !in arguments ==>
              CallTool("add-note", arguments, notes, spawn) == Reply(notes, [TextContent("'name'")])
    ensures "name" !in arguments ==>
              CallTool("get-note", arguments, notes, spawn) == Reply(notes, [TextContent("'name'")])
    ensures "name" !in arguments ==>
              CallTool("connect-server", arguments, notes, spawn) == Reply(notes, [TextContent("'name'")])
    ensures "name" in arguments && "command" !in arguments ==>
              CallTool("connect-server", arguments, notes, spawn) == Reply(notes, [TextContent("'command'")])
    ensures "name" !in arguments ==>
              CallTool("disconnect-server", arguments, notes, spawn) == Reply(notes, [TextContent("'name'")])
  {
    assert Str(KeyError("content")) == "'content'";
    assert Str(KeyError("name")) == "'name'";
    assert Str(KeyError("command")) == "'command'";
  }

  /** The tool names the handler knows. */
  const KnownTools: set<string> :=
    {"add-note", "get-note", "list-notes", "connect-server", "disconnect-server", "list-servers"}

  /** Any other tool name is reported as unknown and no note changes. */
  lemma UnknownTool(name: string, arguments: Arguments, notes: Notes, spawn: SpawnOutcome)
    requires name !in KnownTools
    ensures CallTool(name, arguments, notes, spawn) == Reply(notes, [TextContent("Unknown tool: " + name)])
  {
  }

  /** The router is rebuilt empty on every call, so `list-servers` always answers
      "No servers connected", even right after a successful `connect-server`. */
  lemma ListServersAlwaysEmpty(arguments: Arguments, notes: Notes, spawn: SpawnOutcome,
                               connectArguments: Arguments, connectSpawn: SpawnOutcome)
    ensures CallTool("list-servers", arguments, notes, spawn) == Reply(notes, [TextContent("No servers connected")])
    ensures var connected := CallTool("connect-server", connectArguments, notes, connectSpawn);
            CallTool("list-servers", arguments, connected.notes, spawn) == Reply(notes, [TextContent("No servers connected")])
  {
  }

  /** `connect-server` with both arguments reports success exactly when the spawn
      succeeds, and otherwise reports the spawn's exception. */
  lemma ConnectServerReply(server: string, arguments: Arguments, notes: Notes, spawn: SpawnOutcome)
    requires "name" in arguments && arguments["name"] == server
    requires "command" in arguments
    ensures spawn.Spawned? ==>
              CallTool("connect-server", arguments, notes, spawn) == Reply(notes, [TextContent("Server '" + server + "' connected successfully")])
    ensures spawn.SpawnFailed? ==>
              CallTool("connect-server", arguments, notes, spawn) == Reply(notes, [TextContent(spawn.message)])
  {
  }

  /** `disconnect-server` on the empty router always succeeds. */
  lemma DisconnectServerReply(server: string, arguments: Arguments, notes: Notes, spawn: SpawnOutcome)
    requires "name" in arguments && arguments["name"] == server
    ensures CallTool("disconnect-server", arguments, notes, spawn) ==
              Reply(notes, [TextContent("Server '" + server + "' disconnected successfully")])
  {
  }

  /** `list-notes` and the `notes://list` resource read the same text. */
  lemma ReadListIsListNotes(notes: Notes, spawn: SpawnOutcome)
    ensures ReadResource(Uri(NotesScheme, "notes://list"), notes) ==
              Ok(Text(CallTool("list-notes", map[], notes, spawn)))
  {
    assert !Occurs("list", NotesPrefix);
    ReadNotesUri("list", notes);
    assert NotesPrefix + "list" == "notes://list";
  }

  /** Adding a new note appends its name to the `list-notes` text: as the only line
      when the store was empty, and as one more line otherwise. */
  lemma {:induction false} ListNotesOrder(note: string, content: string, notes: Notes, spawn: SpawnOutcome)
    requires note !in Keys(notes)
    ensures var added := CallTool("add-note", map["name" := note, "content" := content], notes, spawn);
            Text(CallTool("list-notes", map[], added.notes, spawn)) ==
              NoteNames(notes) + (if |notes| == 0 then "" else "\n") + note
  {
    var added := CallTool("add-note", map["name" := note, "content" := content], notes, spawn);
    assert added.notes == Put(notes, note, content);
    PutKeys(notes, note, content);
    if |notes| == 0 {
      assert Keys(added.notes) == [note];
    } else {
      JoinSnoc(Keys(notes), note, "\n");
    }
  }

  // Handshake

  /** The option keys `handle_initialize` accepts. */
  const OptionKeys: set<string> := {"capabilities", "protocolVersion", "serverInfo"}

  /** The exceptions `handle_initialize` raises. */
  datatype InitError =
    | OptionsNotDict
    | UnexpectedKeys(keys: set<string>)
    | CapabilitiesNotDict
    | ProtocolVersionNotString
    | ServerInfoNotDict

  /** `OptionsNotDict` is a `TypeError`; every other rejection is a `ValueError`. */
  predicate IsTypeError(e: InitError)
  {
    e.OptionsNotDict?
  }

  /** The options `handle_initialize` accepts, stated declaratively: none at all, or a
      dict using only the known keys, each holding a value of its expected kind. */
  predicate AcceptableOptions(options: Json)
  {
    || options.JNull?
    || (&& options.JObject?
        && options.fields.Keys <= OptionKeys
        && ("capabilities" in options.fields ==> options.fields["capabilities"].JObject?)
        && ("protocolVersion" in options.fields ==> options.fields["protocolVersion"].JString?)
        && ("serverInfo" in options.fields ==> options.fields["serverInfo"].JObject?))
  }

  /** The fixed initialize response. */
  function InitializeResponse(): Json
  {
    JObject(map[
      "capabilities" := JObject(map[]),
      "protocolVersion" := JString(ProtocolVersion),
      "serverInfo" := JObject(map["name" := JString(ServerName), "version" := JString(ServerVersion)])
    ])
  }

  /** `handle_initialize`: checks the options in this order: type, keys, capabilities,
      protocolVersion, serverInfo; then answers with the fixed response. */
  function Initialize(options: Json): (r: Result<Json, InitError>)
    ensures r.Ok? <==> AcceptableOptions(options)
    ensures r.Ok? ==> r.value == InitializeResponse()
    ensures r.Err? ==> (IsTypeError(r.error) <==> !(options.JNull? || options.JObject?))
    ensures options.JObject? && !(options.fields.Keys <= OptionKeys) ==>
              r == Err(UnexpectedKeys(options.fields.Keys - OptionKeys))
  {
    if !options.JNull? && !options.JObject? then Err(OptionsNotDict)
    else if options.JObject? && |options.fields| > 0 then
      var fields := options.fields;
      var unexpected := fields.Keys - OptionKeys;
      if unexpected != {} then Err(UnexpectedKeys(unexpected))
      else if "capabilities" in fields && !fields["capabilities"].JObject? then Err(CapabilitiesNotDict)
      else if "protocolVersion" in fields && !fields["protocolVersion"].JString? then Err(ProtocolVersionNotString)
      else if "serverInfo" in fields && !fields["serverInfo"].JObject? then Err(ServerInfoNotDict)
      else Ok(InitializeResponse())
    else Ok(InitializeResponse())
  }

  /** With only known keys, the first field of the wrong kind, in the order
      capabilities, protocolVersion, serverInfo, names the `ValueError`. */
  lemma InitializeFieldOrder(fields: map<string, Json>)
    requires fields.Keys <= OptionKeys
    ensures "capabilities" in fields && !fields["capabilities"].JObject? ==>
              Initialize(JObject(fields)) == Err(CapabilitiesNotDict)
    ensures ("capabilities" in fields ==> fields["capabilities"].JObject?) &&
            "protocolVersion" in fields && !fields["protocolVersion"].JString? ==>
              Initialize(JObject(fields)) == Err(ProtocolVersionNotString)
    ensures ("capabilities" in fields ==> fields["capabilities"].JObject?) &&
            ("protocolVersion" in fields ==> fields["protocolVersion"].JString?) &&
            "serverInfo" in fields && !fields["serverInfo"].JObject? ==>
              Initialize(JObject(fields)) == Err(ServerInfoNotDict)
  {
    if "capabilities" in fields || "protocolVersion" in fields || "serverInfo" in fields {
      assert |fields| > 0;
    }
  }

  /** Every accepted initialize answers the same, whatever the options. */
  lemma InitializeIgnoresOptions(a: Json, b: Json)
    requires Initialize(a).Ok? && Initialize(b).Ok?
    ensures Initialize(a) == Initialize(b)
  {
  }

  /** `handle_ping`: an empty object, whatever the parameters. */
  function Ping(params: Json): (r: Json)
    ensures r == JObject(map[])
  {
    JObject(map[])
  }
}
