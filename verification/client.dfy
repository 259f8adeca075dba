/** `MCPChainedClient`: a registry of named backend sessions and the routing of
    tool listings and tool calls across them. Spawning a backend process and the
    protocol session over its pipes are abstracted into a `Session` value. */
module ChainedClient {
  import opened Wrappers
  import opened Strings
  import opened McpTypes
  import opened OrderedDict

  /** The client's default name. */
  const DefaultName: string := "mcp-chained-client"

  /** The separator between a backend name and a tool name. */
  const Separator: char := ':'

  /** One tool invocation as a backend receives it. */
  datatype ToolCall = ToolCall(tool: string, arguments: Arguments)

  /** A connected backend as the router observes it: the tools it lists and how it
      answers calls. A call missing from `answers` is one the backend raises on. */
  datatype Session = Session(tools: seq<Tool>, answers: map<ToolCall, seq<Content>>)

  /** An interaction of the router with one backend, recorded in the order it happens. */
  datatype Event =
    | Closed(server: string)
    | ListedTools(server: string)
    | CalledTool(server: string, call: ToolCall)

  /** What a router operation raises: its own `ValueError`, or an exception a backend
      raised and the router let through. */
  datatype ClientError =
    | ValueError(message: string)
    | BackendRaised(server: string, call: ToolCall)

  /** A router operation's outcome together with the backend interactions it performed. */
  datatype Step<T> = Step(result: T, calls: seq<Event>)

  /** The client: its name and the insertion-ordered registry `connected_servers`. */
  datatype Client = Client(serverName: string, servers: Dict<Session>)

  /** `MCPChainedClient()`: a client with no backends. */
  function NewClient(): (c: Client)
    ensures c.servers == [] && c.serverName == DefaultName
  {
    Client(DefaultName, [])
  }

  /** The client invariant every Python dict keeps: no backend name twice. */
  predicate Valid(c: Client)
  {
    UniqueKeys(c.servers)
  }

  function NotConnectedMessage(server: string): string
  {
    "Server " + server + " not connected"
  }

  function NotFoundMessage(tool: string): string
  {
    "Tool " + tool + " not found in any connected server"
  }

  /** The backend's reply to one call, or the exception it raises. */
  function Invoke(s: Session, server: string, call: ToolCall): (r: Result<seq<Content>, ClientError>)
    ensures r.Ok? <==> call in s.answers
    ensures r.Ok? ==> r.value == s.answers[call]
    ensures r.Err? ==> r.error == BackendRaised(server, call)
  {
    if call in s.answers then Ok(s.answers[call]) else Err(BackendRaised(server, call))
  }

  /** `connect_server` once the session exists: the registry assignment
      `connected_servers[name] = server`. An existing entry is replaced in place and its
      old session is not closed; the new session is returned. */
  function ConnectServer(c: Client, name: string, session: Session): (r: Step<(Client, Session)>)
    ensures r.calls == []
    ensures r.result.1 == session
    ensures r.result.0.serverName == c.serverName
    ensures Get(r.result.0.servers, name) == Some(session)
    ensures forall other :: other != name ==> Get(r.result.0.servers, other) == Get(c.servers, other)
    ensures Keys(r.result.0.servers) == if name in Keys(c.servers) then Keys(c.servers) else Keys(c.servers) + [name]
    ensures Valid(c) ==> Valid(r.result.0)
  {
    PutKeys(c.servers, name, session);
    assert Valid(c) ==> UniqueKeys(Put(c.servers, name, session)) by {
      if Valid(c) { PutKeepsUnique(c.servers, name, session); }
    }
    Step((c.(servers := Put(c.servers, name, session)), session), [])
  }

  /** `disconnect_server`: closes and forgets the named backend; a name that is not
      registered is ignored. */
  function DisconnectServer(c: Client, name: string): (r: Step<Client>)
    ensures name in Keys(c.servers) ==> r.calls == [Closed(name)]
    ensures name !in Keys(c.servers) ==> r == Step(c, [])
    ensures name !in Keys(r.result.servers)
    ensures forall other :: other != name ==> Get(r.result.servers, other) == Get(c.servers, other)
    ensures Valid(c) ==> Valid(r.result)
  {
    assert Valid(c) ==> UniqueKeys(Remove(c.servers, name)) by {
      if Valid(c) { RemoveKeepsUnique(c.servers, name); }
    }
    if name in Keys(c.servers) then Step(c.(servers := Remove(c.servers, name)), [Closed(name)])
    else Step(c, [])
  }

  /** `list_servers`: the registered names in registry order. */
  function ListServers(c: Client): (names: seq<string>)
    ensures |names| == |c.servers|
    ensures forall i :: 0 <= i < |c.servers| ==> names[i] == c.servers[i].key
  {
    Keys(c.servers)
  }

  /** A tool renamed to `"<server>:<tool>"`, as the aggregate listing reports it. */
  function Prefixed(server: string, t: Tool): Tool
  {
    t.(name := server + [Separator] + t.name)
  }

  /** One backend's tool list with every name prefixed by the backend's name. */
  function PrefixAll(server: string, tools: seq<Tool>): (r: seq<Tool>)
    ensures |r| == |tools|
    ensures forall j :: 0 <= j < |tools| ==> r[j] == Prefixed(server, tools[j])
  {
    seq(|tools|, j requires 0 <= j < |tools| => Prefixed(server, tools[j]))
  }

  /** The aggregate listing: every backend's prefixed tools, concatenated in registry order. */
  function AllTools(servers: Dict<Session>): seq<Tool>
  {
    if |servers| == 0 then []
    else PrefixAll(servers[0].key, servers[0].value.tools) + AllTools(servers[1..])
  }

  /** The number of tools the backends list together. */
  function TotalTools(servers: Dict<Session>): nat
  {
    if |servers| == 0 then 0 else |servers[0].value.tools| + TotalTools(servers[1..])
  }

  /** One `ListedTools` event per backend, in registry order. */
  function ListingCalls(servers: Dict<Session>): (es: seq<Event>)
    ensures |es| == |servers|
    ensures forall i :: 0 <= i < |servers| ==> es[i] == ListedTools(servers[i].key)
  {
    seq(|servers|, i requires 0 <= i < |servers| => ListedTools(servers[i].key))
  }

  /** `list_tools`: with a non-empty name, that backend's list as it reports it; with
      no name or an empty one, the aggregate listing. */
  function ListTools(c: Client, serverName: Option<string>): Step<Result<seq<Tool>, ClientError>>
  {
    if serverName.Some? && serverName.value != "" then
      match Get(c.servers, serverName.value)
      case None => Step(Err(ValueError(NotConnectedMessage(serverName.value))), [])
      case Some(s) => Step(Ok(s.tools), [ListedTools(serverName.value)])
    else
      Step(Ok(AllTools(c.servers)), ListingCalls(c.servers))
  }

  /** The first `n` attempts of a bare call, one per backend in registry order. */
  function Attempts(servers: Dict<Session>, n: nat, call: ToolCall): (es: seq<Event>)
    requires n <= |servers|
    ensures |es| == n
    ensures forall j :: 0 <= j < n ==> es[j] == CalledTool(servers[j].key, call)
  {
    seq(n, j requires 0 <= j < n => CalledTool(servers[j].key, call))
  }

  /** The bare-name loop: try each backend in turn and keep the first answer. */
  function TryEach(servers: Dict<Session>, call: ToolCall): Step<Result<seq<Content>, ClientError>>
  {
    if |servers| == 0 then Step(Err(ValueError(NotFoundMessage(call.tool))), [])
    else
      var attempt := CalledTool(servers[0].key, call);
      if call in servers[0].value.answers then Step(Ok(servers[0].value.answers[call]), [attempt])
      else
        var rest := TryEach(servers[1..], call);
        Step(rest.result, [attempt] + rest.calls)
  }

  /** `call_tool`: a name with a `:` goes to the backend named before the first `:`,
      with the rest of the name; a bare name is tried on every backend in order. */
  function CallTool(c: Client, toolName: string, arguments: Arguments): Step<Result<seq<Content>, ClientError>>
  {
    match SplitOnFirst(toolName, Separator)
    case Some(parts) =>
      var call := ToolCall(parts.1, arguments);
      (match Get(c.servers, parts.0)
       case None => Step(Err(ValueError(NotConnectedMessage(parts.0))), [])
       case Some(s) => Step(Invoke(s, parts.0, call), [CalledTool(parts.0, call)]))
    case None => TryEach(c.servers, ToolCall(toolName, arguments))
  }

  /** `close`: closes every backend in registry order and empties the registry. */
  function Close(c: Client): (r: Step<Client>)
    ensures r.result.servers == [] && r.result.serverName == c.serverName
    ensures |r.calls| == |c.servers|
    ensures forall i :: 0 <= i < |c.servers| ==> r.calls[i] == Closed(c.servers[i].key)
  {
    Step(c.(servers := []), seq(|c.servers|, i requires 0 <= i < |c.servers| => Closed(c.servers[i].key)))
  }

  // Registry lemmas

  /** Disconnecting twice is disconnecting once: the second call finds nothing to
      close and changes nothing. */
  lemma DisconnectIdempotent(c: Client, name: string)
    ensures var once := DisconnectServer(c, name).result;
            DisconnectServer(once, name) == Step(once, [])
  {
  }

  /** Disconnecting the backend at position `i` removes exactly that entry and keeps
      the others in their order. */
  lemma DisconnectAt(c: Client, i: nat)
    requires Valid(c)
    requires i < |c.servers|
    ensures DisconnectServer(c, c.servers[i].key).result.servers == c.servers[..i] + c.servers[i + 1..]
  {
    RemoveAt(c.servers, i);
  }

  /** Connecting a new name and disconnecting it again restores the client. */
  lemma DisconnectUndoesConnect(c: Client, name: string, session: Session)
    requires name !in Keys(c.servers)
    ensures DisconnectServer(ConnectServer(c, name, session).result.0, name).result == c
  {
    RemoveUndoesPut(c.servers, name, session);
  }

  /** Reconnecting a registered name swaps its session where it stands: the entry at
      its position now holds the new session and every other entry is untouched. */
  lemma {:induction false} ReconnectInPlace(c: Client, i: nat, session: Session)
    requires Valid(c)
    requires i < |c.servers|
    ensures var after := ConnectServer(c, c.servers[i].key, session).result.0.servers;
            after == c.servers[i := Entry(c.servers[i].key, session)]
  {
    PutAt(c.servers, i, session);
  }

  /** Disconnecting the given names one after the other, collecting the backend
      interactions in order. */
  function DisconnectEach(c: Client, names: seq<string>): Step<Client>
    decreases |names|
  {
    if |names| == 0 then Step(c, [])
    else
      var first := DisconnectServer(c, names[0]);
      var rest := DisconnectEach(first.result, names[1..]);
      Step(rest.result, first.calls + rest.calls)
  }

  /** `close` is disconnecting every registered name in registry order: the same
      backends are closed in the same order and the registry ends up the same. */
  lemma {:induction false} CloseIsDisconnectEach(c: Client)
    requires Valid(c)
    ensures DisconnectEach(c, ListServers(c)) == Close(c)
    decreases |c.servers|
  {
    var d := c.servers;
    if |d| > 0 {
      var next := c.(servers := d[1..]);
      RemoveFirst(d);
      assert d[0].key in Keys(d);
      assert DisconnectServer(c, d[0].key) == Step(next, [Closed(d[0].key)]);
      assert ListServers(c)[1..] == ListServers(next);
      CloseIsDisconnectEach(next);
      assert [Closed(d[0].key)] + Close(next).calls == Close(c).calls;
    }
  }

  /** After `close` no backend is listed. */
  lemma CloseEmpties(c: Client)
    ensures ListServers(Close(c).result) == []
  {
  }

  // Listing lemmas

  /** Listing one backend: an unknown non-empty name raises `not connected` without
      touching any backend; a known one returns that backend's list unchanged, unprefixed. */
  lemma ListToolsOfOne(c: Client, name: string)
    requires name != ""
    ensures name !in Keys(c.servers) ==>
              ListTools(c, Some(name)) == Step(Err(ValueError(NotConnectedMessage(name))), [])
    ensures name in Keys(c.servers) ==>
              ListTools(c, Some(name)) == Step(Ok(Get(c.servers, name).value.tools), [ListedTools(name)])
  {
  }

  /** The tools of the backends before position `i`. */
  function Offset(servers: Dict<Session>, i: nat): nat
    requires i <= |servers|
  {
    TotalTools(servers[..i])
  }

  /** The aggregate listing is exactly as long as all the backends' lists together. */
  lemma {:induction false} AllToolsLength(servers: Dict<Session>)
    ensures |AllTools(servers)| == TotalTools(servers)
  {
    if |servers| > 0 {
      AllToolsLength(servers[1..]);
    }
  }

  /** Counting the tools before position `i + 1` counts the first backend's tools and
      then those of the rest before position `i`. */
  lemma OffsetStep(servers: Dict<Session>, i: nat)
    requires i < |servers|
    ensures Offset(servers, i + 1) == |servers[0].value.tools| + Offset(servers[1..], i)
    ensures Offset(servers, i) + |servers[i].value.tools| == Offset(servers, i + 1)
  {
    assert servers[..i + 1][1..] == servers[1..][..i];
    OffsetSnoc(servers, i);
  }

  /** Extending the prefix by one backend adds that backend's tools. */
  lemma {:induction false} OffsetSnoc(servers: Dict<Session>, i: nat)
    requires i < |servers|
    ensures Offset(servers, i) + |servers[i].value.tools| == Offset(servers, i + 1)
  {
    if i == 0 {
      assert servers[..0] == [];
      assert servers[..1][1..] == [];
    } else {
      OffsetSnoc(servers[1..], i - 1);
      assert servers[1..][i - 1] == servers[i];
      assert servers[..i][1..] == servers[1..][..i - 1];
      assert servers[..i + 1][1..] == servers[1..][..i];
    }
  }

  /** Position `Offset(servers, i) + j` of the aggregate listing is tool `j` of backend
      `i`, renamed `"<backend>:<tool>"`: the lists are concatenated in registry order. */
  lemma {:induction false} AllToolsAt(servers: Dict<Session>, i: nat, j: nat)
    requires i < |servers|
    requires j < |servers[i].value.tools|
    ensures Offset(servers, i) + j < |AllTools(servers)|
    ensures AllTools(servers)[Offset(servers, i) + j] == Prefixed(servers[i].key, servers[i].value.tools[j])
  {
    var head := PrefixAll(servers[0].key, servers[0].value.tools);
    AllToolsLength(servers);
    OffsetSnoc(servers, i);
    OffsetBounded(servers, i + 1);
    if i == 0 {
      assert servers[..0] == [];
    } else {
      var tail := servers[1..];
      assert tail[i - 1] == servers[i];
      AllToolsAt(tail, i - 1, j);
      OffsetStep(servers, i - 1);
      assert AllTools(servers) == head + AllTools(tail);
    }
  }

  /** The tools before any position never exceed the total. */
  lemma {:induction false} OffsetBounded(servers: Dict<Session>, i: nat)
    requires i <= |servers|
    ensures Offset(servers, i) <= TotalTools(servers)
  {
    if i > 0 {
      OffsetStep(servers, i - 1);
      OffsetBounded(servers[1..], i - 1);
    } else {
      assert servers[..0] == [];
    }
  }

  /** Listing with no name, or an empty one, asks every backend once in registry order
      and returns all their tools, prefixed, in that order: position `Offset(i) + j` of
      the listing is tool `j` of backend `i`. This holds for every registry, the empty
      one and backends that list no tools included. */
  lemma ListToolsOfAll(c: Client, serverName: Option<string>)
    requires serverName.None? || serverName.value == ""
    ensures var r := ListTools(c, serverName);
            && r.calls == ListingCalls(c.servers)
            && r.result == Ok(AllTools(c.servers))
            && |r.result.value| == TotalTools(c.servers)
            && (forall i, j | 0 <= i < |c.servers| && 0 <= j < |c.servers[i].value.tools| ::
                  && Offset(c.servers, i) + j < TotalTools(c.servers)
                  && r.result.value[Offset(c.servers, i) + j] == Prefixed(c.servers[i].key, c.servers[i].value.tools[j]))
  {
    AllToolsLength(c.servers);
    forall i, j | 0 <= i < |c.servers| && 0 <= j < |c.servers[i].value.tools|
      ensures Offset(c.servers, i) + j < TotalTools(c.servers)
      ensures AllTools(c.servers)[Offset(c.servers, i) + j] == Prefixed(c.servers[i].key, c.servers[i].value.tools[j])
    {
      AllToolsAt(c.servers, i, j);
    }
  }

  // Routing lemmas

  /** A bare call where backend `i` is the first to answer returns its answer, after
      trying backends `0..i` and no later one. */
  lemma {:induction false} TryEachFirstAnswer(servers: Dict<Session>, call: ToolCall, i: nat)
    requires i < |servers|
    requires call in servers[i].value.answers
    requires forall j :: 0 <= j < i ==> call !in servers[j].value.answers
    ensures TryEach(servers, call) == Step(Ok(servers[i].value.answers[call]), Attempts(servers, i + 1, call))
  {
    var first := CalledTool(servers[0].key, call);
    if i == 0 {
      assert Attempts(servers, 1, call) == [first];
    } else {
      var tail := servers[1..];
      assert call !in servers[0].value.answers;
      forall j | 0 <= j < i - 1 ensures call !in tail[j].value.answers {
        assert tail[j] == servers[j + 1];
      }
      assert tail[i - 1] == servers[i];
      TryEachFirstAnswer(tail, call, i - 1);
      assert [first] + Attempts(tail, i, call) == Attempts(servers, i + 1, call);
    }
  }

  /** A bare call that no backend answers raises `not found`, after trying every backend. */
  lemma {:induction false} TryEachNoAnswer(servers: Dict<Session>, call: ToolCall)
    requires forall j :: 0 <= j < |servers| ==> call !in servers[j].value.answers
    ensures TryEach(servers, call) == Step(Err(ValueError(NotFoundMessage(call.tool))), Attempts(servers, |servers|, call))
  {
    if |servers| > 0 {
      var tail := servers[1..];
      assert call !in servers[0].value.answers;
      forall j | 0 <= j < |tail| ensures call !in tail[j].value.answers {
        assert tail[j] == servers[j + 1];
      }
      TryEachNoAnswer(tail, call);
      assert [CalledTool(servers[0].key, call)] + Attempts(tail, |tail|, call) == Attempts(servers, |servers|, call);
    }
  }

  /** `call_tool` with a bare name: the first backend in registry order that answers
      wins and no later backend is called; when none answers, or none is registered,
      the call raises `not found` after trying them all. */
  lemma BareCall(c: Client, tool: string, arguments: Arguments)
    requires Separator !in tool
    ensures var call := ToolCall(tool, arguments);
            forall i :: 0 <= i < |c.servers| && call in c.servers[i].value.answers &&
                        (forall j :: 0 <= j < i ==> call !in c.servers[j].value.answers) ==>
              CallTool(c, tool, arguments) == Step(Ok(c.servers[i].value.answers[call]), Attempts(c.servers, i + 1, call))
    ensures var call := ToolCall(tool, arguments);
            (forall j :: 0 <= j < |c.servers| ==> call !in c.servers[j].value.answers) ==>
              CallTool(c, tool, arguments) == Step(Err(ValueError(NotFoundMessage(tool))), Attempts(c.servers, |c.servers|, call))
  {
    var call := ToolCall(tool, arguments);
    forall i | 0 <= i < |c.servers| && call in c.servers[i].value.answers &&
               (forall j :: 0 <= j < i ==> call !in c.servers[j].value.answers)
      ensures CallTool(c, tool, arguments) == Step(Ok(c.servers[i].value.answers[call]), Attempts(c.servers, i + 1, call))
    {
      TryEachFirstAnswer(c.servers, call, i);
    }
    if forall j :: 0 <= j < |c.servers| ==> call !in c.servers[j].value.answers {
      TryEachNoAnswer(c.servers, call);
    }
  }

  /** `call_tool` with `"<server>:<rest>"` (the server name free of `:`, the rest
      arbitrary): an unregistered server raises `not connected` and no backend is
      called; a registered one receives exactly `rest` once and its reply, answer or
      exception, is the result. */
  lemma PrefixedCall(c: Client, server: string, rest: string, arguments: Arguments)
    requires Separator !in server
    ensures var r := CallTool(c, server + [Separator] + rest, arguments);
            server !in Keys(c.servers) ==> r == Step(Err(ValueError(NotConnectedMessage(server))), [])
    ensures var r := CallTool(c, server + [Separator] + rest, arguments);
            var call := ToolCall(rest, arguments);
            server in Keys(c.servers) ==>
              r == Step(Invoke(Get(c.servers, server).value, server, call), [CalledTool(server, call)])
  {
    SplitOnFirstOfJoined(server, rest, Separator);
  }

  /** Round trip of listing and calling: the aggregate name of tool `j` of backend `i`
      (whose name has no `:`) routes back to that backend with the tool's own name. */
  lemma ListedToolRoutesBack(c: Client, i: nat, j: nat, arguments: Arguments)
    requires Valid(c)
    requires i < |c.servers|
    requires j < |c.servers[i].value.tools|
    requires Separator !in c.servers[i].key
    ensures Offset(c.servers, i) + j < |AllTools(c.servers)|
    ensures var listed := AllTools(c.servers)[Offset(c.servers, i) + j];
            var server := c.servers[i].key;
            var call := ToolCall(c.servers[i].value.tools[j].name, arguments);
            CallTool(c, listed.name, arguments) == Step(Invoke(c.servers[i].value, server, call), [CalledTool(server, call)])
  {
    AllToolsAt(c.servers, i, j);
    GetAt(c.servers, i);
    PrefixedCall(c, c.servers[i].key, c.servers[i].value.tools[j].name, arguments);
  }

  /** Why `ListedToolRoutesBack` needs a backend name without `:`: a backend
      registered as `a:b` lists its tool `t` as `a:b:t`, and that name splits at the
      first `:` into server `a`, which is not connected. */
  lemma ColonInBackendNameMisroutes(s: Session, arguments: Arguments)
    requires |s.tools| > 0
    ensures var c := Client(DefaultName, [Entry("a:b", s)]);
            var listed := AllTools(c.servers);
            && |listed| > 0
            && listed[0].name == "a:b:" + s.tools[0].name
            && CallTool(c, listed[0].name, arguments) == Step(Err(ValueError(NotConnectedMessage("a"))), [])
  {
    var t := s.tools[0].name;
    SplitOnFirstOfJoined("a", "b:" + t, Separator);
    assert "a" + [Separator] + ("b:" + t) == "a:b:" + t;
    assert "a" != "a:b";
  }
}
