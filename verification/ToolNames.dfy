/** Tool names: the six advertised forms and the dispatcher that reads them back, and the tool map of a multi-server chat. */
module ToolNames {
  import opened Prelude

  // ---------------------------------------------------------------- splitting at the first "__"

  predicate SepAt(s: string, i: nat) {
    i + 1 < |s| && s[i] == '_' && s[i + 1] == '_'
  }

  function FindSep(s: string, from: nat): (r: Option<nat>)
    requires from <= |s|
    ensures r.Some? ==> from <= r.value && SepAt(s, r.value) && forall j | from <= j < r.value :: !SepAt(s, j)
    ensures r.None? ==> forall j | from <= j :: !SepAt(s, j)
    decreases |s| - from
  {
    if from == |s| then None
    else if SepAt(s, from) then Some(from)
    else FindSep(s, from + 1)
  }

  function SplitPair(s: string): Option<(string, string)> {
    match FindSep(s, 0)
    case None => None
    case Some(i) => Some((s[..i], s[i + 2..]))
  }

  // A server ID that survives being joined with "__".
  predicate Clean(id: string) {
    (forall i | 0 <= i < |id| :: !SepAt(id, i)) && (id == "" || id[|id| - 1] != '_')
  }

  function Prefixed(id: string, tool: string): string {
    id + "__" + tool
  }

  /** A (server, tool) pair survives the round trip, whatever the tool is called, exactly when the server ID is clean. */
  lemma {:induction false} PairRoundTrip(id: string, tool: string)
    ensures SplitPair(Prefixed(id, tool)) == Some((id, tool)) <==> Clean(id)
  {
    var s := Prefixed(id, tool);
    assert SepAt(s, |id|);
    forall i | 0 <= i < |id|
      ensures SepAt(s, i) <==> SepAt(id, i) || (i == |id| - 1 && id[i] == '_')
    {}
    var k := FindSep(s, 0).value;
    assert s[..|id|] == id && s[|id| + 2..] == tool;
    if Clean(id) {
      assert k == |id|;
    } else {
      assert k < |id| by {
        if id[|id| - 1] == '_' {
          assert SepAt(s, |id| - 1);
        } else {
          var i :| 0 <= i < |id| && SepAt(id, i);
          assert SepAt(s, i);
        }
      }
      assert |SplitPair(s).value.0| < |id|;
    }
  }

  // ---------------------------------------------------------------- advertised names and their dispatch

  const MCP_PREFIX := "mcp_"

  const GROUP_PREFIX := "group__"

  const SKILL_PREFIX := "skill__"

  const ADMIN_PREFIX := "admin_"

  const ASK_PREFIX := "ask_"

  const LIST_AGENTS := "list_agents"

  predicate Alphanumeric(c: char) {
    'A' <= c <= 'Z' || 'a' <= c <= 'z' || '0' <= c <= '9'
  }

  // Group and skill IDs: a letter or digit, then at most 55 letters, digits, underscores or hyphens.
  predicate ValidId(id: string) {
    && 1 <= |id| <= 56
    && Alphanumeric(id[0])
    && forall i | 1 <= i < |id| :: Alphanumeric(id[i]) || id[i] == '_' || id[i] == '-'
  }

  datatype Target =
    | ListAgents
    | McpTool(server: string, tool: string)
    | Group(group: string)
    | Skill(skill: string)
    | Admin(operation: string)
    | Agent(agent: string)

  function NameOf(t: Target): string {
    match t
    case ListAgents => LIST_AGENTS
    case McpTool(server, tool) => MCP_PREFIX + Prefixed(server, tool)
    case Group(id) => GROUP_PREFIX + id
    case Skill(id) => SKILL_PREFIX + id
    case Admin(operation) => ADMIN_PREFIX + operation
    case Agent(id) => ASK_PREFIX + id
  }

  function AgentFromName(name: string): Option<string> {
    if |name| > 4 && name[..4] == ASK_PREFIX then Some(name[4..]) else None
  }

  function GroupFromName(name: string): Option<string> {
    if GROUP_PREFIX <= name && |name| > |GROUP_PREFIX| && ValidId(name[|GROUP_PREFIX|..]) then Some(name[|GROUP_PREFIX|..]) else None
  }

  function SkillFromName(name: string): Option<string> {
    if SKILL_PREFIX <= name && |name| > |SKILL_PREFIX| && ValidId(name[|SKILL_PREFIX|..]) then Some(name[|SKILL_PREFIX|..]) else None
  }

  function McpFromName(name: string): Option<(string, string)> {
    if MCP_PREFIX <= name then SplitPair(name[|MCP_PREFIX|..]) else None
  }

  // The dispatch order of a tool call.
  function Route(name: string): Option<Target> {
    if name == LIST_AGENTS then Some(ListAgents)
    else if McpFromName(name).Some? then Some(McpTool(McpFromName(name).value.0, McpFromName(name).value.1))
    else if GroupFromName(name).Some? then Some(Group(GroupFromName(name).value))
    else if SkillFromName(name).Some? then Some(Skill(SkillFromName(name).value))
    else if ADMIN_PREFIX <= name then Some(Admin(name[|ADMIN_PREFIX|..]))
    else if AgentFromName(name).Some? then Some(Agent(AgentFromName(name).value))
    else None
  }

  // What the identifiers inside an advertised name must satisfy.
  predicate WellNamed(t: Target) {
    match t
    case ListAgents => true
    case McpTool(server, _) => Clean(server)
    case Group(id) => ValidId(id)
    case Skill(id) => ValidId(id)
    case Admin(_) => true
    case Agent(id) => id != ""
  }

  // The forms differ within their first characters, so no name matches two of them.
  lemma {:induction false} FormsDisjoint(name: string)
    requires |name| >= 2
    ensures MCP_PREFIX <= name ==> name[0] == 'm'
    ensures GROUP_PREFIX <= name ==> name[0] == 'g'
    ensures SKILL_PREFIX <= name ==> name[0] == 's'
    ensures ADMIN_PREFIX <= name ==> name[0] == 'a' && name[1] == 'd'
    ensures |name| > 4 && name[..4] == ASK_PREFIX ==> name[0] == 'a' && name[1] == 's'
    ensures name == LIST_AGENTS ==> name[0] == 'l'
  {
    if |name| > 4 && name[..4] == ASK_PREFIX {
      assert name[0] == name[..4][0] && name[1] == name[..4][1];
    }
  }

  lemma {:induction false} EmptyIsInvalid(id: string)
    ensures ValidId(id) ==> id != ""
  {}

  /** An advertised name is dispatched to its own kind with its own identifiers exactly when those are well formed. */
  lemma {:induction false} RoutesBack(t: Target)
    ensures Route(NameOf(t)) == Some(t) <==> WellNamed(t)
  {
    hide ValidId, Clean, SplitPair, Prefixed;
    var name := NameOf(t);
    FormsDisjoint(name);
    match t {
      case ListAgents =>
      case McpTool(server, tool) =>
        assert name[|MCP_PREFIX|..] == Prefixed(server, tool);
        PairRoundTrip(server, tool);
      case Group(id) =>
        assert name[|GROUP_PREFIX|..] == id;
        EmptyIsInvalid(id);
      case Skill(id) =>
        assert name[|SKILL_PREFIX|..] == id;
        EmptyIsInvalid(id);
      case Admin(operation) => assert name[|ADMIN_PREFIX|..] == operation;
      case Agent(id) =>
        if id != "" {
          assert name[..4] == ASK_PREFIX && name[4..] == id;
        }
    }
  }

  /** Hence no two well-formed tools are advertised under one name. */
  lemma {:induction false} NamesAreUnique(t: Target, u: Target)
    requires WellNamed(t) && WellNamed(u) && NameOf(t) == NameOf(u)
    ensures t == u
  {
    RoutesBack(t);
    RoutesBack(u);
  }

  lemma {:induction false} SplitJoins(s: string)
    requires SplitPair(s).Some?
    ensures Prefixed(SplitPair(s).value.0, SplitPair(s).value.1) == s
    ensures Clean(SplitPair(s).value.0)
  {
    var i := FindSep(s, 0).value;
    assert SepAt(s, i);
    assert s == s[..i] + "__" + s[i + 2..];
    PairRoundTrip(s[..i], s[i + 2..]);
  }

  /** A call reaches a handler only under the name that handler's tool is advertised as, with well-formed identifiers. */
  lemma {:induction false} RoutedNamesAreAdvertised(name: string)
    requires Route(name).Some?
    ensures NameOf(Route(name).value) == name && WellNamed(Route(name).value)
  {
    hide ValidId, Clean, FindSep, SplitPair;
    var t := Route(name).value;
    match t {
      case ListAgents =>
      case McpTool(server, tool) =>
        var rest := name[|MCP_PREFIX|..];
        SplitJoins(rest);
        assert name == MCP_PREFIX + rest;
      case Group(id) => assert name == GROUP_PREFIX + name[|GROUP_PREFIX|..];
      case Skill(id) => assert name == SKILL_PREFIX + name[|SKILL_PREFIX|..];
      case Admin(operation) => assert name == ADMIN_PREFIX + name[|ADMIN_PREFIX|..];
      case Agent(id) => assert name == name[..4] + name[4..];
    }
  }

  /**
   * The dispatcher of a tool call: it finds the well-formed tool advertised
   * under the name, whichever it is, and none when there is none.
   */
  method HandleToolsCall(name: string) returns (target: Option<Target>)
    ensures forall t :: target == Some(t) <==> WellNamed(t) && NameOf(t) == name
  {
    hide WellNamed, NameOf, McpFromName, GroupFromName, SkillFromName, AgentFromName;
    forall t
      ensures Route(name) == Some(t) <==> WellNamed(t) && NameOf(t) == name
    {
      if NameOf(t) == name {
        RoutesBack(t);
      }
      if Route(name) == Some(t) {
        RoutedNamesAreAdvertised(name);
      }
    }
    if name == LIST_AGENTS {
      return Some(ListAgents);
    }
    var pair := McpFromName(name);
    if pair.Some? {
      return Some(McpTool(pair.value.0, pair.value.1));
    }
    var group := GroupFromName(name);
    if group.Some? {
      return Some(Group(group.value));
    }
    var skill := SkillFromName(name);
    if skill.Some? {
      return Some(Skill(skill.value));
    }
    if ADMIN_PREFIX <= name {
      return Some(Admin(name[|ADMIN_PREFIX|..]));
    }
    var agent := AgentFromName(name);
    if agent.None? {
      return None;
    }
    return Some(Agent(agent.value));
  }

  // ---------------------------------------------------------------- the advertised list

  datatype Server = Server(id: string, tools: seq<string>)

  datatype Catalog = Catalog(agents: seq<string>, servers: seq<Server>, groups: seq<string>, skills: seq<string>, admin: seq<string>)

  function AgentTools(ids: seq<string>): seq<Target> {
    seq(|ids|, i requires 0 <= i < |ids| => Agent(ids[i]))
  }

  function ToolsOf(s: Server, k: nat): seq<Target>
    requires k <= |s.tools|
  {
    seq(k, i requires 0 <= i < k => McpTool(s.id, s.tools[i]))
  }

  function ServerTools(servers: seq<Server>): seq<Target> {
    if servers == [] then []
    else
      var n := |servers| - 1;
      ServerTools(servers[..n]) + ToolsOf(servers[n], |servers[n].tools|)
  }

  // Groups with an ID that cannot be a tool name are left out.
  function GroupTools(ids: seq<string>): seq<Target> {
    if ids == [] then []
    else
      var n := |ids| - 1;
      GroupTools(ids[..n]) + if ValidId(ids[n]) then [Group(ids[n])] else []
  }

  function SkillTools(ids: seq<string>): seq<Target> {
    seq(|ids|, i requires 0 <= i < |ids| => Skill(ids[i]))
  }

  function AdminTools(ids: seq<string>): seq<Target> {
    seq(|ids|, i requires 0 <= i < |ids| => Admin(ids[i]))
  }

  function Advertised(c: Catalog): seq<Target> {
    AgentTools(c.agents) + ServerTools(c.servers) + GroupTools(c.groups) + SkillTools(c.skills) + AdminTools(c.admin) + [ListAgents]
  }

  function Names(ts: seq<Target>): seq<string> {
    seq(|ts|, i requires 0 <= i < |ts| => NameOf(ts[i]))
  }

  method CollectServerTools(servers: seq<Server>) returns (tools: seq<Target>)
    ensures tools == ServerTools(servers)
  {
    tools := [];
    for i := 0 to |servers|
      invariant tools == ServerTools(servers[..i])
    {
      ghost var start := tools;
      var s := servers[i];
      for j := 0 to |s.tools|
        invariant tools == start + ToolsOf(s, j)
      {
        tools := tools + [McpTool(s.id, s.tools[j])];
      }
      assert servers[..i + 1][..i] == servers[..i];
    }
    assert servers[..|servers|] == servers;
  }

  method CollectGroupTools(groups: seq<string>) returns (tools: seq<Target>)
    ensures tools == GroupTools(groups)
  {
    tools := [];
    for i := 0 to |groups|
      invariant tools == GroupTools(groups[..i])
    {
      assert groups[..i + 1][..i] == groups[..i];
      if ValidId(groups[i]) {
        tools := tools + [Group(groups[i])];
      }
    }
    assert groups[..|groups|] == groups;
  }

  method ListTools(c: Catalog) returns (names: seq<string>)
    ensures names == Names(Advertised(c))
  {
    hide NameOf, ValidId, ServerTools, GroupTools;
    var tools: seq<Target> := [];
    for i := 0 to |c.agents|
      invariant tools == AgentTools(c.agents[..i])
    {
      tools := tools + [Agent(c.agents[i])];
    }
    assert c.agents[..|c.agents|] == c.agents;
    var more := CollectServerTools(c.servers);
    tools := tools + more;
    more := CollectGroupTools(c.groups);
    tools := tools + more;
    ghost var before := tools;
    for i := 0 to |c.skills|
      invariant tools == before + SkillTools(c.skills[..i])
    {
      tools := tools + [Skill(c.skills[i])];
    }
    assert c.skills[..|c.skills|] == c.skills;
    before := tools;
    for i := 0 to |c.admin|
      invariant tools == before + AdminTools(c.admin[..i])
    {
      tools := tools + [Admin(c.admin[i])];
    }
    assert c.admin[..|c.admin|] == c.admin;
    tools := tools + [ListAgents];
    names := Names(tools);
  }

  lemma {:induction false} ServerToolsClean(servers: seq<Server>)
    requires forall k | 0 <= k < |servers| :: Clean(servers[k].id)
    ensures forall t | t in ServerTools(servers) :: t.McpTool? && Clean(t.server)
  {
    hide Clean;
    if servers == [] {
    } else {
      ServerToolsClean(servers[..|servers| - 1]);
    }
  }

  lemma {:induction false} GroupToolsValid(ids: seq<string>)
    ensures forall t | t in GroupTools(ids) :: t.Group? && ValidId(t.group)
  {
    hide ValidId;
    if ids == [] {
    } else {
      GroupToolsValid(ids[..|ids| - 1]);
    }
  }

  lemma {:induction false} AdvertisedWellNamed(c: Catalog, t: Target)
    requires forall k | 0 <= k < |c.servers| :: Clean(c.servers[k].id)
    requires forall k | 0 <= k < |c.skills| :: ValidId(c.skills[k])
    requires "" !in c.agents
    requires t in Advertised(c)
    ensures WellNamed(t)
  {
    hide ValidId, Clean, ServerTools, GroupTools;
    ServerToolsClean(c.servers);
    GroupToolsValid(c.groups);
    if t in AgentTools(c.agents) {
      var k :| 0 <= k < |c.agents| && AgentTools(c.agents)[k] == t;
      assert c.agents[k] in c.agents;
    } else if t in SkillTools(c.skills) {
      var k :| 0 <= k < |c.skills| && SkillTools(c.skills)[k] == t;
    } else if t in AdminTools(c.admin) {
      var k :| 0 <= k < |c.admin| && AdminTools(c.admin)[k] == t;
    } else {
      assert t in ServerTools(c.servers) || t in GroupTools(c.groups) || t == ListAgents;
    }
  }

  /** With clean server IDs, valid skill IDs and non-empty agent IDs, every advertised name reaches its own tool. */
  lemma {:induction false} EveryAdvertisedToolRoutes(c: Catalog, i: nat)
    requires forall k | 0 <= k < |c.servers| :: Clean(c.servers[k].id)
    requires forall k | 0 <= k < |c.skills| :: ValidId(c.skills[k])
    requires "" !in c.agents
    requires i < |Advertised(c)|
    ensures Route(Names(Advertised(c))[i]) == Some(Advertised(c)[i])
  {
    hide NameOf, Route, ValidId, Clean, WellNamed;
    var t := Advertised(c)[i];
    AdvertisedWellNamed(c, t);
    RoutesBack(t);
  }

  // ---------------------------------------------------------------- the tool map of a multi-server chat

  // Which server a prefixed name is mapped to: the last one that listed it.
  ghost predicate LastLister(servers: seq<Server>, name: string, i: nat) {
    && i < |servers|
    && (exists t | t in servers[i].tools :: Prefixed(servers[i].id, t) == name)
    && forall j, t | i < j < |servers| && t in servers[j].tools :: Prefixed(servers[j].id, t) != name
  }

  /** No name has two such servers: a later one that lists it takes it over. */
  lemma {:induction false} OneLastLister(servers: seq<Server>, name: string, i: nat, j: nat)
    requires LastLister(servers, name, i) && LastLister(servers, name, j)
    ensures i == j
  {
    var t :| t in servers[i].tools && Prefixed(servers[i].id, t) == name;
    var u :| u in servers[j].tools && Prefixed(servers[j].id, u) == name;
  }

  ghost predicate Listed(servers: seq<Server>, name: string) {
    exists i, t | 0 <= i < |servers| && t in servers[i].tools :: Prefixed(servers[i].id, t) == name
  }

  lemma {:induction false} OneMoreServer(servers: seq<Server>, s: Server, name: string, serverOf: map<string, nat>)
    requires name in serverOf <==> Listed(servers, name)
    requires name in serverOf ==> LastLister(servers, name, serverOf[name])
    ensures var here := exists t | t in s.tools :: Prefixed(s.id, t) == name;
      && (Listed(servers + [s], name) <==> name in serverOf || here)
      && (here ==> LastLister(servers + [s], name, |servers|))
      && (!here && name in serverOf ==> LastLister(servers + [s], name, serverOf[name]))
  {
    hide Prefixed;
    var all := servers + [s];
    assert all[|servers|] == s;
    assert forall i | 0 <= i < |servers| :: all[i] == servers[i];
    if Listed(servers, name) {
      var i, t :| 0 <= i < |servers| && t in servers[i].tools && Prefixed(servers[i].id, t) == name;
      assert t in all[i].tools && Prefixed(all[i].id, t) == name;
    }
    if exists t | t in s.tools :: Prefixed(s.id, t) == name {
      var t :| t in s.tools && Prefixed(s.id, t) == name;
      assert t in all[|servers|].tools && Prefixed(all[|servers|].id, t) == name;
    }
  }

  class ToolMap {
    var tools: seq<string>
    var serverOf: map<string, nat>

    constructor ()
      ensures tools == [] && serverOf == map[]
    {
      tools, serverOf := [], map[];
    }

    method AddServer(index: nat, s: Server)
      modifies this
      ensures tools == old(tools) + seq(|s.tools|, k requires 0 <= k < |s.tools| => Prefixed(s.id, s.tools[k]))
      ensures forall name :: name in serverOf <==> name in old(serverOf) || exists t | t in s.tools :: Prefixed(s.id, t) == name
      ensures forall name | name in serverOf ::
        serverOf[name] == if exists t | t in s.tools :: Prefixed(s.id, t) == name then index else old(serverOf)[name]
    {
      hide Prefixed;
      for k := 0 to |s.tools|
        invariant tools == old(tools) + seq(k, j requires 0 <= j < k => Prefixed(s.id, s.tools[j]))
        invariant forall name :: name in serverOf <==> name in old(serverOf) || exists j | 0 <= j < k :: Prefixed(s.id, s.tools[j]) == name
        invariant forall name | name in serverOf ::
          serverOf[name] == if exists j | 0 <= j < k :: Prefixed(s.id, s.tools[j]) == name then index else old(serverOf)[name]
      {
        var name := Prefixed(s.id, s.tools[k]);
        tools := tools + [name];
        serverOf := serverOf[name := index];
      }
    }

    method Build(servers: seq<Server>)
      requires tools == [] && serverOf == map[]
      modifies this
      ensures forall name :: name in serverOf <==> Listed(servers, name)
      ensures forall name | name in serverOf :: LastLister(servers, name, serverOf[name])
    {
      hide Prefixed;
      for i := 0 to |servers|
        invariant forall name :: name in serverOf <==> Listed(servers[..i], name)
        invariant forall name | name in serverOf :: LastLister(servers[..i], name, serverOf[name])
      {
        var s := servers[i];
        ghost var before := serverOf;
        AddServer(i, s);
        assert servers[..i + 1] == servers[..i] + [s];
        forall name
          ensures name in serverOf <==> Listed(servers[..i + 1], name)
          ensures name in serverOf ==> LastLister(servers[..i + 1], name, serverOf[name])
        {
          OneMoreServer(servers[..i], s, name, before);
        }
      }
      assert servers[..|servers|] == servers;
    }
  }

  // Where a call of a prefixed tool goes and under which name; None: unknown tool, skipped.
  function Dispatch(serverOf: map<string, nat>, name: string): Option<(nat, string)> {
    if SplitPair(name).Some? && name in serverOf then Some((serverOf[name], SplitPair(name).value.1)) else None
  }

  ghost predicate DistinctServers(servers: seq<Server>) {
    forall i, j | 0 <= i < j < |servers| :: servers[i].id != servers[j].id
  }

  /**
   * With distinct, clean server IDs no two listed tools share a name, and each
   * call goes to the server that listed the tool, under the name it listed.
   */
  lemma {:induction false} ChatRoutesExactly(servers: seq<Server>, serverOf: map<string, nat>, i: nat, tool: string)
    requires forall name :: name in serverOf <==> Listed(servers, name)
    requires forall name | name in serverOf :: LastLister(servers, name, serverOf[name])
    requires DistinctServers(servers) && forall k | 0 <= k < |servers| :: Clean(servers[k].id)
    requires i < |servers| && tool in servers[i].tools
    ensures Dispatch(serverOf, Prefixed(servers[i].id, tool)) == Some((i, tool))
  {
    hide Prefixed, Clean, SplitPair;
    var name := Prefixed(servers[i].id, tool);
    assert Listed(servers, name);
    PairRoundTrip(servers[i].id, tool);
    var j := serverOf[name];
    assert LastLister(servers, name, j);
    var t :| t in servers[j].tools && Prefixed(servers[j].id, t) == name;
    PairRoundTrip(servers[j].id, t);
    assert servers[j].id == servers[i].id;
    assert i == j;
  }

  /** A server is called under the tool name it listed exactly when its ID is clean. */
  lemma {:induction false} SentNameWhen(servers: seq<Server>, serverOf: map<string, nat>, i: nat, tool: string)
    requires forall name :: name in serverOf <==> Listed(servers, name)
    requires i < |servers| && tool in servers[i].tools
    ensures var d := Dispatch(serverOf, Prefixed(servers[i].id, tool));
      d.Some? && (d.value.1 == tool <==> Clean(servers[i].id))
  {
    hide Clean, FindSep;
    var id := servers[i].id;
    var name := Prefixed(id, tool);
    assert Listed(servers, name);
    PairRoundTrip(id, tool);
    assert SepAt(name, |id|);
    SplitJoins(name);
    var p := SplitPair(name).value;
    assert |p.0| + 2 + |p.1| == |id| + 2 + |tool|;
    if p.1 == tool {
      assert p.0 == name[..|p.0|] && id == name[..|id|];
    }
  }

  // ---------------------------------------------------------------- the names and the list written out

  /** The advertised name of every kind of tool, and which identifiers it carries through. */
  lemma {:induction false} NamesMean(id: string, tool: string)
    ensures NameOf(ListAgents) == "list_agents" && WellNamed(ListAgents)
    ensures NameOf(McpTool(id, tool)) == "mcp_" + id + "__" + tool
    ensures NameOf(Group(id)) == "group__" + id && NameOf(Skill(id)) == "skill__" + id
    ensures NameOf(Admin(id)) == "admin_" + id && NameOf(Agent(id)) == "ask_" + id
    ensures WellNamed(Admin(id)) && (WellNamed(Agent(id)) <==> |id| > 0)
    ensures WellNamed(McpTool(id, tool)) <==> (id == "" || id[|id| - 1] != '_') && !exists a, b :: id == a + "__" + b
  {
    var name := MCP_PREFIX + (id + "__" + tool);
    assert name == "mcp_" + id + "__" + tool;
    forall i: nat | SepAt(id, i)
      ensures id == id[..i] + "__" + id[i + 2..]
    {}
    forall a, b | id == a + "__" + b
      ensures SepAt(id, |a|)
    {}
  }

  /** A group or skill ID that can be a tool name: 1 to 56 letters, digits, underscores or hyphens, the first a letter or digit. */
  lemma {:induction false} IdMeans(id: string)
    ensures WellNamed(Group(id)) == WellNamed(Skill(id)) == ValidId(id)
    ensures ValidId(id) <==>
      && 0 < |id| < 57 && id[0] != '_' && id[0] != '-'
      && forall c | c in id :: '0' <= c <= '9' || 'A' <= c <= 'Z' || 'a' <= c <= 'z' || c == '_' || c == '-'
  {
    forall i | 0 <= i < |id|
      ensures id[i] in id
    {}
    if ValidId(id) {
      forall c | c in id
        ensures Alphanumeric(c) || c == '_' || c == '-'
      {
        var i :| 0 <= i < |id| && id[i] == c;
      }
    }
  }

  lemma {:induction false} ServerToolsMean(servers: seq<Server>, t: Target)
    ensures t in ServerTools(servers) <==> t.McpTool? && exists s :: s in servers && s.id == t.server && t.tool in s.tools
  {
    if servers == [] {
    } else {
      var n := |servers| - 1;
      ServerToolsMean(servers[..n], t);
      assert forall s :: s in servers <==> s in servers[..n] || s == servers[n];
      if t.McpTool? && t.server == servers[n].id && t.tool in servers[n].tools {
        var i :| 0 <= i < |servers[n].tools| && servers[n].tools[i] == t.tool;
        assert ToolsOf(servers[n], |servers[n].tools|)[i] == t;
      }
    }
  }

  lemma {:induction false} GroupToolsMean(ids: seq<string>, t: Target)
    ensures t in GroupTools(ids) <==> t.Group? && t.group in ids && ValidId(t.group)
  {
    hide ValidId;
    if ids == [] {
    } else {
      var n := |ids| - 1;
      GroupToolsMean(ids[..n], t);
      assert forall id :: id in ids <==> id in ids[..n] || id == ids[n];
    }
  }

  /** What is advertised: every agent, server tool, skill and operation there is, the groups whose ID can be a name, and the listing itself, last. */
  lemma {:induction false} AdvertisedMean(c: Catalog, t: Target)
    ensures t in Advertised(c) <==>
      match t
      case Agent(id) => id in c.agents
      case McpTool(id, tool) => exists s :: s in c.servers && s.id == id && tool in s.tools
      case Group(id) => id in c.groups && ValidId(id)
      case Skill(id) => id in c.skills
      case Admin(operation) => operation in c.admin
      case ListAgents => true
    ensures |Advertised(c)| > 0 && Advertised(c)[|Advertised(c)| - 1] == ListAgents
  {
    hide ValidId, ServerTools, GroupTools;
    ServerToolsMean(c.servers, t);
    GroupToolsMean(c.groups, t);
    assert forall i | 0 <= i < |c.agents| :: AgentTools(c.agents)[i] == Agent(c.agents[i]);
    assert forall i | 0 <= i < |c.skills| :: SkillTools(c.skills)[i] == Skill(c.skills[i]);
    assert forall i | 0 <= i < |c.admin| :: AdminTools(c.admin)[i] == Admin(c.admin[i]);
  }
}
