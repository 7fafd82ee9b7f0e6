/** The registry of MCP servers: clients with their handshake, cached status and tools, and refreshes from the database. */
module Registry {
  import opened Prelude
  import opened OutboundHeaders

  // ---------------------------------------------------------------- the client

  datatype Reply = Accepted(sessionId: string) | AlreadyInitialized | Failed

  // What a server answers during a handshake; terminated: the DELETE request could be built.
  datatype Handshake = Handshake(first: Reply, terminated: bool, second: Reply)

  // A stale server-side session is terminated and the handshake retried once.
  function Outcome(w: Handshake): Reply {
    if w.first.AlreadyInitialized? then w.second else w.first
  }

  function SessionAfter(current: string, w: Handshake): string {
    var kept := if w.first.AlreadyInitialized? && w.terminated then "" else current;
    if Outcome(w).Accepted? && Outcome(w).sessionId != "" then Outcome(w).sessionId else kept
  }

  class Client {
    const url: string
    const transport: string
    const headers: map<string, string>
    var sessionId: string
    var initialized: bool
    var nextId: nat
    var connection: nat                      // which HTTP client is in use
    ghost var listing: Option<seq<string>>   // the latest successful tool listing

    constructor (url: string, transport: string, headers: map<string, string>)
      ensures this.url == url && this.transport == transport && this.headers == headers
      ensures sessionId == "" && !initialized && nextId == 0 && connection == 0 && listing == None
    {
      this.url, this.transport, this.headers := url, transport, headers;
      sessionId, initialized, nextId, connection, listing := "", false, 0, 0, None;
    }

    method TerminateSession(terminated: bool)
      modifies `sessionId
      ensures sessionId == if terminated then "" else old(sessionId)
    {
      if terminated {
        sessionId := "";
      }
    }

    method Initialize(w: Handshake) returns (ok: bool)
      modifies `sessionId, `initialized, `nextId
      ensures ok == Outcome(w).Accepted?
      ensures initialized == (old(initialized) || ok)
      ensures sessionId == SessionAfter(old(sessionId), w)
      ensures nextId == old(nextId) + if w.first.AlreadyInitialized? then 2 else 1
    {
      nextId := nextId + 1;
      var reply := w.first;
      if reply.AlreadyInitialized? {
        TerminateSession(w.terminated);
        nextId := nextId + 1;
        reply := w.second;
      }
      if !reply.Accepted? {
        return false;
      }
      if reply.sessionId != "" {
        sessionId := reply.sessionId;
      }
      initialized := true;
      return true;
    }

    // A fresh HTTP connection and request numbering; only a successful handshake makes the client usable again.
    method Reconnect(terminated: bool, w: Handshake) returns (ok: bool)
      modifies `sessionId, `initialized, `nextId, `connection
      ensures ok == Outcome(w).Accepted?
      ensures initialized == ok
      ensures sessionId == SessionAfter(if terminated then "" else old(sessionId), w)
      ensures nextId == if w.first.AlreadyInitialized? then 2 else 1
      ensures connection == old(connection) + 1
    {
      TerminateSession(terminated);
      initialized := false;
      connection := connection + 1;
      nextId := 0;
      ok := Initialize(w);
    }

    method ListTools(reply: Option<seq<string>>) returns (tools: Option<seq<string>>)
      modifies `nextId, `listing
      ensures tools == if initialized then reply else None
      ensures listing == if tools.Some? then tools else old(listing)
      ensures nextId == old(nextId) + if initialized then 1 else 0
    {
      if !initialized {
        return None;
      }
      nextId := nextId + 1;
      tools := reply;
      if reply.Some? {
        listing := reply;
      }
    }
  }

  // ---------------------------------------------------------------- the registry

  datatype Status = Disconnected | Connected | Error

  class ServerInfo {
    const client: Client
    var config: Config
    var status: Status
    var tools: seq<string>

    constructor (config: Config, client: Client)
      ensures this.config == config && this.client == client
      ensures status == Disconnected && tools == []
    {
      this.config, this.client := config, client;
      status, tools := Disconnected, [];
    }

    // A connected server has an initialized client and shows its latest listing.
    ghost predicate Ok()
      reads this, client
    {
      && client.url == config.url && client.transport == config.transport
      && (status == Connected ==> client.initialized && client.listing == Some(tools))
    }
  }

  ghost predicate DistinctIds(rows: seq<Config>) {
    forall i, j | 0 <= i < j < |rows| :: rows[i].id != rows[j].id
  }

  // What a server shows after a handshake and a tool listing were tried; kept: the tools if either failed.
  ghost predicate Shows(info: ServerInfo, accepted: bool, listing: Option<seq<string>>, kept: seq<string>)
    reads info
  {
    if accepted && listing.Some? then info.status == Connected && info.tools == listing.value
    else info.status == Error && info.tools == kept
  }

  // A row whose endpoint is unchanged keeps its server object; any other row gets a new one.
  ghost predicate Reuses(
    olds: map<string, ServerInfo>, was: map<string, Config>, c: Config, news: map<string, ServerInfo>, before: set<ServerInfo>)
  {
    && c.id in news
    && (if c.id in olds && c.id in was && was[c.id].url == c.url && was[c.id].transport == c.transport
        then news[c.id] == olds[c.id]
        else news[c.id] !in before && news[c.id].client.headers == EffectiveHeaders(c))
  }

  // Which object each placed row got, told from the old servers and their configurations.
  ghost predicate Apart(
    olds: map<string, ServerInfo>, was: map<string, Config>, before: set<ServerInfo>, built: map<string, ServerInfo>, done: seq<Config>)
  {
    && (forall id | id in olds :: id in was && olds[id] in before)
    && (forall a, b | a in olds && b in olds && a != b :: olds[a] != olds[b])
    && (forall id | id in built :: (id in olds && built[id] == olds[id]) || built[id] !in before)
    && (forall k | 0 <= k < |done| :: done[k].id in built && Reuses(olds, was, done[k], built, before))
  }

  lemma {:induction false} PreviousIsFree(
    olds: map<string, ServerInfo>, was: map<string, Config>, before: set<ServerInfo>, built: map<string, ServerInfo>, done: seq<Config>,
    c: Config)
    requires Apart(olds, was, before, built, done) && c.id !in built
    ensures forall a, b | a in olds && b in olds && a != b :: olds[a] != olds[b]
    ensures c.id in olds ==> olds[c.id] in before && olds[c.id] !in built.Values && c.id in was
  {
    hide Reuses;
  }

  lemma {:induction false} ApartNext(
    olds: map<string, ServerInfo>, was: map<string, Config>, before: set<ServerInfo>, built: map<string, ServerInfo>, done: seq<Config>,
    c: Config, info: ServerInfo, reused: bool)
    requires Apart(olds, was, before, built, done) && c.id !in built
    requires reused <==> c.id in olds && c.id in was && was[c.id].url == c.url && was[c.id].transport == c.transport
    requires if reused then info == olds[c.id] else info !in before && info.client.headers == EffectiveHeaders(c)
    ensures Apart(olds, was, before, built[c.id := info], done + [c])
  {}

  function Previous(registered: map<string, ServerInfo>, id: string): Option<ServerInfo> {
    if id in registered then Some(registered[id]) else None
  }

  ghost function Configs(registered: map<string, ServerInfo>): map<string, Config>
    reads registered.Values
  {
    map id | id in registered :: registered[id].config
  }

  // A server as built, before any handshake.
  ghost predicate Untouched(i: ServerInfo)
    reads i, i.client
  {
    i.status == Disconnected && i.tools == [] && !i.client.initialized
  }

  predicate Same(previous: Option<ServerInfo>, c: Config)
    reads if previous.Some? then {previous.value} else {}
  {
    previous.Some? && previous.value.config.url == c.url && previous.value.config.transport == c.transport
  }

  class Registry {
    var servers: map<string, ServerInfo>
    ghost var rows: seq<Config>          // the last successful listing of the database
    ghost var all: set<ServerInfo>       // every server ever built, registered or replaced

    ghost function Clients(): set<Client>
      reads this
    {
      set i | i in all :: i.client
    }

    // Every server ever built keeps its promise, and no two share a client.
    ghost predicate AllOk()
      reads this, all, Clients()
    {
      && (forall i | i in all :: i.Ok())
      && (forall i, j | i in all && j in all && i != j :: i.client != j.client)
    }

    ghost predicate Registered(registered: map<string, ServerInfo>, c: Config)
      reads this, all
    {
      c.id in registered && registered[c.id] in all && registered[c.id].config == c
    }

    // The registered servers are the rows of a listing.
    ghost predicate Holds(registered: map<string, ServerInfo>, listed: seq<Config>)
      reads this, all
    {
      && registered.Keys == (set i | 0 <= i < |listed| :: listed[i].id)
      && (forall i | 0 <= i < |listed| :: Registered(registered, listed[i]))
    }

    ghost predicate Valid()
      reads this, all, Clients()
    {
      DistinctIds(rows) && Holds(servers, rows) && AllOk()
    }

    constructor ()
      ensures Valid() && servers == map[] && all == {} && rows == []
    {
      servers, rows, all := map[], [], {};
    }

    // A row for one server: the old object when its endpoint is unchanged, else a new one with a new client.
    method Place(previous: Option<ServerInfo>, c: Config) returns (info: ServerInfo, reused: bool)
      requires AllOk()
      requires previous.Some? ==> previous.value in all
      modifies `all, (if previous.Some? then {previous.value} else {})`config
      ensures AllOk() && info in all && info.config == c
      ensures previous.Some? && !reused ==> previous.value.config == old(previous.value.config)
      ensures reused == old(Same(previous, c))
      ensures if reused then info == previous.value && all == old(all)
        else all == old(all) + {info} && fresh(info) && fresh(info.client) && Untouched(info)
      ensures !reused ==> info.client.headers == EffectiveHeaders(c)
    {
      if previous.Some? && previous.value.config.url == c.url && previous.value.config.transport == c.transport {
        info, reused := previous.value, true;
        info.config := c;
      } else {
        var headers := MergeHeaders(c);
        var client := new Client(c.url, c.transport, headers);
        info := new ServerInfo(c, client);
        reused := false;
        all := all + {info};
      }
    }

    // Placing one more row keeps the rows placed so far.
    method PlaceNext(ghost built: map<string, ServerInfo>, ghost done: seq<Config>, previous: Option<ServerInfo>, c: Config)
      returns (info: ServerInfo, reused: bool)
      requires AllOk() && Holds(built, done) && c.id !in built
      requires previous.Some? ==> previous.value in all && previous.value !in built.Values
      modifies `all, (if previous.Some? then {previous.value} else {})`config
      ensures AllOk() && info in all && info.config == c && Holds(built[c.id := info], done + [c])
      ensures previous.Some? && !reused ==> previous.value.config == old(previous.value.config)
      ensures reused == old(Same(previous, c))
      ensures if reused then info == previous.value && all == old(all)
        else all == old(all) + {info} && fresh(info) && fresh(info.client) && Untouched(info)
      ensures !reused ==> info.client.headers == EffectiveHeaders(c)
    {
      hide AllOk;
      info, reused := Place(previous, c);
      ghost var after := built[c.id := info];
      ghost var rows := done + [c];
      forall i | 0 <= i < |rows|
        ensures Registered(after, rows[i])
      {
        if i < |done| {
          assert Registered(built, done[i]) && rows[i] == done[i];
          assert built[done[i].id] in built.Values;
        }
      }
      assert forall id | id in built :: exists i | 0 <= i < |done| :: done[i].id == id;
      forall id | id in after
        ensures exists i | 0 <= i < |rows| :: rows[i].id == id
      {
        if id == c.id {
          assert rows[|done|].id == id;
        } else {
          var i :| 0 <= i < |done| && done[i].id == id;
          assert rows[i].id == id;
        }
      }
    }

    // Servers built during the listing are untouched, and rows not yet placed still have their old configuration.
    ghost predicate Current(olds: map<string, ServerInfo>, was: map<string, Config>, before: set<ServerInfo>, built: map<string, ServerInfo>)
      reads this, all, Clients(), olds.Values
    {
      && before <= all
      && (forall i | i in all - before :: Untouched(i))
      && (forall id | id in olds && id in was && id !in built :: olds[id].config == was[id])
    }

    // Part of a listing was placed.
    ghost predicate Progress(
      olds: map<string, ServerInfo>, was: map<string, Config>, before: set<ServerInfo>, built: map<string, ServerInfo>, done: seq<Config>)
      reads this, all, Clients(), olds.Values
    {
      && AllOk() && Holds(built, done)
      && Current(olds, was, before, built)
      && Apart(olds, was, before, built, done)
    }

    method PlaceRow(
      olds: map<string, ServerInfo>, built: map<string, ServerInfo>, c: Config,
      ghost was: map<string, Config>, ghost before: set<ServerInfo>, ghost done: seq<Config>)
      returns (info: ServerInfo, reused: bool)
      requires Progress(olds, was, before, built, done) && c.id !in built
      modifies `all, before`config
      ensures Progress(olds, was, before, built[c.id := info], done + [c])
      ensures info in all && info.config == c
      ensures old(all) <= all && forall i | i in all - old(all) :: fresh(i) && fresh(i.client)
      ensures !reused ==> info !in old(all)
      ensures forall i | i in old(all) - before :: i.config == old(i.config)
    {
      hide AllOk, Holds, Apart;
      var previous := Previous(olds, c.id);
      PreviousIsFree(olds, was, before, built, done, c);
      info, reused := PlaceNext(built, done, previous, c);
      assert Current(olds, was, before, built[c.id := info]);
      ApartNext(olds, was, before, built, done, c, info, reused);
    }

    lemma {:induction false} NothingPlaced()
      requires Valid()
      ensures Progress(servers, Configs(servers), all, map[], [])
    {
      forall a, b | a in servers && b in servers && a != b
        ensures servers[a] != servers[b]
      {
        assert exists i | 0 <= i < |rows| :: rows[i].id == a;
        assert exists i | 0 <= i < |rows| :: rows[i].id == b;
        assert servers[a].config.id == a && servers[b].config.id == b;
      }
    }

    lemma {:induction false} NotYet(
      olds: map<string, ServerInfo>, was: map<string, Config>, before: set<ServerInfo>, built: map<string, ServerInfo>, news: seq<Config>, n: nat)
      requires n < |news| && DistinctIds(news) && Progress(olds, was, before, built, news[..n])
      ensures news[n].id !in built
    {}

    // The loop over the listed rows; the old servers are looked up, never the ones just placed.
    method PlaceAll(news: seq<Config>, ghost was: map<string, Config>, ghost before: set<ServerInfo>)
      returns (built: map<string, ServerInfo>, starting: seq<ServerInfo>)
      requires DistinctIds(news) && Progress(servers, was, before, map[], []) && before == all
      modifies `all, before`config
      ensures Progress(servers, was, before, built, news)
      ensures forall i | i in all - before :: fresh(i) && fresh(i.client)
      ensures forall i | i in starting :: i in all - before && !PerUser(i.config)
    {
      hide Progress;
      built, starting := map[], [];
      assert news[..0] == [];
      for n := 0 to |news|
        modifies `all, before`config
        invariant Progress(servers, was, before, built, news[..n])
        invariant before <= all && forall i | i in all - before :: fresh(i) && fresh(i.client)
        invariant forall i | i in starting :: i in all - before && !PerUser(i.config)
      {
        var c := news[n];
        assert c.id !in built by { NotYet(servers, was, before, built, news, n); }
        ghost var mid := all;
        var info, reused := PlaceRow(servers, built, c, was, before, news[..n]);
        assert forall i | i in all - before :: i in mid - before || i in all - mid;
        if !reused && !PerUser(c) {
          starting := starting + [info];
        }
        built := built[c.id := info];
        assert news[..n + 1] == news[..n] + [c];
      }
      assert news[..|news|] == news;
    }

    method LoadFromDB(listed: Option<seq<Config>>) returns (starting: seq<ServerInfo>)
      requires Valid()
      requires listed.Some? ==> DistinctIds(listed.value)
      modifies `servers, `rows, `all, all`config
      ensures Valid()
      ensures old(all) <= all && forall i | i in all - old(all) :: fresh(i) && fresh(i.client)
      ensures forall i | i in all - old(all) :: i.status == Disconnected && i.tools == [] && !i.client.initialized
      ensures listed.None? ==> rows == old(rows) && servers == old(servers) && all == old(all)
      ensures listed.Some? ==> rows == listed.value
      ensures listed.Some? ==> forall k | 0 <= k < |listed.value| ::
        Reuses(old(servers), old(Configs(servers)), listed.value[k], servers, old(all))
      ensures forall i | i in starting :: i in all - old(all) && !PerUser(i.config)
    {
      if listed.None? {
        return [];
      }
      NothingPlaced();
      var built: map<string, ServerInfo>;
      built, starting := PlaceAll(listed.value, Configs(servers), all);
      servers := built;
      rows := listed.value;
    }

    // After one server and its client moved on, keeping its promise, everything else still holds.
    twostate lemma OthersKeep(info: ServerInfo)
      requires old(Valid()) && info in old(all) && info.Ok()
      requires all == old(all) && rows == old(rows) && servers == old(servers)
      requires forall i | i in all :: i.config == old(i.config)
      requires forall i | i in all && i != info :: unchanged(i) && unchanged(i.client)
      ensures Valid()
    {
      forall i | i in all
        ensures i.Ok()
      {
        if i != info {
          assert old(i.Ok());
        }
      }
      forall k | 0 <= k < |rows|
        ensures Registered(servers, rows[k])
      {
        assert old(Registered(servers, rows[k]));
      }
    }

    // The background start of a server that needs no user credentials.
    method InitializeServer(info: ServerInfo, w: Handshake, listing: Option<seq<string>>)
      requires Valid() && info in all
      modifies info`status, info`tools, info.client
      ensures Valid()
      ensures Shows(info, Outcome(w).Accepted?, listing, old(info.tools))
      ensures info.client.initialized == (old(info.client.initialized) || Outcome(w).Accepted?)
    {
      var ok := info.client.Initialize(w);
      if !ok {
        info.status := Error;
        assert info.Ok();
        OthersKeep(info);
        return;
      }
      var tools := info.client.ListTools(listing);
      if tools.None? {
        info.status := Error;
      } else {
        info.status := Connected;
        info.tools := tools.value;
      }
      OthersKeep(info);
    }

    // On the first request of a user; success only promises an initialized client.
    method EnsureInitialized(info: ServerInfo, w: Handshake, listing: Option<seq<string>>) returns (ok: bool)
      requires Valid() && info in all
      modifies info`status, info`tools, info.client
      ensures Valid()
      ensures ok ==> info.client.initialized
      ensures if old(info.client.initialized) then
          ok && info.status == old(info.status) && info.tools == old(info.tools) && info.client.initialized
        else ok == (Outcome(w).Accepted? && listing.Some?) && Shows(info, Outcome(w).Accepted?, listing, old(info.tools))
    {
      if info.client.initialized {
        return true;
      }
      InitializeServer(info, w, listing);
      ok := info.status == Connected;
    }

    // A failed reconnection forgets the tools.
    method Reconnect(id: string, terminated: bool, w: Handshake, listing: Option<seq<string>>) returns (found: Option<ServerInfo>, ok: bool)
      requires Valid()
      modifies (set i | i in servers.Values)`status, (set i | i in servers.Values)`tools, (set i | i in servers.Values :: i.client)
      ensures Valid()
      ensures found == Previous(servers, id)
      ensures ok == (found.Some? && Outcome(w).Accepted? && listing.Some?)
      ensures found.Some? ==> Shows(found.value, Outcome(w).Accepted?, listing, []) && found.value.client.initialized == Outcome(w).Accepted?
      ensures forall i | i in all && found != Some(i) ::
        i.status == old(i.status) && i.tools == old(i.tools) && i.client.initialized == old(i.client.initialized)
    {
      if id !in servers {
        return None, false;
      }
      var info := servers[id];
      found := Some(info);
      assert info in all;
      ok := info.client.Reconnect(terminated, w);
      if ok {
        var tools := info.client.ListTools(listing);
        ok := tools.Some?;
        if ok {
          info.status := Connected;
          info.tools := tools.value;
        }
      }
      if !ok {
        info.status := Error;
        info.tools := [];
      }
      OthersKeep(info);
    }
  }

  // ---------------------------------------------------------------- any sequence of steps

  datatype Step =
    | Refresh(listed: Option<seq<Config>>)
    | Background(k: nat, w: Handshake, listing: Option<seq<string>>)     // one of the started initializations runs
    | Ensure(id: string, w: Handshake, listing: Option<seq<string>>)
    | Again(id: string, terminated: bool, w: Handshake, listing: Option<seq<string>>)

  // The last listing the database returned.
  function LastListed(rows: seq<Config>, steps: seq<Step>): seq<Config> {
    if steps == [] then rows
    else
      var n := |steps| - 1;
      if steps[n].Refresh? && steps[n].listed.Some? then steps[n].listed.value else LastListed(rows, steps[..n])
  }

  class Driver {
    const registry: Registry
    var started: seq<ServerInfo>    // initializations started in the background, whether or not they ran

    constructor ()
      ensures Valid() && fresh(registry) && registry.rows == [] && registry.all == {}
    {
      registry := new Registry();
      started := [];
    }

    ghost predicate Valid()
      reads this, registry, registry.all, registry.Clients()
    {
      registry.Valid() && forall i | i in started :: i in registry.all
    }

    method Do(step: Step)
      requires Valid()
      requires step.Refresh? && step.listed.Some? ==> DistinctIds(step.listed.value)
      modifies this, registry, registry.all, registry.Clients()
      ensures Valid()
      ensures registry.rows == LastListed(old(registry.rows), [step])
      ensures fresh(registry.all - old(registry.all)) && fresh(registry.Clients() - old(registry.Clients()))
    {
      match step {
        case Refresh(listed) =>
          var more := registry.LoadFromDB(listed);
          started := started + more;
        case Background(k, w, listing) =>
          if k < |started| {
            registry.InitializeServer(started[k], w, listing);
          }
        case Ensure(id, w, listing) =>
          if id in registry.servers {
            var ok := registry.EnsureInitialized(registry.servers[id], w, listing);
          }
        case Again(id, terminated, w, listing) =>
          var found, ok := registry.Reconnect(id, terminated, w, listing);
      }
    }

    // However refreshes, background starts, first requests and reconnections are interleaved.
    method Run(steps: seq<Step>)
      requires Valid()
      requires forall k | 0 <= k < |steps| && steps[k].Refresh? && steps[k].listed.Some? :: DistinctIds(steps[k].listed.value)
      modifies this, registry, registry.all, registry.Clients()
      ensures Valid()
      ensures registry.rows == LastListed(old(registry.rows), steps)
    {
      hide Valid;
      for n := 0 to |steps|
        invariant Valid()
        invariant registry.rows == LastListed(old(registry.rows), steps[..n])
        invariant fresh(registry.all - old(registry.all)) && fresh(registry.Clients() - old(registry.Clients()))
      {
        assert steps[..n + 1][..n] == steps[..n];
        Do(steps[n]);
      }
      assert steps[..|steps|] == steps;
    }
  }

  /** An edit that keeps a server's endpoint is shown, but the client goes on with the headers of the row before. */
  method EditKeepsHeaders(before: Config, after: Config) returns (r: Registry)
    requires before.id == after.id && before.url == after.url && before.transport == after.transport
    ensures fresh(r) && r.Valid() && r.rows == [after] && after.id in r.servers
    ensures r.servers[after.id].config == after
    ensures r.servers[after.id].client.headers == EffectiveHeaders(before)
  {
    r := new Registry();
    var starting := r.LoadFromDB(Some([before]));
    assert r.Registered(r.servers, r.rows[0]);
    ghost var olds, was, built := r.servers, Configs(r.servers), r.all;
    starting := r.LoadFromDB(Some([after]));
    assert Reuses(olds, was, [after][0], r.servers, built);
    assert r.Registered(r.servers, r.rows[0]);
  }

  /**
   * What validity of the registry means for the servers it shows: exactly the
   * rows of the last listing, on clients with their endpoints; a connected one
   * has an initialized client and its latest listing.
   */
  lemma {:induction false} WhatIsShown(r: Registry, id: string)
    requires r.Valid()
    ensures id in r.servers <==> exists k | 0 <= k < |r.rows| :: r.rows[k].id == id
    ensures id in r.servers ==>
      var info := r.servers[id];
      && info.config in r.rows && info.config.id == id
      && info.client.url == info.config.url && info.client.transport == info.config.transport
      && (info.status == Connected ==> info.client.initialized && info.client.listing == Some(info.tools))
  {
    if id in r.servers {
      var k :| 0 <= k < |r.rows| && r.rows[k].id == id;
      assert r.Registered(r.servers, r.rows[k]);
      assert r.servers[id].Ok();
    }
  }
}
