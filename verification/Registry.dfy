/** The tool registry: discovery, filters, public names and their loose resolution. */
module Registry {
  import opened Common
  import opened Text

  /***** Public names *****/

  function PublicName(server: string, tool: string): string { "mcp__" + server + "__" + tool }

  /** No double underscore inside, and none that the separator would complete. */
  ghost predicate SafeServerName(s: string) {
    (forall i :: 0 <= i < |s| - 1 ==> !(s[i] == '_' && s[i + 1] == '_')) && (s != "" ==> s[|s| - 1] != '_')
  }

  /** Safe server names make the public name determine server and tool. */
  lemma PublicNameIsInjective(s1: string, t1: string, s2: string, t2: string)
    requires SafeServerName(s1) && SafeServerName(s2)
    requires PublicName(s1, t1) == PublicName(s2, t2)
    ensures s1 == s2 && t1 == t2
  {
    if |s1| < |s2| {
      SeparatorPosition(s1, t1, s2, t2);
    } else if |s2| < |s1| {
      SeparatorPosition(s2, t2, s1, t1);
    }
    var n := PublicName(s1, t1);
    assert n[5..5 + |s1|] == s1 && n[5..5 + |s2|] == s2;
    assert n[7 + |s1|..] == t1 && n[7 + |s2|..] == t2;
  }

  lemma SeparatorPosition(s1: string, t1: string, s2: string, t2: string)
    requires |s1| < |s2| && PublicName(s1, t1) == PublicName(s2, t2)
    ensures !SafeServerName(s2)
  {
    var n := PublicName(s2, t2);
    assert n[5 + |s1|] == '_' && n[6 + |s1|] == '_';
    assert n[5 + |s1|] == s2[|s1|];
    if |s1| + 1 < |s2| { assert n[6 + |s1|] == s2[|s1| + 1]; }
  }

  /***** Building *****/

  datatype Tool = Tool(name: string, desc: string)

  /** A configured server. `External` carries what its listing call returned. */
  datatype ServerConfig =
    | NoConfig | NoInstance | BadInstance | UnknownType
    | Sdk(tools: seq<Tool>)
    | External(listing: Option<seq<Tool>>)

  predicate Lists(c: ServerConfig) { c.Sdk? || (c.External? && c.listing.Some?) }

  function ToolsOf(c: ServerConfig): seq<Tool> {
    match c
    case Sdk(tools) => tools
    case External(Some(tools)) => tools
    case _ => []
  }

  datatype Filters = Filters(configured: seq<string>, allowed: seq<string>, disallowed: seq<string>)

  function TrimmedSet(names: seq<string>): set<string> { set n | n in names :: TrimSpace(n) }

  /** The three filters. An empty configured or allowed list does not filter. */
  predicate Passes(f: Filters, name: string) {
    && (f.configured != [] ==> name in TrimmedSet(f.configured))
    && (f.allowed != [] ==> name in TrimmedSet(f.allowed))
    && name !in TrimmedSet(f.disallowed)
  }

  datatype ToolRef = ToolRef(server: string, tool: string, desc: string)

  datatype Status = Ready | Error(reason: string)

  ghost predicate Named(tools: seq<Tool>, name: string) {
    exists i :: 0 <= i < |tools| && tools[i].name == name
  }

  ghost predicate Offers(servers: map<string, ServerConfig>, f: Filters, server: string, tool: string) {
    && server in servers
    && tool != ""
    && Named(ToolsOf(servers[server]), tool)
    && Passes(f, PublicName(server, tool))
  }

  /** A server that lists a name twice is described by the last entry. */
  function Describe(tools: seq<Tool>, name: string): string {
    if tools == [] then ""
    else if tools[|tools| - 1].name == name then tools[|tools| - 1].desc
    else Describe(tools[..|tools| - 1], name)
  }

  /** Every entry is an offer that passed the filters, and every such offer has an entry. */
  ghost predicate IsRegistry(servers: map<string, ServerConfig>, f: Filters, byName: map<string, ToolRef>) {
    && (forall n :: n in byName ==> IsEntry(servers, f, n, byName[n]))
    && (forall s, t :: Offers(servers, f, s, t) ==> PublicName(s, t) in byName)
  }

  ghost predicate IsEntry(servers: map<string, ServerConfig>, f: Filters, n: string, ref: ToolRef) {
    && Offers(servers, f, ref.server, ref.tool)
    && n == PublicName(ref.server, ref.tool)
    && ref.desc == Describe(ToolsOf(servers[ref.server]), ref.tool)
  }

  /** One server's tools entered after another, over what is there. */
  function Entered(before: map<string, ToolRef>, server: string, tools: seq<Tool>, f: Filters): map<string, ToolRef> {
    if tools == [] then before
    else
      var b, t := Entered(before, server, tools[..|tools| - 1], f), tools[|tools| - 1];
      if t.name != "" && Passes(f, PublicName(server, t.name)) then b[PublicName(server, t.name) := ToolRef(server, t.name, t.desc)]
      else b
  }

  /** The registry when the servers are ranged over in this order. */
  function RegistryOf(servers: map<string, ServerConfig>, f: Filters, order: seq<string>): map<string, ToolRef> {
    if order == [] then map[]
    else
      var s := order[|order| - 1];
      Entered(RegistryOf(servers, f, order[..|order| - 1]), s, if s in servers then ToolsOf(servers[s]) else [], f)
  }

  ghost predicate IsOrder(order: seq<string>, keys: set<string>) {
    && (forall i, j :: 0 <= i < j < |order| ==> order[i] != order[j])
    && (forall s :: s in order <==> s in keys)
  }

  /** The status that a server gets. */
  function StatusOf(c: ServerConfig): Status {
    match c
    case NoConfig => Error("missing config")
    case NoInstance => Error("missing sdk server instance")
    case BadInstance => Error("invalid sdk server instance type")
    case UnknownType => Error("unknown server type")
    case Sdk(_) => Ready
    case External(listing) => if listing.Some? then Ready else Error("listing failed")
  }

  function Statuses(servers: map<string, ServerConfig>): map<string, Status> { map s | s in servers :: StatusOf(servers[s]) }

  lemma OrderStep(servers: map<string, ServerConfig>, f: Filters, order: seq<string>, k: nat)
    requires k < |order| && order[k] in servers
    ensures RegistryOf(servers, f, order[..k + 1]) ==
            Entered(RegistryOf(servers, f, order[..k]), order[k], ToolsOf(servers[order[k]]), f)
  {
    assert order[..k + 1][..k] == order[..k];
  }

  /** The first `k` servers have been entered. */
  ghost predicate EnteredUpTo(servers: map<string, ServerConfig>, f: Filters, order: seq<string>, k: nat,
                              byName: map<string, ToolRef>, status: map<string, Status>)
  {
    && k <= |order| && byName == RegistryOf(servers, f, order[..k])
    && (forall s :: s in status <==> s in order[..k])
    && forall s :: s in status ==> s in servers && status[s] == StatusOf(servers[s])
  }

  /** One round of the loop over the servers. */
  method EnterNext(servers: map<string, ServerConfig>, f: Filters, order: seq<string>, k: nat,
                   before: map<string, ToolRef>, statuses: map<string, Status>)
    returns (byName: map<string, ToolRef>, status: map<string, Status>)
    requires k < |order| && order[k] in servers && EnteredUpTo(servers, f, order, k, before, statuses)
    ensures EnteredUpTo(servers, f, order, k + 1, byName, status)
  {
    hide Entered, StatusOf, ToolsOf, RegistryOf;
    var s, st := order[k], Ready;
    byName, st := AddServer(before, s, servers[s], f);
    status := statuses[s := st];
    OrderStep(servers, f, order, k);
    assert order[..k + 1] == order[..k] + [s];
  }

  lemma AllEntered(servers: map<string, ServerConfig>, f: Filters, order: seq<string>,
                   byName: map<string, ToolRef>, status: map<string, Status>)
    requires IsOrder(order, servers.Keys) && EnteredUpTo(servers, f, order, |order|, byName, status)
    ensures byName == RegistryOf(servers, f, order) && IsRegistry(servers, f, byName) && status == Statuses(servers)
  {
    hide IsRegistry, RegistryOf, StatusOf;
    assert order[..|order|] == order;
    OrdersGiveRegistries(servers, f, order);
    StatusesAre(servers, status);
  }

  /** `NewRegistry`. Servers come in no particular order. */
  method NewRegistry(servers: map<string, ServerConfig>, f: Filters)
    returns (byName: map<string, ToolRef>, status: map<string, Status>)
    ensures exists order :: IsOrder(order, servers.Keys) && byName == RegistryOf(servers, f, order)
    ensures IsRegistry(servers, f, byName) && HoldsListed(servers, f, byName) && HoldsAll(servers, f, byName)
    ensures status == Statuses(servers)
  {
    hide IsRegistry, HoldsListed, HoldsAll, RegistryOf, Statuses;
    byName, status := map[], map[];
    var order := Ordered(servers.Keys);
    NoneEntered(servers, f, order);
    for k := 0 to |order|
      invariant EnteredUpTo(servers, f, order, k, byName, status)
    {
      assert order[k] in order;
      byName, status := EnterNext(servers, f, order, k, byName, status);
    }
    assert IsOrder(order, servers.Keys);
    AllEntered(servers, f, order, byName, status);
    RegistryHolds(servers, f, byName);
  }

  lemma NoneEntered(servers: map<string, ServerConfig>, f: Filters, order: seq<string>)
    ensures EnteredUpTo(servers, f, order, 0, map[], map[])
  {
  }

  lemma StatusesAre(servers: map<string, ServerConfig>, status: map<string, Status>)
    requires status.Keys == servers.Keys && forall s :: s in status ==> status[s] == StatusOf(servers[s])
    ensures status == Statuses(servers)
  {
  }

  /** One server: its status, and its tools when it lists them. */
  method AddServer(before: map<string, ToolRef>, server: string, c: ServerConfig, f: Filters)
    returns (byName: map<string, ToolRef>, status: Status)
    ensures byName == Entered(before, server, ToolsOf(c), f)
    ensures status == StatusOf(c)
  {
    byName := before;
    match c {
      case NoConfig => status := Error("missing config");
      case NoInstance => status := Error("missing sdk server instance");
      case BadInstance => status := Error("invalid sdk server instance type");
      case UnknownType => status := Error("unknown server type");
      case Sdk(tools) =>
        status := Ready;
        byName := AddTools(before, server, tools, f);
      case External(listing) =>
        if listing.None? {
          status := Error("listing failed");
        } else {
          status := Ready;
          byName := AddTools(before, server, listing.value, f);
        }
    }
  }

  /** The inner loop over one server's tools. */
  method AddTools(before: map<string, ToolRef>, server: string, tools: seq<Tool>, f: Filters)
    returns (byName: map<string, ToolRef>)
    ensures byName == Entered(before, server, tools, f)
  {
    byName := before;
    for k := 0 to |tools|
      invariant byName == Entered(before, server, tools[..k], f)
    {
      assert tools[..k + 1][..k] == tools[..k];
      var name := tools[k].name;
      var publicName := PublicName(server, name);
      if name != "" && Passes(f, publicName) {
        byName := byName[publicName := ToolRef(server, name, tools[k].desc)];
      }
    }
    assert tools[..|tools|] == tools;
  }

  /***** What a registry holds *****/

  /** The servers not in `left` have been entered. */
  ghost predicate Built(servers: map<string, ServerConfig>, f: Filters, byName: map<string, ToolRef>, left: set<string>) {
    && (forall n :: n in byName ==> IsEntry(servers, f, n, byName[n]) && byName[n].server !in left)
    && (forall s, t :: s !in left && Offers(servers, f, s, t) ==> PublicName(s, t) in byName)
  }

  ghost predicate Extends(before: map<string, ToolRef>, after: map<string, ToolRef>, server: string, tools: seq<Tool>, f: Filters) {
    && (forall n :: n in before ==> n in after)
    && (forall t :: t != "" && Named(tools, t) && Passes(f, PublicName(server, t)) ==> PublicName(server, t) in after)
    && (forall n :: n in after ==> (n in before && after[n] == before[n]) || FromServer(after[n], n, server, tools, f))
  }

  lemma BuiltStep(servers: map<string, ServerConfig>, f: Filters, was: map<string, ToolRef>, now: map<string, ToolRef>,
                  left: set<string>, s: string)
    requires s in left && left <= servers.Keys && Built(servers, f, was, left)
    requires Extends(was, now, s, ToolsOf(servers[s]), f)
    ensures Built(servers, f, now, left - {s})
  {
    forall n | n in now ensures IsEntry(servers, f, n, now[n]) && now[n].server !in left - {s} {
      if n in was && now[n] == was[n] {
        assert IsEntry(servers, f, n, was[n]);
      }
    }
  }

  ghost predicate FromServer(ref: ToolRef, n: string, server: string, tools: seq<Tool>, f: Filters) {
    ref.server == server && n == PublicName(server, ref.tool) && ref.tool != "" &&
    Named(tools, ref.tool) && Passes(f, n) && ref.desc == Describe(tools, ref.tool)
  }

  lemma PrefixStep(tools: seq<Tool>, k: nat)
    requires k < |tools|
    ensures tools[..k + 1][..k] == tools[..k]
    ensures forall t :: Named(tools[..k + 1], t) <==> Named(tools[..k], t) || t == tools[k].name
    ensures forall t :: Describe(tools[..k + 1], t) == if t == tools[k].name then tools[k].desc else Describe(tools[..k], t)
  {
    var a, b := tools[..k], tools[..k + 1];
    assert b[..k] == a && b[k] == tools[k];
    forall t ensures Named(b, t) <==> Named(a, t) || t == tools[k].name {
      if i :| 0 <= i < |a| && a[i].name == t { assert b[i].name == t; }
      if i :| 0 <= i < |b| && b[i].name == t { assert i < k ==> a[i].name == t; }
    }
    forall t ensures Describe(b, t) == if t == tools[k].name then tools[k].desc else Describe(a, t) {
      assert b[..|b| - 1] == a;
    }
  }

  lemma SamePublicName(server: string, a: string, b: string)
    ensures PublicName(server, a) == PublicName(server, b) ==> a == b
  {
    assert PublicName(server, a)[7 + |server|..] == a && PublicName(server, b)[7 + |server|..] == b;
  }

  /** Entering keeps what is there and adds exactly the offers of the server. */
  lemma {:induction false} EnteredExtends(before: map<string, ToolRef>, server: string, tools: seq<Tool>, f: Filters)
    ensures Extends(before, Entered(before, server, tools, f), server, tools, f)
  {
    if tools != [] {
      var k := |tools| - 1;
      var front, name := tools[..k], tools[k].name;
      EnteredExtends(before, server, front, f);
      PrefixStep(tools, k);
      assert tools[..k + 1] == tools;
      var was, now := Entered(before, server, front, f), Entered(before, server, tools, f);
      forall n | n in now ensures (n in before && now[n] == before[n]) || FromServer(now[n], n, server, tools, f) {
        if n in was && now[n] == was[n] && FromServer(was[n], n, server, front, f) {
          SamePublicName(server, was[n].tool, name);
        }
      }
    }
  }

  /***** What the filters do, in the words of the options *****/

  /** Some entry of the list is this name, white space around it aside. */
  ghost predicate Names(list: seq<string>, name: string) { exists n :: n in list && TrimSpace(n) == name }

  /** The lists let a public name through: each of the first two that says anything has it, the third does not. */
  ghost predicate Admits(f: Filters, name: string) {
    && (|f.configured| > 0 ==> Names(f.configured, name))
    && (|f.allowed| > 0 ==> Names(f.allowed, name))
    && !Names(f.disallowed, name)
  }

  lemma PassesAdmits(f: Filters, name: string)
    ensures Passes(f, name) <==> Admits(f, name)
  {
  }

  /** What a server lists: an SDK server its tools, an external one what its listing call returned. */
  ghost predicate ListsTool(c: ServerConfig, tool: Tool) {
    match c
    case Sdk(tools) => tool in tools
    case External(Some(tools)) => tool in tools
    case _ => false
  }

  lemma ListsNamed(c: ServerConfig, t: Tool)
    ensures ListsTool(c, t) <==> t in ToolsOf(c)
    ensures ListsTool(c, t) ==> Named(ToolsOf(c), t.name)
  {
  }

  lemma {:induction false} DescribesListed(tools: seq<Tool>, name: string)
    requires Named(tools, name)
    ensures Tool(name, Describe(tools, name)) in tools
  {
    var k := |tools| - 1;
    if tools[k].name != name {
      PrefixStep(tools, k);
      assert tools[..k + 1] == tools;
      DescribesListed(tools[..k], name);
    }
  }

  /**
   * An entry is under the name that its server and tool make, which the lists of the options let
   * through, and the server lists the tool as described, under a name that is not empty.
   */
  ghost predicate HoldsListed(servers: map<string, ServerConfig>, f: Filters, byName: map<string, ToolRef>) {
    forall n :: n in byName ==>
      && n == "mcp__" + byName[n].server + "__" + byName[n].tool && Admits(f, n) && byName[n].tool != ""
      && byName[n].server in servers && ListsTool(servers[byName[n].server], Tool(byName[n].tool, byName[n].desc))
  }

  /** Every such tool is there. */
  ghost predicate HoldsAll(servers: map<string, ServerConfig>, f: Filters, byName: map<string, ToolRef>) {
    forall s, t :: s in servers && ListsTool(servers[s], t) && t.name != "" && Admits(f, "mcp__" + s + "__" + t.name) ==>
      "mcp__" + s + "__" + t.name in byName
  }

  /** What a registry holds: exactly the tools that are listed and let through. */
  lemma RegistryHolds(servers: map<string, ServerConfig>, f: Filters, byName: map<string, ToolRef>)
    requires IsRegistry(servers, f, byName)
    ensures HoldsListed(servers, f, byName) && HoldsAll(servers, f, byName)
  {
    hide Passes, Admits;
    forall n | n in byName
      ensures n == "mcp__" + byName[n].server + "__" + byName[n].tool && Admits(f, n) && byName[n].tool != ""
      ensures byName[n].server in servers && ListsTool(servers[byName[n].server], Tool(byName[n].tool, byName[n].desc))
    {
      var r := byName[n];
      assert IsEntry(servers, f, n, r);
      PassesAdmits(f, n);
      DescribesListed(ToolsOf(servers[r.server]), r.tool);
      ListsNamed(servers[r.server], Tool(r.tool, r.desc));
    }
    forall s, t | s in servers && ListsTool(servers[s], t) && t.name != "" && Admits(f, "mcp__" + s + "__" + t.name)
      ensures "mcp__" + s + "__" + t.name in byName
    {
      PassesAdmits(f, PublicName(s, t.name));
      ListsNamed(servers[s], t);
      assert Offers(servers, f, s, t.name);
    }
  }

  /** What a server's status says: ready with its tools listed, or the reason why not. */
  lemma StatusMeans(servers: map<string, ServerConfig>, s: string)
    requires s in servers
    ensures s in Statuses(servers)
    ensures Statuses(servers)[s] == Ready <==> servers[s].Sdk? || (servers[s].External? && servers[s].listing.Some?)
    ensures servers[s].NoConfig? ==> Statuses(servers)[s] == Error("missing config")
    ensures servers[s].NoInstance? ==> Statuses(servers)[s] == Error("missing sdk server instance")
    ensures servers[s].BadInstance? ==> Statuses(servers)[s] == Error("invalid sdk server instance type")
    ensures servers[s].UnknownType? ==> Statuses(servers)[s] == Error("unknown server type")
  {
  }

  function Elements(order: seq<string>): set<string> { set s | s in order }

  lemma {:induction false} OrderBuilds(servers: map<string, ServerConfig>, f: Filters, order: seq<string>)
    requires IsOrder(order, Elements(order)) && Elements(order) <= servers.Keys
    ensures Built(servers, f, RegistryOf(servers, f, order), servers.Keys - Elements(order))
  {
    if order != [] {
      var front, s := order[..|order| - 1], order[|order| - 1];
      assert s in order && forall x :: x in order <==> x in front || x == s;
      OrderBuilds(servers, f, front);
      EnteredExtends(RegistryOf(servers, f, front), s, ToolsOf(servers[s]), f);
      var left := servers.Keys - Elements(front);
      BuiltStep(servers, f, RegistryOf(servers, f, front), RegistryOf(servers, f, order), left, s);
      assert left - {s} == servers.Keys - Elements(order);
    }
  }

  /** Whatever the order, the registry has exactly the offers, each under its public name. */
  lemma OrdersGiveRegistries(servers: map<string, ServerConfig>, f: Filters, order: seq<string>)
    requires IsOrder(order, servers.Keys)
    ensures IsRegistry(servers, f, RegistryOf(servers, f, order))
  {
    assert Elements(order) == servers.Keys;
    OrderBuilds(servers, f, order);
  }

  /** The server ranged over last owns every name it offers. */
  lemma LastOwns(servers: map<string, ServerConfig>, f: Filters, order: seq<string>, t: string)
    requires order != [] && Offers(servers, f, order[|order| - 1], t)
    ensures var n, r := PublicName(order[|order| - 1], t), RegistryOf(servers, f, order);
      n in r && r[n].server == order[|order| - 1]
  {
    var s := order[|order| - 1];
    OwnsAll(RegistryOf(servers, f, order[..|order| - 1]), s, ToolsOf(servers[s]), f, t);
  }

  lemma {:induction false} OwnsAll(before: map<string, ToolRef>, server: string, tools: seq<Tool>, f: Filters, t: string)
    requires t != "" && Named(tools, t) && Passes(f, PublicName(server, t))
    ensures PublicName(server, t) in Entered(before, server, tools, f)
    ensures Entered(before, server, tools, f)[PublicName(server, t)].server == server
  {
    var k := |tools| - 1;
    if tools[k].name != t {
      PrefixStep(tools, k);
      assert tools[..k + 1] == tools;
      OwnsAll(before, server, tools[..k], f, t);
    }
  }

  lemma {:induction false} Enumerate(keys: set<string>) returns (order: seq<string>)
    ensures IsOrder(order, keys)
  {
    if keys == {} {
      order := [];
    } else {
      var s :| s in keys;
      var rest := Enumerate(keys - {s});
      order := rest + [s];
    }
  }

  lemma OrderEndingIn(keys: set<string>, s: string) returns (order: seq<string>)
    requires s in keys
    ensures IsOrder(order, keys) && order != [] && order[|order| - 1] == s
  {
    var rest := Enumerate(keys - {s});
    order := rest + [s];
  }

  /** Two offers under one public name. */
  ghost predicate Collide(servers: map<string, ServerConfig>, f: Filters, s1: string, t1: string, s2: string, t2: string) {
    Offers(servers, f, s1, t1) && Offers(servers, f, s2, t2) && PublicName(s1, t1) == PublicName(s2, t2) && s1 != s2
  }

  /** Without collisions the registry does not depend on the order of the servers. */
  lemma RegistryIsUnique(servers: map<string, ServerConfig>, f: Filters, a: map<string, ToolRef>, b: map<string, ToolRef>)
    requires IsRegistry(servers, f, a) && IsRegistry(servers, f, b)
    requires forall s1, t1, s2, t2 :: !Collide(servers, f, s1, t1, s2, t2)
    ensures a == b
  {
    EntriesAgree(servers, f, a, b);
    EntriesAgree(servers, f, b, a);
  }

  lemma EntriesAgree(servers: map<string, ServerConfig>, f: Filters, a: map<string, ToolRef>, b: map<string, ToolRef>)
    requires IsRegistry(servers, f, a) && IsRegistry(servers, f, b)
    requires forall s1, t1, s2, t2 :: !Collide(servers, f, s1, t1, s2, t2)
    ensures forall n :: n in a ==> n in b && a[n] == b[n]
  {
    forall n | n in a ensures n in b && a[n] == b[n] {
      assert PublicName(a[n].server, a[n].tool) in b;
      assert !Collide(servers, f, a[n].server, a[n].tool, b[n].server, b[n].tool);
      SamePublicName(a[n].server, a[n].tool, b[n].tool);
    }
  }

  /** With a collision there are two orders of the servers that give different registries. */
  lemma CollisionDependsOnOrder(servers: map<string, ServerConfig>, f: Filters, s1: string, t1: string, s2: string, t2: string)
    returns (a: seq<string>, b: seq<string>)
    requires Collide(servers, f, s1, t1, s2, t2)
    ensures IsOrder(a, servers.Keys) && IsOrder(b, servers.Keys)
    ensures RegistryOf(servers, f, a) != RegistryOf(servers, f, b)
  {
    a := OrderEndingIn(servers.Keys, s1);
    b := OrderEndingIn(servers.Keys, s2);
    LastOwns(servers, f, a, t1);
    LastOwns(servers, f, b, t2);
  }

  ghost predicate OrderFree(servers: map<string, ServerConfig>, f: Filters) {
    forall a, b :: IsOrder(a, servers.Keys) && IsOrder(b, servers.Keys) ==> RegistryOf(servers, f, a) == RegistryOf(servers, f, b)
  }

  ghost predicate CollisionFree(servers: map<string, ServerConfig>, f: Filters) {
    forall s1, t1, s2, t2 :: !Collide(servers, f, s1, t1, s2, t2)
  }

  /** The registry does not depend on map order if and only if no two offers collide. */
  lemma OrderMattersIffCollision(servers: map<string, ServerConfig>, f: Filters)
    ensures OrderFree(servers, f) <==> CollisionFree(servers, f)
  {
    if CollisionFree(servers, f) {
      forall a, b | IsOrder(a, servers.Keys) && IsOrder(b, servers.Keys)
        ensures RegistryOf(servers, f, a) == RegistryOf(servers, f, b)
      {
        OrdersGiveRegistries(servers, f, a);
        OrdersGiveRegistries(servers, f, b);
        RegistryIsUnique(servers, f, RegistryOf(servers, f, a), RegistryOf(servers, f, b));
      }
    } else {
      var s1, t1, s2, t2 :| Collide(servers, f, s1, t1, s2, t2);
      var a, b := CollisionDependsOnOrder(servers, f, s1, t1, s2, t2);
    }
  }

  /** Safe server names exclude collisions. */
  lemma SafeNamesDoNotCollide(servers: map<string, ServerConfig>, f: Filters, s1: string, t1: string, s2: string, t2: string)
    requires forall s :: s in servers ==> SafeServerName(s)
    ensures !Collide(servers, f, s1, t1, s2, t2)
  {
    if s1 in servers && s2 in servers && PublicName(s1, t1) == PublicName(s2, t2) {
      PublicNameIsInjective(s1, t1, s2, t2);
    }
  }

  /** A double underscore in a server name does allow one. */
  lemma UnsafeNamesCollide()
    ensures PublicName("a", "b__c") == PublicName("a__b", "c")
  {
  }

  /***** collapseUnderscores *****/

  function Collapse(s: string): string {
    if s == "" then ""
    else
      var c := Collapse(s[..|s| - 1]);
      if s[|s| - 1] == '_' && c != "" && c[|c| - 1] == '_' then c else c + [s[|s| - 1]]
  }

  method CollapseUnderscores(s: string) returns (r: string)
    ensures r == Collapse(s)
  {
    r := "";
    var prev := '\0';
    for i := 0 to |s|
      invariant r == Collapse(s[..i])
      invariant prev == if i == 0 then '\0' else s[i - 1]
      invariant i > 0 ==> r != "" && r[|r| - 1] == s[i - 1]
    {
      assert s[..i + 1][..i] == s[..i];
      if s[i] == '_' && prev == '_' { continue; }
      r := r + [s[i]];
      prev := s[i];
    }
    assert s[..|s|] == s;
  }

  ghost predicate NoRun(s: string) {
    forall i :: 0 <= i < |s| - 1 ==> !(s[i] == '_' && s[i + 1] == '_')
  }

  lemma {:induction false} CollapseHasNoRun(s: string)
    ensures NoRun(Collapse(s))
    ensures s != "" ==> Collapse(s) != "" && Collapse(s)[|Collapse(s)| - 1] == s[|s| - 1]
  {
    if s != "" { CollapseHasNoRun(s[..|s| - 1]); }
  }

  /** Names without runs of underscores are fixed. */
  lemma {:induction false} NoRunIsFixed(s: string)
    requires NoRun(s)
    ensures Collapse(s) == s
  {
    if s != "" {
      NoRunIsFixed(s[..|s| - 1]);
      if |s| > 1 { assert !(s[|s| - 2] == '_' && s[|s| - 1] == '_'); }
    }
  }

  lemma CollapseIsIdempotent(s: string)
    ensures Collapse(Collapse(s)) == Collapse(s)
  {
    CollapseHasNoRun(s);
    NoRunIsFixed(Collapse(s));
  }

  /** The text between underscores. */
  function Plain(s: string): string {
    if s == "" then "" else Plain(s[..|s| - 1]) + if s[|s| - 1] == '_' then "" else [s[|s| - 1]]
  }

  lemma {:induction false} CollapseKeepsText(s: string)
    ensures Plain(Collapse(s)) == Plain(s)
  {
    if s != "" {
      var front := s[..|s| - 1];
      CollapseKeepsText(front);
      var c := Collapse(front);
      assert (c + [s[|s| - 1]])[..|c|] == c;
      assert Plain(front) + "" == Plain(front);
    }
  }

  /***** ResolveName *****/

  ghost function Matches(names: set<string>, name: string): set<string> {
    set n | n in names && Collapse(n) == Collapse(name)
  }

  /** An exact name, or else the only registered name with the same collapsed form. */
  ghost predicate Resolves(names: set<string>, name: string, r: Option<string>) {
    if name == "" then r == None
    else if name in names then r == Some(name)
    else if |Matches(names, name)| == 1 then r.Some? && Matches(names, name) == {r.value}
    else r == None
  }

  method ResolveName(names: set<string>, name: string) returns (r: Option<string>)
    ensures Resolves(names, name, r)
  {
    if name == "" { return None; }
    if name in names { return Some(name); }
    var needle := CollapseUnderscores(name);
    var matches: seq<string> := [];
    var left := names;
    ghost var seen: set<string> := {};
    while left != {}
      invariant left <= names && seen == Matches(names - left, name)
      invariant |matches| == |seen| && forall i :: 0 <= i < |matches| ==> matches[i] in seen
      decreases |left|
    {
      var registered := Pick(left);
      var collapsed := CollapseUnderscores(registered);
      MatchesStep(names, left, name, registered);
      if collapsed == needle {
        assert registered !in seen;
        matches := matches + [registered];
        seen := seen + {registered};
      }
      left := left - {registered};
    }
    assert names - left == names;
    if |matches| == 1 {
      SingletonIs(seen, matches[0]);
      return Some(matches[0]);
    }
    return None;
  }

  lemma MatchesStep(names: set<string>, left: set<string>, name: string, n: string)
    requires left <= names && n in left
    ensures Matches(names - (left - {n}), name) ==
            Matches(names - left, name) + if Collapse(n) == Collapse(name) then {n} else {}
    ensures n !in Matches(names - left, name)
  {
  }

  lemma SingletonIs<T>(s: set<T>, x: T)
    requires |s| == 1 && x in s
    ensures s == {x}
  {
    assert |s - {x}| == 0;
  }

  ghost predicate DistinctCollapsed(names: set<string>) {
    forall a, b :: a in names && b in names && Collapse(a) == Collapse(b) ==> a == b
  }

  ghost predicate FoundCollapsed(names: set<string>) {
    forall n, r :: n in names && Resolves(names, Collapse(n), r) ==> r == Some(n)
  }

  /**
   * Every registered name is found from its collapsed form if and only if the collapsed forms are
   * pairwise distinct.
   */
  lemma CollapsedNamesResolve(names: set<string>)
    requires "" !in names
    ensures DistinctCollapsed(names) <==> FoundCollapsed(names)
  {
    if DistinctCollapsed(names) {
      forall n, r | n in names && Resolves(names, Collapse(n), r) ensures r == Some(n) {
        SpellingResolves(names, n, Collapse(n), r);
      }
    }
    if FoundCollapsed(names) {
      forall a, b | a in names && b in names && Collapse(a) == Collapse(b) ensures a == b {
        var r := ResolutionExists(names, Collapse(a));
        assert Resolves(names, Collapse(b), r);
        assert r == Some(a) && r == Some(b);
      }
    }
  }

  lemma ResolutionExists(names: set<string>, name: string) returns (r: Option<string>)
    ensures Resolves(names, name, r)
  {
    if name != "" && name !in names && |Matches(names, name)| == 1 {
      var x :| x in Matches(names, name);
      SingletonIs(Matches(names, name), x);
      r := Some(x);
    } else {
      r := if name != "" && name in names then Some(name) else None;
    }
  }

  /** Any spelling that collapses to the same form is accepted too. */
  lemma SpellingResolves(names: set<string>, n: string, spelling: string, r: Option<string>)
    requires "" !in names && DistinctCollapsed(names) && n in names
    requires Collapse(spelling) == Collapse(n) || spelling == Collapse(n)
    requires Resolves(names, spelling, r)
    ensures r == Some(n)
  {
    CollapseIsIdempotent(n);
    CollapseHasNoRun(n);
    CollapseHasNoRun(spelling);
    var m := Matches(names, spelling);
    forall x | x in m ensures x == n {}
    assert n in m;
    assert m == {n};
  }
}
