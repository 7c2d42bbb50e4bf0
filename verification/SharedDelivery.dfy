/**
 Where the host sends a packet when many projects share it.  The base chain jumps to every project's own chain
 in the order the jumps were added, and the first rule that takes the packet decides.  What it leaves for a
 transit address goes to the namespace that the subnet is routed to, and the rules there come next.
 */
module SharedDelivery {
  import opened Options
  import opened PortForwards
  import opened HostChains

  datatype Declaration = Declaration(firstVni: nat, forwards: seq<PortForward>)
  {
    function Octet3(): nat { Octet(firstVni) }
    function Host(): seq<Dnat> { HostRules(forwards, Octet3(), |forwards|) }
    function Namespace(): seq<Dnat> { NamespaceRules(forwards, Octet3(), |forwards|) }
    predicate Claimed(p: Packet) { FirstClaim(forwards, p, |forwards|).Some? }
  }

  /** The route to a transit subnet leads to a project's veth. */
  datatype Route = Route(octet3: nat, pid: string)

  /** `hosts`: what the projects' host chains were made from.  `spaces`: what their namespaces were made from. */
  datatype World = World(tables: Tables, hosts: map<string, Declaration>, spaces: map<string, Declaration>,
                         routes: seq<Route>)
  {
    function Lines(): seq<Line> { Get(tables, Base(Prerouting)) }
  }

  const NO_WORLD := World(map[], map[], map[], [])

  // ---------- setups and teardowns ----------

  datatype Config = Config(firstVni: nat, gateway: Option<Gateway>)
  {
    predicate Nat() { gateway.Some? && NatMode(gateway.value.mode) }

    function Forwards(): seq<PortForward> {
      if gateway.Some? && gateway.value.mode == "nat-portforward" then gateway.value.forwards else []
    }

    function Wanted(pid: string): Body
      requires gateway.Some?
    {
      HostBody(HostVeth(pid), Subnet(172, 30, Octet(firstVni)), gateway.value, Octet(firstVni))
    }
  }

  /** `DropNamespace` is `networks/teardown`, which leaves the host's tables alone. */
  datatype Event = SetUpNetwork(id: string, config: Config) | TearDownNetwork(id: string) | DropNamespace(id: string)

  predicate HasRoute(routes: seq<Route>, octet3: nat) {
    exists k :: 0 <= k < |routes| && routes[k].octet3 == octet3
  }

  /**
   A new namespace brings its veth and the route with it, behind the routes there are.  With an old one only
   the explicit route is added, which fails when the subnet has one.
   */
  function WithRoute(routes: seq<Route>, pid: string, octet3: nat, isNew: bool): seq<Route> {
    if isNew || !HasRoute(routes, octet3) then routes + [Route(octet3, pid)] else routes
  }

  function WithoutRoutes(routes: seq<Route>, pid: string): seq<Route> {
    if routes == [] then []
    else (if routes[0].pid == pid then [] else [routes[0]]) + WithoutRoutes(routes[1..], pid)
  }

  /** Requests that are served to the end; an id that is not valid is refused. */
  function Next(w: World, event: Event): World {
    if !IsUuid(event.id) then w
    else
      var pid := Pid(event.id);
      match event
      case SetUpNetwork(_, config) =>
        var d := Declaration(config.firstVni, config.Forwards());
        World(if config.Nat() then AfterSetup(w.tables, pid, config.Wanted(pid)) else w.tables,
              if config.Nat() then w.hosts[pid := d] else w.hosts,
              w.spaces[pid := d],
              WithRoute(w.routes, pid, d.Octet3(), pid !in w.spaces))
      case TearDownNetwork(_) =>
        World(AfterTeardown(w.tables, pid), w.hosts - {pid}, w.spaces - {pid}, WithoutRoutes(w.routes, pid))
      case DropNamespace(_) => w.(spaces := w.spaces - {pid}, routes := WithoutRoutes(w.routes, pid))
  }

  function Run(w: World, events: seq<Event>): World
    decreases |events|
  {
    if events == [] then w else Run(Next(w, events[0]), events[1..])
  }

  // ---------- what always holds ----------

  /** Every project's own chains hold the rules of its forwards, its veth and its subnet. */
  ghost predicate Installed(s: Tables, projects: map<string, Declaration>) {
    forall pid :: pid in projects ==> Has(s, pid, projects[pid])
  }

  predicate Has(s: Tables, pid: string, d: Declaration) {
    && Get(s, Project(Prerouting, pid)) == DnatLines(d.Host())
    && Get(s, Project(Forward, pid)) == [AcceptFrom(HostVeth(pid)), AcceptTo(HostVeth(pid))]
    && Get(s, Project(Postrouting, pid)) == [Masquerade(Subnet(172, 30, d.Octet3()))]
  }

  ghost predicate WorldOk(w: World) {
    && Ok(w.tables, w.hosts.Keys) && Installed(w.tables, w.hosts)
    && Owned(w.routes, w.spaces)
  }

  /** Every route leads to a namespace that is there. */
  ghost predicate Owned(routes: seq<Route>, spaces: map<string, Declaration>) {
    forall k :: 0 <= k < |routes| ==> routes[k].pid in spaces
  }

  lemma NoWorldOk()
    ensures WorldOk(NO_WORLD)
  {
    forall hook ensures HookOk(map[], {}, hook) {}
  }

  lemma {:induction false} WithoutRoutesExact(routes: seq<Route>, pid: string)
    ensures forall r :: r in WithoutRoutes(routes, pid) <==> r in routes && r.pid != pid
  {
    if routes != [] {
      WithoutRoutesExact(routes[1..], pid);
      assert routes == [routes[0]] + routes[1..];
    }
  }

  lemma RoutesStayOwned(routes: seq<Route>, pid: string, spaces: map<string, Declaration>)
    requires Owned(routes, spaces)
    ensures Owned(WithoutRoutes(routes, pid), spaces - {pid})
  {
    WithoutRoutesExact(routes, pid);
    var left := WithoutRoutes(routes, pid);
    forall k | 0 <= k < |left| ensures left[k].pid in spaces - {pid} {
      assert left[k] in left;
    }
  }

  /** A setup installs its project's rules and leaves those of the others. */
  lemma SetupInstalls(s: Tables, projects: map<string, Declaration>, pid: string, config: Config)
    requires Installed(s, projects) && config.gateway.Some?
    ensures Installed(AfterSetup(s, pid, config.Wanted(pid)),
        projects[pid := Declaration(config.firstVni, config.Forwards())])
  {
    var t := AfterSetup(s, pid, config.Wanted(pid));
    forall q, hook | q in projects && q != pid ensures Get(t, Project(hook, q)) == Get(s, Project(hook, q)) {
      Isolation(s, Setup(pid, "nat", config.Wanted(pid)), Project(hook, q));
    }
  }

  /** A teardown leaves the rules of the others. */
  lemma TeardownKeepsInstalled(s: Tables, projects: map<string, Declaration>, pid: string)
    requires Installed(s, projects)
    ensures Installed(AfterTeardown(s, pid), projects - {pid})
  {
    forall q, hook | q in projects && q != pid
      ensures Get(AfterTeardown(s, pid), Project(hook, q)) == Get(s, Project(hook, q))
    {
      Isolation(s, Teardown(pid), Project(hook, q));
    }
  }

  lemma OneOpKeepsOk(s: Tables, active: set<string>, op: Op)
    requires Ok(s, active) && Sane(op)
    ensures Ok(Apply(s, op), ActiveAfter(active, op))
  {
    RunKeepsOk(s, active, [op]);
    assert [op][1..] == [];
    assert HostChains.Run(s, [op]) == Apply(s, op) && ActiveRun(active, [op]) == ActiveAfter(active, op);
  }

  lemma NextKeeps(w: World, event: Event)
    requires WorldOk(w)
    ensures WorldOk(Next(w, event))
  {
    hide Ok, Installed, AfterSetup, AfterTeardown;
    if IsUuid(event.id) {
      var pid := Pid(event.id);
      match event
      case SetUpNetwork(_, config) =>
        if config.Nat() {
          SetupInstalls(w.tables, w.hosts, pid, config);
          OneOpKeepsOk(w.tables, w.hosts.Keys, Setup(pid, config.gateway.value.mode, config.Wanted(pid)));
          assert (w.hosts[pid := Declaration(config.firstVni, config.Forwards())]).Keys == w.hosts.Keys + {pid};
        }
      case TearDownNetwork(_) =>
        TeardownKeepsInstalled(w.tables, w.hosts, pid);
        OneOpKeepsOk(w.tables, w.hosts.Keys, Teardown(pid));
        assert (w.hosts - {pid}).Keys == w.hosts.Keys - {pid};
        RoutesStayOwned(w.routes, pid, w.spaces);
      case DropNamespace(_) => RoutesStayOwned(w.routes, pid, w.spaces);
    }
  }

  /** Over any run of setups and teardowns of any projects the host's chains are right and hold what was declared. */
  lemma {:induction false} RunKeeps(w: World, events: seq<Event>)
    requires WorldOk(w)
    ensures WorldOk(Run(w, events))
    decreases |events|
  {
    hide WorldOk;
    if events != [] {
      NextKeeps(w, events[0]);
      RunKeeps(Next(w, events[0]), events[1..]);
    }
  }

  // ---------- what becomes of a packet ----------

  /** After the host's chains: the packet, as it is sent on, or a rule that is not ours took it. */
  datatype Outcome = Sent(packet: Packet) | Elsewhere

  /** In the end: in a project's namespace, sent on by the host, or taken by a rule that is not ours. */
  datatype Arrival = In(pid: string, packet: Packet) | Onward(packet: Packet) | Taken

  type Foreign = (Line, Packet) -> bool

  predicate Hits(rules: seq<Dnat>, p: Packet) {
    exists k :: 0 <= k < |rules| && rules[k].Matches(p)
  }

  /** The line takes the packet; what foreign lines do is a parameter. */
  predicate Takes(s: Tables, foreign: Foreign, line: Line, p: Packet) {
    match line
    case Jump(Project(Prerouting, pid)) => Hits(DnatsOf(Get(s, line.target)), p)
    case _ => foreign(line, p)
  }

  function Turn(s: Tables, line: Line, p: Packet): Outcome {
    match line
    case Jump(Project(Prerouting, pid)) => Sent(Translate(DnatsOf(Get(s, line.target)), p))
    case _ => Elsewhere
  }

  /** The base chain: the first line that takes the packet decides. */
  function Through(s: Tables, foreign: Foreign, lines: seq<Line>, p: Packet): Outcome {
    if lines == [] then Sent(p)
    else if Takes(s, foreign, lines[0], p) then Turn(s, lines[0], p)
    else Through(s, foreign, lines[1..], p)
  }

  /** The project whose veth an address is routed to: the first route decides. */
  function Owner(routes: seq<Route>, ip: Ip): Option<string> {
    if routes == [] then None
    else if InTransitSubnet(routes[0].octet3, ip) then Some(routes[0].pid)
    else Owner(routes[1..], ip)
  }

  lemma {:induction false} OwnerHasRoute(routes: seq<Route>, ip: Ip, spaces: map<string, Declaration>)
    requires Owned(routes, spaces)
    ensures Owner(routes, ip).Some? ==> Owner(routes, ip).value in spaces
  {
    if routes != [] {
      assert forall k :: 0 <= k < |routes[1..]| ==> routes[1..][k] == routes[k + 1];
      OwnerHasRoute(routes[1..], ip, spaces);
    }
  }

  lemma {:induction false} OwnerAppend(routes: seq<Route>, last: Route, ip: Ip)
    ensures Owner(routes + [last], ip) ==
      if Owner(routes, ip).Some? then Owner(routes, ip)
      else if InTransitSubnet(last.octet3, ip) then Some(last.pid) else None
  {
    if routes == [] {
      assert routes + [last] == [last];
    } else {
      assert (routes + [last])[1..] == routes[1..] + [last];
      OwnerAppend(routes[1..], last, ip);
    }
  }

  lemma {:induction false} OwnerIffRoute(routes: seq<Route>, ip: Ip)
    ensures Owner(routes, ip).Some? <==> exists r :: r in routes && InTransitSubnet(r.octet3, ip)
  {
    if routes != [] {
      assert routes == [routes[0]] + routes[1..] && routes[0] in routes;
      OwnerIffRoute(routes[1..], ip);
    }
  }

  /**
   A setup routes its subnet to its project if the subnet has no route, and changes no route there is; a namespace
   that was not there leaves a route of its own behind the others in any case.
   */
  lemma SetupRoutes(w: World, id: string, config: Config, ip: Ip)
    requires IsUuid(id)
    ensures var n := Next(w, SetUpNetwork(id, config));
      && (Owner(w.routes, ip).Some? ==> Owner(n.routes, ip) == Owner(w.routes, ip))
      && (Owner(w.routes, ip).None? ==>
            Owner(n.routes, ip) == if InTransitSubnet(config.firstVni % 256, ip) then Some(Pid(id)) else None)
      && (Pid(id) !in w.spaces ==> Route(config.firstVni % 256, Pid(id)) in n.routes)
      && n.spaces == w.spaces[Pid(id) := Declaration(config.firstVni, config.Forwards())]
  {
    hide IsUuid, Pid;
    var route := Route(config.firstVni % 256, Pid(id));
    OwnerAppend(w.routes, route, ip);
    OwnerIffRoute(w.routes, ip);
    var n := Next(w, SetUpNetwork(id, config));
    if n.routes == w.routes && InTransitSubnet(config.firstVni % 256, ip) {
      var k :| 0 <= k < |w.routes| && w.routes[k].octet3 == route.octet3;
      assert w.routes[k] in w.routes;
    }
  }

  lemma {:induction false} OwnerWithout(routes: seq<Route>, pid: string, ip: Ip)
    ensures Owner(WithoutRoutes(routes, pid), ip) != Some(pid)
    ensures Owner(routes, ip) != Some(pid) ==> Owner(WithoutRoutes(routes, pid), ip) == Owner(routes, ip)
  {
    if routes != [] {
      OwnerWithout(routes[1..], pid, ip);
      var rest := WithoutRoutes(routes[1..], pid);
      assert routes[0].pid != pid ==> WithoutRoutes(routes, pid)[1..] == rest;
      assert routes[0].pid == pid ==> WithoutRoutes(routes, pid) == rest;
    }
  }

  /** Taking a project down leaves every other subnet as it was; its own goes to a project that shares it, if any. */
  lemma TeardownRoutes(w: World, event: Event, ip: Ip)
    requires IsUuid(event.id) && !event.SetUpNetwork?
    ensures var n, pid := Next(w, event), Pid(event.id);
      && n.spaces == w.spaces - {pid} && (event.DropNamespace? ==> n.tables == w.tables)
      && Owner(n.routes, ip) != Some(pid)
      && (Owner(w.routes, ip) != Some(pid) ==> Owner(n.routes, ip) == Owner(w.routes, ip))
      && (Owner(n.routes, ip).Some? <==>
            exists r :: r in w.routes && r.pid != pid && InTransitSubnet(r.octet3, ip))
  {
    hide IsUuid, Pid;
    OwnerWithout(w.routes, Pid(event.id), ip);
    WithoutRoutesExact(w.routes, Pid(event.id));
    OwnerIffRoute(WithoutRoutes(w.routes, Pid(event.id)), ip);
  }

  function Arrives(w: World, foreign: Foreign, p: Packet): Arrival
    requires Owned(w.routes, w.spaces)
  {
    match Through(w.tables, foreign, w.Lines(), p)
    case Elsewhere => Taken
    case Sent(q) =>
      OwnerHasRoute(w.routes, q.daddr, w.spaces);
      match Owner(w.routes, q.daddr)
      case None => Onward(q)
      case Some(pid) => In(pid, Received(q.daddr.c, w.spaces[pid].Namespace(), q))
  }

  // ---------- who takes it ----------

  /** The first line that takes the packet. */
  function FirstTaker(s: Tables, foreign: Foreign, lines: seq<Line>, p: Packet): (r: Option<nat>)
    ensures r.None? ==> forall k :: 0 <= k < |lines| ==> !Takes(s, foreign, lines[k], p)
    ensures r.Some? ==> r.value < |lines| && Takes(s, foreign, lines[r.value], p)
    ensures r.Some? ==> forall k :: 0 <= k < r.value ==> !Takes(s, foreign, lines[k], p)
  {
    if lines == [] then None
    else if Takes(s, foreign, lines[0], p) then Some(0)
    else
      assert forall k :: 0 < k < |lines| ==> lines[k] == lines[1..][k - 1];
      match FirstTaker(s, foreign, lines[1..], p)
      case None => None
      case Some(k) => Some(k + 1)
  }

  lemma {:induction false} TakerDecides(s: Tables, foreign: Foreign, lines: seq<Line>, p: Packet)
    ensures Through(s, foreign, lines, p) ==
      match FirstTaker(s, foreign, lines, p)
      case None => Sent(p)
      case Some(k) => Turn(s, lines[k], p)
  {
    if lines != [] {
      TakerDecides(s, foreign, lines[1..], p);
    }
  }

  /** Where a project's chain sends what it claims. */
  function Hop(d: Declaration, p: Packet): Packet
    requires d.Claimed(p)
  {
    var k := FirstClaim(d.forwards, p, |d.forwards|).value;
    p.(daddr := TransitIp(d.Octet3(), k), dport := d.forwards[k].HostPort())
  }

  /** A project's chain takes a packet exactly when one of its complete forwards claims it. */
  lemma TakesWhatIsClaimed(s: Tables, projects: map<string, Declaration>, foreign: Foreign, pid: string, p: Packet)
    requires Installed(s, projects) && pid in projects
    ensures var d, jump := projects[pid], Jump(Project(Prerouting, pid));
      && (Takes(s, foreign, jump, p) <==> d.Claimed(p))
      && (d.Claimed(p) ==> Turn(s, jump, p) == Sent(Hop(d, p)))
  {
    var d := projects[pid];
    DnatsOfLines(d.Host());
    HostHop(d.forwards, d.Octet3(), |d.forwards|, p);
  }

  /** Every jump to a project's chain is to that of a project with a host chain. */
  lemma JumpsAreDeclared(w: World)
    requires WorldOk(w)
    ensures forall pid :: Jump(Project(Prerouting, pid)) in w.Lines() ==> pid in w.hosts
  {
    var lines := w.Lines();
    assert HookOk(w.tables, w.hosts.Keys, Prerouting);
    forall pid | Jump(Project(Prerouting, pid)) in lines ensures pid in w.hosts {
      var k :| 0 <= k < |lines| && lines[k] == Jump(Project(Prerouting, pid));
      assert Civil(lines[k], Prerouting);
      if pid !in w.hosts.Keys {
        NoJump(lines, Project(Prerouting, pid));
      }
    }
  }

  lemma {:induction false} NoJump(lines: seq<Line>, chain: Chain)
    requires Jumps(lines, chain) == 0
    ensures forall k :: 0 <= k < |lines| ==> lines[k] != Jump(chain)
  {
    if lines != [] {
      NoJump(lines[1..], chain);
      assert forall k :: 0 < k < |lines| ==> lines[k] == lines[1..][k - 1];
    }
  }

  /** The packet was taken by the chain of this project. */
  ghost predicate TakenBy(w: World, foreign: Foreign, p: Packet, pid: string) {
    var r := FirstTaker(w.tables, foreign, w.Lines(), p);
    r.Some? && w.Lines()[r.value] == Jump(Project(Prerouting, pid))
  }

  // ---------- where it arrives ----------

  /** What a namespace makes of a packet for the transit address of index `k` in the subnet `octet3`. */
  function Leads(d: Declaration, octet3: nat, k: nat, h: Packet): Packet {
    if octet3 == d.Octet3() && k < |d.forwards| && d.forwards[k].Complete() && Reachable(k)
       && h.dport == d.forwards[k].EffectivePort()
    then h.(daddr := d.forwards[k].intIp.value, dport := d.forwards[k].intPort)
    else h
  }

  lemma {:induction false} NoRuleYet(forwards: seq<PortForward>, octet3: nat, n: nat, p: Packet, k: nat)
    requires n <= |forwards| && n <= k && p.daddr == TransitIp(octet3, k)
    ensures !Hits(NamespaceRules(forwards, octet3, n), p) && Translate(NamespaceRules(forwards, octet3, n), p) == p
  {
    if n > 0 {
      NoRuleYet(forwards, octet3, n - 1, p, k);
      var earlier := NamespaceRules(forwards, octet3, n - 1);
      var rules := NamespaceRules(forwards, octet3, n);
      var added := rules[|earlier|..];
      assert rules == earlier + added;
      TranslateAppend(earlier, added, p);
      if added != [] {
        assert added[1..] == [];
      }
    }
  }

  lemma NamespaceLeads(d: Declaration, octet3: nat, k: nat, h: Packet)
    requires h.daddr == TransitIp(octet3, k) && h.proto == "tcp"
    ensures Received(octet3, d.Namespace(), h) == Leads(d, octet3, k, h)
  {
    if octet3 != d.Octet3() {
      NamespaceIgnoresOutside(d.forwards, d.Octet3(), |d.forwards|, h);
    } else if k < |d.forwards| {
      NamespaceHop(d.forwards, octet3, |d.forwards|, h, k);
    } else {
      NoRuleYet(d.forwards, octet3, |d.forwards|, h, k);
    }
  }

  lemma ClaimedIsTcp(d: Declaration, p: Packet)
    requires d.Claimed(p)
    ensures p.proto == "tcp"
  {
  }

  /** Whose chain takes a packet decides where it arrives, with the routes and the namespace behind them. */
  lemma WhereItArrives(w: World, foreign: Foreign, p: Packet, q: string)
    requires WorldOk(w) && TakenBy(w, foreign, p, q)
    ensures q in w.hosts && w.hosts[q].Claimed(p)
    ensures var d := w.hosts[q];
      var k, h := FirstClaim(d.forwards, p, |d.forwards|).value, Hop(d, p);
      Arrives(w, foreign, p) ==
      match Owner(w.routes, h.daddr)
      case None => Onward(h)
      case Some(o) => if o in w.spaces then In(o, Leads(w.spaces[o], d.Octet3(), k, h)) else Taken
  {
    hide Takes, Turn, Ok, Installed;
    var lines := w.Lines();
    var at := FirstTaker(w.tables, foreign, lines, p).value;
    assert lines[at] in lines;
    JumpsAreDeclared(w);
    TakesWhatIsClaimed(w.tables, w.hosts, foreign, q, p);
    TakerDecides(w.tables, foreign, lines, p);
    var d := w.hosts[q];
    var k, h := FirstClaim(d.forwards, p, |d.forwards|).value, Hop(d, p);
    ClaimedIsTcp(d, p);
    OwnerHasRoute(w.routes, h.daddr, w.spaces);
    var o := Owner(w.routes, h.daddr);
    if o.Some? {
      NamespaceLeads(w.spaces[o.value], d.Octet3(), k, h);
    }
  }

  /** What `q` takes reaches the namespace of `pid`, and is led there to what `pid` declares. */
  ghost predicate Serves(w: World, q: string, pid: string, p: Packet)
    requires pid in w.hosts
  {
    && q in w.hosts && w.hosts[q].Claimed(p) && pid in w.spaces
    && Owner(w.routes, Hop(w.hosts[q], p).daddr) == Some(pid)
    && Leads(w.spaces[pid], w.hosts[q].Octet3(), FirstClaim(w.hosts[q].forwards, p, |w.hosts[q].forwards|).value,
             Hop(w.hosts[q], p)) == Declared(w.hosts[pid].forwards, p)
  }

  /**
   Delivery among many projects, with no assumption about their subnets: a packet that a project claims arrives
   as the project declares if and only if the chain that takes it first is that of a project, its own or another,
   from which the routes lead to this project's namespace and the rules there to the declared target.
   */
  lemma ArrivesAsDeclared(w: World, foreign: Foreign, pid: string, p: Packet)
    requires WorldOk(w) && pid in w.hosts && w.hosts[pid].Claimed(p)
    ensures Arrives(w, foreign, p) == In(pid, Declared(w.hosts[pid].forwards, p)) <==>
      exists q :: TakenBy(w, foreign, p, q) && Serves(w, q, pid, p)
  {
    hide Takes, Turn, Ok, Installed, Leads, Hop, Declared;
    var lines := w.Lines();
    TakerDecides(w.tables, foreign, lines, p);
    SomebodyTakes(w, foreign, pid, p);
    var line := lines[FirstTaker(w.tables, foreign, lines, p).value];
    match line
    case Jump(Project(Prerouting, q)) =>
      assert TakenBy(w, foreign, p, q);
      WhereItArrives(w, foreign, p, q);
    case _ =>
      assert Turn(w.tables, line, p) == Elsewhere by { NotOurs(w.tables, line, p); }
  }

  lemma NotOurs(s: Tables, line: Line, p: Packet)
    requires !(line.Jump? && line.target.Project? && line.target.hook == Prerouting)
    ensures Turn(s, line, p) == Elsewhere
  {
  }

  /** What a project claims is taken by its own jump at the latest. */
  lemma SomebodyTakes(w: World, foreign: Foreign, pid: string, p: Packet)
    requires WorldOk(w) && pid in w.hosts && w.hosts[pid].Claimed(p)
    ensures FirstTaker(w.tables, foreign, w.Lines(), p).Some?
  {
    hide Takes;
    var at := HasItsPlace(w, pid);
    TakesWhatIsClaimed(w.tables, w.hosts, foreign, pid, p);
    assert w.Lines()[at] == Jump(Project(Prerouting, pid)) && Takes(w.tables, foreign, w.Lines()[at], p);
  }

  /** Its jump is there once, at this place. */
  ghost predicate JumpsAt(lines: seq<Line>, chain: Chain, at: nat) {
    at < |lines| && forall k :: 0 <= k < |lines| ==> (lines[k] == Jump(chain) <==> k == at)
  }

  lemma {:induction false} OneJump(lines: seq<Line>, chain: Chain) returns (at: nat)
    requires Jumps(lines, chain) == 1
    ensures JumpsAt(lines, chain, at)
  {
    assert forall k :: 0 < k < |lines| ==> lines[k] == lines[1..][k - 1];
    if lines[0] == Jump(chain) {
      NoJump(lines[1..], chain);
      at := 0;
    } else {
      at := OneJump(lines[1..], chain);
      at := at + 1;
    }
  }

  /** The jump of every project with a host chain stands at exactly one place. */
  lemma HasItsPlace(w: World, pid: string) returns (at: nat)
    requires WorldOk(w) && pid in w.hosts
    ensures JumpsAt(w.Lines(), Project(Prerouting, pid), at)
  {
    assert HookOk(w.tables, w.hosts.Keys, Prerouting);
    at := OneJump(w.Lines(), Project(Prerouting, pid));
  }

  /** A project's own chain serves it if and only if its subnet's route is its own and the two hops work. */
  lemma ServesItself(w: World, pid: string, p: Packet)
    requires pid in w.hosts && pid in w.spaces && w.hosts[pid] == w.spaces[pid] && w.hosts[pid].Claimed(p)
    ensures var d := w.hosts[pid];
      var k := FirstClaim(d.forwards, p, |d.forwards|).value;
      Serves(w, pid, pid, p) <==>
      && Owner(w.routes, TransitIp(d.Octet3(), k)) == Some(pid)
      && (|| (d.forwards[k].HopsAgree() && Reachable(k))
          || Declared(d.forwards, p) == Hop(d, p))
  {
    var d := w.hosts[pid];
    var k := FirstClaim(d.forwards, p, |d.forwards|).value;
    var f := d.forwards[k];
    assert f.Claims(p) && (f.HostPort() == f.EffectivePort() <==> f.HopsAgree());
    assert Leads(d, d.Octet3(), k, Hop(d, p)) ==
      if f.HopsAgree() && Reachable(k) then Declared(d.forwards, p) else Hop(d, p);
  }

  /** Other projects leave the subnet and the target of this one alone. */
  ghost predicate Alone(w: World, pid: string, target: Ip) {
    forall q :: q in w.hosts && q != pid && pid in w.hosts ==>
      w.hosts[q].Octet3() != w.hosts[pid].Octet3() && !InTransitSubnet(w.hosts[q].Octet3(), target)
  }

  /**
   The usual case: the project was last set up with its gateway, the forward's two hops work, and no other
   project has the octet of its subnet, or that of its target, which may be in its own.  Then a packet arrives as
   declared if and only if no foreign rule and no project jumped to earlier takes it and the subnet is routed to
   this project.
   */
  lemma ArrivesIfFirst(w: World, foreign: Foreign, pid: string, at: nat, p: Packet)
    requires WorldOk(w) && pid in w.hosts && pid in w.spaces && w.hosts[pid] == w.spaces[pid]
    requires w.hosts[pid].Claimed(p) && JumpsAt(w.Lines(), Project(Prerouting, pid), at)
    ensures var d := w.hosts[pid];
      var k := FirstClaim(d.forwards, p, |d.forwards|).value;
      d.forwards[k].HopsAgree() && Reachable(k) && Alone(w, pid, Declared(d.forwards, p).daddr) ==>
      (Arrives(w, foreign, p) == In(pid, Declared(d.forwards, p)) <==>
         FirstTaker(w.tables, foreign, w.Lines(), p) == Some(at)
             && Owner(w.routes, TransitIp(d.Octet3(), k)) == Some(pid))
  {
    hide Takes, Turn, Ok, Installed, Owner, FirstTaker;
    var d := w.hosts[pid];
    var k := FirstClaim(d.forwards, p, |d.forwards|).value;
    ArrivesAsDeclared(w, foreign, pid, p);
    ServesItself(w, pid, p);
    SomebodyTakes(w, foreign, pid, p);
    var lines := w.Lines();
    var first := FirstTaker(w.tables, foreign, lines, p).value;
    if first == at {
      assert TakenBy(w, foreign, p, pid);
    }
    forall q | q != pid && Alone(w, pid, Declared(d.forwards, p).daddr) ensures !Serves(w, q, pid, p) {
    }
  }

  // ---------- where it fails ----------

  const A := "aaaaaaaa"
  const B := "bbbbbbbb"
  const A_ID := IdOf(A, '1')
  const B_ID := IdOf(B, '2')

  lemma IdsOfAandB()
    ensures IsUuid(A_ID) && IsUuid(B_ID) && Pid(A_ID) == A && Pid(B_ID) == B && A != B
  {
    hide IsUuid, Pid;
    IdOfIsUuid(A, '1');
    IdOfIsUuid(B, '2');
    assert A[0] != B[0];
  }

  /** A project that forwards one port of the host to port 80 of a machine of its own. */
  function Forwarding(firstVni: nat, port: nat): Config {
    Config(firstVni, Some(Gateway("nat-portforward", "", "",
        [PortForward(80, Some(Ip(10, 0, 0, 5)), 80, None, port)])))
  }

  function TwoSetups(a: Config, b: Config): seq<Event> {
    [SetUpNetwork(A_ID, a), SetUpNetwork(B_ID, b)]
  }

  /** The world after two projects were set up on a fresh host. */
  lemma TwoProjects(a: Config, b: Config)
    requires a.Nat() && b.Nat()
    ensures var w := Run(NO_WORLD, TwoSetups(a, b));
      && WorldOk(w)
      && w.hosts == w.spaces == map[A := Declaration(a.firstVni, a.Forwards()),
          B := Declaration(b.firstVni, b.Forwards())]
      && w.routes == [Route(Octet(a.firstVni), A), Route(Octet(b.firstVni), B)]
      && w.Lines() == [Jump(Project(Prerouting, A)), Jump(Project(Prerouting, B))]
  {
    IdsOfAandB();
    hide IsUuid, Pid, WorldOk, HostBody;
    NoWorldOk();
    RunKeeps(NO_WORLD, TwoSetups(a, b));
    var once := Next(NO_WORLD, SetUpNetwork(A_ID, a));
    var twice := Next(once, SetUpNetwork(B_ID, b));
    var events := TwoSetups(a, b);
    assert events[1..] == [events[1]] && events[1..][1..] == [];
    assert Run(twice, []) == twice;
    assert Run(once, events[1..]) == twice;
    assert Run(NO_WORLD, events) == Run(once, events[1..]);
    TwoJumps(a.Wanted(A), b.Wanted(B));
  }

  lemma TwoJumps(a: Body, b: Body)
    ensures Get(AfterSetup(AfterSetup(map[], A, a), B, b), Base(Prerouting)) ==
      [Jump(Project(Prerouting, A)), Jump(Project(Prerouting, B))]
  {
    var jump := Jump(Project(Prerouting, A));
    var once := AfterSetup(map[], A, a);
    assert !AnyMentions([], Project(Prerouting, A));
    assert Get(once, Base(Prerouting)) == [] + [jump] == [jump];
    var theirs, ours := Project(Prerouting, B).Name(), jump.target.Name();
    assert theirs[12] == 'b' && ours[12] == 'a';
    assert !AnyMentions([jump], Project(Prerouting, B));
  }

  /** One forward, claimed by every tcp packet to its port. */
  lemma ClaimsItsPort(config: Config, port: nat, p: Packet)
    requires config.firstVni >= 0 && port > 0 && config == Forwarding(config.firstVni, port) && p.proto == "tcp"
    ensures var d := Declaration(config.firstVni, config.Forwards());
      d.Claimed(p) <==> p.dport == port
    ensures p.dport == port ==> FirstClaim(config.Forwards(), p, 1) == Some(0)
  {
    var f := config.Forwards()[0];
    assert f.Claims(p) <==> p.dport == port;
    assert FirstClaim([f], p, 0) == None;
    assert FirstClaim([f], p, 1) == if f.Claims(p) then Some(0) else None;
  }

  const NOBODY: Foreign := (line, p) => false

  /** The second project claims the packet, and it ends with the first. */
  ghost predicate EndsWithA(w: World, p: Packet) {
    && WorldOk(w) && B in w.hosts && w.hosts[B].Claimed(p)
    && exists q :: Arrives(w, NOBODY, p) == In(A, q)
  }

  const TO_FIRST := Packet("tcp", Ip(192, 168, 1, 9), 20080)
  const TO_SECOND := Packet("tcp", Ip(192, 168, 1, 9), 20081)

  /** Two projects that claim one port of the host: the first one gets the connections of both. */
  lemma FirstComeFirstServed()
    ensures EndsWithA(Run(NO_WORLD, TwoSetups(Forwarding(1000, 20080), Forwarding(1001, 20080))), TO_FIRST)
  {
    var a, b := Forwarding(1000, 20080), Forwarding(1001, 20080);
    TwoProjects(a, b);
    ClaimsItsPort(a, 20080, TO_FIRST);
    ClaimsItsPort(b, 20080, TO_FIRST);
    IdsOfAandB();
    hide Run, Takes, Turn, FirstTaker, Forwarding, WorldOk, EndsWithA, TakenBy, TwoSetups, FirstClaim;
    EndsWithFirst(Run(NO_WORLD, TwoSetups(a, b)), A, TO_FIRST);
  }

  /**
   Two projects whose first VNIs agree in the low byte, with ports of their own: both subnets are the same, it is
   routed to the first project, and what the second one claims, and nothing takes before it, ends there.
   */
  lemma SharedSubnetMisroutes()
    ensures var w := Run(NO_WORLD, TwoSetups(Forwarding(1000, 20080), Forwarding(1256, 20081)));
      EndsWithA(w, TO_SECOND) && TakenBy(w, NOBODY, TO_SECOND, B)
  {
    var a, b := Forwarding(1000, 20080), Forwarding(1256, 20081);
    assert a.Nat() && b.Nat() && a.firstVni == 1000 && b.firstVni == 1256;
    assert Octet(1000) == Octet(1256) == 232;
    SecondClaimsOnly();
    hide Run, Takes, Turn, FirstTaker, Forwarding, WorldOk, EndsWithA, TakenBy, TwoSetups, FirstClaim, IsUuid, Pid,
         Declaration.Claimed, Config.Forwards, Config.Nat;
    IdsOfAandB();
    TwoProjects(a, b);
    EndsWithFirst(Run(NO_WORLD, TwoSetups(a, b)), B, TO_SECOND);
  }

  lemma SecondClaimsOnly()
    ensures !Declaration(1000, Forwarding(1000, 20080).Forwards()).Claimed(TO_SECOND)
    ensures Declaration(1256, Forwarding(1256, 20081).Forwards()).Claimed(TO_SECOND)
  {
    ClaimsItsPort(Forwarding(1000, 20080), 20080, TO_SECOND);
    ClaimsItsPort(Forwarding(1256, 20081), 20081, TO_SECOND);
  }

  /** The chain that takes the packet is known, and its subnet is routed to the first project. */
  lemma EndsWithFirst(w: World, q: string, p: Packet)
    requires WorldOk(w) && A in w.hosts && B in w.hosts && q in {A, B} && A != B
    requires w.Lines() == [Jump(Project(Prerouting, A)), Jump(Project(Prerouting, B))]
    requires w.hosts[B].Claimed(p) && (q == A <==> w.hosts[A].Claimed(p)) && A in w.spaces
    requires |w.routes| > 0 && w.routes[0] == Route(w.hosts[q].Octet3(), A)
    ensures EndsWithA(w, p) && TakenBy(w, NOBODY, p, q)
  {
    hide Takes, Turn, Ok, Installed, FirstTaker;
    TakesWhatIsClaimed(w.tables, w.hosts, NOBODY, A, p);
    TakesWhatIsClaimed(w.tables, w.hosts, NOBODY, B, p);
    var r := FirstTaker(w.tables, NOBODY, w.Lines(), p);
    assert w.Lines()[0] == Jump(Project(Prerouting, A)) && w.Lines()[1] == Jump(Project(Prerouting, B));
    assert r.Some? && r.value == if q == A then 0 else 1;
    WhereItArrives(w, NOBODY, p, q);
  }
}
