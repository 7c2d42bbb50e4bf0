/**
 The compiler behind `networks/full-setup`: from a declared topology to the filter and NAT
 rules of a project's namespace and of the host.

 What is proved is that the rule lists decide packets as the declaration does.  How nft reads
 a port or an ICMP type it is given as text is a parameter (`Reading`), so the results hold
 for service names and ranges as well as for numbers.
 */
module NetworkSetup {
  import opened Options
  import opened PortForwards
  import opened HostChains

  // ---------- packets and filter rules ----------

  datatype Packet = Packet(iif: string, oif: string, established: bool, proto: string, dport: nat, icmpType: nat)

  /** How nft reads the text of a port and of an ICMP type. */
  datatype Reading = Reading(port: (string, nat) -> bool, icmp: (string, nat) -> bool)

  datatype Payload =
    | Anything
    | EstablishedOnly
    | Icmp
    | IcmpOf(icmpType: string)
    | PortText(proto: string, text: string)
    | PortNumber(proto: string, number: nat)

  datatype Verdict = Accept | Drop

  /** A filter rule: optional interfaces, a payload match and a verdict. */
  datatype Rule = Rule(iif: Option<string>, oif: Option<string>, payload: Payload, verdict: Verdict)
  {
    predicate Matches(r: Reading, p: Packet) {
      && (iif.Some? ==> p.iif == iif.value)
      && (oif.Some? ==> p.oif == oif.value)
      && match payload
         case Anything => true
         case EstablishedOnly => p.established
         case Icmp => p.proto == "icmp"
         case IcmpOf(t) => p.proto == "icmp" && r.icmp(t, p.icmpType)
         case PortText(proto, text) => p.proto == proto && r.port(text, p.dport)
         case PortNumber(proto, number) => p.proto == proto && p.dport == number
    }
  }

  /** A filter chain: the first matching rule decides, else the policy of the chain. */
  function Decide(rules: seq<Rule>, policy: Verdict, r: Reading, p: Packet): Verdict {
    if rules == [] then policy
    else if rules[0].Matches(r, p) then rules[0].verdict
    else Decide(rules[1..], policy, r, p)
  }

  lemma {:induction false} DecideAppend(rules: seq<Rule>, rule: Rule, r: Reading, p: Packet)
    requires rule.verdict == Accept && forall k :: 0 <= k < |rules| ==> rules[k].verdict == Accept
    ensures Decide(rules + [rule], Drop, r, p) == Accept <==> Decide(rules, Drop, r, p) == Accept || rule.Matches(r, p)
  {
    if rules == [] {
      assert rules + [rule] == [rule];
    } else {
      assert (rules + [rule])[1..] == rules[1..] + [rule];
      DecideAppend(rules[1..], rule, r, p);
    }
  }

  // ---------- the declaration ----------

  datatype Router = Router(connectedVnis: seq<string>)

  function Bridge(vni: string): string {
    "br-" + vni
  }

  function BmcBridge(pid: string): string {
    "br-bmc-" + pid
  }

  /** A packet between the bridges of two entries of a router, in one direction. */
  predicate Links(vnis: seq<string>, p: Packet, from: nat, to: nat) {
    && from < |vnis| && to < |vnis| && from != to
    && p.iif == Bridge(vnis[from]) && p.oif == Bridge(vnis[to])
  }

  predicate RouterLinks(router: Router, p: Packet) {
    exists from, to :: 0 <= from < |router.connectedVnis| && 0 <= to < |router.connectedVnis| &&
                       Links(router.connectedVnis, p, from, to)
  }

  predicate SomeRouterLinks(routers: seq<Router>, p: Packet) {
    exists k :: 0 <= k < |routers| && RouterLinks(routers[k], p)
  }

  /** The packet stays on one lab bridge. */
  predicate StaysOn(bridges: seq<string>, p: Packet) {
    p.iif == p.oif && p.iif in bridges
  }

  /** Python's `str.strip` on blanks in the ASCII range. */
  predicate IsBlank(c: char) {
    c == ' ' || '\U{9}' <= c <= '\U{d}' || '\U{1c}' <= c <= '\U{1f}'
  }

  function StripLeft(s: string): string {
    if s != "" && IsBlank(s[0]) then StripLeft(s[1..]) else s
  }

  function StripRight(s: string): string {
    if s != "" && IsBlank(s[|s| - 1]) then StripRight(s[..|s| - 1]) else s
  }

  function Strip(s: string): string {
    StripRight(StripLeft(s))
  }

  /** The parts of a text between separators. */
  function Split(s: string, sep: char): (parts: seq<string>)
    ensures |parts| > 0
  {
    if s == "" then [""]
    else
      var rest := Split(s[1..], sep);
      if s[0] == sep then [""] + rest else [[s[0]] + rest[0]] + rest[1..]
  }

  /** The non-blank parts, stripped. */
  function Trimmed(parts: seq<string>): seq<string> {
    if parts == [] then []
    else (if Strip(parts[0]) != "" then [Strip(parts[0])] else []) + Trimmed(parts[1..])
  }

  function Entries(ports: string): seq<string> {
    Trimmed(Split(ports, ','))
  }

  /** Where the first slash of an entry is, or its length. */
  function Slash(entry: string): (at: nat)
    ensures at <= |entry| && forall k :: 0 <= k < at ==> entry[k] != '/'
    ensures at < |entry| ==> entry[at] == '/'
    ensures at == |entry| <==> '/' !in entry
  {
    if entry == "" || entry[0] == '/' then 0
    else
      var at := 1 + Slash(entry[1..]);
      assert entry == [entry[0]] + entry[1..];
      at
  }

  /** What one entry of the outbound list lets through. */
  predicate EntryAllows(r: Reading, entry: string, p: Packet) {
    var at := Slash(entry);
    if entry[..at] == "icmp" then
      p.proto == "icmp" && (at + 1 < |entry| ==> r.icmp(entry[at + 1..], p.icmpType))
    else if at < |entry| then
      p.proto == entry[at + 1..] && r.port(entry[..at], p.dport)
    else
      (p.proto == "tcp" || p.proto == "udp") && r.port(entry, p.dport)
  }

  /** The gateway restricts outbound traffic: the policy says so and there is some port text. */
  predicate Restricts(gateway: Option<Gateway>) {
    gateway.Some? && gateway.value.outboundPolicy == "restrict" && gateway.value.outboundPorts != ""
  }

  predicate ListAllows(r: Reading, entries: seq<string>, p: Packet) {
    exists k :: 0 <= k < |entries| && EntryAllows(r, entries[k], p)
  }

  predicate OutboundAllows(r: Reading, bridges: seq<string>, veth: string, gateway: Option<Gateway>, p: Packet) {
    && p.iif in bridges && p.oif == veth
    && (Restricts(gateway) ==> ListAllows(r, Entries(gateway.value.outboundPorts), p))
  }

  predicate Forwards(gateway: Option<Gateway>) {
    gateway.Some? && gateway.value.mode == "nat-portforward"
  }

  /** tcp from the gateway veth to the inner port of one of the first `n` complete forwards. */
  predicate ForwardedIn(veth: string, forwards: seq<PortForward>, n: nat, p: Packet)
    requires n <= |forwards|
  {
    && p.iif == veth && p.proto == "tcp"
    && exists k :: 0 <= k < n && forwards[k].Complete() && forwards[k].intPort == p.dport
  }

  /** What the whole declaration lets through the namespace. */
  predicate Allowed(r: Reading, bridges: seq<string>, routers: seq<Router>, gateway: Option<Gateway>,
                    pid: string, bmc: bool, veth: string, p: Packet)
  {
    || p.established
    || StaysOn(bridges, p)
    || (bmc && StaysOn([BmcBridge(pid)], p))
    || SomeRouterLinks(routers, p)
    || OutboundAllows(r, bridges, veth, gateway, p)
    || (Forwards(gateway) && ForwardedIn(veth, gateway.value.forwards, |gateway.value.forwards|, p))
  }

  // ---------- a project's namespace, changed in place ----------

  class Namespace {
    var forward: seq<Rule>       // filter chain, policy drop
    var prerouting: seq<Dnat>
    var masqueraded: seq<string> // postrouting: outgoing interfaces that are masqueraded

    predicate Accepts(r: Reading, p: Packet)
      reads this`forward
    {
      Decide(forward, Drop, r, p) == Accept
    }

    /** The source only ever appends accepting rules. */
    ghost predicate Valid()
      reads this`forward
    {
      forall k :: 0 <= k < |forward| ==> forward[k].verdict == Accept
    }

    method AddForward(iif: Option<string>, oif: Option<string>, payload: Payload)
      requires Valid()
      modifies this`forward
      ensures Valid()
      ensures forall r, p :: Accepts(r, p) <==>
                old(Accepts(r, p)) || Rule(iif, oif, payload, Accept).Matches(r, p)
    {
      var rule := Rule(iif, oif, payload, Accept);
      ghost var before := forward;
      forall r, p ensures Decide(before + [rule], Drop, r, p) == Accept <==>
                          Decide(before, Drop, r, p) == Accept || rule.Matches(r, p) {
        DecideAppend(before, rule, r, p);
      }
      forward := forward + [rule];
    }

    /** `_setup_ns_nftables_base`: whatever was there is gone, and nothing is let through. */
    method SetupBase(veth: string)
      modifies this
      ensures Valid() && prerouting == [] && masqueraded == [veth]
      ensures forall r, p :: !Accepts(r, p)
    {
      forward, prerouting, masqueraded := [], [], [];
      masqueraded := masqueraded + [veth];
    }

    /** `_setup_ns_nftables_forwarding`; `bmc` says whether nft took the rule for the BMC bridge. */
    method SetupForwarding(bridges: seq<string>, routers: seq<Router>, pid: string, bmc: bool)
      requires Valid()
      modifies this`forward
      ensures Valid()
      ensures forall r, p :: Accepts(r, p) <==>
                || old(Accepts(r, p)) || p.established || StaysOn(bridges, p)
                || (bmc && StaysOn([BmcBridge(pid)], p)) || SomeRouterLinks(routers, p)
    {
      for k := 0 to |bridges|
        invariant Valid()
        invariant forall r, p :: Accepts(r, p) <==> old(Accepts(r, p)) || StaysOn(bridges[..k], p)
      {
        AddForward(Some(bridges[k]), Some(bridges[k]), Anything);
        assert bridges[..k + 1] == bridges[..k] + [bridges[k]];
      }
      assert bridges[..|bridges|] == bridges;
      if bmc {
        AddForward(Some(BmcBridge(pid)), Some(BmcBridge(pid)), Anything);
      }
      label routing:
      for k := 0 to |routers|
        invariant Valid()
        invariant forall r, p :: Accepts(r, p) <==> old@routing(Accepts(r, p)) || SomeRouterLinks(routers[..k], p)
      {
        AddRouter(routers[k]);
        forall p ensures SomeRouterLinks(routers[..k + 1], p) <==>
            SomeRouterLinks(routers[..k], p) || RouterLinks(routers[k], p) {
          assert routers[..k + 1][k] == routers[k];
          assert forall j :: 0 <= j < k ==> routers[..k + 1][j] == routers[..k][j];
        }
      }
      assert routers[..|routers|] == routers;
      AddForward(None, None, EstablishedOnly);
    }

    /** One router: a rule each way for every pair of its entries. */
    method AddRouter(router: Router)
      requires Valid()
      modifies this`forward
      ensures Valid()
      ensures forall r, p :: Accepts(r, p) <==> old(Accepts(r, p)) || RouterLinks(router, p)
    {
      var vnis := router.connectedVnis;
      for i := 0 to |vnis|
        invariant Valid()
        invariant forall r, p :: Accepts(r, p) <==> old(Accepts(r, p)) || LinkedBefore(vnis, p, i, 0)
      {
        for j := i + 1 to |vnis|
          invariant Valid()
          invariant forall r, p :: Accepts(r, p) <==> old(Accepts(r, p)) || LinkedBefore(vnis, p, i, j)
        {
          var a, b := Bridge(vnis[i]), Bridge(vnis[j]);
          AddForward(Some(a), Some(b), Anything);
          AddForward(Some(b), Some(a), Anything);
          forall p { LinkedStep(vnis, p, i, j); }
        }
        forall p { LinkedRow(vnis, p, i); }
      }
      forall p { LinkedAll(router, p); }
    }

    /** `_add_outbound_port_rule` */
    method AddOutboundPortRule(bridge: string, veth: string, entry: string)
      requires Valid()
      modifies this`forward
      ensures Valid()
      ensures forall r, p :: Accepts(r, p) <==>
                old(Accepts(r, p)) || (p.iif == bridge && p.oif == veth && EntryAllows(r, entry, p))
    {
      hide Slash, Decide;
      var at := Slash(entry);
      if entry == "icmp" || "icmp/" <= entry {
        IcmpEntry(entry);
        var icmpType := if at < |entry| then entry[at + 1..] else "";
        if icmpType != "" {
          AddForward(Some(bridge), Some(veth), IcmpOf(icmpType));
        } else {
          AddForward(Some(bridge), Some(veth), Icmp);
        }
      } else if at < |entry| {
        IcmpEntry(entry);
        AddForward(Some(bridge), Some(veth), PortText(entry[at + 1..], entry[..at]));
      } else {
        IcmpEntry(entry);
        AddForward(Some(bridge), Some(veth), PortText("tcp", entry));
        AddForward(Some(bridge), Some(veth), PortText("udp", entry));
      }
    }

    /** `_setup_ns_outbound_rules` */
    method SetupOutboundRules(veth: string, bridges: seq<string>, gateway: Option<Gateway>)
      requires Valid()
      modifies this`forward
      ensures Valid()
      ensures forall r, p :: Accepts(r, p) <==> old(Accepts(r, p)) || OutboundAllows(r, bridges, veth, gateway, p)
    {
      if Restricts(gateway) {
        var allowed := Entries(gateway.value.outboundPorts);
        for k := 0 to |bridges|
          invariant Valid()
          invariant forall r, p :: Accepts(r, p) <==>
                      old(Accepts(r, p)) || (p.iif in bridges[..k] && p.oif == veth && ListAllows(r, allowed, p))
        {
          AddOutboundEntries(bridges[k], veth, allowed);
          assert bridges[..k + 1] == bridges[..k] + [bridges[k]];
        }
      } else {
        for k := 0 to |bridges|
          invariant Valid()
          invariant forall r, p :: Accepts(r, p) <==> old(Accepts(r, p)) || (p.iif in bridges[..k] && p.oif == veth)
        {
          AddForward(Some(bridges[k]), Some(veth), Anything);
          assert bridges[..k + 1] == bridges[..k] + [bridges[k]];
        }
      }
      assert bridges[..|bridges|] == bridges;
    }

    method AddOutboundEntries(bridge: string, veth: string, allowed: seq<string>)
      requires Valid()
      modifies this`forward
      ensures Valid()
      ensures forall r, p :: Accepts(r, p) <==>
                old(Accepts(r, p)) || (p.iif == bridge && p.oif == veth && ListAllows(r, allowed, p))
    {
      for k := 0 to |allowed|
        invariant Valid()
        invariant forall r, p :: Accepts(r, p) <==>
                    || old(Accepts(r, p))
                    || (p.iif == bridge && p.oif == veth && exists j :: 0 <= j < k && EntryAllows(r, allowed[j], p))
      {
        AddOutboundPortRule(bridge, veth, allowed[k]);
      }
    }

    /**
     `_setup_ns_port_forward_dnat`.  It fails when nft refuses a transit address, that is when a
     complete forward stands at index 246 or later.
     */
    method SetupPortForwardDnat(veth: string, gateway: Option<Gateway>, octet3: nat)
      returns (ok: bool, pfTransitIps: map<nat, Ip>)
      requires Valid() && prerouting == []
      modifies this`forward, this`prerouting
      ensures Valid()
      ensures ok <==> (Forwards(gateway) ==> AllAddressable(gateway.value.forwards))
      ensures !Forwards(gateway) ==> prerouting == [] && forward == old(forward)
      ensures ok && Forwards(gateway) ==>
        && Agrees(pfTransitIps, gateway.value.forwards, octet3)
        && prerouting == NamespaceRules(gateway.value.forwards, octet3, |gateway.value.forwards|)
        && forall r, p :: Accepts(r, p) <==>
             old(Accepts(r, p)) || ForwardedIn(veth, gateway.value.forwards, |gateway.value.forwards|, p)
    {
      ok, pfTransitIps := true, map[];
      if !Forwards(gateway) {
        return;
      }
      var forwards := gateway.value.forwards;
      for k := 0 to |forwards|
        invariant Valid() && prerouting == NamespaceRules(forwards, octet3, k)
        invariant forall j :: 0 <= j < k && forwards[j].Complete() ==>
                    Addressable(j) && j in pfTransitIps && pfTransitIps[j] == TransitIp(octet3, j)
        invariant forall r, p :: Accepts(r, p) <==> old(Accepts(r, p)) || ForwardedIn(veth, forwards, k, p)
      {
        var f := forwards[k];
        if f.Complete() {
          var transitIp := TransitIp(octet3, k);
          pfTransitIps := pfTransitIps[k := transitIp];
          if !Addressable(k) {
            return false, pfTransitIps;
          }
          prerouting := prerouting + [Dnat(Some(transitIp), f.EffectivePort(), f.intIp.value, f.intPort)];
          AddForward(Some(veth), None, PortNumber("tcp", f.intPort));
        }
      }
    }
  }

  // ---------- pairs of a router's entries ----------

  /** Linked by a pair before (i, j) in the order of the nested loops. */
  predicate LinkedBefore(vnis: seq<string>, p: Packet, i: nat, j: nat) {
    exists from, to :: 0 <= from < |vnis| && 0 <= to < |vnis| && Links(vnis, p, from, to) && Before(from, to, i, j)
  }

  predicate Before(from: nat, to: nat, i: nat, j: nat) {
    var lo, hi := if from < to then from else to, if from < to then to else from;
    lo < i || (lo == i && hi < j)
  }

  lemma {:induction false} LinkedStep(vnis: seq<string>, p: Packet, i: nat, j: nat)
    requires i < j < |vnis|
    ensures LinkedBefore(vnis, p, i, j + 1) <==>
            LinkedBefore(vnis, p, i, j) || Links(vnis, p, i, j) || Links(vnis, p, j, i)
  {
    if LinkedBefore(vnis, p, i, j + 1) {
      var from, to :| 0 <= from < |vnis| && 0 <= to < |vnis| && Links(vnis, p, from, to) && Before(from, to, i, j + 1);
      if !Before(from, to, i, j) {
        assert (from == i && to == j) || (from == j && to == i);
      }
    }
    if LinkedBefore(vnis, p, i, j) {
      var from, to :| 0 <= from < |vnis| && 0 <= to < |vnis| && Links(vnis, p, from, to) && Before(from, to, i, j);
      assert Before(from, to, i, j + 1);
    }
    assert Before(i, j, i, j + 1) && Before(j, i, i, j + 1);
  }

  lemma {:induction false} LinkedRow(vnis: seq<string>, p: Packet, i: nat)
    requires i < |vnis|
    ensures LinkedBefore(vnis, p, i, |vnis|) <==> LinkedBefore(vnis, p, i + 1, 0)
    ensures LinkedBefore(vnis, p, i, 0) <==> LinkedBefore(vnis, p, i, i + 1)
  {
    forall from, to | 0 <= from < |vnis| && 0 <= to < |vnis| && from != to
      ensures Before(from, to, i, |vnis|) <==> Before(from, to, i + 1, 0)
      ensures Before(from, to, i, 0) <==> Before(from, to, i, i + 1)
    {
    }
  }

  lemma {:induction false} LinkedAll(router: Router, p: Packet)
    ensures LinkedBefore(router.connectedVnis, p, |router.connectedVnis|, 0) <==> RouterLinks(router, p)
    ensures !LinkedBefore(router.connectedVnis, p, 0, 0)
  {
    var vnis := router.connectedVnis;
    forall from, to | 0 <= from < |vnis| && 0 <= to < |vnis| ensures Before(from, to, |vnis|, 0) {
    }
  }

  lemma IcmpEntry(entry: string)
    ensures entry[..Slash(entry)] == "icmp" <==> entry == "icmp" || "icmp/" <= entry
  {
    var at := Slash(entry);
    if "icmp/" <= entry {
      assert entry[4] == '/' && forall k :: 0 <= k < 4 ==> entry[k] == "icmp/"[k];
      assert at == 4;
      assert entry[..4] == "icmp/"[..4];
    }
    if entry == "icmp" {
      assert at == 4;
    }
    if entry[..at] == "icmp" && at < |entry| {
      assert entry[..5] == "icmp" + [entry[4]];
    }
  }

  // ---------- the whole setup ----------

  /** What `networks/full-setup` derives from a project: names from its id, the transit subnet from its first VNI. */
  datatype Project = Project(pid: string, vnis: seq<nat>)
  {
    function VethHost(): string { HostVeth(pid) }
    function VethNs(): string { "ve" + pid + "n" }
    function Octet3(): nat { Octet(if vnis == [] then 1000 else vnis[0]) }
    function Cidr(): Subnet { Subnet(172, 30, Octet3()) }
  }

  /**
   The nftables part of `_handle_network_full_setup`, before the infra-veth refresh.  When it
   succeeds, the namespace lets through exactly what is declared, the host's chains are those of
   the project's setup, and the two NAT hops deliver every packet from outside as declared
   whenever its forward's hops agree, to a port the namespace accepts.
   */
  method NetworkFullSetup(ns: Namespace, host: Host, project: Project, bridges: seq<string>, routers: seq<Router>,
                          gateway: Option<Gateway>, bmc: bool)
    returns (ok: bool)
    modifies ns, host
    ensures ok <==> (Forwards(gateway) ==> AllAddressable(gateway.value.forwards))
    ensures Forwards(gateway) && |gateway.value.forwards| <= 245 ==> ok
    ensures ns.masqueraded == ["ve" + project.pid + "n"]
    ensures ok ==> forall r, p ::
      ns.Accepts(r, p) <==> Allowed(r, bridges, routers, gateway, project.pid, bmc, project.VethNs(), p)
    ensures ok && gateway.Some? && NatMode(gateway.value.mode) ==>
      host.chains == AfterSetup(old(host.chains), project.pid,
                                HostBody(project.VethHost(), project.Cidr(), gateway.value, project.Octet3()))
    ensures ok && gateway.Some? && gateway.value.mode in {"nat", "nat-portforward"} ==> forall q: Traffic ::
      && (HostChains.Accepts(host.chains[HostChains.Project(Forward, project.pid)], q) <==>
            q.iif == "ve" + project.pid + "h" || q.oif == "ve" + project.pid + "h")
      && (Masquerades(host.chains[HostChains.Project(Postrouting, project.pid)], q) <==>
            InTransitSubnet((if project.vnis == [] then 1000 else project.vnis[0]) % 256, q.saddr))
    ensures !(gateway.Some? && gateway.value.mode in {"nat", "nat-portforward"}) ==> host.chains == old(host.chains)
    ensures ok && Forwards(gateway) ==> forall p: PortForwards.Packet :: !InTransitSubnet(project.Octet3(), p.daddr) ==>
      Delivered(project.Octet3(), DnatsOf(host.chains[HostChains.Project(Prerouting, project.pid)]), ns.prerouting, p)
      == match FirstClaim(gateway.value.forwards, p, |gateway.value.forwards|)
         case None => p
         case Some(k) => SentTo(gateway.value.forwards[k], project.Octet3(), k, p)
    ensures ok && Forwards(gateway) ==> forall r, q: Packet, k :: 0 <= k < |gateway.value.forwards| ==>
      var f := gateway.value.forwards[k];
      f.Complete() && q.iif == project.VethNs() && q.proto == "tcp" && q.dport == f.intPort ==> ns.Accepts(r, q)
  {
    ns.SetupBase(project.VethNs());
    ns.SetupForwarding(bridges, routers, project.pid, bmc);
    ns.SetupOutboundRules(project.VethNs(), bridges, gateway);
    var pfTransitIps;
    ok, pfTransitIps := ns.SetupPortForwardDnat(project.VethNs(), gateway, project.Octet3());
    if !ok {
      return;
    }
    host.SetupHostNftables(project.pid, project.VethHost(), project.Cidr(), gateway, pfTransitIps, project.Octet3());
    if gateway.Some? && NatMode(gateway.value.mode) {
      BodyPasses(project.VethHost(), project.Cidr(), gateway.value, project.Octet3());
    }
    if Forwards(gateway) {
      var forwards := gateway.value.forwards;
      ghost var rules := HostRules(forwards, project.Octet3(), |forwards|);
      DnatsOfLines(rules);
      assert host.chains[HostChains.Project(Prerouting, project.pid)] == DnatLines(rules);
      forall p: PortForwards.Packet | !InTransitSubnet(project.Octet3(), p.daddr) {
        TwoHops(forwards, project.Octet3(), p);
      }
    }
  }
}
