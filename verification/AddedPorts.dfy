/**
 Ports added to a project's gateway after its setup.  Each gets a free transit address, one rule in the
 project's host chain, and two in its namespace: one for that address, and one for the port alone, which takes
 packets for any address.
 */
module AddedPorts {
  import opened Options
  import opened PortForwards

  datatype Port = Port(transitPort: nat, dstIp: Ip, dstPort: nat)

  /** A port and the last octet of the transit address it was given. */
  datatype Entry = Entry(port: Port, last: nat)
  {
    function Address(octet3: nat): Ip { Ip(172, 30, octet3, last) }

    predicate Claims(p: Packet) { p.proto == "tcp" && p.dport == port.transitPort }

    function Target(p: Packet): Packet { p.(daddr := port.dstIp, dport := port.dstPort) }

    function HostRule(octet3: nat): Dnat { Dnat(None, port.transitPort, Address(octet3), port.transitPort) }

    function AddressRule(octet3: nat): Dnat { Dnat(Some(Address(octet3)), port.transitPort, port.dstIp, port.dstPort) }

    function PortRule(): Dnat { Dnat(None, port.transitPort, port.dstIp, port.dstPort) }
  }

  function HostAdded(octet3: nat, entries: seq<Entry>): seq<Dnat> {
    if entries == [] then [] else [entries[0].HostRule(octet3)] + HostAdded(octet3, entries[1..])
  }

  function SpaceAdded(octet3: nat, entries: seq<Entry>): seq<Dnat> {
    if entries == [] then []
    else [entries[0].AddressRule(octet3), entries[0].PortRule()] + SpaceAdded(octet3, entries[1..])
  }

  // ---------- the addresses ----------

  /** Every added port has an address of its own, which no forward of the setup has. */
  ghost predicate AddressesOk(forwards: seq<PortForward>, entries: seq<Entry>) {
    && (forall i :: 0 <= i < |entries| ==> 10 <= entries[i].last <= 255)
    && (forall i, j :: 0 <= i < j < |entries| ==> entries[i].last != entries[j].last)
    && (forall i, k :: 0 <= i < |entries| && 0 <= k < |forwards| && forwards[k].Complete() ==>
        entries[i].last != 10 + k)
  }

  /** Nothing from 10 up to this octet is free. */
  ghost predicate FullBelow(taken: set<nat>, at: nat) {
    forall x :: 10 <= x < at ==> x in taken
  }

  lemma {:induction false} FullUpTo(taken: set<nat>, at: nat, to: nat)
    requires FullBelow(taken, at) && to <= at
    ensures FullBelow(taken, to)
  {
  }

  class Gate {
    const octet3: nat
    var taken: set<nat>      // the last octets of the addresses in the transit subnet
    var host: seq<Dnat>      // the project's host chain
    var space: seq<Dnat>     // the prerouting chain of its namespace

    ghost const forwards: seq<PortForward>
    ghost var entries: seq<Entry>

    ghost predicate Valid()
      reads this
    {
      && host == HostRules(forwards, octet3, |forwards|) + HostAdded(octet3, entries)
      && space == NamespaceRules(forwards, octet3, |forwards|) + SpaceAdded(octet3, entries)
      && AddressesOk(forwards, entries)
      && (forall i :: 0 <= i < |entries| ==> entries[i].last in taken)
      && (forall k :: 0 <= k < |forwards| && forwards[k].Complete() ==> 10 + k in taken)
    }

    /** After a setup, which gave every complete forward its address; there may be others. */
    constructor (octet3: nat, forwards: seq<PortForward>, others: set<nat>)
      ensures Valid() && entries == [] && this.octet3 == octet3 && this.forwards == forwards
    {
      this.octet3 := octet3;
      taken := others + set k | 0 <= k < |forwards| && forwards[k].Complete() :: 10 + k;
      host := HostRules(forwards, octet3, |forwards|);
      space := NamespaceRules(forwards, octet3, |forwards|);
      this.forwards := forwards;
      entries := [];
    }

    /** The first octet from 10 on that no address has. */
    method FirstFree() returns (at: nat)
      ensures at >= 10 && at !in taken && FullBelow(taken, at)
    {
      at := 10;
      ghost var rest := set x | x in taken && x >= 10;
      while at in taken
        invariant 10 <= at && FullBelow(taken, at) && rest == set x | x in taken && x >= at
        decreases rest
      {
        rest := rest - {at};
        at := at + 1;
      }
    }

    /**
     `_handle_network_add_dnat`: the first free address from 10 on; past the last octet nft refuses, and it
     raises.
     */
    method AddDnat(port: Port) returns (added: Option<nat>)
      requires Valid()
      modifies this
      ensures Valid()
      ensures added.Some? ==>
        && added.value !in old(taken) && FullBelow(old(taken), added.value) && 10 <= added.value <= 255
        && taken == old(taken) + {added.value} && entries == old(entries) + [Entry(port, added.value)]
      ensures added.None? ==>
        && FullBelow(old(taken), 256)
        && host == old(host) && space == old(space) && entries == old(entries) && taken == old(taken)
    {
      hide FullBelow;
      var at := FirstFree();
      if at > 255 {
        FullUpTo(taken, at, 256);
        return None;
      }
      ghost var entry := Entry(port, at);
      AddedAppend(octet3, entries, entry);
      var address := Ip(172, 30, octet3, at);
      taken := taken + {at};
      host := host + [Dnat(None, port.transitPort, address, port.transitPort)];
      space := space + [Dnat(Some(address), port.transitPort, port.dstIp, port.dstPort)];
      space := space + [Dnat(None, port.transitPort, port.dstIp, port.dstPort)];
      entries := entries + [entry];
      return Some(at);
    }
  }

  lemma {:induction false} AddedAppend(octet3: nat, entries: seq<Entry>, e: Entry)
    ensures HostAdded(octet3, entries + [e]) == HostAdded(octet3, entries) + [e.HostRule(octet3)]
    ensures SpaceAdded(octet3, entries + [e]) == SpaceAdded(octet3, entries) + [e.AddressRule(octet3)] + [e.PortRule()]
  {
    if entries == [] {
      assert [] + [e] == [e] && [e][1..] == [];
    } else {
      assert (entries + [e])[1..] == entries[1..] + [e];
      AddedAppend(octet3, entries[1..], e);
    }
  }

  // ---------- where a packet goes ----------

  /** The first added port that claims the packet. */
  function FirstAdded(entries: seq<Entry>, p: Packet): (r: Option<nat>)
    ensures r == None <==> forall i :: 0 <= i < |entries| ==> !entries[i].Claims(p)
    ensures r.Some? ==> r.value < |entries| && entries[r.value].Claims(p)
    ensures r.Some? ==> forall i :: 0 <= i < r.value ==> !entries[i].Claims(p)
  {
    if entries == [] then None
    else if entries[0].Claims(p) then Some(0)
    else
      assert forall i :: 0 < i < |entries| ==> entries[i] == entries[1..][i - 1];
      match FirstAdded(entries[1..], p) case None => None case Some(i) => Some(i + 1)
  }

  /** What the rules for a port alone make of a packet. */
  function ByPort(entries: seq<Entry>, p: Packet): Packet {
    match FirstAdded(entries, p) case None => p case Some(i) => entries[i].Target(p)
  }

  predicate Hits(rules: seq<Dnat>, p: Packet) {
    exists k :: 0 <= k < |rules| && rules[k].Matches(p)
  }

  lemma {:induction false} HostTakes(octet3: nat, entries: seq<Entry>, p: Packet)
    ensures Translate(HostAdded(octet3, entries), p) ==
      match FirstAdded(entries, p)
      case None => p
      case Some(i) => p.(daddr := entries[i].Address(octet3))
  {
    if entries != [] {
      HostTakes(octet3, entries[1..], p);
      assert HostAdded(octet3, entries)[1..] == HostAdded(octet3, entries[1..]);
    }
  }

  /**
   The added rules of the namespace, for a packet to an address that is that of the first port that claims it,
   or of none.
   */
  lemma {:induction false} SpaceTakes(octet3: nat, entries: seq<Entry>, p: Packet)
    requires forall i :: 0 <= i < |entries| && entries[i].Address(octet3) == p.daddr ==>
        FirstAdded(entries, p) in {None, Some(i)}
    ensures Translate(SpaceAdded(octet3, entries), p) == ByPort(entries, p)
  {
    if entries != [] {
      var rules := SpaceAdded(octet3, entries);
      assert rules[1..][1..] == SpaceAdded(octet3, entries[1..]);
      if !entries[0].Claims(p) {
        forall i | 0 <= i < |entries[1..]| && entries[1..][i].Address(octet3) == p.daddr
          ensures FirstAdded(entries[1..], p) in {None, Some(i)}
        {
          assert entries[i + 1] == entries[1..][i];
        }
        SpaceTakes(octet3, entries[1..], p);
      }
    }
  }

  /** A packet that reaches the namespace directly, for an address outside its subnet, goes by its port. */
  lemma {:induction false} DirectlyByPort(forwards: seq<PortForward>, octet3: nat, entries: seq<Entry>, p: Packet)
    requires !InTransitSubnet(octet3, p.daddr)
    ensures Translate(NamespaceRules(forwards, octet3, |forwards|) + SpaceAdded(octet3, entries), p) ==
        ByPort(entries, p)
  {
    NamespaceIgnoresOutside(forwards, octet3, |forwards|, p);
    TranslateAppend(NamespaceRules(forwards, octet3, |forwards|), SpaceAdded(octet3, entries), p);
    SpaceTakes(octet3, entries, p);
  }

  /** The two hops with the added rules. */
  function DeliveredWith(forwards: seq<PortForward>, octet3: nat, entries: seq<Entry>, p: Packet): Packet {
    Delivered(octet3, HostRules(forwards, octet3, |forwards|) + HostAdded(octet3, entries),
              NamespaceRules(forwards, octet3, |forwards|) + SpaceAdded(octet3, entries), p)
  }

  /** Where a packet goes that a forward of the setup claims: a stranded one is rescued by a port added later. */
  function ClaimedGoes(f: PortForward, octet3: nat, k: nat, entries: seq<Entry>, p: Packet): Packet
    requires f.Complete()
  {
    if f.HopsAgree() || !Reachable(k) then SentTo(f, octet3, k, p) else ByPort(entries, SentTo(f, octet3, k, p))
  }

  function AddedGoes(e: Entry, octet3: nat, p: Packet): Packet {
    if e.last <= 254 then e.Target(p) else p.(daddr := e.Address(octet3))
  }

  /** Where a packet from outside goes after a setup and any sequence of added ports. */
  lemma {:induction false} WhereItGoes(forwards: seq<PortForward>, octet3: nat, entries: seq<Entry>, p: Packet)
    requires !InTransitSubnet(octet3, p.daddr) && AddressesOk(forwards, entries)
    ensures DeliveredWith(forwards, octet3, entries, p) ==
      match FirstClaim(forwards, p, |forwards|)
      case Some(k) => ClaimedGoes(forwards[k], octet3, k, entries, p)
      case None =>
        match FirstAdded(entries, p)
        case None => p
        case Some(i) => AddedGoes(entries[i], octet3, p)
  {
    HostHop(forwards, octet3, |forwards|, p);
    TranslateAppend(HostRules(forwards, octet3, |forwards|), HostAdded(octet3, entries), p);
    HostTakes(octet3, entries, p);
    match FirstClaim(forwards, p, |forwards|)
    case Some(k) => ClaimedWay(forwards, octet3, entries, p, k);
    case None =>
      match FirstAdded(entries, p)
      case None => DirectlyByPort(forwards, octet3, entries, p);
      case Some(i) => AddedWay(forwards, octet3, entries, p, i);
  }

  lemma {:induction false} ClaimedWay(forwards: seq<PortForward>, octet3: nat, entries: seq<Entry>, p: Packet, k: nat)
    requires AddressesOk(forwards, entries) && FirstClaim(forwards, p, |forwards|) == Some(k)
    ensures var h := p.(daddr := TransitIp(octet3, k), dport := forwards[k].HostPort());
      Received(octet3, NamespaceRules(forwards, octet3, |forwards|) + SpaceAdded(octet3, entries), h) ==
      ClaimedGoes(forwards[k], octet3, k, entries, p)
  {
    var h := p.(daddr := TransitIp(octet3, k), dport := forwards[k].HostPort());
    NamespaceHop(forwards, octet3, |forwards|, h, k);
    TranslateAppend(NamespaceRules(forwards, octet3, |forwards|), SpaceAdded(octet3, entries), h);
    SpaceTakes(octet3, entries, h);
  }

  lemma {:induction false} AddedWay(forwards: seq<PortForward>, octet3: nat, entries: seq<Entry>, p: Packet, i: nat)
    requires AddressesOk(forwards, entries) && FirstAdded(entries, p) == Some(i)
    ensures var h := p.(daddr := entries[i].Address(octet3));
      Received(octet3, NamespaceRules(forwards, octet3, |forwards|) + SpaceAdded(octet3, entries), h) ==
      AddedGoes(entries[i], octet3, p)
  {
    var e := entries[i];
    var h := p.(daddr := e.Address(octet3));
    NotForThisAddress(forwards, octet3, |forwards|, h, e.last);
    TranslateAppend(NamespaceRules(forwards, octet3, |forwards|), SpaceAdded(octet3, entries), h);
    SameFirst(entries, p, h);
    SpaceTakes(octet3, entries, h);
  }

  lemma {:induction false} SameFirst(entries: seq<Entry>, p: Packet, h: Packet)
    requires h.proto == p.proto && h.dport == p.dport
    ensures FirstAdded(entries, h) == FirstAdded(entries, p)
  {
    if entries != [] {
      SameFirst(entries[1..], p, h);
    }
  }

  /** No forward of the setup has this address. */
  lemma {:induction false} NotForThisAddress(forwards: seq<PortForward>, octet3: nat, n: nat, h: Packet, last: nat)
    requires n <= |forwards| && h.daddr == Ip(172, 30, octet3, last)
    requires forall k :: 0 <= k < n && forwards[k].Complete() ==> last != 10 + k
    ensures !Hits(NamespaceRules(forwards, octet3, n), h)
  {
    if n > 0 {
      NotForThisAddress(forwards, octet3, n - 1, h, last);
      var earlier := NamespaceRules(forwards, octet3, n - 1);
      var rules := NamespaceRules(forwards, octet3, n);
      assert forall i :: 0 <= i < |earlier| ==> rules[i] == earlier[i];
      assert |rules| > |earlier| ==>
          rules[|earlier|].daddr == Some(TransitIp(octet3, n - 1)) && |rules| == |earlier| + 1;
    }
  }

  /** Nothing else leads where this port leads. */
  ghost predicate Unmistakable(forwards: seq<PortForward>, octet3: nat, entries: seq<Entry>, i: nat)
    requires i < |entries|
  {
    var port := entries[i].port;
    && !InTransitSubnet(octet3, port.dstIp)
    && (forall j :: 0 <= j < |entries| && j != i ==>
        (entries[j].port.dstIp, entries[j].port.dstPort) != (port.dstIp, port.dstPort))
    && (forall k :: 0 <= k < |forwards| && forwards[k].Complete() ==>
        (forwards[k].intIp.value, forwards[k].intPort) != (port.dstIp, port.dstPort))
  }

  /**
   A packet for an added port goes as added if and only if that port is the first added one of its number and
   either no forward of the setup claims the packet and the port has a host address, or the forward that claims
   it would have been stranded on its way.
   */
  lemma {:induction false} AsAddedIff(forwards: seq<PortForward>, octet3: nat, entries: seq<Entry>, p: Packet, i: nat)
    requires !InTransitSubnet(octet3, p.daddr) && AddressesOk(forwards, entries)
    requires i < |entries| && entries[i].Claims(p) && Unmistakable(forwards, octet3, entries, i)
    ensures DeliveredWith(forwards, octet3, entries, p) == entries[i].Target(p) <==>
      && FirstAdded(entries, p) == Some(i)
      && match FirstClaim(forwards, p, |forwards|)
         case None => entries[i].last <= 254
         case Some(k) => !forwards[k].HopsAgree() && Reachable(k)
  {
    WhereItGoes(forwards, octet3, entries, p);
    match FirstClaim(forwards, p, |forwards|)
    case None =>
    case Some(k) =>
      assert forwards[k].Claims(p);
      SameFirst(entries, p, SentTo(forwards[k], octet3, k, p).(dport := p.dport));
  }

  /**
   A second port of one number, added to a gateway without forwards: its packets go to the first one, although
   the call that added it succeeded.
   */
  lemma {:induction false} SecondOfANumberIsLost()
    ensures var first := Entry(Port(8080, Ip(10, 0, 0, 5), 80), 10);
      var second := Entry(Port(8080, Ip(10, 0, 0, 6), 80), 11);
      var p := Packet("tcp", Ip(203, 0, 113, 7), 8080);
      && AddressesOk([], [first, second]) && second.Claims(p)
      && DeliveredWith([], 0, [first, second], p) == first.Target(p) != second.Target(p)
  {
    WhereItGoes([], 0, [Entry(Port(8080, Ip(10, 0, 0, 5), 80), 10), Entry(Port(8080, Ip(10, 0, 0, 6), 80), 11)],
                Packet("tcp", Ip(203, 0, 113, 7), 8080));
  }
}
