/**
 Two-hop port forwarding: a DNAT rule on the host sends a connection to a transit address,
 and a DNAT rule in the project's namespace sends it on to the VM.

 The two rule lists are emitted by two loops that only share a map from a forward's index to
 its transit address.  The theorem is about what the composition does to a packet.
 */
module PortForwards {
  import opened Options

  /** An IPv4 address by its four octets. */
  datatype Ip = Ip(a: nat, b: nat, c: nat, d: nat)

  /** A declared forward; a port of 0 and an address of None are what the source finds falsy. */
  datatype PortForward = PortForward(extPort: nat, intIp: Option<Ip>, intPort: nat, privateIp: Option<Ip>,
                                     transitPort: nat)
  {
    /** The loops skip a forward that lacks its outer port, inner address or inner port. */
    predicate Complete() {
      extPort != 0 && intIp.Some? && intPort != 0
    }

    function EffectivePort(): nat {
      if transitPort != 0 then transitPort else extPort
    }

    /** The port the host hop leaves in a packet. */
    function HostPort(): nat {
      if privateIp.Some? then extPort else EffectivePort()
    }

    /** What the declaration says this forward applies to. */
    predicate Claims(p: Packet) {
      && Complete() && p.proto == "tcp"
      && (if privateIp.Some? then p.daddr == privateIp.value && p.dport == extPort
          else transitPort != 0 && p.dport == transitPort)
    }

    /** The port the host hop leaves in a packet is the one the namespace hop looks for. */
    predicate HopsAgree() {
      privateIp.Some? && transitPort != 0 ==> transitPort == extPort
    }
  }

  datatype Packet = Packet(proto: string, daddr: Ip, dport: nat)

  /** A destination-NAT rule for tcp; a rule without an address matches every destination. */
  datatype Dnat = Dnat(daddr: Option<Ip>, dport: nat, toIp: Ip, toPort: nat)
  {
    predicate Matches(p: Packet) {
      p.proto == "tcp" && (daddr.Some? ==> p.daddr == daddr.value) && p.dport == dport
    }

    function Apply(p: Packet): Packet {
      p.(daddr := toIp, dport := toPort)
    }
  }

  /** A NAT chain: the first matching rule translates, and no rule leaves the packet alone. */
  function Translate(rules: seq<Dnat>, p: Packet): Packet {
    if rules == [] then p
    else if rules[0].Matches(p) then rules[0].Apply(p)
    else Translate(rules[1..], p)
  }

  /** The transit address of the forward at `idx`. */
  function TransitIp(octet3: nat, idx: nat): Ip {
    Ip(172, 30, octet3, 10 + idx)
  }

  /** A subnet of 254 host addresses, by its first three octets. */
  datatype Subnet = Subnet(a: nat, b: nat, c: nat)
  {
    predicate Has(ip: Ip) { ip.a == a && ip.b == b && ip.c == c }
  }

  predicate InTransitSubnet(octet3: nat, ip: Ip) {
    ip.a == 172 && ip.b == 30 && ip.c == octet3
  }

  /** The subnet has 254 host addresses; what is sent to its broadcast address does not reach the namespace. */
  predicate Routed(octet3: nat, ip: Ip) {
    InTransitSubnet(octet3, ip) ==> ip.d <= 254
  }

  predicate Reachable(idx: nat) {
    10 + idx <= 254
  }

  /** nft takes an address only if its last octet is one. */
  predicate Addressable(idx: nat) {
    10 + idx <= 255
  }

  // ---------- the rules the two loops emit ----------

  function NamespaceRules(forwards: seq<PortForward>, octet3: nat, n: nat): seq<Dnat>
    requires n <= |forwards|
  {
    if n == 0 then [] else
      var f := forwards[n - 1];
      NamespaceRules(forwards, octet3, n - 1) +
      if !f.Complete() then []
      else [Dnat(Some(TransitIp(octet3, n - 1)), f.EffectivePort(), f.intIp.value, f.intPort)]
  }

  function HostRules(forwards: seq<PortForward>, octet3: nat, n: nat): seq<Dnat>
    requires n <= |forwards|
  {
    if n == 0 then [] else
      var f := forwards[n - 1];
      HostRules(forwards, octet3, n - 1) +
      if !f.Complete() then []
      else if f.privateIp.Some? then [Dnat(f.privateIp, f.extPort, TransitIp(octet3, n - 1), f.extPort)]
      else if f.transitPort != 0 then [Dnat(None, f.transitPort, TransitIp(octet3, n - 1), f.EffectivePort())]
      else []
  }

  // ---------- what the declaration means ----------

  /** The first of the first `n` forwards that claims the packet. */
  function FirstClaim(forwards: seq<PortForward>, p: Packet, n: nat): (r: Option<nat>)
    requires n <= |forwards|
    ensures r == None <==> forall k :: 0 <= k < n ==> !forwards[k].Claims(p)
    ensures r.Some? ==> r.value < n && forwards[r.value].Claims(p)
    ensures r.Some? ==> forall k :: 0 <= k < r.value ==> !forwards[k].Claims(p)
  {
    if n == 0 then None
    else
      var earlier := FirstClaim(forwards, p, n - 1);
      if earlier.Some? then earlier
      else if forwards[n - 1].Claims(p) then Some(n - 1) else None
  }

  /** Where the declaration sends a packet. */
  function Declared(forwards: seq<PortForward>, p: Packet): Packet {
    match FirstClaim(forwards, p, |forwards|)
    case None => p
    case Some(k) => p.(daddr := forwards[k].intIp.value, dport := forwards[k].intPort)
  }

  /** Host prerouting, then namespace prerouting, if the packet gets there. */
  function Delivered(octet3: nat, host: seq<Dnat>, namespace: seq<Dnat>, p: Packet): Packet {
    Received(octet3, namespace, Translate(host, p))
  }

  function Received(octet3: nat, namespace: seq<Dnat>, p: Packet): Packet {
    if Routed(octet3, p.daddr) then Translate(namespace, p) else p
  }

  // ---------- proofs ----------

  lemma {:induction false} TranslateAppend(a: seq<Dnat>, b: seq<Dnat>, p: Packet)
    ensures Translate(a + b, p) ==
            if exists i :: 0 <= i < |a| && a[i].Matches(p) then Translate(a, p) else Translate(b, p)
  {
    if a == [] {
      assert a + b == b;
    } else {
      assert (a + b)[1..] == a[1..] + b;
      TranslateAppend(a[1..], b, p);
      if exists i :: 0 <= i < |a[1..]| && a[1..][i].Matches(p) {
        var i :| 0 <= i < |a[1..]| && a[1..][i].Matches(p);
        assert a[i + 1].Matches(p);
      }
      if exists i :: 0 < i < |a| && a[i].Matches(p) {
        var i :| 0 < i < |a| && a[i].Matches(p);
        assert a[1..][i - 1].Matches(p);
      }
    }
  }

  /** The host hop: the first claimed forward sends the packet to its own transit address. */
  lemma {:induction false} HostHop(forwards: seq<PortForward>, octet3: nat, n: nat, p: Packet)
    requires n <= |forwards|
    ensures var rules, claim := HostRules(forwards, octet3, n), FirstClaim(forwards, p, n);
      && ((exists i :: 0 <= i < |rules| && rules[i].Matches(p)) <==> claim.Some?)
      && Translate(rules, p) ==
         if claim == None then p
         else p.(daddr := TransitIp(octet3, claim.value),
                 dport := forwards[claim.value].HostPort())
  {
    if n > 0 {
      HostHop(forwards, octet3, n - 1, p);
      var earlier := HostRules(forwards, octet3, n - 1);
      var rules := HostRules(forwards, octet3, n);
      var added := rules[|earlier|..];
      assert rules == earlier + added && |added| <= 1;
      TranslateAppend(earlier, added, p);
      assert forall i :: 0 <= i < |earlier| ==> rules[i] == earlier[i];
      if added != [] {
        assert rules[|earlier|] == added[0];
        assert added[0].Matches(p) <==> forwards[n - 1].Claims(p);
        assert added[1..] == [];
      }
    }
  }

  /** The namespace hop: only the rule of forward `k` can match its transit address. */
  lemma {:induction false} NamespaceHop(forwards: seq<PortForward>, octet3: nat, n: nat, p: Packet, k: nat)
    requires n <= |forwards| && k < |forwards| && p.daddr == TransitIp(octet3, k) && p.proto == "tcp"
    ensures var rules, f := NamespaceRules(forwards, octet3, n), forwards[k];
      var hit := k < n && f.Complete() && p.dport == f.EffectivePort();
      && ((exists i :: 0 <= i < |rules| && rules[i].Matches(p)) <==> hit)
      && Translate(rules, p) == if hit then p.(daddr := f.intIp.value, dport := f.intPort) else p
  {
    if n > 0 {
      NamespaceHop(forwards, octet3, n - 1, p, k);
      var earlier := NamespaceRules(forwards, octet3, n - 1);
      var rules := NamespaceRules(forwards, octet3, n);
      var added := rules[|earlier|..];
      assert rules == earlier + added && |added| <= 1;
      TranslateAppend(earlier, added, p);
      assert forall i :: 0 <= i < |earlier| ==> rules[i] == earlier[i];
      if added != [] {
        assert rules[|earlier|] == added[0];
        assert added[1..] == [];
      }
    }
  }

  /** The namespace rules leave every packet to an address outside the transit subnet alone. */
  lemma {:induction false} NamespaceIgnoresOutside(forwards: seq<PortForward>, octet3: nat, n: nat, p: Packet)
    requires n <= |forwards| && !InTransitSubnet(octet3, p.daddr)
    ensures forall i :: 0 <= i < |NamespaceRules(forwards, octet3, n)| ==>
              !NamespaceRules(forwards, octet3, n)[i].Matches(p)
    ensures Translate(NamespaceRules(forwards, octet3, n), p) == p
  {
    if n > 0 {
      NamespaceIgnoresOutside(forwards, octet3, n - 1, p);
      var earlier := NamespaceRules(forwards, octet3, n - 1);
      var rules := NamespaceRules(forwards, octet3, n);
      var added := rules[|earlier|..];
      assert rules == earlier + added;
      TranslateAppend(earlier, added, p);
      if added != [] {
        assert added[1..] == [];
      }
    }
  }

  /** Where a forward sends what it claims: to its target, or, if the second hop is missed, to its transit address. */
  function SentTo(f: PortForward, octet3: nat, k: nat, p: Packet): Packet
    requires f.Complete()
  {
    if f.HopsAgree() && Reachable(k) then p.(daddr := f.intIp.value, dport := f.intPort)
    else p.(daddr := TransitIp(octet3, k), dport := f.HostPort())
  }

  /** Where the two hops really send a packet from outside the transit subnet, for any list. */
  lemma {:induction false} TwoHops(forwards: seq<PortForward>, octet3: nat, p: Packet)
    requires !InTransitSubnet(octet3, p.daddr)
    ensures var n := |forwards|;
      Delivered(octet3, HostRules(forwards, octet3, n), NamespaceRules(forwards, octet3, n), p) ==
      match FirstClaim(forwards, p, n)
      case None => p
      case Some(k) => SentTo(forwards[k], octet3, k, p)
  {
    var n := |forwards|;
    HostHop(forwards, octet3, n, p);
    var q := Translate(HostRules(forwards, octet3, n), p);
    match FirstClaim(forwards, p, n)
    case None => NamespaceIgnoresOutside(forwards, octet3, n, p);
    case Some(k) => NamespaceHop(forwards, octet3, n, q, k);
  }

  /**
   The forwarding means what was declared, for a packet from outside the transit subnet, exactly
   when the forward that claims it stands at index 244 or earlier and does not carry a private address
   next to another transit port (or happens to declare the packet's stranding place as its target).
   */
  lemma {:induction false} TwoHopsAsDeclared(forwards: seq<PortForward>, octet3: nat, p: Packet)
    requires !InTransitSubnet(octet3, p.daddr)
    ensures var n, claim := |forwards|, FirstClaim(forwards, p, |forwards|);
      Delivered(octet3, HostRules(forwards, octet3, n), NamespaceRules(forwards, octet3, n), p) == Declared(forwards, p)
      <==>
      (claim.Some? && !(forwards[claim.value].HopsAgree() && Reachable(claim.value)) ==>
         && forwards[claim.value].intIp == Some(TransitIp(octet3, claim.value))
         && forwards[claim.value].intPort == forwards[claim.value].HostPort())
  {
    TwoHops(forwards, octet3, p);
  }

  /** A forward has a private address and its port, or another port of the host, for what it is to deliver. */
  predicate Offers(f: PortForward, daddr: Ip, dport: nat) {
    || (f.privateIp == Some(daddr) && f.extPort == dport && f.transitPort in {0, dport})
    || (f.privateIp == None && f.extPort != 0 && f.transitPort == dport)
  }

  /** What a forward at index 244 or earlier offers, and no earlier one claims, is delivered to its target. */
  lemma DeliversWhatItOffers(forwards: seq<PortForward>, octet3: nat, k: nat, ip: Ip, port: nat, daddr: Ip, dport: nat)
    requires k < |forwards| && k <= 244 && !InTransitSubnet(octet3, daddr) && dport != 0 && port != 0
    requires forwards[k].intIp == Some(ip) && forwards[k].intPort == port && Offers(forwards[k], daddr, dport)
    requires forall j :: 0 <= j < k ==> !forwards[j].Claims(Packet("tcp", daddr, dport))
    ensures Delivered(octet3, HostRules(forwards, octet3, |forwards|), NamespaceRules(forwards, octet3, |forwards|),
                      Packet("tcp", daddr, dport)) == Packet("tcp", ip, port)
  {
    var p := Packet("tcp", daddr, dport);
    assert forwards[k].Claims(p);
    TwoHops(forwards, octet3, p);
    assert FirstClaim(forwards, p, |forwards|) == Some(k);
  }

  /** Forwards that lack a port, a target or a way in leave every packet alone, and every forward other protocols. */
  lemma IncompleteForwardsDoNothing(forwards: seq<PortForward>, octet3: nat, p: Packet)
    requires !InTransitSubnet(octet3, p.daddr)
    requires p.proto == "tcp" ==> forall k :: 0 <= k < |forwards| ==>
      var f := forwards[k];
      f.extPort == 0 || f.intIp == None || f.intPort == 0 || (f.privateIp == None && f.transitPort == 0)
    ensures Delivered(octet3, HostRules(forwards, octet3, |forwards|), NamespaceRules(forwards, octet3, |forwards|), p)
        == p
  {
    TwoHops(forwards, octet3, p);
  }

  /** A forward whose hops disagree: the connection is stranded at its transit address. */
  lemma DisagreeingForwardStrands()
    ensures var f := PortForward(443, Some(Ip(10, 0, 0, 5)), 8443, Some(Ip(192, 168, 1, 9)), 20443);
      var p := Packet("tcp", Ip(192, 168, 1, 9), 443);
      && Declared([f], p) == Packet("tcp", Ip(10, 0, 0, 5), 8443)
      && Delivered(7, HostRules([f], 7, 1), NamespaceRules([f], 7, 1), p) == Packet("tcp", Ip(172, 30, 7, 10), 443)
  {
    var f := PortForward(443, Some(Ip(10, 0, 0, 5)), 8443, Some(Ip(192, 168, 1, 9)), 20443);
    var p := Packet("tcp", Ip(192, 168, 1, 9), 443);
    assert f.Claims(p) && FirstClaim([f], p, 0) == None;
    assert FirstClaim([f], p, 1) == Some(0);
    TwoHops([f], 7, p);
  }

  // ---------- the loops ----------

  /** Every complete forward has an address nft accepts. */
  predicate AllAddressable(forwards: seq<PortForward>) {
    forall k :: 0 <= k < |forwards| && forwards[k].Complete() ==> Addressable(k)
  }
}
