/**
 What the text of a gateway's outbound ports means: which entries it holds, what each lets through, and
 what of a namespace's traffic therefore gets out.
 */
module OutboundEntries {
  import opened Options
  import PortForwards
  import opened HostChains
  import opened NetworkSetup

  /** What `str.strip` takes off. */
  const BLANKS := " \t\n\U{b}\U{c}\r\U{1c}\U{1d}\U{1e}\U{1f}"

  predicate Blank(s: string) { forall c :: c in s ==> c in BLANKS }

  predicate Bare(s: string) { s != "" ==> s[0] !in BLANKS && s[|s| - 1] !in BLANKS }

  lemma BlanksAreBlank(c: char)
    ensures IsBlank(c) <==> c in BLANKS
  {
    if IsBlank(c) {
      assert c in {' ', '\t', '\n', '\U{b}', '\U{c}', '\r', '\U{1c}', '\U{1d}', '\U{1e}', '\U{1f}'};
      assert BLANKS[0] == ' ' && BLANKS[1] == '\t' && BLANKS[2] == '\n' && BLANKS[3] == '\U{b}' && BLANKS[4] == '\U{c}'
          && BLANKS[5] == '\r' && BLANKS[6] == '\U{1c}' && BLANKS[7] == '\U{1d}' && BLANKS[8] == '\U{1e}'
          && BLANKS[9] == '\U{1f}';
    }
  }

  // ---------- stripping ----------

  lemma {:induction false} StripLeftExact(s: string) returns (left: string)
    ensures s == left + StripLeft(s) && Blank(left)
    ensures StripLeft(s) != "" ==> StripLeft(s)[0] !in BLANKS
  {
    left := "";
    if s != "" {
      BlanksAreBlank(s[0]);
      if IsBlank(s[0]) {
        left := StripLeftExact(s[1..]);
        assert s == [s[0]] + s[1..] == [s[0]] + left + StripLeft(s[1..]);
        left := [s[0]] + left;
      }
    }
  }

  lemma {:induction false} StripRightExact(s: string) returns (right: string)
    ensures s == StripRight(s) + right && Blank(right)
    ensures StripRight(s) != "" ==> StripRight(s)[|StripRight(s)| - 1] !in BLANKS
  {
    right := "";
    if s != "" {
      BlanksAreBlank(s[|s| - 1]);
      if IsBlank(s[|s| - 1]) {
        right := StripRightExact(s[..|s| - 1]);
        assert s == s[..|s| - 1] + [s[|s| - 1]] == StripRight(s[..|s| - 1]) + (right + [s[|s| - 1]]);
        right := right + [s[|s| - 1]];
      }
    }
  }

  /** Stripping takes only blanks off, from both ends, and leaves none at either end. */
  lemma StripExact(s: string) returns (left: string, right: string)
    ensures s == left + Strip(s) + right && Blank(left) && Blank(right) && Bare(Strip(s))
  {
    left := StripLeftExact(s);
    right := StripRightExact(StripLeft(s));
    assert Strip(s) != "" ==> Strip(s)[0] == StripLeft(s)[0];
  }

  lemma {:induction false} StripLeftSkips(left: string, rest: string)
    requires Blank(left) && (rest != "" ==> rest[0] !in BLANKS)
    ensures StripLeft(left + rest) == rest
  {
    if left == "" {
      assert left + rest == rest;
      if rest != "" {
        BlanksAreBlank(rest[0]);
      }
    } else {
      BlanksAreBlank(left[0]);
      assert left[0] in left && (left + rest)[1..] == left[1..] + rest;
      StripLeftSkips(left[1..], rest);
    }
  }

  lemma {:induction false} StripRightSkips(rest: string, right: string)
    requires Blank(right) && (rest != "" ==> rest[|rest| - 1] !in BLANKS)
    ensures StripRight(rest + right) == rest
  {
    if right == "" {
      assert rest + right == rest;
      if rest != "" {
        BlanksAreBlank(rest[|rest| - 1]);
      }
    } else {
      var last := |right| - 1;
      BlanksAreBlank(right[last]);
      assert right[last] in right && (rest + right)[..|rest| + last] == rest + right[..last];
      StripRightSkips(rest, right[..last]);
    }
  }

  /** There is only one way to do so. */
  lemma StripsToCore(left: string, core: string, right: string)
    requires Blank(left) && Blank(right) && Bare(core)
    ensures Strip(left + core + right) == core
  {
    if core == "" {
      assert left + core + right == (left + right) + "";
      StripLeftSkips(left + right, "");
    } else {
      assert left + core + right == left + (core + right);
      StripLeftSkips(left, core + right);
      StripRightSkips(core, right);
    }
  }

  // ---------- the entries of a text ----------

  /** A piece of the text between commas: what counts of it, and the blanks around that. */
  datatype Piece = Piece(left: string, core: string, right: string)
  {
    predicate Ok() { Blank(left) && Blank(right) && Bare(core) && ',' !in core }
    function Text(): string { left + core + right }
  }

  function Joined(pieces: seq<Piece>): string {
    if pieces == [] then ""
    else if |pieces| == 1 then pieces[0].Text()
    else pieces[0].Text() + "," + Joined(pieces[1..])
  }

  function Cores(pieces: seq<Piece>): seq<string> {
    if pieces == [] then [] else (if pieces[0].core == "" then [] else [pieces[0].core]) + Cores(pieces[1..])
  }

  predicate AllOk(pieces: seq<Piece>) {
    pieces != [] && forall k :: 0 <= k < |pieces| ==> pieces[k].Ok()
  }

  lemma {:induction false} SplitWhole(s: string, sep: char)
    requires sep !in s
    ensures Split(s, sep) == [s]
  {
    if s != "" {
      SplitWhole(s[1..], sep);
      assert s == [s[0]] + s[1..];
    }
  }

  lemma {:induction false} SplitFirst(s: string, sep: char, rest: string)
    requires sep !in s
    ensures Split(s + [sep] + rest, sep) == [s] + Split(rest, sep)
  {
    var whole := s + [sep] + rest;
    if s == "" {
      assert whole[1..] == rest;
    } else {
      assert whole[1..] == s[1..] + [sep] + rest && whole[0] == s[0];
      SplitFirst(s[1..], sep, rest);
      assert [s[0]] + s[1..] == s;
      var tail := Split(whole[1..], sep);
      assert tail[0] == s[1..] && tail[1..] == Split(rest, sep);
    }
  }

  lemma OnePiece(pieces: seq<Piece>)
    requires |pieces| == 1 && Strip(pieces[0].Text()) == pieces[0].core
    ensures Trimmed([pieces[0].Text()]) == Cores(pieces)
  {
    hide Strip;
    assert pieces[1..] == [];
  }

  /** The entries of a text are what counts of its pieces, in order, without the empty ones. */
  lemma {:induction false} EntriesOfText(pieces: seq<Piece>)
    requires AllOk(pieces)
    ensures Entries(Joined(pieces)) == Cores(pieces)
  {
    var first := pieces[0];
    StripsToCore(first.left, first.core, first.right);
    assert ',' !in first.Text();
    if |pieces| == 1 {
      SplitWhole(first.Text(), ',');
      OnePiece(pieces);
    } else {
      var rest := pieces[1..];
      EntriesOfText(rest);
      SplitFirst(first.Text(), ',', Joined(rest));
      assert ([first.Text()] + Split(Joined(rest), ','))[1..] == Split(Joined(rest), ',');
    }
  }

  /** Where the first comma is. */
  lemma {:induction false} BeforeComma(s: string) returns (head: string, tail: string)
    requires ',' in s
    ensures s == head + "," + tail && ',' !in head
  {
    if s[0] == ',' {
      head, tail := "", s[1..];
    } else {
      assert s == [s[0]] + s[1..];
      head, tail := BeforeComma(s[1..]);
      head := [s[0]] + head;
    }
  }

  lemma {:induction false} PieceOf(s: string) returns (piece: Piece)
    requires ',' !in s
    ensures piece.Ok() && piece.Text() == s && piece.core == Strip(s)
  {
    var left, right := StripExact(s);
    piece := Piece(left, Strip(s), right);
    assert forall c :: c in Strip(s) ==> c in s;
  }

  /** Every text is made of such pieces; so this says of every text what its entries are. */
  lemma {:induction false} EveryTextHasPieces(s: string) returns (pieces: seq<Piece>)
    ensures AllOk(pieces) && Joined(pieces) == s && Entries(s) == Cores(pieces)
    ensures ',' !in s ==> |pieces| == 1
    decreases |s|
  {
    if ',' !in s {
      var piece := PieceOf(s);
      pieces := [piece];
    } else {
      var head, tail := BeforeComma(s);
      var piece := PieceOf(head);
      var rest := EveryTextHasPieces(tail);
      pieces := [piece] + rest;
      assert pieces[1..] == rest;
    }
    EntriesOfText(pieces);
  }

  /** A text without a comma holds at most one entry. */
  lemma OneEntryWithoutComma(s: string)
    requires ',' !in s
    ensures |Entries(s)| <= 1
  {
    var pieces := EveryTextHasPieces(s);
    assert pieces[1..] == [];
  }

  // ---------- what an entry lets through ----------

  /** A port is for tcp and udp, `port/proto` for that protocol, and `icmp` may name a type. */
  lemma EntryMeans(r: Reading, port: string, proto: string, p: Packet)
    requires '/' !in port
    ensures port != "icmp" ==> (EntryAllows(r, port, p) <==> p.proto in {"tcp", "udp"} && r.port(port, p.dport))
    ensures port != "icmp" ==> (EntryAllows(r, port + "/" + proto, p) <==> p.proto == proto && r.port(port, p.dport))
    ensures EntryAllows(r, "icmp", p) <==> p.proto == "icmp"
    ensures proto != "" ==>
      (EntryAllows(r, "icmp/" + proto, p) <==> p.proto == "icmp" && r.icmp(proto, p.icmpType))
  {
    SlashAt(port, proto);
    SlashAt("icmp", proto);
    assert "icmp/" + proto == "icmp" + "/" + proto;
    assert port[..|port|] == port && "icmp"[..4] == "icmp";
  }

  lemma SlashAt(head: string, tail: string)
    requires '/' !in head
    ensures Slash(head) == |head|
    ensures var entry := head + "/" + tail;
      Slash(entry) == |head| && entry[..|head|] == head && entry[|head| + 1..] == tail
  {
    var entry := head + "/" + tail;
    assert entry[|head|] == '/' && forall k :: 0 <= k < |head| ==> entry[k] == head[k];
    assert '/' in entry;
  }

  // ---------- what gets out ----------

  lemma {:induction false} CoresExact(pieces: seq<Piece>)
    ensures forall e :: e in Cores(pieces) <==> e != "" && exists k :: 0 <= k < |pieces| && pieces[k].core == e
  {
    if pieces != [] {
      CoresExact(pieces[1..]);
      assert pieces == [pieces[0]] + pieces[1..];
    }
  }

  lemma CoresAllow(pieces: seq<Piece>, r: Reading, p: Packet)
    ensures ListAllows(r, Cores(pieces), p) <==>
      exists k :: 0 <= k < |pieces| && pieces[k].core != "" && EntryAllows(r, pieces[k].core, p)
  {
    hide EntryAllows, Cores;
    CoresExact(pieces);
    var cores := Cores(pieces);
    if j :| 0 <= j < |cores| && EntryAllows(r, cores[j], p) {
      assert cores[j] in cores;
    }
    if k :| 0 <= k < |pieces| && pieces[k].core != "" && EntryAllows(r, pieces[k].core, p) {
      assert pieces[k].core in cores;
      var j :| 0 <= j < |cores| && cores[j] == pieces[k].core;
    }
  }

  /** With the policy `restrict` and some text, a lab bridge lets out what one of the entries lets through. */
  lemma RestrictedOut(r: Reading, bridges: seq<string>, veth: string, gateway: Gateway, pieces: seq<Piece>, p: Packet)
    requires AllOk(pieces) && gateway.outboundPorts == Joined(pieces) != "" && gateway.outboundPolicy == "restrict"
    ensures OutboundAllows(r, bridges, veth, Some(gateway), p) <==>
      && p.iif in bridges && p.oif == veth
      && exists k :: 0 <= k < |pieces| && pieces[k].core != "" && EntryAllows(r, pieces[k].core, p)
  {
    EntriesOfText(pieces);
    CoresAllow(pieces, r, p);
  }

  /** Without a gateway, with another policy, or without any text, everything gets out. */
  lemma FreelyOut(r: Reading, bridges: seq<string>, veth: string, gateway: Option<Gateway>, p: Packet)
    requires gateway.Some? ==> gateway.value.outboundPolicy != "restrict" || gateway.value.outboundPorts == ""
    ensures OutboundAllows(r, bridges, veth, gateway, p) <==> p.iif in bridges && p.oif == veth
  {
  }

  /** The list `53/udp, 443` lets out udp to port 53, tcp and udp to port 443, and nothing else. */
  lemma DnsAndHttps(r: Reading, bridges: seq<string>, veth: string, mode: string,
                    forwards: seq<PortForwards.PortForward>, p: Packet)
    ensures OutboundAllows(r, bridges, veth, Some(Gateway(mode, "restrict", "53/udp, 443", forwards)), p) <==>
      && p.iif in bridges && p.oif == veth
      && (|| (p.proto == "udp" && r.port("53", p.dport))
          || (p.proto in {"tcp", "udp"} && r.port("443", p.dport)))
  {
    hide OutboundAllows, EntryAllows, ListAllows, Cores;
    var pieces := [Piece("", "53/udp", ""), Piece(" ", "443", "")];
    TwoPieces(pieces);
    RestrictedOut(r, bridges, veth, Gateway(mode, "restrict", "53/udp, 443", forwards), pieces, p);
    EntryMeans(r, "53", "udp", p);
    EntryMeans(r, "443", "", p);
    assert "53" + "/" + "udp" == "53/udp";
    assert pieces[0].core == "53/udp" && pieces[1].core == "443";
  }

  lemma TwoPieces(pieces: seq<Piece>)
    requires pieces == [Piece("", "53/udp", ""), Piece(" ", "443", "")]
    ensures AllOk(pieces) && Joined(pieces) == "53/udp, 443"
  {
    hide Bare, Blank;
    assert Blank("") && Blank(" ") && Bare("53/udp") && Bare("443") by { SomeAreBare(); }
    assert pieces[1..] == [pieces[1]];
    assert pieces[0].Text() == "53/udp" && pieces[1].Text() == " 443";
    assert "53/udp" + "," + " 443" == "53/udp, 443";
  }

  lemma SomeAreBare()
    ensures Blank("") && Blank(" ") && Bare("53/udp") && Bare("443")
  {
    assert BLANKS[0] == ' ';
  }

  // ---------- what gets in ----------

  /** A packet from the veth of the namespace that belongs to no connection gets in only for the target of a forward. */
  lemma InOnlyForTargets(r: Reading, bridges: seq<string>, routers: seq<Router>, gateway: Option<Gateway>,
                         pid: string, bmc: bool, veth: string, p: Packet)
    requires !p.established && p.iif == veth && veth !in bridges && !("br-" <= veth)
    ensures Allowed(r, bridges, routers, gateway, pid, bmc, veth, p) <==>
      && gateway.Some? && gateway.value.mode == "nat-portforward" && p.proto == "tcp"
      && exists k :: 0 <= k < |gateway.value.forwards| && gateway.value.forwards[k].Complete()
                     && gateway.value.forwards[k].intPort == p.dport
  {
    assert "br-" <= BmcBridge(pid);
    assert forall vni :: "br-" <= Bridge(vni);
  }

  /** What stays on one lab bridge, or on the BMC bridge of the project, is let through. */
  lemma StaysAllowed(r: Reading, bridges: seq<string>, routers: seq<Router>, gateway: Option<Gateway>,
                     pid: string, bmc: bool, veth: string, p: Packet)
    requires p.iif == p.oif && (p.iif in bridges || (bmc && p.iif == "br-bmc-" + pid))
    ensures Allowed(r, bridges, routers, gateway, pid, bmc, veth, p)
  {
  }

  /** A router lets through what goes from the bridge of one of its networks to that of another. */
  lemma RoutersLink(router: Router, from: nat, to: nat, p: Packet)
    requires from < |router.connectedVnis| && to < |router.connectedVnis| && from != to
    requires p.iif == "br-" + router.connectedVnis[from] && p.oif == "br-" + router.connectedVnis[to]
    ensures RouterLinks(router, p)
  {
    assert Links(router.connectedVnis, p, from, to);
  }
}
