/**
 What the host lets through and masquerades for the projects it serves, after any run of setups and
 teardowns: the base chains of forwarding and postrouting jump to the chain of every project.
 */
module HostTraffic {
  import opened Options
  import opened PortForwards
  import opened HostChains
  import opened SharedDelivery

  /** The base chain of a hook jumps to a project's chain if and only if the project has its chains on the host. */
  lemma JumpIffServed(w: World, hook: Hook, pid: string)
    requires WorldOk(w)
    ensures Jump(Project(hook, pid)) in Get(w.tables, Base(hook)) <==> pid in w.hosts
  {
    var lines, chain := Get(w.tables, Base(hook)), Project(hook, pid);
    assert HookOk(w.tables, w.hosts.Keys, hook);
    JumpsPositive(lines, chain);
    if Jump(chain) in lines {
      var k :| 0 <= k < |lines| && lines[k] == Jump(chain);
      assert Civil(lines[k], hook);
      assert Jumps(lines, chain) == if pid in w.hosts.Keys then 1 else 0;
    }
  }

  /**
   After any run, the chains of a project that is set up accept exactly what comes in by or goes out to its veth,
   and masquerade exactly what is from its transit subnet.
   */
  lemma OwnChainsServe(v: World, events: seq<Event>, pid: string, q: Traffic)
    requires WorldOk(v) && pid in SharedDelivery.Run(v, events).hosts
    ensures var w := SharedDelivery.Run(v, events);
      && (Accepts(Get(w.tables, Project(Forward, pid)), q) <==> q.iif == "ve" + pid + "h" || q.oif == "ve" + pid + "h")
      && (Masquerades(Get(w.tables, Project(Postrouting, pid)), q) <==>
            InTransitSubnet(w.hosts[pid].firstVni % 256, q.saddr))
  {
    hide SharedDelivery.Run, Ok, AfterSetup, AfterTeardown;
    RunKeeps(v, events);
    var w := SharedDelivery.Run(v, events);
    assert Has(w.tables, pid, w.hosts[pid]);
    var forward, post := Get(w.tables, Project(Forward, pid)), Get(w.tables, Project(Postrouting, pid));
    assert forward[0] == AcceptFrom(HostVeth(pid)) && forward[1] == AcceptTo(HostVeth(pid));
    assert post[0] == Masquerade(Subnet(172, 30, w.hosts[pid].Octet3()));
  }

  /** No two projects have one veth. */
  lemma OneVeth(a: string, b: string)
    ensures HostVeth(a) == HostVeth(b) <==> a == b
  {
    assert HostVeth(a)[2..|HostVeth(a)| - 1] == a && HostVeth(b)[2..|HostVeth(b)| - 1] == b;
  }

  /**
   Another project's chains do neither, for traffic between this one's veth and anything but theirs, and from this
   one's subnet unless the first VNIs of both agree in the low byte.
   */
  lemma OthersDoNeither(v: World, events: seq<Event>, pid: string, other: string, q: Traffic)
    requires WorldOk(v) && pid != other
    requires pid in SharedDelivery.Run(v, events).hosts && other in SharedDelivery.Run(v, events).hosts
    ensures var w := SharedDelivery.Run(v, events);
      && (q.iif == "ve" + pid + "h" && q.oif != "ve" + other + "h" ==>
            !Accepts(Get(w.tables, Project(Forward, other)), q))
      && (q.oif == "ve" + pid + "h" && q.iif != "ve" + other + "h" ==>
            !Accepts(Get(w.tables, Project(Forward, other)), q))
      && (Masquerades(Get(w.tables, Project(Postrouting, pid)), q) ==>
            (Masquerades(Get(w.tables, Project(Postrouting, other)), q) <==>
               w.hosts[pid].firstVni % 256 == w.hosts[other].firstVni % 256))
  {
    hide SharedDelivery.Run, WorldOk, Accepts, Masquerades;
    OwnChainsServe(v, events, pid, q);
    OwnChainsServe(v, events, other, q);
    OneVeth(pid, other);
  }

  /** Some project that the base chain jumps to accepts the packet. */
  ghost predicate LetThrough(s: Tables, q: Traffic) {
    exists pid :: Jump(Project(Forward, pid)) in Get(s, Base(Forward)) && Accepts(Get(s, Project(Forward, pid)), q)
  }

  ghost predicate Masqueraded(s: Tables, q: Traffic) {
    exists pid :: Jump(Project(Postrouting, pid)) in Get(s, Base(Postrouting)) &&
                  Masquerades(Get(s, Project(Postrouting, pid)), q)
  }

  /**
   The host as a whole: after any run it lets a packet through for its projects if and only if the packet comes in
   by or goes out to the veth of one that is set up, and masquerades it if and only if it is from such a one's subnet.
   */
  lemma HostServesItsProjects(v: World, events: seq<Event>, q: Traffic)
    requires WorldOk(v)
    ensures var w := SharedDelivery.Run(v, events);
      && (LetThrough(w.tables, q) <==>
            exists pid :: pid in w.hosts && ("ve" + pid + "h" == q.iif || "ve" + pid + "h" == q.oif))
      && (Masqueraded(w.tables, q) <==>
            exists pid :: pid in w.hosts && InTransitSubnet(w.hosts[pid].firstVni % 256, q.saddr))
  {
    RunKeeps(v, events);
    hide SharedDelivery.Run, WorldOk, Accepts, Masquerades;
    var w := SharedDelivery.Run(v, events);
    forall pid: string
      ensures Jump(Project(Forward, pid)) in Get(w.tables, Base(Forward)) <==> pid in w.hosts
      ensures Jump(Project(Postrouting, pid)) in Get(w.tables, Base(Postrouting)) <==> pid in w.hosts
    {
      JumpIffServed(w, Forward, pid);
      JumpIffServed(w, Postrouting, pid);
    }
    forall pid | pid in w.hosts
      ensures Accepts(Get(w.tables, Project(Forward, pid)), q) <==>
          "ve" + pid + "h" == q.iif || "ve" + pid + "h" == q.oif
      ensures Masquerades(Get(w.tables, Project(Postrouting, pid)), q) <==>
          InTransitSubnet(w.hosts[pid].firstVni % 256, q.saddr)
    {
      OwnChainsServe(v, events, pid, q);
    }
  }
}
