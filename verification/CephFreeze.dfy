/**
 Freezing a project's Ceph appliance for a capture, and thawing it again.  Every call on the cluster
 may fail, with or without effect; `trail` records the cluster after every effect, so that a crash at
 any step leaves one of its states behind.
 */
module CephFreeze {
  import opened Options

  datatype Kind = Mon | Osd

  datatype Phase = Running | Pending | Stopped

  /** `replicas` may be absent, which counts as 1. */
  datatype Deployment = Deployment(kind: Kind, replicas: Option<nat>)
  {
    function Count(): nat { if replicas.Some? then replicas.value else 1 }
  }

  /** `flushes`: how often the OSDs were told to flush their caches. */
  datatype Ceph = Ceph(flags: set<string>, flushes: nat, deployments: map<string, Deployment>,
                       monPods: seq<Phase>, osdPods: seq<Phase>, saved: Option<map<string, nat>>)
  {
    function Pods(kind: Kind): seq<Phase> { if kind == Mon then monPods else osdPods }

    predicate MonRuns() { Running in monPods }

    /** Scaled to nothing, and nothing left running. */
    predicate Halted(kind: Kind) {
      && (forall name :: name in deployments && deployments[name].kind == kind ==> deployments[name].Count() == 0)
      && PodsMatch(Pods(kind), false)
    }

    predicate AllFlags() { forall k :: 0 <= k < |FLAGS| ==> FLAGS[k] in flags }

    /** What the cluster may have made of the pods meanwhile: nothing starts where nothing is wanted. */
    predicate Plausible(kind: Kind, pods: seq<Phase>) { Halted(kind) ==> PodsMatch(pods, false) }

    function Names(kind: Kind): set<string> {
      set name | name in deployments && deployments[name].kind == kind
    }
  }

  const FLAGS: seq<string> := ["noout", "norecover", "nobackfill", "noscrub", "nodeep-scrub"]

  /** `_pods_match_desired` */
  predicate PodsMatch(phases: seq<Phase>, running: bool) {
    if running then phases != [] && forall p :: p in phases ==> p == Running
    else phases == [] || forall p :: p in phases ==> p !in {Running, Pending}
  }

  /** There is no pod, or one that does not run; or, if none is wanted, one that runs or is about to. */
  predicate Unlike(phases: seq<Phase>, running: bool) {
    if running then |phases| == 0 || exists k :: 0 <= k < |phases| && phases[k] in {Pending, Stopped}
    else exists k :: 0 <= k < |phases| && phases[k] != Stopped
  }

  lemma NotMatched(phases: seq<Phase>, running: bool)
    ensures PodsMatch(phases, running) <==> !Unlike(phases, running)
    ensures PodsMatch(phases, true) <==> phases != [] && forall p :: p in phases ==> p == Running
    ensures PodsMatch(phases, false) <==> forall p :: p in phases ==> p != Running && p != Pending
  {
    assert forall k :: 0 <= k < |phases| ==> phases[k] in phases;
    if p :| p in phases && (if running then p != Running else p != Stopped) {
      var k :| 0 <= k < |phases| && phases[k] == p;
    }
  }

  function Counts(deployments: map<string, Deployment>): map<string, nat> {
    map name | name in deployments :: deployments[name].Count()
  }

  function CountsOf(deployments: map<string, Deployment>, names: set<string>): map<string, nat> {
    map name | name in deployments && name in names :: deployments[name].Count()
  }

  /** The deployments among `names` scaled to `replicas`. */
  function Scaled(deployments: map<string, Deployment>, names: set<string>, replicas: nat): map<string, Deployment> {
    map name | name in deployments ::
      if name in names then deployments[name].(replicas := Some(replicas)) else deployments[name]
  }

  /** The deployments among `names` scaled to their saved counts. */
  function Restored(deployments: map<string, Deployment>, names: set<string>, saved: map<string, nat>)
    : map<string, Deployment>
  {
    map name | name in deployments ::
      if name in names && name in saved then deployments[name].(replicas := Some(saved[name])) else deployments[name]
  }

  /** What thawing scales the deployments to. */
  function Target(c: Ceph): map<string, Deployment> {
    if c.saved.Some? && c.saved.value != map[] then Restored(c.deployments, c.saved.value.Keys, c.saved.value)
    else Scaled(c.deployments, c.deployments.Keys, 1)
  }

  /** What a freeze may have done to the deployments when it crashed: each is as it was, or scaled to nothing. */
  ghost predicate PartlyStopped(before: map<string, Deployment>, crashed: map<string, Deployment>) {
    && crashed.Keys == before.Keys
    && forall name :: name in before ==> crashed[name] == before[name] || crashed[name].Count() == 0
  }

  /** Only deployments of the kind changed, and the other kind stays halted if it was. */
  ghost predicate OnlyKind(before: Ceph, t: Ceph, kind: Kind) {
    && PartlyStopped(before.deployments, t.deployments)
    && t.flags == before.flags && t.flushes == before.flushes && t.deployments.Keys == before.deployments.Keys
    && (forall name :: name in t.deployments && before.deployments[name].kind != kind ==>
          t.deployments[name] == before.deployments[name])
    && (forall name :: name in t.deployments ==> t.deployments[name].kind == before.deployments[name].kind)
    && (forall other :: other != kind && before.Halted(other) ==> t.Halted(other))
  }

  lemma PartlyOnlyKind(before: Ceph, trail: seq<Ceph>, from: nat, kind: Kind)
    requires AllPartly(trail, from, before, before.Names(kind), Scaled(before.deployments, before.Names(kind), 0))
    ensures forall k :: from <= k < |trail| ==> OnlyKind(before, trail[k], kind)
  {
    forall k | from <= k < |trail| ensures OnlyKind(before, trail[k], kind) {
      assert PartlyScaled(before, trail[k], before.Names(kind), Scaled(before.deployments, before.Names(kind), 0));
    }
  }

  lemma ScaledIsOnlyKind(before: Ceph, t: Ceph, kind: Kind)
    requires t == before.(deployments := Scaled(before.deployments, before.Names(kind), 0))
    ensures OnlyKind(before, t, kind)
  {
  }

  lemma StillOnlyKind(before: Ceph, scaled: Ceph, t: Ceph, kind: Kind)
    requires OnlyKind(before, scaled, kind) && t == scaled.(monPods := t.monPods, osdPods := t.osdPods)
    requires forall other :: scaled.Halted(other) ==> t.Halted(other)
    ensures OnlyKind(before, t, kind)
    ensures forall other :: other != kind && before.Halted(other) ==> t.Halted(other)
  {
  }

  lemma StoppedIsHalted(before: Ceph, t: Ceph, kind: Kind)
    requires t.deployments == Scaled(before.deployments, before.Names(kind), 0)
    ensures PodsMatch(t.Pods(kind), false) ==> t.Halted(kind)
  {
  }

  /** The mons are only scaled once the OSDs have stopped. */
  ghost predicate OsdsFirst(before: Ceph, t: Ceph) {
    && t.deployments.Keys == before.deployments.Keys
    && ((exists name :: name in before.deployments && before.deployments[name].kind == Mon
           && t.deployments[name] != before.deployments[name]) ==> t.Halted(Osd))
  }

  lemma SameOsdsFirst(before: Ceph, ready: Ceph)
    requires ready.deployments == before.deployments
    ensures forall t :: OsdsFirst(before, t) <==> OsdsFirst(ready, t)
  {
  }

  /** Some of the deployments among `names` were scaled to their target, and nothing else changed. */
  ghost predicate PartlyScaled(before: Ceph, after: Ceph, names: set<string>, target: map<string, Deployment>) {
    && after == before.(deployments := after.deployments)
    && after.deployments.Keys == before.deployments.Keys == target.Keys
    && forall name :: name in before.deployments ==>
         && (after.deployments[name] == before.deployments[name]
             || (name in names && after.deployments[name] == target[name]))
  }

  ghost predicate AllPartly(trail: seq<Ceph>, from: nat, before: Ceph, names: set<string>,
                            target: map<string, Deployment>)
  {
    forall k :: from <= k < |trail| ==> PartlyScaled(before, trail[k], names, target)
  }

  /** The deployments among `names` are at their target, or untouched if still to do; nothing else changed. */
  ghost predicate ScaledBut(before: Ceph, now: Ceph, names: set<string>, target: map<string, Deployment>,
                            todo: set<string>)
  {
    && PartlyScaled(before, now, names, target)
    && (forall name :: name in now.deployments && name in names && name !in todo ==>
          now.deployments[name] == target[name])
    && (forall name :: name in now.deployments && name in todo ==> now.deployments[name] == before.deployments[name])
  }

  lemma NothingScaled(before: Ceph, trail: seq<Ceph>, names: set<string>, target: map<string, Deployment>)
    requires target.Keys == before.deployments.Keys
    ensures ScaledBut(before, before, names, target, names) && AllPartly(trail, |trail|, before, names, target)
  {
  }

  lemma PartlyKeeps(before: Ceph, now: Ceph, names: set<string>, target: map<string, Deployment>)
    requires PartlyScaled(before, now, names, target)
    ensures now == before.(deployments := now.deployments)
    ensures now.deployments.Keys == before.deployments.Keys == target.Keys
  {
  }

  /** Whether the next patch takes effect or not. */
  lemma OneMoreScaled(before: Ceph, now: Ceph, trail: seq<Ceph>, from: nat, names: set<string>,
                      target: map<string, Deployment>, todo: set<string>, name: string)
    requires ScaledBut(before, now, names, target, todo) && name in names && name in now.deployments
    requires from <= |trail| && AllPartly(trail, from, before, names, target)
    ensures name in target && name in before.deployments
    ensures var next := now.(deployments := now.deployments[name := target[name]]);
      && ScaledBut(before, next, names, target, todo - {name})
      && AllPartly(trail + [next], from, before, names, target)
  {
  }

  lemma AllScaled(before: Ceph, now: Ceph, names: set<string>, target: map<string, Deployment>)
    requires ScaledBut(before, now, names, target, {})
    requires forall name :: name in target && name !in names ==> target[name] == before.deployments[name]
    ensures now.deployments == target
  {
  }

  /** Some deployment is below its count in `base`. */
  ghost predicate Below(deployments: map<string, Deployment>, base: map<string, nat>) {
    exists name :: name in deployments && name in base && deployments[name].Count() < base[name]
  }

  /** The safety property: whatever is scaled down is scaled down under all five flags. */
  ghost predicate Covered(c: Ceph, base: map<string, nat>) {
    Below(c.deployments, base) ==> c.AllFlags()
  }

  ghost predicate CoveredFrom(trail: seq<Ceph>, from: nat, base: map<string, nat>) {
    forall k :: from <= k < |trail| ==> Covered(trail[k], base)
  }

  class Cluster {
    var c: Ceph
    ghost var trail: seq<Ceph>

    constructor (c: Ceph)
      ensures this.c == c && trail == []
    {
      this.c := c;
      trail := [];
    }

    method Become(next: Ceph)
      modifies this
      ensures c == next && trail == old(trail) + [next]
    {
      c := next;
      trail := trail + [next];
    }

    /** The cluster starts and stops pods as it likes. */
    method PodsMove()
      modifies this
      ensures c == old(c).(monPods := c.monPods, osdPods := c.osdPods)
      ensures old(c).Plausible(Mon, c.monPods) && old(c).Plausible(Osd, c.osdPods)
      ensures trail == old(trail) + [c]
    {
      var mons: seq<Phase>, osds: seq<Phase> := *, *;
      Become(c.(monPods := if c.Plausible(Mon, mons) then mons else c.monPods,
                osdPods := if c.Plausible(Osd, osds) then osds else c.osdPods));
    }

    /** `_ceph_exec`: it needs a running mon, and may fail before or after it took effect. */
    method Exec(flags: set<string>, flush: nat) returns (ok: bool)
      modifies this
      ensures c.deployments == old(c.deployments) && c.saved == old(c.saved)
      ensures (c.flags, c.flushes) in {(old(c.flags), old(c.flushes)), (flags, old(c.flushes) + flush)}
      ensures old(c).Plausible(Mon, c.monPods) && old(c).Plausible(Osd, c.osdPods)
      ensures ok ==> c.flags == flags && c.flushes == old(c.flushes) + flush && c.MonRuns()
      ensures !c.MonRuns() ==> !ok && c.flags == old(c.flags) && c.flushes == old(c.flushes)
      ensures old(trail) <= trail
      ensures forall k :: |old(trail)| <= k < |trail| ==>
        trail[k].deployments == old(c.deployments) && trail[k].flags in {old(c.flags), flags}
    {
      PodsMove();
      if !c.MonRuns() {
        return false;
      }
      var applied: bool := *;
      ok := *;
      if applied || ok {
        Become(c.(flags := flags, flushes := c.flushes + flush));
      }
    }

    /** One patch of a deployment; refused, it may have taken effect nevertheless. */
    method PatchReplicas(name: string, replicas: nat) returns (accepted: bool)
      requires name in c.deployments
      modifies this
      ensures var patched := old(c.deployments)[name].(replicas := Some(replicas));
        var next := old(c).(deployments := old(c.deployments)[name := patched]);
        || (c == next && trail == old(trail) + [next])
        || (c == old(c) && trail == old(trail) && !accepted)
    {
      var applied: bool := *;
      accepted := *;
      if applied || accepted {
        Become(c.(deployments := c.deployments[name := c.deployments[name].(replicas := Some(replicas))]));
      }
    }

    /** `_scale_deployments`, in any order; it may stop at any deployment. */
    method ScaleDeployments(kind: Kind, replicas: nat) returns (ok: bool, prior: map<string, nat>)
      modifies this
      ensures c == old(c).(deployments := c.deployments)
      ensures var names, target := old(c).Names(kind), Scaled(old(c.deployments), old(c).Names(kind), replicas);
        && PartlyScaled(old(c), c, names, target)
        && (ok ==> c.deployments == target && prior == CountsOf(old(c.deployments), names))
        && old(trail) <= trail && AllPartly(trail, |old(trail)|, old(c), names, target)
    {
      hide PartlyScaled, AllPartly;
      ghost var before := c;
      var todo := c.Names(kind);
      ghost var names, target := todo, Scaled(c.deployments, todo, replicas);
      prior := map[];
      NothingScaled(before, trail, names, target);
      while todo != {}
        invariant todo <= names && ScaledBut(before, c, names, target, todo)
        invariant prior.Keys == names - todo
        invariant forall name :: name in prior ==> prior[name] == before.deployments[name].Count()
        invariant old(trail) <= trail && AllPartly(trail, |old(trail)|, before, names, target)
      {
        var name :| name in todo;
        PartlyKeeps(before, c, names, target);
        OneMoreScaled(before, c, trail, |old(trail)|, names, target, todo, name);
        prior := prior[name := c.deployments[name].Count()];
        todo := todo - {name};
        var accepted := PatchReplicas(name, replicas);
        if !accepted {
          PartlyKeeps(before, c, names, target);
          return false, prior;
        }
      }
      PartlyKeeps(before, c, names, target);
      AllScaled(before, c, names, target);
      assert prior == CountsOf(before.deployments, names);
      ok := true;
    }

    /** `_restore_deployments`, in any order; it may stop at any deployment, and does at one that is gone. */
    method RestoreDeployments(saved: map<string, nat>) returns (ok: bool)
      modifies this
      ensures var target := Restored(old(c.deployments), saved.Keys, saved);
        && PartlyScaled(old(c), c, saved.Keys, target)
        && (ok ==> c.deployments == target)
        && old(trail) <= trail && AllPartly(trail, |old(trail)|, old(c), saved.Keys, target)
    {
      hide PartlyScaled, AllPartly;
      ghost var before := c;
      ghost var target := Restored(c.deployments, saved.Keys, saved);
      var todo := saved.Keys;
      NothingScaled(before, trail, saved.Keys, target);
      while todo != {}
        invariant todo <= saved.Keys && ScaledBut(before, c, saved.Keys, target, todo)
        invariant old(trail) <= trail && AllPartly(trail, |old(trail)|, before, saved.Keys, target)
      {
        var name :| name in todo;
        if name !in c.deployments {
          return false;
        }
        OneMoreScaled(before, c, trail, |old(trail)|, saved.Keys, target, todo, name);
        todo := todo - {name};
        var accepted := PatchReplicas(name, saved[name]);
        if !accepted {
          return false;
        }
      }
      PartlyKeeps(before, c, saved.Keys, target);
      AllScaled(before, c, saved.Keys, target);
      ok := true;
    }

    /** `_wait_for_pods`: false when the time is up. */
    method WaitForPods(kind: Kind, running: bool) returns (ok: bool)
      modifies this
      ensures c == old(c).(monPods := c.monPods, osdPods := c.osdPods)
      ensures ok ==> trail != [] && trail[|trail| - 1] == c && |trail| > |old(trail)|
      ensures ok && running ==> c.Pods(kind) != [] && forall p :: p in c.Pods(kind) ==> p == Running
      ensures ok && !running ==> forall p :: p in c.Pods(kind) ==> p != Running && p != Pending
      // it looks up to 150 times, and every look before the last one, or all of them, found the pods otherwise
      ensures !ok ==> |trail| == |old(trail)| + 150
      ensures forall k :: |old(trail)| <= k < (if ok then |trail| - 1 else |trail|) ==>
        Unlike(trail[k].Pods(kind), running)
      ensures forall other :: old(c).Halted(other) ==> c.Halted(other)
      ensures old(trail) <= trail
      ensures forall k :: |old(trail)| <= k < |trail| ==>
        trail[k] == old(c).(monPods := trail[k].monPods, osdPods := trail[k].osdPods)
      ensures forall other, k :: old(c).Halted(other) && |old(trail)| <= k < |trail| ==> trail[k].Halted(other)
    {
      for i := 0 to 150
        invariant |trail| == |old(trail)| + i
        invariant forall k :: |old(trail)| <= k < |trail| ==> Unlike(trail[k].Pods(kind), running)
        invariant c == old(c).(monPods := c.monPods, osdPods := c.osdPods)
        invariant forall other :: old(c).Halted(other) ==> c.Halted(other)
        invariant old(trail) <= trail
        invariant forall k :: |old(trail)| <= k < |trail| ==>
          trail[k] == old(c).(monPods := trail[k].monPods, osdPods := trail[k].osdPods)
        invariant forall other, k :: old(c).Halted(other) && |old(trail)| <= k < |trail| ==> trail[k].Halted(other)
      {
        PodsMove();
        NotMatched(c.Pods(kind), running);
        if PodsMatch(c.Pods(kind), running) {
          return true;
        }
      }
      return false;
    }

    /** Writing or deleting the saved counts: it may fail before or after it took effect. */
    method WriteSaved(saved: Option<map<string, nat>>) returns (ok: bool)
      modifies this
      ensures c in {old(c), old(c).(saved := saved)} && (ok ==> c.saved == saved)
      ensures old(trail) <= trail
      ensures forall k :: |old(trail)| <= k < |trail| ==> trail[k] == old(c).(saved := saved)
    {
      var applied: bool := *;
      ok := *;
      if applied || ok {
        Become(c.(saved := saved));
      }
    }

    /** The first half of `freeze_ceph_for_capture`: the flags and the flush. */
    method SetFlags() returns (ok: bool)
      modifies this
      ensures c.deployments == old(c.deployments) && c.saved == old(c.saved) && old(c.flags) <= c.flags
      ensures ok ==> c.flushes == old(c.flushes) + 1 && c.AllFlags() && c.flags == old(c.flags) + (set f | f in FLAGS)
      ensures old(c).Halted(Mon) ==> !ok && c.flags == old(c.flags)
      ensures old(trail) <= trail
      ensures forall k :: |old(trail)| <= k < |trail| ==>
        trail[k].deployments == old(c.deployments) && old(c.flags) <= trail[k].flags
    {
      for i := 0 to |FLAGS|
        invariant c.deployments == old(c.deployments) && c.saved == old(c.saved)
        invariant c.flags == old(c.flags) + (set f | f in FLAGS[..i]) && c.flushes == old(c.flushes)
        invariant old(c).Halted(Mon) ==> c.Halted(Mon) && i == 0
        invariant old(trail) <= trail
        invariant forall k :: |old(trail)| <= k < |trail| ==>
          trail[k].deployments == old(c.deployments) && old(c.flags) <= trail[k].flags
      {
        ghost var sofar := c.flags;
        ok := Exec(c.flags + {FLAGS[i]}, 0);
        if !ok {
          return false;
        }
        assert FLAGS[..i + 1] == FLAGS[..i] + [FLAGS[i]];
      }
      assert FLAGS[..|FLAGS|] == FLAGS;
      ok := Exec(c.flags, 1);
    }
  
    /** Scale one kind to nothing and wait until nothing of it runs. */
    method StopKind(kind: Kind) returns (ok: bool, prior: map<string, nat>)
      modifies this
      ensures c == old(c).(deployments := c.deployments, monPods := c.monPods, osdPods := c.osdPods)
      ensures ok ==> c.deployments == Scaled(old(c.deployments), old(c).Names(kind), 0)
      ensures ok ==> prior == CountsOf(old(c.deployments), old(c).Names(kind)) && c.Halted(kind)
      ensures ok ==> forall other :: other != kind && old(c).Halted(other) ==> c.Halted(other)
      ensures old(trail) <= trail
      ensures forall k :: |old(trail)| <= k < |trail| ==> OnlyKind(old(c), trail[k], kind)
    {
      hide PartlyScaled, AllPartly, OnlyKind;
      ghost var before := c;
      ok, prior := ScaleDeployments(kind, 0);
      PartlyOnlyKind(before, trail, |old(trail)|, kind);
      if ok {
        ghost var sofar, scaled := |trail|, c;
        ScaledIsOnlyKind(before, scaled, kind);
        ok := WaitForPods(kind, false);
        forall k | sofar <= k < |trail| ensures OnlyKind(before, trail[k], kind) {
          StillOnlyKind(before, scaled, trail[k], kind);
        }
        StillOnlyKind(before, scaled, c, kind);
        StoppedIsHalted(before, c, kind);
      }
    }

    /** The second half: stop the OSDs, then the mons, and save what was scaled down. */
    method StopDaemons() returns (ok: bool)
      modifies this
      ensures c.flags == old(c.flags)
      ensures ok ==> c.deployments == Scaled(old(c.deployments), old(c.deployments).Keys, 0)
      ensures ok ==> c.saved == Some(Counts(old(c.deployments))) && c.Halted(Mon) && c.Halted(Osd)
      ensures old(trail) <= trail
      ensures forall k :: |old(trail)| <= k < |trail| ==>
        && trail[k].flags == old(c.flags) && trail[k].flushes == old(c.flushes)
        && OsdsFirst(old(c), trail[k]) && PartlyStopped(old(c.deployments), trail[k].deployments)
    {
      hide PartlyScaled, AllPartly;
      ghost var before := c;
      var osds, mons;
      ok, osds := StopKind(Osd);
      if !ok {
        return;
      }
      ghost var half, sofar := c, |trail|;
      BothKinds(before, c, Osd, Mon, 0);
      ok, mons := StopKind(Mon);
      forall k | sofar <= k < |trail| ensures OsdsFirst(before, trail[k]) {
        assert OnlyKind(half, trail[k], Mon);
      }
      if !ok {
        return;
      }
      assert c.Halted(Osd);
      ok := WriteSaved(Some(osds + mons));
    }

    /**
     `freeze_ceph_for_capture`.  At every step, and so after a crash at any step, whatever is scaled down
     is scaled down under all five flags, the caches were flushed before, and the mons stay until the OSDs
     have stopped.  A cluster without a running mon is left as it is.
     */
    method Freeze(ghost base: map<string, nat>) returns (ok: bool)
      modifies this
      ensures Covered(old(c), base) ==> CoveredFrom(trail, |old(trail)|, base) && Covered(c, base)
      ensures forall k :: |old(trail)| <= k < |trail| && trail[k].deployments != old(c.deployments) ==>
        trail[k].AllFlags() && trail[k].flushes == old(c.flushes) + 1 && OsdsFirst(old(c), trail[k])
      ensures forall k :: |old(trail)| <= k < |trail| ==> PartlyStopped(old(c.deployments), trail[k].deployments)
      ensures ok ==> c.flags == old(c.flags) + (set f | f in FLAGS)
      ensures ok ==> c.deployments == Scaled(old(c.deployments), old(c.deployments).Keys, 0)
      ensures ok ==> c.saved == Some(Counts(old(c.deployments))) && c.Halted(Mon) && c.Halted(Osd)
      ensures ok ==> forall p :: p in c.monPods + c.osdPods ==> p != Running && p != Pending
      ensures ok ==> {"noout", "norecover", "nobackfill", "noscrub", "nodeep-scrub"} <= c.flags
      ensures old(c).Halted(Mon) ==>
        !ok && c.deployments == old(c.deployments) && c.flags == old(c.flags) && c.saved == old(c.saved)
      ensures old(trail) <= trail
    {
      hide Below, OsdsFirst;
      ghost var before := c;
      ok := SetFlags();
      if ok {
        ghost var ready := c;
        ok := StopDaemons();
        SameOsdsFirst(before, ready);
        FlagsAreFive(c);
      }
    }

    /** The first half of thawing: the deployments, from the saved counts or else to 1. */
    method ScaleBack() returns (ok: bool)
      modifies this
      ensures c == old(c).(deployments := c.deployments)
      ensures ok ==> c.deployments == Target(old(c))
      ensures old(trail) <= trail && AllPartly(trail, |old(trail)|, old(c), old(c.deployments.Keys), Target(old(c)))
    {
      ghost var before := c;
      var readable: bool := *;
      if !readable {
        return false;
      }
      if c.saved.Some? && c.saved.value != map[] {
        ok := RestoreDeployments(c.saved.value);
      } else {
        var prior;
        ok, prior := ScaleDeployments(Mon, 1);
        if !ok {
          return;
        }
        BothKinds(before, c, Mon, Osd, 1);
        ghost var half := c;
        ghost var sofar := trail;
        ok, prior := ScaleDeployments(Osd, 1);
        forall k | |sofar| <= k < |trail|
            ensures PartlyScaled(before, trail[k], before.deployments.Keys, Target(before)) {
          assert PartlyScaled(half, trail[k], half.Names(Osd), Scaled(half.deployments, half.Names(Osd), 1));
        }
      }
    }

    /** The flags in reverse order. */
    method UnsetFlags() returns (ok: bool)
      modifies this
      ensures c.deployments == old(c.deployments) && c.saved == old(c.saved)
      ensures ok ==> c.flags == old(c.flags) - (set f | f in FLAGS)
      ensures old(trail) <= trail && forall k :: |old(trail)| <= k < |trail| ==>
          trail[k].deployments == old(c.deployments)
    {
      for i := |FLAGS| downto 0
        invariant c.deployments == old(c.deployments) && c.saved == old(c.saved)
        invariant c.flags == old(c.flags) - (set f | f in FLAGS[i..])
        invariant old(trail) <= trail
        invariant forall k :: |old(trail)| <= k < |trail| ==> trail[k].deployments == old(c.deployments)
      {
        ok := Exec(c.flags - {FLAGS[i]}, 0);
        if !ok {
          return;
        }
        assert FLAGS[i..] == [FLAGS[i]] + FLAGS[i + 1..];
      }
      assert FLAGS[0..] == FLAGS;
      ok := true;
    }

    /**
     `unfreeze_ceph_after_capture`.  Until it has seen all mon pods and then all OSD pods running, which is at
     `seen`, nothing is scaled down without the flags; from then on the deployments are at their targets.
     */
    method Unfreeze(ghost base: map<string, nat>) returns (ok: bool, ghost seen: nat)
      modifies this
      ensures old(trail) <= trail && |old(trail)| <= seen <= |trail|
      ensures Covered(old(c), base) && (old(c).AllFlags() || !Below(Target(old(c)), base)) ==>
        CoveredFrom(trail[..seen], |old(trail)|, base)
      ensures seen < |trail| || ok ==> SeenRunning(trail[..seen], |old(trail)|)
      ensures seen < |trail| || ok ==> exists i, j ::
        && |old(trail)| <= i <= j < seen
        && trail[i].monPods != [] && (forall p :: p in trail[i].monPods ==> p == Running)
        && trail[j].osdPods != [] && (forall p :: p in trail[j].osdPods ==> p == Running)
      ensures forall k :: seen <= k < |trail| ==> trail[k].deployments == Target(old(c))
      ensures ok ==>
          c.deployments == Target(old(c)) && c.flags == old(c.flags) - (set f | f in FLAGS) && c.saved == None
    {
      hide Below, Covered, PartlyScaled, Target, AllPartly;
      ghost var before := c;
      ok := ScaleBack();
      seen := |trail|;
      PartlyTowards(before, trail, |old(trail)|);
      TowardsCovered(before, trail, |old(trail)|, base);
      assert trail[..seen] == trail;
      if !ok {
        return;
      }
      TargetKeys(before);
      ghost var sofar := |trail|;
      ok := WaitForPods(Mon, true);
      ghost var i := |trail| - 1;
      if ok {
        ok := WaitForPods(Osd, true);
        assert ok ==> PodsMatch(trail[i].monPods, true) && PodsMatch(trail[|trail| - 1].osdPods, true);
      }
      seen := |trail|;
      assert forall k :: sofar <= k < |trail| ==>
          trail[k].deployments == Target(before) && trail[k].flags == before.flags;
      TowardsCovered(before, trail, |old(trail)|, base);
      assert trail[..seen] == trail;
      if !ok {
        return;
      }
      ghost var calm := trail;
      ok := UnsetFlags();
      assert trail[..seen] == calm;
      if !ok {
        return;
      }
      ok := WriteSaved(None);
      assert trail[..seen] == calm;
    }
  }

  lemma FlagsAreFive(c: Ceph)
    requires c.AllFlags()
    ensures {"noout", "norecover", "nobackfill", "noscrub", "nodeep-scrub"} <= c.flags
  {
    assert FLAGS[0] in c.flags && FLAGS[1] in c.flags && FLAGS[2] in c.flags && FLAGS[3] in c.flags
        && FLAGS[4] in c.flags;
  }

  /** On the way to the target, the flags as they were. */
  ghost predicate Towards(before: Ceph, t: Ceph) {
    && t.flags == before.flags && t.deployments.Keys == before.deployments.Keys == Target(before).Keys
    && forall name :: name in t.deployments ==> t.deployments[name] in {before.deployments[name], Target(before)[name]}
  }

  /** Without saved counts everything goes to 1; else what was saved gets its count, and the rest stays. */
  lemma ThawTargets(c: Ceph, name: string)
    requires name in c.deployments
    ensures name in Target(c) && Target(c)[name].kind == c.deployments[name].kind
    ensures c.saved == None || c.saved == Some(map[]) ==> Target(c)[name].replicas == Some(1)
    ensures c.saved.Some? && name in c.saved.value ==> Target(c)[name].replicas == Some(c.saved.value[name])
    ensures c.saved.Some? && c.saved.value != map[] && name !in c.saved.value ==> Target(c)[name] == c.deployments[name]
  {
  }

  lemma TargetKeys(c: Ceph)
    ensures Target(c).Keys == c.deployments.Keys
  {
  }

  lemma PartlyTowards(before: Ceph, trail: seq<Ceph>, from: nat)
    requires AllPartly(trail, from, before, before.deployments.Keys, Target(before))
    ensures forall k :: from <= k < |trail| ==> Towards(before, trail[k])
  {
    hide Target;
    forall k | from <= k < |trail| ensures Towards(before, trail[k]) {
      assert PartlyScaled(before, trail[k], before.deployments.Keys, Target(before));
    }
  }

  lemma TowardsCovered(before: Ceph, trail: seq<Ceph>, from: nat, base: map<string, nat>)
    requires forall k :: from <= k < |trail| ==> Towards(before, trail[k])
    ensures Covered(before, base) && (before.AllFlags() || !Below(Target(before), base)) ==>
        CoveredFrom(trail, from, base)
  {
    if Covered(before, base) && (before.AllFlags() || !Below(Target(before), base)) {
      hide Target;
      forall k | from <= k < |trail| && Below(trail[k].deployments, base) ensures trail[k].AllFlags() {
        assert Towards(before, trail[k]);
        var t, target := trail[k].deployments, Target(before);
        var name :| name in t && name in base && t[name].Count() < base[name];
        assert t[name] == before.deployments[name] || t[name] == target[name];
        assert t[name] == target[name] ==> Below(target, base);
        assert t[name] == before.deployments[name] ==> Below(before.deployments, base);
      }
    }
  }

  /** All mon pods, and then all OSD pods, were seen running. */
  ghost predicate SeenRunning(trail: seq<Ceph>, from: nat) {
    exists i, j :: from <= i <= j < |trail| && PodsMatch(trail[i].monPods, true) && PodsMatch(trail[j].osdPods, true)
  }

  /** Scaling one kind and then the other is scaling all; together the prior counts are all the counts there were. */
  lemma BothKinds(before: Ceph, half: Ceph, first: Kind, second: Kind, replicas: nat)
    requires first != second && half.deployments == Scaled(before.deployments, before.Names(first), replicas)
    ensures half.Names(second) == before.Names(second)
    ensures Scaled(half.deployments, half.Names(second), replicas) ==
      Scaled(before.deployments, before.deployments.Keys, replicas)
    ensures CountsOf(before.deployments, before.Names(first)) + CountsOf(half.deployments, half.Names(second)) ==
      Counts(before.deployments)
  {
    assert half.Names(second) == before.Names(second);
  }

  // ---------- a whole capture ----------

  /** Scaling everything to nothing and back restores exactly the counts that were saved. */
  lemma ThawRestores(d: map<string, Deployment>, frozen: Ceph)
    requires frozen.deployments == Scaled(d, d.Keys, 0) && frozen.saved == Some(Counts(d))
    ensures Counts(Target(frozen)) == Counts(d) && !Below(Target(frozen), Counts(d))
    ensures forall name :: name in d ==>
      && name in Target(frozen)
      && Target(frozen)[name].replicas == Some(if d[name].replicas.Some? then d[name].replicas.value else 1)
  {
    assert Counts(d).Keys == d.Keys;
    if d == map[] {
      assert frozen.deployments == map[];
    } else {
      var name :| name in d;
      assert name in Counts(d);
      assert Target(frozen) == Restored(frozen.deployments, d.Keys, Counts(d));
      assert forall name :: name in d ==> Target(frozen)[name].Count() == d[name].Count();
    }
  }

  /** Freezing a second time fails and changes nothing; thawing then restores every count and every flag. */
  method CaptureRoundTrip(cluster: Cluster) returns (frozen: bool, again: bool, thawed: bool)
    modifies cluster
    ensures frozen ==> !again
    ensures frozen && thawed ==> Counts(cluster.c.deployments) == Counts(old(cluster.c.deployments))
    ensures frozen && thawed ==>
        cluster.c.flags == old(cluster.c.flags) - (set f | f in FLAGS) && cluster.c.saved == None
    ensures CoveredFrom(cluster.trail, |old(cluster.trail)|, Counts(old(cluster.c.deployments)))
  {
    ghost var d := cluster.c.deployments;
    ghost var base := Counts(d);
    NothingBelow(cluster.c);
    hide Below, Target, Counts, Scaled, Covered, SeenRunning;
    again, thawed := false, false;
    frozen := cluster.Freeze(base);
    if frozen {
      again := cluster.Freeze(base);
      ghost var trail := cluster.trail;
      ghost var seen;
      ThawRestores(d, cluster.c);
      AllFlagsCover(cluster.c, base);
      thawed, seen := cluster.Unfreeze(base);
      forall k | |old(cluster.trail)| <= k < |cluster.trail| ensures Covered(cluster.trail[k], base) {
        if k < |trail| {
          assert cluster.trail[k] == trail[k];
        } else if k < seen {
          assert cluster.trail[k] == cluster.trail[..seen][k];
        } else {
          TargetCovered(cluster.trail[k], base);
        }
      }
    }
  }

  lemma NothingBelow(c: Ceph)
    ensures Covered(c, Counts(c.deployments))
  {
  }

  lemma AllFlagsCover(c: Ceph, base: map<string, nat>)
    ensures (set f | f in FLAGS) <= c.flags ==> c.AllFlags() && Covered(c, base)
  {
    if (set f | f in FLAGS) <= c.flags {
      assert forall k :: 0 <= k < |FLAGS| ==> FLAGS[k] in (set f | f in FLAGS);
    }
  }

  lemma TargetCovered(c: Ceph, base: map<string, nat>)
    ensures !Below(c.deployments, base) ==> Covered(c, base)
  {
  }

  /**
   A freeze retried after a crash at any point before saving takes the counts it finds for those to restore:
   the thaw that follows restores the counts from before if and only if every deployment the crashed one had
   scaled was at nothing already.
   */
  lemma RetriedFreezeForgets(before: Ceph, crashed: Ceph, frozen: Ceph)
    requires PartlyStopped(before.deployments, crashed.deployments)
    requires frozen.deployments == Scaled(crashed.deployments, crashed.deployments.Keys, 0)
    requires frozen.saved == Some(Counts(crashed.deployments))
    ensures Counts(Target(frozen)) == Counts(before.deployments) <==>
      forall name :: name in before.deployments && crashed.deployments[name] != before.deployments[name] ==>
        before.deployments[name].Count() == 0
  {
    ThawRestores(crashed.deployments, frozen);
    var b, c := before.deployments, crashed.deployments;
    assert forall name :: name in b ==> Counts(b)[name] == b[name].Count() && Counts(c)[name] == c[name].Count();
    if Counts(c) == Counts(b) {
      forall name | name in b && c[name] != b[name] ensures b[name].Count() == 0 {
        assert Counts(c)[name] == 0;
      }
    }
  }

  /** One OSD scaled before the crash: it comes back with nothing. */
  lemma RetryLosesAnOsd()
    ensures exists before: Ceph, crashed: Ceph, frozen: Ceph ::
      && PartlyStopped(before.deployments, crashed.deployments) && crashed.MonRuns()
      && frozen.deployments == Scaled(crashed.deployments, crashed.deployments.Keys, 0)
      && frozen.saved == Some(Counts(crashed.deployments))
      && Counts(Target(frozen)) != Counts(before.deployments)
  {
    var d := map["mon" := Deployment(Mon, Some(1)), "osd" := Deployment(Osd, Some(1))];
    var before := Ceph({}, 0, d, [Running], [Running], None);
    var crashed := before.(deployments := d["osd" := Deployment(Osd, Some(0))]);
    var frozen := crashed.(deployments := Scaled(crashed.deployments, crashed.deployments.Keys, 0),
                           saved := Some(Counts(crashed.deployments)));
    RetriedFreezeForgets(before, crashed, frozen);
    assert crashed.deployments["osd"] != before.deployments["osd"] && before.deployments["osd"].Count() == 1;
    assert PartlyStopped(before.deployments, crashed.deployments) && crashed.MonRuns();
  }
}
