/**
 Reconfiguring a libvirt domain: its XML tree is edited in place, and read back by the config
 reader.  A tree is kept as the lists of children the code looks at; libvirt always writes the
 elements `os/type`, `vcpu`, `memory` and `devices`.
 */
module DomainXml {
  import opened Options

  datatype OsElem = Type | Boot(dev: string) | OtherOs(tag: string)

  /** A child of `devices`; a missing path, bridge or MAC reads as "". */
  datatype Device =
    | Disk(kind: string, path: string, target: Option<string>, bus: string, boot: Option<nat>)
    | Interface(bridge: string, mac: string, model: string, trust: bool, boot: Option<nat>)
    | OtherDevice(tag: string, boot: Option<nat>)
  {
    predicate IsCdrom() { Disk? && kind == "cdrom" }
    predicate IsPlainDisk() { Disk? && kind != "cdrom" }
    function Unbooted(): Device { this.(boot := None) }
  }

  datatype Memory = Memory(value: nat, unit: string)

  // ---------- what the reader sees ----------

  function Boots(os: seq<OsElem>): seq<string> {
    if os == [] then [] else (if os[0].Boot? then [os[0].dev] else []) + Boots(os[1..])
  }

  function Unboot(os: seq<OsElem>): seq<OsElem> {
    if os == [] then [] else (if os[0].Boot? then [] else [os[0]]) + Unboot(os[1..])
  }

  datatype NicConfig = NicConfig(bridge: string, mac: string, allowNestedMacs: bool)

  function Nics(devices: seq<Device>): seq<NicConfig> {
    if devices == [] then []
    else (if devices[0].Interface? then [NicConfig(devices[0].bridge, devices[0].mac, devices[0].trust)] else [])
         + Nics(devices[1..])
  }

  function DiskPaths(devices: seq<Device>): seq<string> {
    if devices == [] then [] else (if devices[0].IsPlainDisk() then [devices[0].path] else []) + DiskPaths(devices[1..])
  }

  function CdromPaths(devices: seq<Device>): seq<string> {
    if devices == [] then [] else (if devices[0].IsCdrom() then [devices[0].path] else []) + CdromPaths(devices[1..])
  }

  /** RAM in MB: KiB are divided, anything else is taken as it is. */
  function RamMb(memory: Memory): nat {
    if memory.unit == "KiB" then memory.value / 1024 else memory.value
  }

  // The fallback for a tree without os/boot elements: per-device boot orders.

  datatype BootKind = CdromKind | HdKind | NetworkKind
  {
    function Rank(): nat { match this case CdromKind => 0 case HdKind => 1 case NetworkKind => 2 }
    function Name(): string { match this case CdromKind => "cdrom" case HdKind => "hd" case NetworkKind => "network" }
  }

  datatype BootEntry = BootEntry(order: nat, kind: BootKind)
  {
    predicate AtMost(that: BootEntry) { order < that.order || (order == that.order && kind.Rank() <= that.kind.Rank()) }
  }

  function EntryOf(d: Device): seq<BootEntry> {
    if d.boot == None || d.OtherDevice? then []
    else [BootEntry(d.boot.value, if d.Interface? then NetworkKind else if d.IsCdrom() then CdromKind else HdKind)]
  }

  function BootEntries(devices: seq<Device>): seq<BootEntry> {
    if devices == [] then [] else EntryOf(devices[0]) + BootEntries(devices[1..])
  }

  function Insert(e: BootEntry, sorted: seq<BootEntry>): seq<BootEntry> {
    if sorted == [] || e.AtMost(sorted[0]) then [e] + sorted else [sorted[0]] + Insert(e, sorted[1..])
  }

  function Sort(entries: seq<BootEntry>): seq<BootEntry> {
    if entries == [] then [] else Insert(entries[0], Sort(entries[1..]))
  }

  /** The kinds in order, each once. */
  function Once(entries: seq<BootEntry>, seen: set<BootKind>): seq<string> {
    if entries == [] then []
    else if entries[0].kind in seen then Once(entries[1..], seen)
    else [entries[0].kind.Name()] + Once(entries[1..], seen + {entries[0].kind})
  }

  function BootDevices(os: seq<OsElem>, devices: seq<Device>): seq<string> {
    if Boots(os) != [] then Boots(os) else Once(Sort(BootEntries(devices)), {})
  }

  datatype Config = Config(bootDevs: seq<string>, vcpus: nat, ramMb: nat, nics: seq<NicConfig>,
                           disks: seq<string>, cdroms: seq<string>)

  // ---------- target names ----------

  const DISK_LETTERS := "bcdefghijklmnop"
  const CDROM_LETTERS := "abcdefghijklmnop"

  /** The target names in use. */
  function Targets(devices: seq<Device>): set<string> {
    set d | d in devices && d.Disk? && d.target.Some? :: d.target.value
  }

  /** All names the letters give are in use. */
  predicate Exhausted(used: set<string>, prefix: string, letters: string) {
    forall k :: 0 <= k < |letters| ==> prefix + [letters[k]] in used
  }

  /** The first name the letters give that is not in use. */
  function FirstFree(used: set<string>, prefix: string, letters: string): (r: Option<string>)
    ensures r.Some? ==> r.value !in used && IsFirst(r.value, used, prefix, letters)
    ensures r.None? <==> Exhausted(used, prefix, letters)
  {
    if letters == "" then None
    else if prefix + [letters[0]] !in used then
      assert letters[0] == letters[0..][0];
      Some(prefix + [letters[0]])
    else
      var r := FirstFree(used, prefix, letters[1..]);
      assert letters == [letters[0]] + letters[1..];
      assert forall k :: 0 < k < |letters| ==> letters[k] == letters[1..][k - 1];
      r
  }

  /** The name has the first of the letters that gives none in use. */
  ghost predicate IsFirst(name: string, used: set<string>, prefix: string, letters: string) {
    exists k :: 0 <= k < |letters| && name == prefix + [letters[k]] &&
                forall j :: 0 <= j < k ==> prefix + [letters[j]] in used
  }

  /** No two disks share a target name. */
  predicate DistinctTargets(devices: seq<Device>) {
    forall i, j :: 0 <= i < j < |devices| && devices[i].Disk? && devices[j].Disk? && devices[i].target.Some? ==>
      devices[i].target != devices[j].target
  }

  // ---------- the requested disks ----------

  datatype DiskRequest = DiskRequest(path: string, bus: string)

  function Wanted(disks: seq<DiskRequest>): set<string> {
    set d | d in disks :: d.path
  }

  /** The file paths attached in any way. */
  function AttachedPaths(devices: seq<Device>): set<string> {
    set d | d in devices && d.Disk? && d.path != "" :: d.path
  }

  /** A plain disk with a path nobody wants goes; everything else stays. */
  predicate Stays(d: Device, wanted: set<string>) {
    d.IsPlainDisk() && d.path != "" ==> d.path in wanted
  }

  function Staying(devices: seq<Device>, wanted: set<string>): seq<Device> {
    if devices == [] then []
    else (if Stays(devices[0], wanted) then [devices[0]] else []) + Staying(devices[1..], wanted)
  }

  /** The disks added for the requests, in order, while there are names left. */
  function Added(attached: set<string>, used: set<string>, disks: seq<DiskRequest>): seq<Device>
    decreases |disks|
  {
    if disks == [] then []
    else if disks[0].path in attached then Added(attached, used, disks[1..])
    else
      match FirstFree(used, "vd", DISK_LETTERS)
      case None => Added(attached, used, disks[1..])
      case Some(name) =>
        [Disk("disk", disks[0].path, Some(name), disks[0].bus, None)] + Added(attached, used + {name}, disks[1..])
  }

  function Synchronised(devices: seq<Device>, disks: seq<DiskRequest>): seq<Device> {
    var kept := Staying(devices, Wanted(disks));
    kept + Added(AttachedPaths(devices), Targets(kept), disks)
  }

  // ---------- lemmas: what synchronising gives ----------

  lemma {:induction false} StayingExact(devices: seq<Device>, wanted: set<string>)
    ensures forall d :: d in Staying(devices, wanted) <==> d in devices && Stays(d, wanted)
    ensures (forall d :: d in devices ==> Stays(d, wanted)) ==> Staying(devices, wanted) == devices
  {
    if devices != [] {
      StayingExact(devices[1..], wanted);
      assert devices == [devices[0]] + devices[1..];
    }
  }

  lemma {:induction false} StayingReads(devices: seq<Device>, wanted: set<string>)
    ensures CdromPaths(Staying(devices, wanted)) == CdromPaths(devices)
    ensures Nics(Staying(devices, wanted)) == Nics(devices)
  {
    if devices != [] {
      StayingReads(devices[1..], wanted);
      ReadAppend(if Stays(devices[0], wanted) then [devices[0]] else [], Staying(devices[1..], wanted));
    }
  }

  lemma {:induction false} StayingAppend(a: seq<Device>, b: seq<Device>, wanted: set<string>)
    ensures Staying(a + b, wanted) == Staying(a, wanted) + Staying(b, wanted)
  {
    if a == [] {
      assert a + b == b;
    } else {
      assert (a + b)[1..] == a[1..] + b;
      StayingAppend(a[1..], b, wanted);
    }
  }

  lemma StayingNothing(devices: seq<Device>, wanted: set<string>)
    ensures Staying(devices[..0], wanted) + devices[0..] == devices
  {
  }

  /** Taking out the element at `k`, or leaving it, after the ones before it. */
  lemma {:induction false} StayingStep(devices: seq<Device>, wanted: set<string>, k: nat)
    requires k < |devices|
    ensures
      var now, next := Staying(devices[..k], wanted) + devices[k..],
          Staying(devices[..k + 1], wanted) + devices[k + 1..];
      var at := |now| - (|devices| - k);
      at >= 0 && next == if Stays(devices[k], wanted) then now else now[..at] + now[at + 1..]
  {
    assert devices[..k + 1] == devices[..k] + [devices[k]];
    StayingAppend(devices[..k], [devices[k]], wanted);
    assert devices[k..] == [devices[k]] + devices[k + 1..];
    assert Staying([devices[k]], wanted) == if Stays(devices[k], wanted) then [devices[k]] else [];
  }

  lemma {:induction false} StayingDistinct(devices: seq<Device>, wanted: set<string>)
    requires DistinctTargets(devices)
    ensures DistinctTargets(Staying(devices, wanted))
  {
    if devices != [] {
      var rest, tail := devices[1..], Staying(devices[1..], wanted);
      assert forall i :: 0 <= i < |rest| ==> rest[i] == devices[i + 1];
      StayingDistinct(rest, wanted);
      StayingExact(rest, wanted);
      forall j | 0 <= j < |tail| && tail[j].Disk? && devices[0].Disk? && devices[0].target.Some?
        ensures tail[j].target != devices[0].target
      {
        assert tail[j] in tail && tail[j] in rest;
        var k :| 0 <= k < |rest| && rest[k] == tail[j];
        assert devices[k + 1] == tail[j];
      }
    }
  }

  /** What is added: new disks with fresh, pairwise distinct names, for wanted paths that were not attached. */
  lemma {:induction false} AddedFresh(attached: set<string>, used: set<string>, disks: seq<DiskRequest>)
    ensures var added := Added(attached, used, disks);
      && (forall d :: d in added ==> d.IsPlainDisk() && d.path in Wanted(disks) && d.path !in attached)
      && (forall d :: d in added ==> d.target.Some? && d.target.value !in used && d.boot == None)
      && DistinctTargets(added)
    decreases |disks|
  {
    if disks != [] {
      var rest := disks[1..];
      assert disks == [disks[0]] + rest;
      AddedFresh(attached, used, rest);
      match FirstFree(used, "vd", DISK_LETTERS)
      case None =>
      case Some(name) =>
        AddedFresh(attached, used + {name}, rest);
        var tail := Added(attached, used + {name}, rest);
        assert forall j :: 0 <= j < |tail| ==> tail[j] in tail;
    }
  }

  /** An added disk is a requested one, with its path and bus. */
  lemma {:induction false} AddedAsRequested(attached: set<string>, used: set<string>, disks: seq<DiskRequest>)
    ensures forall d :: d in Added(attached, used, disks) ==>
      && d.Disk? && d.target.Some? && "vd" <= d.target.value
      && exists r :: r in disks && d == Disk("disk", r.path, d.target, r.bus, None)
    decreases |disks|
  {
    if disks != [] {
      hide FirstFree, IsFirst;
      assert disks == [disks[0]] + disks[1..];
      AddedAsRequested(attached, used, disks[1..]);
      match FirstFree(used, "vd", DISK_LETTERS)
      case None =>
      case Some(name) =>
        AddedAsRequested(attached, used + {name}, disks[1..]);
        assert IsFirst(name, used, "vd", DISK_LETTERS);
        FirstHasPrefix(name, used, "vd", DISK_LETTERS);
    }
  }

  lemma FirstHasPrefix(name: string, used: set<string>, prefix: string, letters: string)
    requires IsFirst(name, used, prefix, letters)
    ensures prefix <= name
  {
  }

  /** What is not added was attached, or found no name left. */
  lemma {:induction false} AddedAll(attached: set<string>, used: set<string>, disks: seq<DiskRequest>, r: DiskRequest)
    requires r in disks && r.path !in attached
    ensures var added := Added(attached, used, disks);
      (exists d :: d in added && d.IsPlainDisk() && d.path == r.path)
          || Exhausted(used + Targets(added), "vd", DISK_LETTERS)
    decreases |disks|
  {
    var rest := disks[1..];
    assert disks == [disks[0]] + rest;
    if disks[0].path in attached {
      AddedAll(attached, used, rest, r);
    } else {
      match FirstFree(used, "vd", DISK_LETTERS)
      case None => assert Exhausted(used, "vd", DISK_LETTERS);
      case Some(name) =>
        var tail := Added(attached, used + {name}, rest);
        var head := Disk("disk", disks[0].path, Some(name), disks[0].bus, None);
        assert Added(attached, used, disks) == [head] + tail;
        assert used + Targets([head] + tail) == used + {name} + Targets(tail);
        if r.path == disks[0].path {
          assert head in [head] + tail;
        } else {
          AddedAll(attached, used + {name}, rest, r);
          assert forall d :: d in tail ==> d in [head] + tail;
        }
    }
  }

  /** Once the names are exhausted nothing is added. */
  lemma {:induction false} NoneLeft(attached: set<string>, used: set<string>, disks: seq<DiskRequest>)
    requires FirstFree(used, "vd", DISK_LETTERS) == None
    ensures Added(attached, used, disks) == []
  {
    if disks != [] {
      NoneLeft(attached, used, disks[1..]);
    }
  }

  lemma {:induction false} CdromsAppend(a: seq<Device>, b: seq<Device>)
    ensures CdromPaths(a + b) == CdromPaths(a) + CdromPaths(b)
  {
    if a == [] {
      assert a + b == b;
    } else {
      var first := if a[0].IsCdrom() then [a[0].path] else [];
      assert (a + b)[1..] == a[1..] + b;
      CdromsAppend(a[1..], b);
      calc {
        CdromPaths(a + b);
        first + CdromPaths(a[1..] + b);
        first + (CdromPaths(a[1..]) + CdromPaths(b));
        (first + CdromPaths(a[1..])) + CdromPaths(b);
        CdromPaths(a) + CdromPaths(b);
      }
    }
  }

  lemma {:induction false} DisksAppend(a: seq<Device>, b: seq<Device>)
    ensures DiskPaths(a + b) == DiskPaths(a) + DiskPaths(b)
  {
    if a == [] {
      assert a + b == b;
    } else {
      var first := if a[0].IsPlainDisk() then [a[0].path] else [];
      assert (a + b)[1..] == a[1..] + b;
      DisksAppend(a[1..], b);
      calc {
        DiskPaths(a + b);
        first + DiskPaths(a[1..] + b);
        first + (DiskPaths(a[1..]) + DiskPaths(b));
        (first + DiskPaths(a[1..])) + DiskPaths(b);
        DiskPaths(a) + DiskPaths(b);
      }
    }
  }

  lemma {:induction false} NicsAppend(a: seq<Device>, b: seq<Device>)
    ensures Nics(a + b) == Nics(a) + Nics(b)
  {
    if a == [] {
      assert a + b == b;
    } else {
      var first := if a[0].Interface? then [NicConfig(a[0].bridge, a[0].mac, a[0].trust)] else [];
      assert (a + b)[1..] == a[1..] + b;
      NicsAppend(a[1..], b);
      calc {
        Nics(a + b);
        first + Nics(a[1..] + b);
        first + (Nics(a[1..]) + Nics(b));
        (first + Nics(a[1..])) + Nics(b);
        Nics(a) + Nics(b);
      }
    }
  }

  /** What is read of two lists of devices is what is read of each. */
  lemma ReadAppend(a: seq<Device>, b: seq<Device>)
    ensures CdromPaths(a + b) == CdromPaths(a) + CdromPaths(b)
    ensures DiskPaths(a + b) == DiskPaths(a) + DiskPaths(b)
    ensures Nics(a + b) == Nics(a) + Nics(b)
  {
    CdromsAppend(a, b);
    DisksAppend(a, b);
    NicsAppend(a, b);
  }

  lemma {:induction false} PathsExact(devices: seq<Device>)
    ensures forall p :: p in DiskPaths(devices) <==> exists d :: d in devices && d.IsPlainDisk() && d.path == p
    ensures forall p :: p in CdromPaths(devices) <==> exists d :: d in devices && d.IsCdrom() && d.path == p
  {
    if devices != [] {
      PathsExact(devices[1..]);
      assert devices == [devices[0]] + devices[1..];
      assert devices[0] in devices && forall d :: d in devices[1..] ==> d in devices;
    }
  }

  lemma {:induction false} SynchronisedPaths(devices: seq<Device>, disks: seq<DiskRequest>)
    ensures var after := Synchronised(devices, disks);
      && (forall p :: p in DiskPaths(after) && p != "" ==> p in Wanted(disks))
      && (forall p :: p in Wanted(disks) ==>
            || p in DiskPaths(after)
            || (p != "" && p in CdromPaths(devices))
            || Exhausted(Targets(after), "vd", DISK_LETTERS))
  {
    var kept := Staying(devices, Wanted(disks));
    var added := Added(AttachedPaths(devices), Targets(kept), disks);
    var after := kept + added;
    StayingExact(devices, Wanted(disks));
    AddedFresh(AttachedPaths(devices), Targets(kept), disks);
    PathsExact(after);
    PathsExact(devices);
    assert Targets(after) == Targets(kept) + Targets(added);
    forall p | p in Wanted(disks)
      ensures p in DiskPaths(after) || (p != "" && p in CdromPaths(devices))
          || Exhausted(Targets(after), "vd", DISK_LETTERS)
    {
      var r :| r in disks && r.path == p;
      if p in AttachedPaths(devices) {
        var d :| d in devices && d.Disk? && d.path != "" && d.path == p;
        if d.IsPlainDisk() {
          assert d in kept && d in after;
        }
      } else {
        AddedAll(AttachedPaths(devices), Targets(kept), disks, r);
        if d :| d in added && d.IsPlainDisk() && d.path == p {
          assert d in after;
        }
      }
    }
  }

  lemma {:induction false} SynchronisedDistinct(devices: seq<Device>, disks: seq<DiskRequest>)
    requires DistinctTargets(devices)
    ensures DistinctTargets(Synchronised(devices, disks))
  {
    var kept := Staying(devices, Wanted(disks));
    var added := Added(AttachedPaths(devices), Targets(kept), disks);
    StayingDistinct(devices, Wanted(disks));
    AddedFresh(AttachedPaths(devices), Targets(kept), disks);
    forall i, j | 0 <= i < |kept| && 0 <= j < |added| && kept[i].Disk? && kept[i].target.Some?
      ensures kept[i].target != added[j].target
    {
      assert kept[i] in kept && added[j] in added;
    }
  }

  /**
   Disk synchronisation.  Afterwards no plain disk has an unwanted path; every wanted path is attached
   as a plain disk, unless it was already attached as a CD-ROM or the names vdb..vdp are exhausted;
   target names that were pairwise distinct still are; and every CD-ROM, NIC and kept disk is what it was.
   */
  lemma {:induction false} SynchronisedMeansWanted(devices: seq<Device>, disks: seq<DiskRequest>)
    ensures var after := Synchronised(devices, disks);
      && (forall p :: p in DiskPaths(after) && p != "" ==> p in Wanted(disks))
      && (forall p :: p in Wanted(disks) ==>
            || p in DiskPaths(after)
            || (p != "" && p in CdromPaths(devices))
            || Exhausted(Targets(after), "vd", DISK_LETTERS))
      && (DistinctTargets(devices) ==> DistinctTargets(after))
      && CdromPaths(after) == CdromPaths(devices) && Nics(after) == Nics(devices)
      && (forall d :: d in devices && Stays(d, Wanted(disks)) ==> d in after)
      && (forall d :: d in after && !d.IsPlainDisk() ==> d in devices)
  {
    hide DistinctTargets, Exhausted;
    var kept := Staying(devices, Wanted(disks));
    var added := Added(AttachedPaths(devices), Targets(kept), disks);
    SynchronisedPaths(devices, disks);
    StayingExact(devices, Wanted(disks));
    StayingReads(devices, Wanted(disks));
    AddedFresh(AttachedPaths(devices), Targets(kept), disks);
    ReadAppend(kept, added);
    NewDisksReadNothing(added);
    assert CdromPaths(kept) + [] == CdromPaths(kept) && Nics(kept) + [] == Nics(kept);
    if DistinctTargets(devices) {
      SynchronisedDistinct(devices, disks);
    }
  }

  lemma {:induction false} NewDisksReadNothing(added: seq<Device>)
    requires forall d :: d in added ==> d.IsPlainDisk()
    ensures CdromPaths(added) == [] && Nics(added) == []
  {
    if added != [] {
      assert added[0] in added;
      NewDisksReadNothing(added[1..]);
    }
  }

  /**
   Synchronising twice with one list: the second time changes nothing, exactly when no request is
   without a path or no name is left.
   */
  lemma {:induction false} SynchronisedTwice(devices: seq<Device>, disks: seq<DiskRequest>)
    ensures var once := Synchronised(devices, disks);
      Synchronised(once, disks) == once <==>
      "" !in Wanted(disks) || Exhausted(Targets(once), "vd", DISK_LETTERS)
  {
    var once := Synchronised(devices, disks);
    SynchronisedMeansWanted(devices, disks);
    PathsExact(once);
    PathsExact(devices);
    forall d | d in once ensures Stays(d, Wanted(disks)) {
      if d.IsPlainDisk() {
        assert d.path in DiskPaths(once);
      }
    }
    StayingExact(once, Wanted(disks));
    var attached := AttachedPaths(once);
    assert Synchronised(once, disks) == once + Added(attached, Targets(once), disks);
    if Exhausted(Targets(once), "vd", DISK_LETTERS) {
      NoneLeft(attached, Targets(once), disks);
      assert once + [] == once;
    } else {
      forall p | p in Wanted(disks) && p != "" ensures p in attached {
        if p in DiskPaths(once) {
          var d :| d in once && d.IsPlainDisk() && d.path == p;
        } else {
          assert p in CdromPaths(once);
          var d :| d in once && d.IsCdrom() && d.path == p;
        }
      }
      OnlyPathless(attached, Targets(once), disks);
      assert once + [] == once;
    }
  }

  /** A request without a path is added again by every call, while there are names. */
  lemma PathlessDiskIsAddedAgain()
    ensures var disks := [DiskRequest("", "virtio")]; var once := Synchronised([], disks);
      |once| == 1 && Synchronised(once, disks) != once
  {
    var disks := [DiskRequest("", "virtio")];
    var name := "vd" + [DISK_LETTERS[0]];
    var disk := Disk("disk", "", Some(name), "virtio", None);
    assert disks[1..] == [];
    assert FirstFree({}, "vd", DISK_LETTERS) == Some(name);
    assert Added({}, {}, disks) == [disk] + Added({}, {name}, []) == [disk];
    assert Synchronised([], disks) == [] + [disk] == [disk];
    var taken := "vd" + [DISK_LETTERS[1]];
    assert taken[2] != name[2];
    assert disks[0] in disks && Targets([disk]) == {name};
    SynchronisedTwice([], disks);
  }

  lemma {:induction false} OnlyPathless(attached: set<string>, used: set<string>, disks: seq<DiskRequest>)
    requires "" !in attached && forall p :: p in Wanted(disks) && p != "" ==> p in attached
    requires FirstFree(used, "vd", DISK_LETTERS).Some?
    ensures Added(attached, used, disks) == [] <==> "" !in Wanted(disks)
  {
    if disks != [] {
      assert disks == [disks[0]] + disks[1..];
      assert disks[0].path in Wanted(disks) && forall p :: p in Wanted(disks[1..]) ==> p in Wanted(disks);
      if disks[0].path in attached {
        OnlyPathless(attached, used, disks[1..]);
      }
    }
  }

  // ---------- the requested CD-ROMs ----------

  /** The bus of the CD-ROMs there are: the last one that names one, else sata. */
  function CdromBus(devices: seq<Device>): string {
    if devices == [] then "sata"
    else
      var d := devices[|devices| - 1];
      if d.IsCdrom() && d.target.Some? && d.bus != "" then d.bus else CdromBus(devices[..|devices| - 1])
  }

  function DevPrefix(bus: string): string {
    if bus == "sata" then "sd" else if bus == "ide" then "hd" else "vd"
  }

  function WithoutCdroms(devices: seq<Device>): seq<Device> {
    if devices == [] then [] else (if devices[0].IsCdrom() then [] else [devices[0]]) + WithoutCdroms(devices[1..])
  }

  function AddedCdroms(used: set<string>, bus: string, paths: seq<string>): seq<Device>
    decreases |paths|
  {
    if paths == [] then []
    else
      match FirstFree(used, DevPrefix(bus), CDROM_LETTERS)
      case None => AddedCdroms(used, bus, paths[1..])
      case Some(name) =>
        [Disk("cdrom", paths[0], Some(name), bus, None)] + AddedCdroms(used + {name}, bus, paths[1..])
  }

  function SetOf(paths: seq<string>): set<string> {
    set p | p in paths
  }

  function WithCdroms(devices: seq<Device>, paths: seq<string>): seq<Device> {
    if SetOf(CdromPaths(devices)) == SetOf(paths) then devices
    else
      var kept := WithoutCdroms(devices);
      kept + AddedCdroms(Targets(kept), CdromBus(devices), paths)
  }

  lemma {:induction false} WithoutCdromsReads(devices: seq<Device>)
    ensures var kept := WithoutCdroms(devices);
      && CdromPaths(kept) == [] && DiskPaths(kept) == DiskPaths(devices) && Nics(kept) == Nics(devices)
  {
    if devices != [] {
      WithoutCdromsReads(devices[1..]);
      ReadAppend(if devices[0].IsCdrom() then [] else [devices[0]], WithoutCdroms(devices[1..]));
    }
  }

  /** The CD-ROMs read back are the first ones asked for, all of them unless the names ran out. */
  lemma {:induction false} AddedCdromsRead(used: set<string>, bus: string, paths: seq<string>)
    ensures var added := AddedCdroms(used, bus, paths);
      && CdromPaths(added) <= paths && DiskPaths(added) == [] && Nics(added) == []
      && (CdromPaths(added) == paths || Exhausted(used + Targets(added), DevPrefix(bus), CDROM_LETTERS))
    decreases |paths|
  {
    hide FirstFree, IsFirst, DevPrefix;
    if paths != [] {
      match FirstFree(used, DevPrefix(bus), CDROM_LETTERS)
      case None => NoCdromLeft(used, bus, paths);
      case Some(name) =>
        var tail := AddedCdroms(used + {name}, bus, paths[1..]);
        AddedCdromsRead(used + {name}, bus, paths[1..]);
        assert used + Targets(AddedCdroms(used, bus, paths)) == used + {name} + Targets(tail);
        assert paths == [paths[0]] + paths[1..];
    }
  }

  /** Every added CD-ROM has the given bus and a name of its own, which no other device uses. */
  lemma {:induction false} AddedCdromsFresh(used: set<string>, bus: string, paths: seq<string>)
    ensures var added := AddedCdroms(used, bus, paths);
      && (forall d :: d in added ==> d.Disk? && d.target.Some? && d.target.value !in used)
      && (forall d :: d in added ==> d == Disk("cdrom", d.path, d.target, bus, None) && d.path in paths)
      && (forall d :: d in added ==>
            (if bus == "sata" then "sd" else if bus == "ide" then "hd" else "vd") <= d.target.value)
      && DistinctTargets(added)
    decreases |paths|
  {
    if paths != [] {
      assert paths == [paths[0]] + paths[1..];
      match FirstFree(used, DevPrefix(bus), CDROM_LETTERS)
      case None => AddedCdromsFresh(used, bus, paths[1..]);
      case Some(name) =>
        AddedCdromsFresh(used + {name}, bus, paths[1..]);
        var tail := AddedCdroms(used + {name}, bus, paths[1..]);
        DistinctCons(Disk("cdrom", paths[0], Some(name), bus, None), tail);
    }
  }

  predicate NamesBus(d: Device) { d.Disk? && d.kind == "cdrom" && d.target.Some? && d.bus != "" }

  /** The bus is that of the last CD-ROM that names one. */
  lemma {:induction false} CdromBusIsLast(devices: seq<Device>, k: nat)
    requires k < |devices| && NamesBus(devices[k]) && forall j :: k < j < |devices| ==> !NamesBus(devices[j])
    ensures CdromBus(devices) == devices[k].bus
    decreases |devices|
  {
    if k < |devices| - 1 {
      CdromBusIsLast(devices[..|devices| - 1], k);
    }
  }

  /** And it is sata if none does. */
  lemma {:induction false} NoCdromBusIsSata(devices: seq<Device>)
    requires forall k :: 0 <= k < |devices| ==> !NamesBus(devices[k])
    ensures CdromBus(devices) == "sata"
    decreases |devices|
  {
    if devices != [] {
      NoCdromBusIsSata(devices[..|devices| - 1]);
    }
  }

  lemma {:induction false} NoCdromLeft(used: set<string>, bus: string, paths: seq<string>)
    requires FirstFree(used, DevPrefix(bus), CDROM_LETTERS) == None
    ensures AddedCdroms(used, bus, paths) == []
    decreases |paths|
  {
    if paths != [] {
      NoCdromLeft(used, bus, paths[1..]);
    }
  }

  /**
   After synchronising, the CD-ROM paths are the wanted ones unless the names ran out; disks and NICs are what
   they were.
   */
  lemma {:induction false} CdromsMeanWanted(devices: seq<Device>, paths: seq<string>)
    ensures var after := WithCdroms(devices, paths);
      && SetOf(CdromPaths(after)) <= SetOf(paths)
      && (SetOf(CdromPaths(after)) == SetOf(paths)
          || Exhausted(Targets(after), DevPrefix(CdromBus(devices)), CDROM_LETTERS))
      && DiskPaths(after) == DiskPaths(devices) && Nics(after) == Nics(devices)
  {
    if SetOf(CdromPaths(devices)) != SetOf(paths) {
      var kept, bus := WithoutCdroms(devices), CdromBus(devices);
      var added := AddedCdroms(Targets(kept), bus, paths);
      WithoutCdromsReads(devices);
      AddedCdromsRead(Targets(kept), bus, paths);
      ReadAppend(kept, added);
      assert Targets(kept + added) == Targets(kept) + Targets(added);
      assert forall p :: p in CdromPaths(added) ==> p in paths;
      assert CdromPaths(kept + added) == CdromPaths(added) && DiskPaths(kept + added) == DiskPaths(kept);
    }
  }

  lemma DistinctCons(d: Device, rest: seq<Device>)
    requires DistinctTargets(rest)
    requires d.Disk? && d.target.Some? ==> forall e :: e in rest && e.Disk? ==> e.target != d.target
    ensures DistinctTargets([d] + rest)
  {
    assert forall j :: 0 < j < |[d] + rest| ==> ([d] + rest)[j] == rest[j - 1] && rest[j - 1] in rest;
  }

  lemma DistinctTail(devices: seq<Device>)
    requires DistinctTargets(devices) && devices != []
    ensures DistinctTargets(devices[1..])
    ensures devices[0].Disk? && devices[0].target.Some? ==>
      forall e :: e in devices[1..] && e.Disk? ==> e.target != devices[0].target
  {
    assert forall j :: 0 <= j < |devices[1..]| ==> devices[1..][j] == devices[j + 1];
  }

  lemma DistinctAppend(a: seq<Device>, b: seq<Device>)
    requires DistinctTargets(a) && DistinctTargets(b)
    requires forall d, e :: d in a && e in b && d.Disk? && e.Disk? && d.target.Some? ==> d.target != e.target
    ensures DistinctTargets(a + b)
  {
    assert forall i :: 0 <= i < |a| ==> a[i] in a;
    assert forall i :: 0 <= i < |b| ==> b[i] in b;
  }

  lemma {:induction false} WithoutCdromsDistinct(devices: seq<Device>)
    requires DistinctTargets(devices)
    ensures DistinctTargets(WithoutCdroms(devices))
  {
    if devices != [] {
      DistinctTail(devices);
      WithoutCdromsDistinct(devices[1..]);
      WithoutCdromsSubset(devices[1..]);
      DistinctCons(devices[0], WithoutCdroms(devices[1..]));
    }
  }

  /** Changing the CD-ROMs keeps target names apart. */
  lemma CdromsDistinct(devices: seq<Device>, paths: seq<string>)
    requires DistinctTargets(devices)
    ensures DistinctTargets(WithCdroms(devices, paths))
  {
    hide DistinctTargets;
    if SetOf(CdromPaths(devices)) != SetOf(paths) {
      var kept, bus := WithoutCdroms(devices), CdromBus(devices);
      WithoutCdromsDistinct(devices);
      AddedCdromsFresh(Targets(kept), bus, paths);
      DistinctAppend(kept, AddedCdroms(Targets(kept), bus, paths));
    }
  }

  // ---------- the requested NICs and boot devices ----------

  datatype NicRequest = NicRequest(bridge: string, mac: string, model: string, trust: bool)

  function WithoutNics(devices: seq<Device>): seq<Device> {
    if devices == [] then [] else (if devices[0].Interface? then [] else [devices[0]]) + WithoutNics(devices[1..])
  }

  function NicDevices(nics: seq<NicRequest>): seq<Device> {
    if nics == [] then []
    else NicDevices(nics[..|nics| - 1]) +
         [Interface(nics[|nics| - 1].bridge, nics[|nics| - 1].mac, nics[|nics| - 1].model,
                    nics[|nics| - 1].trust, None)]
  }

  /** Every requested NIC is there as requested, in order. */
  lemma {:induction false} NicDevicesAt(nics: seq<NicRequest>)
    ensures |NicDevices(nics)| == |nics|
    ensures forall k :: 0 <= k < |nics| ==>
      NicDevices(nics)[k] == Interface(nics[k].bridge, nics[k].mac, nics[k].model, nics[k].trust, None)
  {
    if nics != [] {
      NicDevicesAt(nics[..|nics| - 1]);
    }
  }

  lemma {:induction false} WithoutNicsDistinct(devices: seq<Device>)
    requires DistinctTargets(devices)
    ensures DistinctTargets(WithoutNics(devices))
  {
    if devices != [] {
      DistinctTail(devices);
      WithoutNicsDistinct(devices[1..]);
      WithoutNicsSubset(devices[1..]);
      DistinctCons(devices[0], WithoutNics(devices[1..]));
    }
  }

  lemma WiredDistinct(devices: seq<Device>, nics: seq<NicRequest>)
    requires DistinctTargets(devices)
    ensures DistinctTargets(WithoutNics(devices) + NicDevices(nics))
  {
    WithoutNicsDistinct(devices);
    NicDevicesAt(nics);
    DistinctAppend(WithoutNics(devices), NicDevices(nics));
  }

  function NicConfigs(nics: seq<NicRequest>): seq<NicConfig> {
    seq(|nics|, k requires 0 <= k < |nics| => NicConfig(nics[k].bridge, nics[k].mac, nics[k].trust))
  }

  lemma {:induction false} NicsMeanWanted(devices: seq<Device>, nics: seq<NicRequest>)
    ensures var after := WithoutNics(devices) + NicDevices(nics);
      && Nics(after) == NicConfigs(nics)
      && DiskPaths(after) == DiskPaths(devices) && CdromPaths(after) == CdromPaths(devices)
  {
    WithoutNicsReads(devices);
    NicDevicesRead(nics);
    ReadAppend(WithoutNics(devices), NicDevices(nics));
  }

  lemma {:induction false} WithoutNicsReads(devices: seq<Device>)
    ensures var kept := WithoutNics(devices);
      && Nics(kept) == [] && DiskPaths(kept) == DiskPaths(devices) && CdromPaths(kept) == CdromPaths(devices)
  {
    if devices != [] {
      WithoutNicsReads(devices[1..]);
      ReadAppend(if devices[0].Interface? then [] else [devices[0]], WithoutNics(devices[1..]));
    }
  }

  lemma {:induction false} NicDevicesRead(nics: seq<NicRequest>)
    ensures Nics(NicDevices(nics)) == NicConfigs(nics)
    ensures DiskPaths(NicDevices(nics)) == [] && CdromPaths(NicDevices(nics)) == []
  {
    if nics != [] {
      var last := nics[|nics| - 1];
      NicDevicesRead(nics[..|nics| - 1]);
      var nic := Interface(last.bridge, last.mac, last.model, last.trust, None);
      ReadAppend(NicDevices(nics[..|nics| - 1]), [nic]);
      OneNic(nic);
      NicConfigsSnoc(nics);
    }
  }

  lemma OneNic(nic: Device)
    requires nic.Interface?
    ensures Nics([nic]) == [NicConfig(nic.bridge, nic.mac, nic.trust)]
    ensures DiskPaths([nic]) == [] && CdromPaths([nic]) == []
  {
    assert [nic][1..] == [];
  }

  lemma NicConfigsSnoc(nics: seq<NicRequest>)
    requires nics != []
    ensures var last := nics[|nics| - 1];
      NicConfigs(nics) == NicConfigs(nics[..|nics| - 1]) + [NicConfig(last.bridge, last.mac, last.trust)]
  {
  }

  function BootElems(devs: seq<string>): seq<OsElem> {
    seq(|devs|, k requires 0 <= k < |devs| => Boot(devs[k]))
  }

  function Unbooted(devices: seq<Device>): seq<Device> {
    seq(|devices|, k requires 0 <= k < |devices| => devices[k].Unbooted())
  }

  /** Where the first `type` child is. */
  function TypeAt(os: seq<OsElem>): (at: nat)
    requires Type in os
    ensures at < |os| && os[at] == Type && Type !in os[..at]
  {
    if os[0] == Type then 0 else 1 + TypeAt(os[1..])
  }

  lemma {:induction false} BootsAppend(a: seq<OsElem>, b: seq<OsElem>)
    ensures Boots(a + b) == Boots(a) + Boots(b)
  {
    if a == [] {
      assert a + b == b;
    } else {
      assert (a + b)[1..] == a[1..] + b;
      BootsAppend(a[1..], b);
    }
  }

  lemma {:induction false} EntriesAppend(a: seq<Device>, b: seq<Device>)
    ensures BootEntries(a + b) == BootEntries(a) + BootEntries(b)
  {
    if a == [] {
      assert a + b == b;
    } else {
      var first := EntryOf(a[0]);
      assert (a + b)[1..] == a[1..] + b;
      EntriesAppend(a[1..], b);
      calc {
        BootEntries(a + b);
        first + BootEntries(a[1..] + b);
        first + (BootEntries(a[1..]) + BootEntries(b));
        (first + BootEntries(a[1..])) + BootEntries(b);
        BootEntries(a) + BootEntries(b);
      }
    }
  }

  lemma OneEntry(d: Device)
    ensures BootEntries([d]) == EntryOf(d)
  {
    assert [d][1..] == [];
  }

  /** `sorted`: in order, and the same entries as often as before. */
  lemma {:induction false} SortSorts(entries: seq<BootEntry>)
    ensures InOrder(Sort(entries)) && multiset(Sort(entries)) == multiset(entries)
  {
    if entries != [] {
      SortSorts(entries[1..]);
      InsertSorts(entries[0], Sort(entries[1..]));
      assert entries == [entries[0]] + entries[1..];
    }
  }

  ghost predicate InOrder(entries: seq<BootEntry>) {
    forall i, j :: 0 <= i < j < |entries| ==> entries[i].AtMost(entries[j])
  }

  lemma {:induction false} InsertSorts(e: BootEntry, sorted: seq<BootEntry>)
    requires InOrder(sorted)
    ensures InOrder(Insert(e, sorted)) && multiset(Insert(e, sorted)) == multiset(sorted) + multiset{e}
  {
    if sorted != [] && !e.AtMost(sorted[0]) {
      InsertSorts(e, sorted[1..]);
      assert sorted == [sorted[0]] + sorted[1..];
      var rest := Insert(e, sorted[1..]);
      forall j | 0 <= j < |rest| ensures sorted[0].AtMost(rest[j]) {
        assert rest[j] in multiset(rest);
      }
    } else {
      assert Insert(e, sorted) == [e] + sorted;
    }
  }

  lemma {:induction false} UnbootHasNone(os: seq<OsElem>)
    ensures Boots(Unboot(os)) == [] && (Type in os <==> Type in Unboot(os))
  {
    if os != [] {
      UnbootHasNone(os[1..]);
      assert os == [os[0]] + os[1..];
      BootsAppend(if os[0].Boot? then [] else [os[0]], Unboot(os[1..]));
    }
  }

  lemma {:induction false} BootElemsRead(devs: seq<string>)
    ensures Boots(BootElems(devs)) == devs
  {
    if devs == [] {
      assert BootElems(devs) == [];
    } else {
      BootElemsRead(devs[1..]);
      assert BootElems(devs)[1..] == BootElems(devs[1..]);
    }
  }

  lemma {:induction false} NoBootsWithin(os: seq<OsElem>, at: nat)
    requires at <= |os| && Boots(os) == []
    ensures Boots(os[..at]) == [] && Boots(os[at..]) == []
  {
    BootsAppend(os[..at], os[at..]);
    assert os[..at] + os[at..] == os;
  }

  lemma {:induction false} UnbootedHasNoEntries(devices: seq<Device>)
    requires forall d :: d in devices ==> d.boot == None
    ensures BootEntries(devices) == []
  {
    if devices != [] {
      assert devices[0] in devices;
      UnbootedHasNoEntries(devices[1..]);
    }
  }

  lemma {:induction false} UnbootedReads(devices: seq<Device>)
    ensures Nics(Unbooted(devices)) == Nics(devices)
    ensures DiskPaths(Unbooted(devices)) == DiskPaths(devices) && CdromPaths(Unbooted(devices)) == CdromPaths(devices)
  {
    if devices != [] {
      assert Unbooted(devices)[1..] == Unbooted(devices[1..]);
      UnbootedReads(devices[1..]);
    } else {
      assert Unbooted(devices) == [];
    }
  }

  lemma {:induction false} UnbootAppend(a: seq<OsElem>, b: seq<OsElem>)
    ensures Unboot(a + b) == Unboot(a) + Unboot(b)
  {
    if a == [] {
      assert a + b == b;
    } else {
      assert (a + b)[1..] == a[1..] + b;
      UnbootAppend(a[1..], b);
    }
  }

  lemma {:induction false} UnbootWhole(os: seq<OsElem>)
    requires Boots(os) == []
    ensures Unboot(os) == os
  {
    if os != [] {
      UnbootWhole(os[1..]);
    }
  }

  lemma {:induction false} UnbootNone(devs: seq<string>)
    ensures Unboot(BootElems(devs)) == []
  {
    if devs == [] {
      assert BootElems(devs) == [];
    } else {
      UnbootNone(devs[1..]);
      assert BootElems(devs)[1..] == BootElems(devs[1..]);
    }
  }

  /** The boot elements replaced by new ones, right behind the first `type`. */
  function Rebooted(os: seq<OsElem>, devs: seq<string>): seq<OsElem>
    requires Type in os
  {
    UnbootHasNone(os);
    var elems := Unboot(os);
    var at := TypeAt(elems) + 1;
    elems[..at] + BootElems(devs) + elems[at..]
  }

  lemma RebootedReads(os: seq<OsElem>, devs: seq<string>)
    requires Type in os
    ensures var after := Rebooted(os, devs);
      Boots(after) == devs && Unboot(after) == Unboot(os) && Type in after
  {
    UnbootHasNone(os);
    var elems := Unboot(os);
    var at := TypeAt(elems) + 1;
    NoBootsWithin(elems, at);
    BootsAppend(elems[..at], BootElems(devs));
    BootsAppend(elems[..at] + BootElems(devs), elems[at..]);
    BootElemsRead(devs);
    UnbootAround(elems, at, devs);
    assert Rebooted(os, devs)[at - 1] == Type;
  }

  /** The new boot elements stand right behind the first `type`, in order. */
  lemma RebootedPlace(os: seq<OsElem>, devs: seq<string>) returns (at: nat)
    requires Type in os
    ensures var after := Rebooted(os, devs);
      && at + |devs| < |after| && after[at] == Type && Type !in after[..at]
      && forall k :: 0 <= k < |devs| ==> after[at + 1 + k] == Boot(devs[k])
  {
    UnbootHasNone(os);
    var elems := Unboot(os);
    at := TypeAt(elems);
    assert Rebooted(os, devs)[..at] == elems[..at];
  }

  /** Boot elements inserted anywhere among others are all that `Unboot` takes out. */
  lemma {:induction false} UnbootAround(elems: seq<OsElem>, at: nat, devs: seq<string>)
    requires at <= |elems| && Boots(elems) == []
    ensures Unboot(elems[..at] + BootElems(devs) + elems[at..]) == elems
  {
    NoBootsWithin(elems, at);
    UnbootAppend(elems[..at], BootElems(devs));
    UnbootAppend(elems[..at] + BootElems(devs), elems[at..]);
    UnbootNone(devs);
    UnbootWhole(elems[..at]);
    UnbootWhole(elems[at..]);
  }

  // ---------- the domain, edited in place ----------

  datatype Request = Request(bootDevs: Option<seq<string>>, vcpus: Option<nat>, ramMb: Option<nat>,
                             nics: Option<seq<NicRequest>>, disks: Option<seq<DiskRequest>>,
                             cdroms: Option<seq<string>>)

  class Domain {
    var os: seq<OsElem>
    var vcpu: nat
    var memory: Memory
    var currentMemory: Option<Memory>
    var devices: seq<Device>

    ghost predicate Valid()
      reads this
    {
      Type in os
    }

    /** `_collect_device_boot_entries` */
    method CollectDeviceBootEntries() returns (entries: seq<BootEntry>)
      ensures entries == BootEntries(devices)
    {
      entries := [];
      for k := 0 to |devices|
        invariant entries == BootEntries(devices[..k])
      {
        assert devices[..k + 1] == devices[..k] + [devices[k]];
        EntriesAppend(devices[..k], [devices[k]]);
        OneEntry(devices[k]);
        var boot := devices[k].boot;
        if boot.Some? {
          match devices[k]
          case Disk(_, _, _, _, _) =>
            entries := entries + [BootEntry(boot.value, if devices[k].kind == "cdrom" then CdromKind else HdKind)];
          case Interface(_, _, _, _, _) => entries := entries + [BootEntry(boot.value, NetworkKind)];
          case OtherDevice(_, _) =>
        }
      }
      assert devices[..|devices|] == devices;
    }

    /** `_parse_boot_devices` */
    method ParseBootDevices() returns (result: seq<string>)
      ensures result == BootDevices(os, devices)
    {
      result := [];
      for k := 0 to |os|
        invariant result == Boots(os[..k])
      {
        assert os[..k + 1] == os[..k] + [os[k]];
        BootsAppend(os[..k], [os[k]]);
        assert Boots([os[k]]) == if os[k].Boot? then [os[k].dev] else [];
        if os[k].Boot? {
          result := result + [os[k].dev];
        }
      }
      assert os[..|os|] == os;
      if result != [] {
        return;
      }
      var entries := CollectDeviceBootEntries();
      var sorted := Sort(entries);
      var seen: set<BootKind> := {};
      assert sorted[0..] == sorted;
      for k := 0 to |sorted|
        invariant result + Once(sorted[k..], seen) == Once(sorted, {})
      {
        assert sorted[k..][1..] == sorted[k + 1..];
        if sorted[k].kind !in seen {
          result := result + [sorted[k].kind.Name()];
          seen := seen + {sorted[k].kind};
        }
      }
      assert result + [] == result;
    }

    /** `_parse_memory` */
    method ParseMemory() returns (mb: nat)
      ensures mb == RamMb(memory)
      ensures if memory.unit == "KiB" then mb * 1024 <= memory.value < (mb + 1) * 1024 else mb == memory.value
    {
      if memory.unit == "KiB" {
        return memory.value / 1024;
      }
      return memory.value;
    }

    /** `_handle_vm_config` */
    method ReadConfig() returns (config: Config)
      ensures config == Config(BootDevices(os, devices), vcpu, RamMb(memory), Nics(devices),
                               DiskPaths(devices), CdromPaths(devices))
    {
      var bootDevs := ParseBootDevices();
      var ramMb := ParseMemory();
      var nics: seq<NicConfig> := [];
      for k := 0 to |devices|
        invariant nics == Nics(devices[..k])
      {
        assert devices[..k + 1] == devices[..k] + [devices[k]];
        NicsAppend(devices[..k], [devices[k]]);
        assert [devices[k]][1..] == [];
        if devices[k].Interface? {
          nics := nics + [NicConfig(devices[k].bridge, devices[k].mac, devices[k].trust)];
        }
      }
      var disks, cdroms := [], [];
      for k := 0 to |devices|
        invariant disks == DiskPaths(devices[..k]) && cdroms == CdromPaths(devices[..k])
      {
        assert devices[..k + 1] == devices[..k] + [devices[k]];
        ReadAppend(devices[..k], [devices[k]]);
        if devices[k].Disk? {
          if devices[k].kind == "cdrom" {
            cdroms := cdroms + [devices[k].path];
          } else {
            disks := disks + [devices[k].path];
          }
        }
      }
      assert devices[..|devices|] == devices;
      config := Config(bootDevs, vcpu, ramMb, nics, disks, cdroms);
    }

    /** The first half of `_reconfigure_boot_devs`: the boot elements. */
    method ReplaceBootElems(bootDevs: seq<string>)
      requires Valid()
      modifies this`os
      ensures os == Rebooted(old(os), bootDevs)
    {
      hide Boots, Unboot;
      UnbootHasNone(os);
      os := Unboot(os);
      var at := TypeAt(os) + 1;
      ghost var elems := os;
      assert elems == elems[..at] + BootElems(bootDevs[..0]) + elems[at..];
      for k := 0 to |bootDevs|
        invariant os == elems[..at] + BootElems(bootDevs[..k]) + elems[at..]
      {
        var here := at + k;
        assert os[..here] == elems[..at] + BootElems(bootDevs[..k]) && os[here..] == elems[at..];
        assert BootElems(bootDevs[..k + 1]) == BootElems(bootDevs[..k]) + [Boot(bootDevs[k])];
        os := os[..here] + [Boot(bootDevs[k])] + os[here..];
      }
      assert bootDevs[..|bootDevs|] == bootDevs;
    }

    /** The second half of `_reconfigure_boot_devs`: no device keeps an order of its own. */
    method StripBootOrders()
      modifies this`devices
      ensures devices == Unbooted(old(devices))
    {
      ghost var before := devices;
      for k := 0 to |devices|
        invariant |devices| == |before|
        invariant forall j :: 0 <= j < |before| ==> devices[j] == if j < k then before[j].Unbooted() else before[j]
      {
        devices := devices[k := devices[k].Unbooted()];
      }
    }

    /** `_reconfigure_boot_devs` */
    method ReconfigureBootDevs(bootDevs: seq<string>)
      requires Valid()
      modifies this`os, this`devices
      ensures Valid() && Boots(os) == bootDevs && Unboot(os) == Unboot(old(os))
      ensures devices == Unbooted(old(devices)) && BootDevices(os, devices) == bootDevs
    {
      RebootedReads(os, bootDevs);
      ReplaceBootElems(bootDevs);
      StripBootOrders();
      UnbootedHasNoEntries(devices);
    }

    /** `_apply_vcpu_ram_changes` */
    method ApplyVcpuRam(vcpus: Option<nat>, ramMb: Option<nat>)
      modifies this`vcpu, this`memory, this`currentMemory
      ensures vcpu == if vcpus.Some? then vcpus.value else old(vcpu)
      ensures ramMb.None? ==> memory == old(memory) && currentMemory == old(currentMemory)
      ensures ramMb.Some? ==>
        memory.unit == "KiB" && memory.value == 1024 * ramMb.value && RamMb(memory) == ramMb.value
      ensures ramMb.Some? ==> currentMemory == if old(currentMemory).Some? then Some(memory) else None
    {
      if vcpus.Some? {
        vcpu := vcpus.value;
      }
      if ramMb.Some? {
        memory := Memory(ramMb.value * 1024, "KiB");
        if currentMemory.Some? {
          currentMemory := Some(Memory(ramMb.value * 1024, "KiB"));
        }
      }
    }

    /** `_reconfigure_nics` */
    method ReconfigureNics(nics: seq<NicRequest>)
      modifies this`devices
      ensures devices == WithoutNics(old(devices)) + NicDevices(nics)
    {
      ghost var kept := WithoutNics(devices);
      devices := WithoutNics(devices);
      for k := 0 to |nics|
        invariant devices == kept + NicDevices(nics[..k])
      {
        devices := devices + [Interface(nics[k].bridge, nics[k].mac, nics[k].model, nics[k].trust, None)];
        assert nics[..k + 1][..k] == nics[..k];
      }
      assert nics[..|nics|] == nics;
    }

    /** The first loop of `_reconfigure_disks`: the plain disks nobody wants go. */
    method RemoveUnwanted(wanted: set<string>)
      modifies this`devices
      ensures devices == Staying(old(devices), wanted)
    {
      hide Staying, Stays;
      var existing := devices;
      StayingNothing(existing, wanted);
      for k := 0 to |existing|
        invariant devices == Staying(existing[..k], wanted) + existing[k..]
      {
        StayingStep(existing, wanted, k);
        if !Stays(existing[k], wanted) {
          var at := |devices| - (|existing| - k);
          devices := devices[..at] + devices[at + 1..];
        }
      }
      assert existing[..|existing|] == existing && existing[|existing|..] == [];
      assert devices + [] == devices;
    }

    /** `_reconfigure_disks` */
    method ReconfigureDisks(disks: seq<DiskRequest>)
      modifies this`devices
      ensures devices == Synchronised(old(devices), disks)
    {
      hide Staying, Stays, Exhausted;
      var attached, wanted := AttachedPaths(devices), Wanted(disks);
      RemoveUnwanted(wanted);
      ghost var kept := devices;
      var used := Targets(devices);
      assert disks[0..] == disks;
      for k := 0 to |disks|
        invariant devices + Added(attached, used, disks[k..]) == kept + Added(attached, Targets(kept), disks)
      {
        assert disks[k..][1..] == disks[k + 1..];
        if disks[k].path !in attached {
          var name := FirstFree(used, "vd", DISK_LETTERS);
          if name.Some? {
            used := used + {name.value};
            devices := devices + [Disk("disk", disks[k].path, name, disks[k].bus, None)];
          }
        }
      }
      assert devices + [] == devices;
    }

    /** `_reconfigure_cdroms` */
    method ReconfigureCdroms(paths: seq<string>)
      modifies this`devices
      ensures devices == WithCdroms(old(devices), paths)
    {
      if SetOf(CdromPaths(devices)) == SetOf(paths) {
        return;
      }
      var bus := CdromBus(devices);
      ghost var kept := WithoutCdroms(devices);
      devices := WithoutCdroms(devices);
      var used := Targets(devices);
      for k := 0 to |paths|
        invariant devices + AddedCdroms(used, bus, paths[k..]) == kept + AddedCdroms(Targets(kept), bus, paths)
      {
        assert paths[k..][1..] == paths[k + 1..];
        var name := FirstFree(used, DevPrefix(bus), CDROM_LETTERS);
        if name.Some? {
          used := used + {name.value};
          devices := devices + [Disk("cdrom", paths[k], name, bus, None)];
        }
      }
      assert devices + [] == devices;
    }

    /**
     The tree edits of `_handle_vm_reconfigure`.  Reading the tree back yields what was requested;
     what was not requested reads as before, except that boot devices that came from per-device
     orders follow the devices that are left.
     */
    method Reconfigure(req: Request)
      requires Valid()
      modifies this
      ensures Valid()
      ensures req.bootDevs.Some? ==> BootDevices(os, devices) == req.bootDevs.value && Unboot(os) == Unboot(old(os))
      ensures req.bootDevs.None? ==> os == old(os)
      ensures vcpu == if req.vcpus.Some? then req.vcpus.value else old(vcpu)
      ensures req.ramMb.Some? ==> RamMb(memory) == req.ramMb.value && memory == Memory(1024 * req.ramMb.value, "KiB")
      ensures req.ramMb.None? ==> memory == old(memory) && currentMemory == old(currentMemory)
      ensures devices == Edited(req, old(devices)) && MeetsRequest(req, old(devices), devices)
      ensures DistinctTargets(old(devices)) ==> DistinctTargets(devices)
    {
      EditedDistinct(req, devices);
      hide Nics, DiskPaths, CdromPaths, Synchronised, WithCdroms, MeetsRequest, Exhausted, Boots, Unboot, BootEntries,
           DistinctTargets;
      EditedMeetsRequest(req, devices);
      if req.bootDevs.Some? {
        NoBootOrders(req, devices);
        UnbootedHasNoEntries(Edited(req, devices));
        ReconfigureBootDevs(req.bootDevs.value);
      }
      ApplyVcpuRam(req.vcpus, req.ramMb);
      if req.nics.Some? {
        ReconfigureNics(req.nics.value);
      }
      if req.disks.Some? {
        ReconfigureDisks(req.disks.value);
      }
      if req.cdroms.Some? {
        ReconfigureCdroms(req.cdroms.value);
      }
    }
  }

  /** The devices after the boot, NIC and disk edits of a request. */
  function Disks(req: Request, devices: seq<Device>): seq<Device> {
    var booted := if req.bootDevs.Some? then Unbooted(devices) else devices;
    var wired := if req.nics.Some? then WithoutNics(booted) + NicDevices(req.nics.value) else booted;
    if req.disks.Some? then Synchronised(wired, req.disks.value) else wired
  }

  function Edited(req: Request, devices: seq<Device>): seq<Device> {
    if req.cdroms.Some? then WithCdroms(Disks(req, devices), req.cdroms.value) else Disks(req, devices)
  }

  /** What the reader finds among the devices after a request, against what it found before. */
  ghost predicate MeetsRequest(req: Request, before: seq<Device>, after: seq<Device>) {
    && Nics(after) == (if req.nics.Some? then NicConfigs(req.nics.value) else Nics(before))
    && (req.disks.None? ==> DiskPaths(after) == DiskPaths(before))
    && (req.disks.Some? ==>
          && (forall p :: p in DiskPaths(after) && p != "" ==> p in Wanted(req.disks.value))
          && (forall p :: p in Wanted(req.disks.value) && p !in CdromPaths(before) ==>
                p in DiskPaths(after) || Exhausted(Targets(Disks(req, before)), "vd", DISK_LETTERS)))
    && (req.cdroms.None? ==> CdromPaths(after) == CdromPaths(before))
    && (req.cdroms.Some? ==>
          && SetOf(CdromPaths(after)) <= SetOf(req.cdroms.value)
          && (SetOf(CdromPaths(after)) == SetOf(req.cdroms.value)
              || Exhausted(Targets(after), DevPrefix(CdromBus(Disks(req, before))), CDROM_LETTERS)))
  }

  /** The round trip of the device edits. */
  lemma EditedMeetsRequest(req: Request, devices: seq<Device>)
    ensures MeetsRequest(req, devices, Edited(req, devices))
  {
    hide Exhausted, Nics, DiskPaths, CdromPaths, Synchronised, WithCdroms;
    var booted := if req.bootDevs.Some? then Unbooted(devices) else devices;
    UnbootedReads(devices);
    if req.nics.Some? {
      NicsMeanWanted(booted, req.nics.value);
    }
    var wired := if req.nics.Some? then WithoutNics(booted) + NicDevices(req.nics.value) else booted;
    if req.disks.Some? {
      SynchronisedMeansWanted(wired, req.disks.value);
    }
    if req.cdroms.Some? {
      CdromsMeanWanted(Disks(req, devices), req.cdroms.value);
    }
  }

  /** A reconfiguration keeps the target names of all disks and CD-ROMs apart. */
  lemma EditedDistinct(req: Request, devices: seq<Device>)
    ensures DistinctTargets(devices) ==> DistinctTargets(Edited(req, devices))
  {
    if DistinctTargets(devices) {
      StillDistinct(req, devices);
    }
  }

  lemma StillDistinct(req: Request, devices: seq<Device>)
    requires DistinctTargets(devices)
    ensures DistinctTargets(Edited(req, devices))
  {
    var booted := if req.bootDevs.Some? then Unbooted(devices) else devices;
    assert DistinctTargets(booted);
    hide DistinctTargets, Synchronised, WithCdroms;
    if req.nics.Some? {
      WiredDistinct(booted, req.nics.value);
    }
    var wired := if req.nics.Some? then WithoutNics(booted) + NicDevices(req.nics.value) else booted;
    if req.disks.Some? {
      SynchronisedDistinct(wired, req.disks.value);
    }
    if req.cdroms.Some? {
      CdromsDistinct(Disks(req, devices), req.cdroms.value);
    }
  }

  ghost predicate NoOrders(devices: seq<Device>) {
    forall d :: d in devices ==> d.boot == None
  }

  /** Nothing the edits add carries a boot order. */
  lemma {:induction false} NoBootOrders(req: Request, devices: seq<Device>)
    requires req.bootDevs.Some?
    ensures NoOrders(Edited(req, devices))
  {
    hide DistinctTargets, Exhausted, Staying, Added, WithoutNics, WithoutCdroms, AddedCdroms, NicDevices;
    var booted := Unbooted(devices);
    if req.nics.Some? {
      WithoutNicsSubset(booted);
      NicDevicesUnordered(req.nics.value);
    }
    var wired := if req.nics.Some? then WithoutNics(booted) + NicDevices(req.nics.value) else booted;
    if req.disks.Some? {
      StayingExact(wired, Wanted(req.disks.value));
      AddedFresh(AttachedPaths(wired), Targets(Staying(wired, Wanted(req.disks.value))), req.disks.value);
    }
    var synced := Disks(req, devices);
    if req.cdroms.Some? {
      WithoutCdromsSubset(synced);
      AddedCdromsUnordered(Targets(WithoutCdroms(synced)), CdromBus(synced), req.cdroms.value);
    }
  }

  lemma {:induction false} WithoutNicsSubset(devices: seq<Device>)
    ensures forall d :: d in WithoutNics(devices) <==> d in devices && !d.Interface?
  {
    if devices != [] {
      WithoutNicsSubset(devices[1..]);
      assert devices == [devices[0]] + devices[1..];
    }
  }

  lemma {:induction false} WithoutCdromsSubset(devices: seq<Device>)
    ensures forall d :: d in WithoutCdroms(devices) <==> d in devices && !d.IsCdrom()
  {
    if devices != [] {
      WithoutCdromsSubset(devices[1..]);
      assert devices == [devices[0]] + devices[1..];
    }
  }

  lemma {:induction false} NicDevicesUnordered(nics: seq<NicRequest>)
    ensures NoOrders(NicDevices(nics))
  {
    if nics != [] {
      NicDevicesUnordered(nics[..|nics| - 1]);
    }
  }

  lemma {:induction false} AddedCdromsUnordered(used: set<string>, bus: string, paths: seq<string>)
    ensures NoOrders(AddedCdroms(used, bus, paths))
    decreases |paths|
  {
    if paths != [] {
      match FirstFree(used, DevPrefix(bus), CDROM_LETTERS)
      case None => AddedCdromsUnordered(used, bus, paths[1..]);
      case Some(name) => AddedCdromsUnordered(used + {name}, bus, paths[1..]);
    }
  }
}
