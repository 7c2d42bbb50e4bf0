/**
 The boot devices of a domain without boot elements: read from the boot orders of its devices, one name
 for each kind of device, the kind with the lowest order first.
 */
module BootOrder {
  import opened Options
  import opened DomainXml

  /** The device is one that this name stands for, and has this boot order. */
  predicate Bootable(d: Device, name: string, order: nat) {
    && d.boot == Some(order)
    && (|| (d.Disk? && d.kind == "cdrom" && name == "cdrom")
        || (d.Disk? && d.kind != "cdrom" && name == "hd")
        || (d.Interface? && name == "network"))
  }

  /** Among equal orders CD-ROMs come first, then disks, then NICs. */
  predicate Sooner(name: string, other: string) {
    (name, other) in {("cdrom", "hd"), ("cdrom", "network"), ("hd", "network")}
  }

  /** Some device of the one kind comes before all devices of the other. */
  ghost predicate Leads(devices: seq<Device>, name: string, other: string) {
    exists d, n :: d in devices && Bootable(d, name, n) &&
      forall e, m :: e in devices && Bootable(e, other, m) ==> n < m || (n == m && Sooner(name, other))
  }

  lemma NamesApart(a: BootKind, b: BootKind)
    ensures a.Name() == b.Name() ==> a == b
  {
    assert a.Name()[0] == b.Name()[0] ==> a == b;
  }

  // ---------- each kind once ----------

  /** Some entry of the one name is at most all entries of the other. */
  ghost predicate Before(entries: seq<BootEntry>, name: string, other: string) {
    exists e :: e in entries && e.kind.Name() == name &&
      forall f :: f in entries && f.kind.Name() == other ==> e.AtMost(f)
  }

  lemma {:induction false} OnceNames(entries: seq<BootEntry>, seen: set<BootKind>, kind: BootKind)
    ensures kind.Name() in Once(entries, seen) <==> kind !in seen && exists e :: e in entries && e.kind == kind
  {
    if entries != [] {
      assert entries == [entries[0]] + entries[1..];
      var first := entries[0].kind;
      NamesApart(first, kind);
      if first in seen {
        OnceNames(entries[1..], seen, kind);
      } else {
        OnceNames(entries[1..], seen + {first}, kind);
        assert entries[0] in entries;
      }
    }
  }

  lemma {:induction false} OnceAreNames(entries: seq<BootEntry>, seen: set<BootKind>, name: string)
    requires name in Once(entries, seen)
    ensures exists kind: BootKind :: kind.Name() == name && kind !in seen
  {
    var first := entries[0].kind;
    if first in seen {
      OnceAreNames(entries[1..], seen, name);
    } else if name != first.Name() {
      OnceAreNames(entries[1..], seen + {first}, name);
      var kind: BootKind :| kind.Name() == name && kind !in seen + {first};
    }
  }

  lemma FirstIsBefore(entries: seq<BootEntry>, other: string)
    requires InOrder(entries) && entries != []
    ensures Before(entries, entries[0].kind.Name(), other)
  {
    hide BootKind.Name;
    var first := entries[0];
    forall f | f in entries && f.kind.Name() == other ensures first.AtMost(f) {
      var k :| 0 <= k < |entries| && entries[k] == f;
    }
    assert first in entries;
  }

  lemma {:induction false} OnceInOrder(entries: seq<BootEntry>, seen: set<BootKind>, i: nat, j: nat)
    requires InOrder(entries) && i < j < |Once(entries, seen)|
    ensures Once(entries, seen)[i] != Once(entries, seen)[j]
    ensures Before(entries, Once(entries, seen)[i], Once(entries, seen)[j])
  {
    hide BootKind.Name, Before, BootEntry.AtMost;
    var first, rest := entries[0], entries[1..];
    assert forall k :: 0 <= k < |rest| ==> rest[k] == entries[k + 1];
    var names := Once(entries, seen);
    if first.kind in seen {
      OnceInOrder(rest, seen, i, j);
      OnceAreNames(rest, seen, names[j]);
      assert seen + {first.kind} == seen;
      NotTheFirst(first.kind, seen, names[j]);
      StillBefore(entries, names[i], names[j]);
    } else {
      var tail := Once(rest, seen + {first.kind});
      assert names == [first.kind.Name()] + tail && names[j] == tail[j - 1];
      OnceAreNames(rest, seen + {first.kind}, names[j]);
      NotTheFirst(first.kind, seen, names[j]);
      if i == 0 {
        FirstIsBefore(entries, names[j]);
      } else {
        OnceInOrder(rest, seen + {first.kind}, i - 1, j - 1);
        StillBefore(entries, names[i], names[j]);
      }
    }
  }

  lemma NotTheFirst(first: BootKind, seen: set<BootKind>, name: string)
    requires exists kind: BootKind :: kind.Name() == name && kind !in seen + {first}
    ensures first.Name() != name
  {
    var kind: BootKind :| kind.Name() == name && kind !in seen + {first};
    NamesApart(first, kind);
  }

  lemma StillBefore(entries: seq<BootEntry>, name: string, other: string)
    requires entries != [] && Before(entries[1..], name, other) && entries[0].kind.Name() != other
    ensures Before(entries, name, other)
  {
    var e :| e in entries[1..] && e.kind.Name() == name &&
             forall f :: f in entries[1..] && f.kind.Name() == other ==> e.AtMost(f);
    assert entries == [entries[0]] + entries[1..];
    assert e in entries;
  }

  // ---------- the entries of the devices ----------

  lemma {:induction false} EntriesExact(devices: seq<Device>)
    ensures forall d, name, n :: d in devices && Bootable(d, name, n) ==>
      exists e :: e in BootEntries(devices) && e.order == n && e.kind.Name() == name
    ensures forall e :: e in BootEntries(devices) ==> exists d :: d in devices && Bootable(d, e.kind.Name(), e.order)
  {
    if devices != [] {
      EntriesExact(devices[1..]);
      assert devices == [devices[0]] + devices[1..];
      var d, own := devices[0], EntryOf(devices[0]);
      assert d in devices;
      assert BootEntries(devices) == own + BootEntries(devices[1..]);
      assert forall name, n :: Bootable(d, name, n) ==>
          own != [] && own[0] in own && own[0].kind.Name() == name && own[0].order == n;
      assert own != [] ==> Bootable(d, own[0].kind.Name(), own[0].order);
    }
  }

  /** Without boot elements: a name is there if and only if some device it stands for has a boot order, and once. */
  lemma FallbackNames(os: seq<OsElem>, devices: seq<Device>, name: string)
    requires Boots(os) == []
    ensures name in BootDevices(os, devices) <==> exists d, n :: d in devices && Bootable(d, name, n)
  {
    var entries, sorted := BootEntries(devices), Sort(BootEntries(devices));
    EntriesExact(devices);
    SortSorts(entries);
    SameMembers(sorted, entries);
    if name in Once(sorted, {}) {
      OnceAreNames(sorted, {}, name);
    }
    if kind: BootKind :| kind.Name() == name {
      OnceNames(sorted, {}, kind);
      forall e: BootEntry | e.kind.Name() == name ensures e.kind == kind {
        NamesApart(e.kind, kind);
      }
    }
  }

  lemma SameMembers(a: seq<BootEntry>, b: seq<BootEntry>)
    requires multiset(a) == multiset(b)
    ensures forall e :: e in a <==> e in b
  {
    forall e ensures e in a <==> e in b {
      assert e in a <==> e in multiset(a);
      assert e in b <==> e in multiset(b);
    }
  }

  /** The names stand in the order of the lowest boot orders, each once. */
  lemma FallbackOrder(os: seq<OsElem>, devices: seq<Device>, i: nat, j: nat)
    requires Boots(os) == [] && i < j < |BootDevices(os, devices)|
    ensures var names := BootDevices(os, devices); names[i] != names[j] && Leads(devices, names[i], names[j])
  {
    hide Once, Sort, BootEntries, Before;
    var entries, sorted := BootEntries(devices), Sort(BootEntries(devices));
    EntriesExact(devices);
    SortSorts(entries);
    SameMembers(sorted, entries);
    OnceInOrder(sorted, {}, i, j);
    var names := Once(sorted, {});
    BeforeLeads(devices, sorted, names[i], names[j]);
  }

  lemma BeforeLeads(devices: seq<Device>, entries: seq<BootEntry>, name: string, other: string)
    requires name != other && Before(entries, name, other)
    requires forall e :: e in entries <==> e in BootEntries(devices)
    ensures Leads(devices, name, other)
  {
    hide BootEntries, BootKind.Name, Bootable, Sooner;
    EntriesExact(devices);
    var e :| e in entries && e.kind.Name() == name &&
             forall f :: f in entries && f.kind.Name() == other ==> e.AtMost(f);
    var d :| d in devices && Bootable(d, e.kind.Name(), e.order);
    forall c, m | c in devices && Bootable(c, other, m)
      ensures e.order < m || (e.order == m && Sooner(name, other))
    {
      var f :| f in BootEntries(devices) && f.order == m && f.kind.Name() == other;
      assert e.AtMost(f);
      if e.order == m {
        RankIsSooner(e.kind, f.kind);
      }
    }
  }

  lemma RankIsSooner(a: BootKind, b: BootKind)
    requires a != b && a.Rank() <= b.Rank()
    ensures Sooner(a.Name(), b.Name())
  {
  }
}
