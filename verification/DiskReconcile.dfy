/**
 Reconciling the disks of a changed VM: provision the new ones and those whose volume died, expand the
 grown ones, delete the removed ones.  Every API call may be answered in any way; what a pass did is
 told from the log of its calls and their answers.
 */
module DiskReconcile {
  import opened Options
  import opened DataVolumes

  /** `bound`: the phase is Bound.  `request`: the storage request in GiB. */
  datatype Pvc = Pvc(bound: bool, request: nat)

  datatype PvcAnswer = Found(pvc: Pvc) | NotFound | ApiError

  datatype Call =
    | ReadPvc(name: string, answer: PvcAnswer)
    | CheckVolume(name: string, status: Status)
    | DeleteVolume(name: string)
    | DeletePvc(name: string)
    | CreateVolume(name: string)
    | CreatePvc(name: string, request: nat)
    | Expand(name: string, request: nat)

  /** `cloned`: the disk has an image to be cloned.  For growing, an absent or zero size counts as 20. */
  datatype Disk = Disk(cloned: bool, blank: bool, sizeGb: Option<nat>)
  {
    function Size(): nat { if sizeGb.Some? && sizeGb.value != 0 then sizeGb.value else 20 }

    /** A blank disk is created with the size as it is given. */
    function BlankSize(): nat { if sizeGb.Some? then sizeGb.value else 20 }
  }

  type Disks = map<string, Disk>

  // ---------- names ----------

  predicate IsDigit(c: char) { '0' <= c <= '9' }

  /** Where the digits at the end of `id` begin. */
  function DigitsFrom(id: string): (from: nat)
    ensures from <= |id| && (forall k :: from <= k < |id| ==> IsDigit(id[k])) && (from > 0 ==> !IsDigit(id[from - 1]))
  {
    if id == "" || !IsDigit(id[|id| - 1]) then |id| else DigitsFrom(id[..|id| - 1])
  }

  /** `short_disk_id`: `d` and the number of an id that ends in `-disk-<number>`, else its first eight characters. */
  function ShortId(id: string): string {
    var from := DigitsFrom(id);
    if from < |id| && from >= 6 && id[from - 6..from] == "-disk-" then "d" + id[from..]
    else if |id| > 8 then id[..8] else id
  }

  function PvcName(vm: string, id: string): string {
    vm + "-disk-" + ShortId(id)
  }

  /** No two of these disks share a volume name. */
  ghost predicate Apart(ids: set<string>) {
    forall a, b :: a in ids && b in ids && ShortId(a) == ShortId(b) ==> a == b
  }

  lemma NamesApart(vm: string, ids: set<string>)
    ensures Apart(ids) <==> forall a, b :: a in ids && b in ids && PvcName(vm, a) == PvcName(vm, b) ==> a == b
  {
    forall a: string, b: string ensures PvcName(vm, a) == PvcName(vm, b) <==> ShortId(a) == ShortId(b) {
      var n := |vm + "-disk-"|;
      assert PvcName(vm, a)[n..] == ShortId(a) && PvcName(vm, b)[n..] == ShortId(b);
    }
  }

  // ---------- what a log shows ----------

  datatype Plan = Plan(vm: string, before: Disks, after: Disks)
  {
    ghost predicate Removed(name: string) {
      exists id :: id in before && id !in after && name == PvcName(vm, id)
    }

    ghost predicate Kept(name: string) {
      exists id :: id in before && id in after && name == PvcName(vm, id)
    }

    ghost predicate Asked(name: string) {
      exists id :: id in after && name == PvcName(vm, id)
    }

    /** A kept disk that grows to this size. */
    ghost predicate Grown(name: string, size: nat) {
      exists id :: Grows(id) && name == PvcName(vm, id) && size == after[id].Size()
    }

    predicate Grows(id: string) { id in before && id in after && before[id].Size() < after[id].Size() }
  }

  /** The last two calls found the volume neither bound nor alive. */
  ghost predicate FoundDead(log: seq<Call>, name: string) {
    var n := |log|;
    && n >= 2
    && log[n - 2].ReadPvc? && log[n - 2].name == name && NotBound(log[n - 2].answer)
    && log[n - 1].CheckVolume? && log[n - 1].name == name && log[n - 1].status in {Failed, Deleted}
  }

  predicate NotBound(answer: PvcAnswer) {
    answer.NotFound? || (answer.Found? && !answer.pvc.bound)
  }

  /** The last call read a PVC that requests less. */
  ghost predicate FoundSmaller(log: seq<Call>, name: string, request: nat) {
    var n := |log|;
    && n >= 1
    && log[n - 1].ReadPvc? && log[n - 1].name == name && log[n - 1].answer.Found?
    && log[n - 1].answer.pvc.request < request
  }

  /** What may be asked of the cluster, and after which answers. */
  ghost predicate Safe(plan: Plan, log: seq<Call>, call: Call) {
    match call
    case DeleteVolume(name) => plan.Removed(name) || (plan.Kept(name) && FoundDead(log, name))
    case DeletePvc(name) =>
      || plan.Removed(name)
      || (plan.Kept(name) && log != [] && log[|log| - 1] == DeleteVolume(name) && FoundDead(log[..|log| - 1], name))
    case Expand(name, request) => plan.Grown(name, request) && FoundSmaller(log, name, request)
    case CreateVolume(name) => plan.Asked(name)
    case CreatePvc(name, _) => plan.Asked(name)
    case _ => true
  }

  ghost predicate AllSafe(plan: Plan, log: seq<Call>) {
    log != [] ==> AllSafe(plan, log[..|log| - 1]) && Safe(plan, log[..|log| - 1], log[|log| - 1])
  }

  lemma AppendSafe(plan: Plan, log: seq<Call>, call: Call)
    requires AllSafe(plan, log) && Safe(plan, log, call)
    ensures AllSafe(plan, log + [call])
  {
    assert (log + [call])[..|log|] == log;
  }

  lemma CreationIsSafe(plan: Plan, log: seq<Call>, name: string, size: nat)
    requires AllSafe(plan, log) && plan.Asked(name)
    ensures AllSafe(plan, log + [CreatePvc(name, size)])
  {
    AppendSafe(plan, log, CreatePvc(name, size));
  }

  lemma {:induction false} SafeAt(plan: Plan, log: seq<Call>, k: nat)
    requires AllSafe(plan, log) && k < |log|
    ensures Safe(plan, log[..k], log[k])
  {
    if k < |log| - 1 {
      SafeAt(plan, log[..|log| - 1], k);
      assert log[..|log| - 1][..k] == log[..k];
    }
  }

  /** Somewhere the volume was read as bound, or its DataVolume as ready or still coming. */
  ghost predicate FoundAlive(log: seq<Call>, name: string) {
    exists k :: 0 <= k < |log| && log[k].ReadPvc? && log[k].name == name &&
      (|| (log[k].answer.Found? && log[k].answer.pvc.bound)
       || (k + 1 < |log| && log[k + 1].CheckVolume? && log[k + 1].name == name
           && log[k + 1].status in {Ready, Pending}))
  }

  /** From `from` on a clone was created, and after that seen ready. */
  ghost predicate ClonedFrom(log: seq<Call>, from: nat, name: string) {
    exists i, j :: from <= i < j < |log| && log[i] == CreateVolume(name) && log[j] == CheckVolume(name, Ready)
  }

  /** A clone was created and then seen ready, or a blank PVC was created. */
  ghost predicate Provided(log: seq<Call>, name: string, disk: Disk) {
    && (disk.cloned ==> ClonedFrom(log, 0, name))
    && (!disk.cloned && disk.blank ==> CreatePvc(name, disk.BlankSize()) in log)
  }

  /** The PVC was read, and is gone, or large enough, or was expanded at once. */
  ghost predicate Fits(log: seq<Call>, name: string, size: nat) {
    exists k :: 0 <= k < |log| && log[k].ReadPvc? && log[k].name == name &&
      (|| log[k].answer.NotFound?
       || (log[k].answer.Found? && log[k].answer.pvc.request >= size)
       || (k + 1 < |log| && log[k + 1] == Expand(name, size)))
  }

  /** What a longer log still shows. */
  lemma StillShown(log: seq<Call>, longer: seq<Call>, name: string, disk: Disk, size: nat)
    requires log <= longer
    ensures FoundAlive(log, name) ==> FoundAlive(longer, name)
    ensures Provided(log, name, disk) ==> Provided(longer, name, disk)
    ensures Fits(log, name, size) ==> Fits(longer, name, size)
  {
    assert forall k :: 0 <= k < |log| ==> log[k] == longer[k];
  }

  /** A disk is served: alive as it was, or provided; and given up only when it was not alive. */
  ghost predicate Served(plan: Plan, log: seq<Call>, id: string) {
    id in plan.after ==>
      var name := PvcName(plan.vm, id);
      && (id in plan.before && DeletePvc(name) !in log ==> FoundAlive(log, name))
      && (id !in plan.before || DeletePvc(name) in log ==> Provided(log, name, plan.after[id]))
  }

  lemma StillServed(plan: Plan, log: seq<Call>, longer: seq<Call>, id: string)
    requires log <= longer && Served(plan, log, id)
    requires id in plan.after && DeletePvc(PvcName(plan.vm, id)) in longer ==> DeletePvc(PvcName(plan.vm, id)) in log
    ensures Served(plan, longer, id)
  {
    if id in plan.after {
      StillShown(log, longer, PvcName(plan.vm, id), plan.after[id], 0);
    }
  }

  /** The log grew by calls about this one volume. */
  ghost predicate OnlyAbout(log: seq<Call>, longer: seq<Call>, name: string) {
    log <= longer && forall k :: |log| <= k < |longer| ==> longer[k].name == name
  }

  lemma OthersUntouched(log: seq<Call>, longer: seq<Call>, name: string, call: Call)
    requires OnlyAbout(log, longer, name) && call.name != name && call in longer
    ensures call in log
  {
    var k :| 0 <= k < |longer| && longer[k] == call;
    assert k < |log| && log[k] == call;
  }

  lemma ReadThenChecked(log: seq<Call>, name: string, answer: PvcAnswer, status: Status)
    requires NotBound(answer)
    ensures var longer := log + [ReadPvc(name, answer), CheckVolume(name, status)];
      && OnlyAbout(log, longer, name)
      && if status in {Failed, Deleted} then FoundDead(longer, name) else FoundAlive(longer, name)
  {
    var longer := log + [ReadPvc(name, answer), CheckVolume(name, status)];
    assert longer[|log|] == ReadPvc(name, answer) && longer[|log| + 1] == CheckVolume(name, status);
  }

  lemma NothingDeleted(log: seq<Call>, longer: seq<Call>, name: string)
    requires log <= longer && forall k :: |log| <= k < |longer| ==> !longer[k].DeletePvc?
    ensures DeletePvc(name) in longer ==> DeletePvc(name) in log
  {
    if DeletePvc(name) in longer {
      var k :| 0 <= k < |longer| && longer[k] == DeletePvc(name);
      assert log[k] == DeletePvc(name);
    }
  }

  datatype Cloned = NoImage | CloneReady | Raised

  /** One pass over a cluster that answers as it likes. */
  class Pass {
    var log: seq<Call>

    constructor ()
      ensures log == []
    {
      log := [];
    }

    method Read(name: string) returns (answer: PvcAnswer)
      modifies this
      ensures log == old(log) + [ReadPvc(name, answer)]
    {
      answer := *;
      log := log + [ReadPvc(name, answer)];
    }

    method Check(name: string) returns (status: Status)
      modifies this
      ensures log == old(log) + [CheckVolume(name, status)]
    {
      status := *;
      log := log + [CheckVolume(name, status)];
    }

    /** A call whose refusals are only logged, or raised by the caller. */
    method Issue(call: Call) returns (accepted: bool)
      modifies this
      ensures log == old(log) + [call]
    {
      accepted := *;
      log := log + [call];
    }

    /** `_disk_needs_reprovision`; None if it raises. */
    method NeedsReprovision(name: string) returns (needs: Option<bool>)
      modifies this
      ensures OnlyAbout(old(log), log, name)
      ensures forall k :: |old(log)| <= k < |log| ==> log[k].ReadPvc? || log[k].CheckVolume?
      ensures needs == Some(true) ==> FoundDead(log, name)
      ensures needs == Some(false) ==> FoundAlive(log, name)
    {
      var answer := Read(name);
      ghost var read := log;
      if answer.Found? && answer.pvc.bound {
        assert log[|read| - 1].answer.pvc.bound;
        return Some(false);
      }
      if answer.ApiError? {
        return None;
      }
      var status := Check(name);
      ReadThenChecked(old(log), name, answer, status);
      assert log == old(log) + [ReadPvc(name, answer), CheckVolume(name, status)];
      return Some(status in {Failed, Deleted});
    }

    /** `_clone_s3_disk`, with the wait of `_wait_for_datavolume`. */
    method CloneS3Disk(name: string, disk: Disk) returns (r: Cloned)
      modifies this
      ensures OnlyAbout(old(log), log, name)
      ensures forall k :: |old(log)| <= k < |log| ==> log[k].CreateVolume? || log[k].CheckVolume?
      ensures r.NoImage? ==> !disk.cloned && log == old(log)
      ensures r.CloneReady? ==> disk.cloned && ClonedFrom(log, |old(log)|, name)
    {
      if !disk.cloned {
        return NoImage;
      }
      var goldenReady: bool := *;
      if !goldenReady {
        return Raised;
      }
      var createdOrConflict := Issue(CreateVolume(name));
      ghost var created := |log| - 1;
      if !createdOrConflict {
        return Raised;
      }
      for i := 0 to 720
        invariant OnlyAbout(old(log), log, name) && created < |log| && log[created] == CreateVolume(name)
        invariant forall k :: |old(log)| <= k < |log| ==> log[k].CreateVolume? || log[k].CheckVolume?
      {
        var ownerExists: bool := *;
        if !ownerExists {
          return Raised;
        }
        var status := Check(name);
        if status == Ready {
          assert log[|log| - 1] == CheckVolume(name, Ready) && log[created] == CreateVolume(name);
          return CloneReady;
        }
        if status in {Failed, Deleted} {
          return Raised;
        }
      }
      return Raised;
    }

    /** A disk that was there before: is its volume alive?  If not, its remains are cleared away.  None if it raises. */
    method KeepOrClear(ghost plan: Plan, name: string) returns (kept: Option<bool>)
      requires plan.Kept(name) && AllSafe(plan, log)
      modifies this
      ensures AllSafe(plan, log) && OnlyAbout(old(log), log, name)
      ensures kept == Some(true) ==> FoundAlive(log, name) && (DeletePvc(name) in log ==> DeletePvc(name) in old(log))
      ensures kept == Some(false) ==> DeletePvc(name) in log
    {
      hide Safe, FoundAlive;
      var needs := NeedsReprovision(name);
      ReadsAreSafe(plan, old(log), log);
      if needs == None {
        return None;
      }
      if !needs.value {
        return Some(true);
      }
      ghost var found := log;
      DeletesAreSafe(plan, found, name);
      var volumeGone := Issue(DeleteVolume(name));
      var pvcGone := Issue(DeletePvc(name));
      assert log == found + [DeleteVolume(name), DeletePvc(name)];
      assert log[|log| - 1] == DeletePvc(name);
      return Some(false);
    }

    /** `_create_blank_disk_pvc`; false if it raises. */
    method CreateBlankDiskPvc(ghost plan: Plan, name: string, size: nat) returns (createdOrConflict: bool)
      requires plan.Asked(name) && AllSafe(plan, log)
      modifies this
      ensures log == old(log) + [CreatePvc(name, size)] && AllSafe(plan, log)
    {
      CreationIsSafe(plan, log, name, size);
      createdOrConflict := Issue(CreatePvc(name, size));
    }

    /** The volume of a disk that has none. */
    method Provide(ghost plan: Plan, name: string, disk: Disk) returns (ok: bool)
      requires plan.Asked(name) && AllSafe(plan, log)
      modifies this
      ensures AllSafe(plan, log) && OnlyAbout(old(log), log, name)
      ensures DeletePvc(name) in log ==> DeletePvc(name) in old(log)
      ensures ok ==> Provided(log, name, disk)
    {
      hide Safe, AllSafe, PvcName;
      var cloned := CloneS3Disk(name, disk);
      ReadsAreSafe(plan, old(log), log);
      NothingDeleted(old(log), log, name);
      if cloned.Raised? {
        return false;
      }
      if cloned.NoImage? && disk.blank {
        ok := CreateBlankDiskPvc(plan, name, disk.BlankSize());
        assert log[|log| - 1] == CreatePvc(name, disk.BlankSize());
        NothingDeleted(old(log), log, name);
        return;
      }
      return true;
    }

    /** One turn of the loop in `_provision_new_disks`. */
    method ProvisionDisk(ghost plan: Plan, name: string, disk: Disk, known: bool, ghost id: string) returns (ok: bool)
      requires id in plan.after && disk == plan.after[id] && name == PvcName(plan.vm, id)
          && known == (id in plan.before)
      requires AllSafe(plan, log)
      modifies this
      ensures AllSafe(plan, log) && OnlyAbout(old(log), log, name)
      ensures ok && DeletePvc(name) !in old(log) ==> Served(plan, log, id)
    {
      hide Safe, AllSafe, FoundAlive, Provided;
      if known {
        assert plan.Kept(name);
        var kept := KeepOrClear(plan, name);
        if kept == None {
          return false;
        }
        if kept.value {
          return true;
        }
      }
      assert plan.Asked(name);
      ok := Provide(plan, name, disk);
    }

    /** `_provision_new_disks`, the disks in any order; None if it raises. */
    method ProvisionNewDisks(ghost plan: Plan, vm: string, before: Disks, after: Disks)
        returns (pvcs: Option<map<string, string>>)
      requires plan == Plan(vm, before, after) && AllSafe(plan, log)
      requires forall id :: id in after ==> DeletePvc(PvcName(vm, id)) !in log
      modifies this
      ensures AllSafe(plan, log) && old(log) <= log
      ensures pvcs.Some? ==> pvcs.value == map id | id in after :: PvcName(vm, id)
      ensures pvcs.Some? && Apart(after.Keys) ==> forall id :: id in after ==> Served(plan, log, id)
    {
      hide AllSafe, Served, PvcName, Apart;
      var todo := after.Keys;
      var result: map<string, string> := map[];
      while todo != {}
        invariant todo <= after.Keys && AllSafe(plan, log) && old(log) <= log
        invariant result == map id | id in after && id !in todo :: PvcName(vm, id)
        invariant Apart(after.Keys) ==> forall id :: id in after ==>
          if id in todo then DeletePvc(PvcName(vm, id)) !in log else Served(plan, log, id)
      {
        var id :| id in todo;
        ghost var sofar := log;
        var ok := ProvisionDisk(plan, PvcName(vm, id), after[id], id in before, id);
        if !ok {
          return None;
        }
        if Apart(after.Keys) {
          OthersStillServed(plan, sofar, log, id);
        }
        todo := todo - {id};
        result := result[id := PvcName(vm, id)];
      }
      return Some(result);
    }

    /** One turn of the loop in `_resize_existing_pvcs`: what was expanded, or None if it raises. */
    method ResizeDisk(ghost plan: Plan, name: string, size: nat) returns (expanded: Option<bool>)
      requires plan.Grown(name, size) && AllSafe(plan, log)
      modifies this
      ensures AllSafe(plan, log) && NoDeletes(old(log), log)
      ensures expanded.Some? ==> Fits(log, name, size)
    {
      hide AllSafe;
      var answer := Read(name);
      ghost var read := log;
      assert read[|read| - 1] == ReadPvc(name, answer);
      ReadsAreSafe(plan, old(log), log);
      if answer.ApiError? {
        return None;
      }
      if answer.NotFound? || size <= answer.pvc.request {
        return Some(false);
      }
      AppendSafe(plan, log, Expand(name, size));
      var accepted := Issue(Expand(name, size));
      assert log[|read| - 1] == ReadPvc(name, answer) && log[|read|] == Expand(name, size);
      return if accepted then Some(true) else None;
    }

    /** `_resize_existing_pvcs`; None if it raises. */
    method ResizeExistingPvcs(ghost plan: Plan, vm: string, before: Disks, after: Disks)
      returns (expanded: Option<seq<(string, nat)>>)
      requires plan == Plan(vm, before, after) && AllSafe(plan, log)
      modifies this
      ensures AllSafe(plan, log) && NoDeletes(old(log), log)
      ensures expanded.Some? ==> forall id :: plan.Grows(id) ==> Fits(log, PvcName(vm, id), after[id].Size())
    {
      hide AllSafe, Fits, PvcName;
      var todo := after.Keys;
      var list := [];
      while todo != {}
        invariant todo <= after.Keys && AllSafe(plan, log) && NoDeletes(old(log), log)
        invariant forall id :: plan.Grows(id) && id !in todo ==> Fits(log, PvcName(vm, id), after[id].Size())
      {
        var id :| id in todo;
        todo := todo - {id};
        if id in before && before[id].Size() < after[id].Size() {
          ghost var sofar := log;
          assert plan.Grows(id);
          var done := ResizeDisk(plan, PvcName(vm, id), after[id].Size());
          if done == None {
            return None;
          }
          StillFits(sofar, log);
          if done.value {
            list := list + [(PvcName(vm, id), after[id].Size())];
          }
        }
      }
      return Some(list);
    }

    /** `_wait_for_pvc_expansion` for each expanded PVC; false if it raises. */
    method WaitForExpansions(ghost plan: Plan, expanded: seq<(string, nat)>) returns (ok: bool)
      requires AllSafe(plan, log)
      modifies this
      ensures AllSafe(plan, log) && NoDeletes(old(log), log)
    {
      hide AllSafe;
      for i := 0 to |expanded|
        invariant AllSafe(plan, log) && NoDeletes(old(log), log)
      {
        var waiting: bool := *;
        var left := 60;
        while waiting && left > 0
          invariant AllSafe(plan, log) && NoDeletes(old(log), log)
          decreases left
        {
          ghost var sofar := log;
          var answer := Read(expanded[i].0);
          ReadsAreSafe(plan, sofar, log);
          if !answer.Found? {
            return false;
          }
          waiting := *;
          left := left - 1;
        }
      }
      return true;
    }

    /** `_delete_removed_disks` */
    method DeleteRemovedDisks(ghost plan: Plan, vm: string, before: Disks, after: Disks)
      requires plan == Plan(vm, before, after) && AllSafe(plan, log)
      modifies this
      ensures AllSafe(plan, log) && old(log) <= log
      ensures forall id :: id in before && id !in after ==>
        DeleteVolume(PvcName(vm, id)) in log && DeletePvc(PvcName(vm, id)) in log
      ensures forall k :: |old(log)| <= k < |log| ==> plan.Removed(log[k].name)
    {
      hide AllSafe, PvcName;
      var removed := before.Keys - after.Keys;
      while removed != {}
        invariant removed <= before.Keys - after.Keys && AllSafe(plan, log) && old(log) <= log
        invariant forall id :: id in before && id !in after && id !in removed ==>
          DeleteVolume(PvcName(vm, id)) in log && DeletePvc(PvcName(vm, id)) in log
        invariant forall k :: |old(log)| <= k < |log| ==> plan.Removed(log[k].name)
      {
        var id :| id in removed;
        ghost var sofar := log;
        var name := PvcName(vm, id);
        assert plan.Removed(name);
        DeletesAreSafe(plan, log, name);
        var volumeGone := Issue(DeleteVolume(name));
        var pvcGone := Issue(DeletePvc(name));
        assert log == sofar + [DeleteVolume(name), DeletePvc(name)];
        assert log[|sofar|] == DeleteVolume(name) && log[|sofar| + 1] == DeletePvc(name);
        removed := removed - {id};
      }
    }

    /**
     `_reconcile_disks`; None if it raises.  Whatever the cluster answers, a pass asks for nothing that is
     not safe; one that does not raise returns exactly the new disks, requests the deletion of every removed
     one, and leaves every new or kept disk served and large enough.
     */
    method ReconcileDisks(vm: string, before: Disks, after: Disks) returns (pvcs: Option<map<string, string>>)
      requires log == []
      modifies this
      ensures AllSafe(Plan(vm, before, after), log)
      ensures pvcs.Some? ==> pvcs.value == map id | id in after :: PvcName(vm, id)
      ensures pvcs.Some? ==> Complete(Plan(vm, before, after), log)
    {
      hide AllSafe, Served, Fits, PvcName;
      ghost var plan := Plan(vm, before, after);
      assert AllSafe(plan, log) by { NothingIsSafe(plan, log); }
      pvcs := ProvisionNewDisks(plan, vm, before, after);
      if pvcs == None {
        return;
      }
      ghost var provisioned := log;
      var expanded := ResizeExistingPvcs(plan, vm, before, after);
      if expanded == None {
        return None;
      }
      ghost var resized := log;
      var waited := WaitForExpansions(plan, expanded.value);
      if !waited {
        return None;
      }
      ghost var waitedFor := log;
      DeleteRemovedDisks(plan, vm, before, after);
      StillFits(resized, log);
      if Apart(before.Keys + after.Keys) {
        LateCallsDeleteNothingKept(plan, provisioned, waitedFor, log);
      }
    }
  }

  /** What a pass that does not raise leaves in the log. */
  ghost predicate Complete(plan: Plan, log: seq<Call>) {
    && AllSafe(plan, log)
    && (forall id :: id in plan.before && id !in plan.after ==>
          DeleteVolume(PvcName(plan.vm, id)) in log && DeletePvc(PvcName(plan.vm, id)) in log)
    && (Apart(plan.before.Keys + plan.after.Keys) ==> forall id :: id in plan.after ==> Served(plan, log, id))
    && (forall id :: plan.Grows(id) ==> Fits(log, PvcName(plan.vm, id), plan.after[id].Size()))
  }

  lemma NothingIsSafe(plan: Plan, log: seq<Call>)
    requires log == []
    ensures AllSafe(plan, log)
  {
  }

  ghost predicate NoDeletes(log: seq<Call>, longer: seq<Call>) {
    log <= longer && forall k :: |log| <= k < |longer| ==> longer[k].ReadPvc? || longer[k].Expand?
  }

  lemma StillFits(log: seq<Call>, longer: seq<Call>)
    requires log <= longer
    ensures forall name, size :: Fits(log, name, size) ==> Fits(longer, name, size)
  {
    forall name, size | Fits(log, name, size) ensures Fits(longer, name, size) {
      StillShown(log, longer, name, Disk(false, false, None), size);
    }
  }

  lemma NotRemoved(plan: Plan, id: string)
    requires Apart(plan.before.Keys + plan.after.Keys) && id in plan.after
    ensures !plan.Removed(PvcName(plan.vm, id))
  {
    NamesApart(plan.vm, plan.before.Keys + plan.after.Keys);
  }

  /** Resizing, waiting and deleting the removed disks leave the others served. */
  lemma LateCallsDeleteNothingKept(plan: Plan, log: seq<Call>, middle: seq<Call>, longer: seq<Call>)
    requires Apart(plan.before.Keys + plan.after.Keys) && NoDeletes(log, middle) && middle <= longer
    requires forall k :: |middle| <= k < |longer| ==> plan.Removed(longer[k].name)
    requires forall id :: id in plan.after ==> Served(plan, log, id)
    ensures forall id :: id in plan.after ==> Served(plan, longer, id)
  {
    hide Served, Apart;
    forall id | id in plan.after ensures Served(plan, longer, id) {
      var call := DeletePvc(PvcName(plan.vm, id));
      if call in longer {
        var k :| 0 <= k < |longer| && longer[k] == call;
        NotRemoved(plan, id);
        assert middle[k] == call;
        assert k < |log| && log[k] == call;
      }
      StillServed(plan, log, longer, id);
    }
  }

  /** Serving one disk takes nothing from the others. */
  lemma OthersStillServed(plan: Plan, log: seq<Call>, longer: seq<Call>, id: string)
    requires Apart(plan.after.Keys) && id in plan.after && OnlyAbout(log, longer, PvcName(plan.vm, id))
    ensures forall other :: other in plan.after && other != id ==>
      && (DeletePvc(PvcName(plan.vm, other)) in longer ==> DeletePvc(PvcName(plan.vm, other)) in log)
      && (Served(plan, log, other) ==> Served(plan, longer, other))
  {
    hide Served;
    NamesApart(plan.vm, plan.after.Keys);
    forall other | other in plan.after && other != id
      ensures DeletePvc(PvcName(plan.vm, other)) in longer ==> DeletePvc(PvcName(plan.vm, other)) in log
      ensures Served(plan, log, other) ==> Served(plan, longer, other)
    {
      var call := DeletePvc(PvcName(plan.vm, other));
      if call in longer {
        OthersUntouched(log, longer, PvcName(plan.vm, id), call);
      }
      if Served(plan, log, other) {
        StillServed(plan, log, longer, other);
      }
    }
  }

  lemma DeletesAreSafe(plan: Plan, log: seq<Call>, name: string)
    requires AllSafe(plan, log) && (plan.Removed(name) || (plan.Kept(name) && FoundDead(log, name)))
    ensures AllSafe(plan, log + [DeleteVolume(name)])
    ensures AllSafe(plan, log + [DeleteVolume(name)] + [DeletePvc(name)])
    ensures AllSafe(plan, log + [DeleteVolume(name), DeletePvc(name)])
  {
    AppendSafe(plan, log, DeleteVolume(name));
    var once := log + [DeleteVolume(name)];
    assert once[..|once| - 1] == log;
    AppendSafe(plan, once, DeletePvc(name));
    assert once + [DeletePvc(name)] == log + [DeleteVolume(name), DeletePvc(name)];
  }

  lemma {:induction false} ReadsAreSafe(plan: Plan, log: seq<Call>, longer: seq<Call>)
    requires AllSafe(plan, log) && log <= longer
    requires forall k :: |log| <= k < |longer| ==>
      longer[k].ReadPvc? || longer[k].CheckVolume? || (longer[k].CreateVolume? && plan.Asked(longer[k].name))
    ensures AllSafe(plan, longer)
    decreases |longer|
  {
    if |log| < |longer| {
      ReadsAreSafe(plan, log, longer[..|longer| - 1]);
    } else {
      assert longer == log;
    }
  }

  // ---------- the cluster behind the answers ----------

  type World = map<string, Pvc>

  ghost predicate Answers(w: World, call: Call) {
    call.ReadPvc? ==>
      match call.answer
      case Found(pvc) => call.name in w && w[call.name] == pvc
      case NotFound => call.name !in w
      case ApiError => true
  }

  /** The call may take the PVC of this name away, or make it. */
  predicate Replaces(call: Call, name: string) {
    call in {DeleteVolume(name), DeletePvc(name), CreateVolume(name)} || (call.CreatePvc? && call.name == name)
  }

  function RequestAfter(call: Call, name: string, request: nat): nat {
    if call.Expand? && call.name == name then call.request else request
  }

  /**
   What may have become of the PVCs after a call, whatever else the cluster does: a bound PVC stays bound, and there,
   unless the deletion of it or of its DataVolume, which takes it along, is requested here; and the request of one
   that is there before and after changes only by being expanded here.
   */
  ghost predicate Follows(w: World, call: Call, next: World) {
    && (forall name :: name in w && w[name].bound && call !in {DeletePvc(name), DeleteVolume(name)} ==>
          name in next && next[name].bound && next[name].request == RequestAfter(call, name, w[name].request))
    && (forall name :: name in w && name in next && !Replaces(call, name) ==>
          next[name].request == RequestAfter(call, name, w[name].request))
  }

  ghost predicate Behind(worlds: seq<World>, log: seq<Call>) {
    && |worlds| == |log| + 1
    && forall k :: 0 <= k < |log| ==> Explains(worlds[k], log[k], worlds[k + 1])
  }

  ghost predicate Explains(w: World, call: Call, next: World) { Answers(w, call) && Follows(w, call, next) }

  ghost predicate Intact(w: World, name: string, request: nat) {
    name in w && w[name].bound && w[name].request >= request
  }

  /** While it has been bound so far, neither the PVC nor its DataVolume is deleted next. */
  lemma NotDeletedWhileBound(plan: Plan, log: seq<Call>, worlds: seq<World>, name: string, j: nat)
    requires AllSafe(plan, log) && Behind(worlds, log) && j < |log| && !plan.Removed(name)
    requires forall i :: 0 <= i <= j ==> name in worlds[i] && worlds[i][name].bound
    ensures log[j] !in {DeletePvc(name), DeleteVolume(name)}
  {
    SafeAt(plan, log, j);
    if j >= 3 {
      assert Explains(worlds[j - 3], log[j - 3], worlds[j - 2]);
      assert log[..j][..j - 1][j - 3] == log[j - 3];
    }
    if j >= 2 {
      assert Explains(worlds[j - 2], log[j - 2], worlds[j - 1]);
      assert log[..j][j - 2] == log[j - 2];
    }
  }

  /**
   A kept disk with a bound PVC is never given up: behind every safe log, its PVC is there at every moment,
   bound, and requests no less than it did; and no deletion of it or of its DataVolume is ever requested.
   */
  lemma {:induction false} BoundVolumesSurvive(plan: Plan, log: seq<Call>, worlds: seq<World>, name: string, k: nat)
    requires AllSafe(plan, log) && Behind(worlds, log) && k <= |log| && !plan.Removed(name)
    requires name in worlds[0] && worlds[0][name].bound
    ensures forall j :: 0 <= j <= k ==> Intact(worlds[j], name, worlds[0][name].request)
    ensures forall j :: 0 <= j < k ==> log[j] !in {DeletePvc(name), DeleteVolume(name)}
  {
    if k > 0 {
      var j := k - 1;
      BoundVolumesSurvive(plan, log, worlds, name, j);
      assert Explains(worlds[j], log[j], worlds[k]);
      NotDeletedWhileBound(plan, log, worlds, name, j);
      SafeAt(plan, log, j);
      if j > 0 {
        assert Explains(worlds[j - 1], log[j - 1], worlds[j]);
      }
    }
  }

  /**
   A pass that does not raise requests the deletion of a bound PVC, and of its DataVolume, if and only if a
   removed disk has that volume name, whether or not a kept disk has it too.
   */
  lemma DeletedIffRemoved(plan: Plan, log: seq<Call>, worlds: seq<World>, name: string)
    requires Complete(plan, log) && Behind(worlds, log) && name in worlds[0] && worlds[0][name].bound
    ensures DeletePvc(name) in log <==> plan.Removed(name)
    ensures DeleteVolume(name) in log <==> plan.Removed(name)
  {
    if !plan.Removed(name) {
      BoundVolumesSurvive(plan, log, worlds, name, |log|);
    }
  }

  /** A kept disk and a removed one with one volume name. */
  lemma KeptAndRemovedCollide(vm: string)
    ensures exists plan: Plan, name :: plan.vm == vm && plan.Kept(name) && plan.Removed(name)
  {
    hide PvcName, ShortId, DigitsFrom;
    var disk := Disk(false, true, None);
    var kept, removed := "a" + "-disk-" + "1", "b" + "-disk-" + "1";
    assert kept[0] == 'a' && removed[0] == 'b';
    var plan := Plan(vm, map[kept := disk, removed := disk], map[kept := disk]);
    NumberedIdsCollide("a", "b", "1", vm);
    assert plan.Kept(PvcName(vm, kept)) && plan.Removed(PvcName(vm, removed));
  }

  /** Such names do occur: ids that end in the same disk number share one. */
  lemma NumberedIdsCollide(a: string, b: string, number: string, vm: string)
    requires number != "" && forall k :: 0 <= k < |number| ==> IsDigit(number[k])
    ensures PvcName(vm, a + "-disk-" + number) == PvcName(vm, b + "-disk-" + number) == vm + "-disk-" + "d" + number
  {
    NumberedId(a, number);
    NumberedId(b, number);
  }

  lemma NumberedId(a: string, number: string)
    requires number != "" && forall k :: 0 <= k < |number| ==> IsDigit(number[k])
    ensures ShortId(a + "-disk-" + number) == "d" + number
  {
    var id := a + "-disk-" + number;
    DigitsOf(a + "-disk-", number);
    assert id[|a|..|a| + 6] == "-disk-" && id[|a| + 6..] == number;
  }

  /** The id ends in `-disk-` and digits. */
  ghost predicate IsNumbered(id: string) {
    exists k :: 6 <= k < |id| && NumberFrom(id, k)
  }

  predicate NumberFrom(id: string, k: nat)
    requires 6 <= k < |id|
  {
    id[k - 6..k] == "-disk-" && forall j :: k <= j < |id| ==> IsDigit(id[j])
  }

  /** Any other id, such as a UUID, is cut to its first eight characters. */
  lemma OtherIdsAreCut(id: string)
    requires !IsNumbered(id)
    ensures ShortId(id) == id[..if |id| < 8 then |id| else 8]
  {
    var from := DigitsFrom(id);
    assert 6 <= from < |id| ==> !NumberFrom(id, from);
  }

  /** Two ids that do not end so share a volume name if and only if their first eight characters agree. */
  lemma CutIdsCollide(a: string, b: string, vm: string)
    requires |a| >= 8 && |b| >= 8 && !IsNumbered(a) && !IsNumbered(b)
    ensures PvcName(vm, a) == PvcName(vm, b) <==> a[..8] == b[..8]
  {
    hide ShortId, IsNumbered;
    OtherIdsAreCut(a);
    OtherIdsAreCut(b);
    NamesApart(vm, {a, b});
    if PvcName(vm, a) == PvcName(vm, b) {
      var n := |vm + "-disk-"|;
      assert PvcName(vm, a)[n..] == ShortId(a) && PvcName(vm, b)[n..] == ShortId(b);
    }
  }

  /** A new disk is cloned and seen ready, or, if it is blank, created with its size, which is 20 if none is given. */
  lemma NewDiskIsProvided(plan: Plan, log: seq<Call>, id: string)
    requires Complete(plan, log) && Apart(plan.before.Keys + plan.after.Keys)
    requires id !in plan.before && id in plan.after
    ensures plan.after[id].cloned ==> exists i, j ::
      0 <= i < j < |log|
      && log[i] == CreateVolume(PvcName(plan.vm, id)) && log[j] == CheckVolume(PvcName(plan.vm, id), Ready)
    ensures !plan.after[id].cloned && plan.after[id].blank ==>
      CreatePvc(PvcName(plan.vm, id), if plan.after[id].sizeGb == None then 20 else plan.after[id].sizeGb.value) in log
  {
    hide PvcName, AllSafe;
    assert Served(plan, log, id);
  }

  /** A kept disk whose size grows, where no size and 0 count as 20, is found large enough or expanded to its size. */
  lemma GrownDiskFits(plan: Plan, log: seq<Call>, id: string, was: Option<nat>, size: Option<nat>)
    requires Complete(plan, log) && id in plan.before && id in plan.after
    requires was == plan.before[id].sizeGb && size == plan.after[id].sizeGb
    ensures
      var least := if was in {None, Some(0)} then 20 else was.value;
      var wanted := if size in {None, Some(0)} then 20 else size.value;
      least < wanted ==> Fits(log, PvcName(plan.vm, id), wanted)
  {
    assert plan.after[id].Size() == if size in {None, Some(0)} then 20 else size.value;
  }

  lemma {:induction false} DigitsOf(start: string, number: string)
    requires start != "" && !IsDigit(start[|start| - 1]) && forall k :: 0 <= k < |number| ==> IsDigit(number[k])
    ensures DigitsFrom(start + number) == |start|
  {
    if number == "" {
      assert start + number == start;
    } else {
      assert (start + number)[..|start + number| - 1] == start + number[..|number| - 1];
      DigitsOf(start, number[..|number| - 1]);
    }
  }

  /** No call lowers the request of a PVC that is there before and after it, and that it does not replace. */
  lemma RequestsNeverShrink(plan: Plan, log: seq<Call>, worlds: seq<World>, name: string, k: nat)
    requires AllSafe(plan, log) && Behind(worlds, log) && k < |log|
    requires name in worlds[k] && name in worlds[k + 1] && !Replaces(log[k], name)
    ensures worlds[k + 1][name].request >= worlds[k][name].request
  {
    SafeAt(plan, log, k);
    assert Explains(worlds[k], log[k], worlds[k + 1]);
    if k > 0 {
      assert Explains(worlds[k - 1], log[k - 1], worlds[k]);
      assert log[..k][k - 1] == log[k - 1];
    }
  }
}
