/**
 Capturing the disks of a running guest: snapshot every disk onto a copy-on-write overlay, flatten
 the base images one after the other, and commit the overlays back while the guest keeps writing.

 A transition system.  Besides the guest there are three actors: the capture job, the commit thread
 it starts, and the block jobs inside the hypervisor.  Every command is one step that may fail.
 */
module LiveCapture {
  import opened Options
  import Runs

  /** Who started a block job; `Earlier` is a capture that is no longer there. */
  datatype Who = Main | Thread | Earlier

  /** `active`: the guest runs on the overlay.  `file`: the overlay file exists. */
  datatype Disk = Disk(base: seq<int>, overlay: map<nat, int>, active: bool, file: bool, job: Option<Who>)
  {
    /** What the guest reads. */
    function Visible(): seq<int> {
      seq(|base|, b requires 0 <= b < |base| => if active && b in overlay then overlay[b] else base[b])
    }

    function Written(b: nat, v: int): Disk
      requires b < |base|
    {
      if active then this.(overlay := overlay[b := v]) else this.(base := base[b := v])
    }

    /** A block job has nothing left to copy. */
    predicate Synced() {
      forall b :: b in overlay && b < |base| ==> base[b] == overlay[b]
    }

    ghost predicate Ok() {
      && (active ==> file)
      && (job.Some? ==> active)
      && (forall b :: b in overlay ==> b < |base|)
    }
  }

  // ---------- committing overlays ----------

  datatype Phase = Off | Listing | First | FirstWait | Aborting | Second | SecondWait | Removing | Done

  /** `left`: the overlays still to do, the current one first.  Cleaning up stale overlays begins with the abort. */
  datatype Work = Work(phase: Phase, left: seq<nat>, cleaning: bool)
  {
    function Next(): Work
      requires left != []
    {
      Begin(left[1..], cleaning)
    }

    predicate Busy() { left != [] }
  }

  const IDLE := Work(Off, [], false)
  const LISTING := Work(Listing, [], false)
  const DONE := Work(Done, [], false)

  function Begin(left: seq<nat>, cleaning: bool): Work {
    if left == [] then DONE else Work(if cleaning then Aborting else First, left, cleaning)
  }

  /** The disks with an overlay, as the hypervisor lists them. */
  function Overlaid(disks: seq<Disk>, from: nat): seq<nat>
    requires from <= |disks|
    decreases |disks| - from
  {
    if from == |disks| then [] else (if disks[from].active then [from] else []) + Overlaid(disks, from + 1)
  }

  datatype Move =
    | List | ListFails
    | Start | Refused
    | Pivot | PivotUnseen | JobFails(gone: bool)   // `PivotUnseen`: the command reports failure after it pivoted
    | Abort(worked: bool)
    | Remove(worked: bool)
    | Crash

  ghost predicate CanMove(disks: seq<Disk>, w: Work, who: Who, m: Move) {
    && who != Earlier
    && (m.List? || m.ListFails? ==> w.phase == Listing)
    && (!m.List? && !m.ListFails? ==> w.Busy() && w.left[0] < |disks| && CanMoveOn(disks[w.left[0]], w.phase, who, m))
  }

  ghost predicate CanMoveOn(d: Disk, phase: Phase, who: Who, m: Move) {
    match m
    case Start => phase in {First, Second} && d.active && d.job == None
    case Refused => phase in {First, Second}
    case Pivot => phase in {FirstWait, SecondWait} && d.job == Some(who) && d.Synced()
    case PivotUnseen => phase in {FirstWait, SecondWait} && d.job == Some(who) && d.Synced()
    case JobFails(_) => phase in {FirstWait, SecondWait}
    case Abort(_) => phase == Aborting
    case Remove(_) => phase == Removing
    case _ => true
  }

  function DiskAfter(d: Disk, who: Who, m: Move): Disk {
    match m
    case Start => d.(job := Some(who))
    case Pivot => d.(active := false, job := None)
    case PivotUnseen => d.(active := false, job := None)
    case JobFails(gone) => if gone && d.job == Some(who) then d.(job := None) else d
    case Abort(worked) => if worked then d.(job := None) else d
    case Remove(worked) => d.(file := d.file && !worked)
    case _ => d
  }

  function DisksAfter(disks: seq<Disk>, w: Work, who: Who, m: Move): seq<Disk> {
    if w.Busy() && w.left[0] < |disks| then disks[w.left[0] := DiskAfter(disks[w.left[0]], who, m)] else disks
  }

  function WorkAfter(disks: seq<Disk>, w: Work, m: Move): Work
    requires m.List? || m.ListFails? || w.Busy()
  {
    match m
    case List => Begin(Overlaid(disks, 0), false)
    case ListFails => DONE
    case Start => w.(phase := if w.phase == First then FirstWait else SecondWait)
    case Refused => if w.phase == First then w.(phase := Aborting) else w.Next()
    case Pivot => w.(phase := Removing)
    case PivotUnseen => if w.phase == FirstWait then w.(phase := Aborting) else w.Next()
    case JobFails(_) => if w.phase == FirstWait then w.(phase := Aborting) else w.Next()
    case Abort(_) => w.(phase := Second)
    case Remove(_) => w.Next()
    case Crash => DONE
  }

  /** The overlays a committer gives up on. */
  function GivenUp(disks: seq<Disk>, w: Work, m: Move): set<nat> {
    match m
    case ListFails => set d | d in Overlaid(disks, 0)
    case Refused => if w.Busy() && w.phase == Second then {w.left[0]} else {}
    case PivotUnseen => if w.Busy() && w.phase == SecondWait then {w.left[0]} else {}
    case JobFails(_) => if w.Busy() && w.phase == SecondWait then {w.left[0]} else {}
    case Crash => set d | d in w.left
    case _ => {}
  }

  // ---------- the capture ----------

  datatype Job =
    | Cleaning(work: Work)
    | Flattening(at: nat, image: seq<int>)
    | Saving(at: nat)
    | Finishing(work: Work)

  /**
   `order`: the disks to capture.  `snapshotted` is the job's own variable.  `pending`: the snapshot command
   was given up after its time was up, and may still take effect.  The rest is history: whether the snapshot
   was taken and of what, the disks the guest has written since, the images, for each image whether its disk
   was unwritten when it was complete, the overlays given up on, and whether overlays were made `stray`, by
   a command that had reported failure.
   */
  datatype State = State(disks: seq<Disk>, order: seq<nat>, job: Job, thread: Work, snapshotted: bool,
                         snap: Option<seq<seq<int>>>, written: set<nat>,
                         images: seq<seq<int>>, quiet: seq<bool>, givenUp: set<nat>, pending: bool, stray: bool)

  datatype Step =
    | Write(disk: nat, block: nat, value: int)
    | Copy(disk: nat, block: nat)
    | JobDies(disk: nat)
    | Commit(who: Who, move: Move)
    | Snapshot
    | SnapshotFails(timedOut: bool)
    | LateSnapshot
    | Read
    | Flattened
    | Saved
    | Fail

  function WorkOf(s: State, who: Who): Work {
    if who == Thread then s.thread else if s.job.Cleaning? || s.job.Finishing? then s.job.work else IDLE
  }

  ghost predicate Enabled(s: State, step: Step) {
    match step
    case Write(d, b, _) => d < |s.disks| && b < |s.disks[d].base|
    case Copy(d, b) => d < |s.disks| && s.disks[d].job.Some? && b in s.disks[d].overlay && b < |s.disks[d].base|
    case JobDies(d) => d < |s.disks| && s.disks[d].job.Some?
    case Commit(who, m) => CanMove(s.disks, WorkOf(s, who), who, m)
    // the hypervisor makes all overlays or none, and refuses to reuse a file
    case Snapshot => s.job == Cleaning(DONE) && NoFiles(s.disks)
    case SnapshotFails(_) => s.job == Cleaning(DONE)
    case LateSnapshot => s.pending && NoFiles(s.disks)
    case Read =>
      s.job.Flattening? && s.job.at < |s.order| && s.order[s.job.at] < |s.disks|
      && |s.job.image| < |s.disks[s.order[s.job.at]].base|
    case Flattened =>
      s.job.Flattening? && s.job.at < |s.order| && s.order[s.job.at] < |s.disks|
      && |s.job.image| == |s.disks[s.order[s.job.at]].base|
    case Saved => s.job.Saving?
    case Fail => s.job.Flattening? || s.job.Saving?
  }

  ghost predicate NoFiles(disks: seq<Disk>) {
    forall d :: 0 <= d < |disks| ==> !disks[d].file
  }

  /** On to the disk at `at`, or to the `finally` clause. */
  function Onward(s: State, at: nat): State {
    if at < |s.order| then s.(job := Flattening(at, [])) else Finish(s)
  }

  function Finish(s: State): State {
    s.(job := Finishing(if s.snapshotted then LISTING else DONE))
  }

  function AllVisible(disks: seq<Disk>): seq<seq<int>> {
    seq(|disks|, d requires 0 <= d < |disks| => disks[d].Visible())
  }

  function OntoOverlays(disks: seq<Disk>): seq<Disk> {
    seq(|disks|, d requires 0 <= d < |disks| => Disk(disks[d].base, map[], true, true, None))
  }

  function Moved(s: State, who: Who, m: Move): State
    requires m.List? || m.ListFails? || WorkOf(s, who).Busy()
  {
    var w := WorkOf(s, who);
    var disks, work := DisksAfter(s.disks, w, who, m), WorkAfter(s.disks, w, m);
    var t := s.(disks := disks, givenUp := s.givenUp + GivenUp(s.disks, w, m));
    if who == Thread then t.(thread := work)
    else if s.job.Cleaning? && m.Crash? then t.(job := Finishing(DONE))
    else if s.job.Cleaning? then t.(job := Cleaning(work))
    else t.(job := Finishing(work))
  }

  function After(s: State, step: Step): State
    requires Enabled(s, step)
  {
    match step
    case Write(d, b, v) => s.(disks := s.disks[d := s.disks[d].Written(b, v)], written := s.written + {d})
    case Copy(d, b) =>
      s.(disks := s.disks[d := s.disks[d].(base := s.disks[d].base[b := s.disks[d].overlay[b]])])
    case JobDies(d) => s.(disks := s.disks[d := s.disks[d].(job := None)])
    case Commit(who, m) => Moved(s, who, m)
    case Snapshot =>
      Onward(s.(disks := OntoOverlays(s.disks), snapshotted := true, snap := Some(AllVisible(s.disks)),
                written := {}, givenUp := {}), 0)
    case SnapshotFails(timedOut) => Onward(s.(pending := timedOut), 0)
    case LateSnapshot => s.(disks := OntoOverlays(s.disks), pending := false, stray := true, givenUp := {})
    case Read => s.(job := s.job.(image := s.job.image + [s.disks[s.order[s.job.at]].base[|s.job.image|]]))
    case Flattened =>
      s.(images := s.images + [s.job.image], quiet := s.quiet + [s.order[s.job.at] !in s.written],
         job := Saving(s.job.at), thread := if s.snapshotted then LISTING else s.thread)
    case Saved => Onward(s.(snapshotted := false), s.job.at + 1)
    case Fail => Finish(s)
  }

  // ---------- the invariant ----------

  ghost predicate DisksOk(s: State) {
    && AllOk(s.disks)
    && (forall k :: 0 <= k < |s.order| ==> s.order[k] < |s.disks|)
  }

  /** An overlay about to be removed is no longer in use. */
  ghost predicate WorkOk(disks: seq<Disk>, w: Work) {
    && (w.Busy() <==> w.phase !in {Off, Listing, Done})
    && (forall k :: 0 <= k < |w.left| ==> w.left[k] < |disks|)
    && (w.phase == Removing && w.Busy() && w.left[0] < |disks| ==> !disks[w.left[0]].active)
  }

  /** Where the job, its variable and the thread stand together. */
  ghost predicate ControlOk(s: State) {
    && (s.snap.None? ==> s.thread == IDLE && !s.snapshotted && (s.job.Finishing? ==> s.job.work == DONE))
    && (s.pending || s.stray ==> s.snap.None? && !s.job.Cleaning?)
    && (s.job.Cleaning? ==> s.snap.None? && s.images == [] && s.job.work.phase !in {Off, Listing})
    && (s.job.Flattening? ==> s.job.at == |s.images| < |s.order|)
    && (s.job.Flattening? && s.snap.Some? ==> s.snapshotted == (s.job.at == 0) == (s.thread.phase == Off))
    && (s.job.Saving? ==> s.job.at + 1 == |s.images|)
    && (s.job.Saving? && s.snap.Some? ==> s.thread.phase != Off)
    && (s.job.Finishing? ==> s.job.work.phase != Off)
    && |s.quiet| == |s.images| <= |s.order|
  }

  /** Every overlay in use is still to be committed by this worker, or was given up on. */
  ghost predicate Covers(disks: seq<Disk>, givenUp: set<nat>, w: Work) {
    w.phase in {Off, Listing} || forall d :: 0 <= d < |disks| && disks[d].active ==> d in w.left || d in givenUp
  }

  ghost predicate CoverOk(s: State) {
    && (s.snap.Some? ==>
          && Covers(s.disks, s.givenUp, s.thread)
          && (s.job.Finishing? && s.thread.phase == Off ==> Covers(s.disks, s.givenUp, s.job.work)))
    && (s.snap.None? && !s.stray ==> Covers(s.disks, s.givenUp, if s.job.Cleaning? then s.job.work else DONE))
  }

  /** Stray overlays are nobody's: all disks are on them, and nobody gave up on any. */
  ghost predicate StrayOk(s: State) {
    s.stray ==> s.givenUp == {} && forall d :: 0 <= d < |s.disks| ==> s.disks[d].active
  }

  /** A disk that nobody has written to since the snapshot still has that content in its base. */
  ghost predicate BaseOk(s: State) {
    s.snap.Some? ==>
      && |s.snap.value| == |s.disks|
      && forall d :: 0 <= d < |s.disks| ==>
           && |s.disks[d].base| == |s.snap.value[d]|
           && (d !in s.written ==> s.disks[d].base == s.snap.value[d] && s.disks[d].overlay == map[])
           && (s.job.Flattening? && s.snapshotted ==>
               s.disks[d].base == s.snap.value[d] && s.disks[d].active && s.disks[d].job.None?)
  }

  ghost predicate ImagesOk(s: State) {
    s.snap.Some? && |s.snap.value| == |s.disks| ==>
      && (forall k :: InRange(s, k) && (k == 0 || s.quiet[k]) ==> s.images[k] == s.snap.value[s.order[k]])
      && (AtDisk(s) && (s.job.at == 0 || s.order[s.job.at] !in s.written) ==>
            s.job.image <= s.snap.value[s.order[s.job.at]])
  }

  ghost predicate InRange(s: State, k: int) {
    0 <= k < |s.images| && k < |s.quiet| && k < |s.order| && s.order[k] < |s.disks|
  }

  ghost predicate AtDisk(s: State) {
    s.job.Flattening? && s.job.at < |s.order| && s.order[s.job.at] < |s.disks|
  }

  ghost predicate Inv(s: State) {
    && DisksOk(s) && ControlOk(s)
    && WorkOk(s.disks, s.thread) && (s.job.Cleaning? || s.job.Finishing? ==> WorkOk(s.disks, s.job.work))
    && CoverOk(s) && StrayOk(s) && BaseOk(s) && ImagesOk(s)
  }

  // ---------- what every step keeps ----------

  /** A committer's move changes nothing the guest can see, and keeps a disk in order. */
  lemma MoveKeepsDisk(d: Disk, phase: Phase, who: Who, m: Move)
    requires d.Ok() && CanMoveOn(d, phase, who, m) && (phase == Removing ==> !d.active)
    ensures var after := DiskAfter(d, who, m);
      && after.Ok() && after.Visible() == d.Visible()
      && (after.active ==> d.active) && after.base == d.base && after.overlay == d.overlay
      && (d.file && !after.file ==> m == Remove(true) && !d.active)
  {
    assert DiskAfter(d, who, m).Visible() == d.Visible();
  }

  ghost predicate AllOk(disks: seq<Disk>) {
    forall d :: 0 <= d < |disks| ==> disks[d].Ok()
  }

  lemma MoveShowsNothing(disks: seq<Disk>, w: Work, who: Who, m: Move)
    requires AllOk(disks) && WorkOk(disks, w) && CanMove(disks, w, who, m)
    ensures var after := DisksAfter(disks, w, who, m); AllOk(after) && AllVisible(after) == AllVisible(disks)
  {
    hide CanMoveOn, DiskAfter;
    if w.Busy() && CanMoveOn(disks[w.left[0]], w.phase, who, m) {
      MoveKeepsDisk(disks[w.left[0]], w.phase, who, m);
    }
  }

  lemma CopyKeepsDisk(d: Disk, b: nat)
    requires d.Ok() && d.job.Some? && b in d.overlay
    ensures var after := d.(base := d.base[b := d.overlay[b]]); after.Ok() && after.Visible() == d.Visible()
  {
    assert d.(base := d.base[b := d.overlay[b]]).Visible() == d.Visible();
  }

  lemma WriteIsSeen(d: Disk, b: nat, v: int)
    requires d.Ok() && b < |d.base|
    ensures d.Written(b, v).Ok() && d.Written(b, v).Visible() == d.Visible()[b := v]
  {
    assert d.Written(b, v).Visible() == d.Visible()[b := v];
  }

  /** What a guest's write makes of the disks; no other step touches them. */
  function Seen(contents: seq<seq<int>>, step: Step): seq<seq<int>> {
    if step.Write? && step.disk < |contents| && step.block < |contents[step.disk]| then
      contents[step.disk := contents[step.disk][step.block := step.value]]
    else contents
  }

  /** The guest sees its own writes, and nothing else changes what it sees. */
  lemma StepShowsWrites(s: State, step: Step)
    requires Inv(s) && Enabled(s, step)
    ensures AllVisible(After(s, step).disks) == Seen(AllVisible(s.disks), step)
  {
    hide ControlOk, CoverOk, StrayOk, BaseOk, ImagesOk, CanMove, DisksAfter, WorkAfter, GivenUp;
    match step
    case Write(d, b, v) => WriteIsSeen(s.disks[d], b, v);
    case Copy(d, b) => CopyKeepsDisk(s.disks[d], b);
    case JobDies(d) => assert s.disks[d].(job := None).Visible() == s.disks[d].Visible();
    case Commit(who, m) => MoveShowsNothing(s.disks, WorkOf(s, who), who, m);
    case Snapshot => OverlaysShowAll(s.disks);
    case LateSnapshot => OverlaysShowAll(s.disks);
    case _ =>
  }

  lemma OverlaysShowAll(disks: seq<Disk>)
    requires NoFiles(disks) && AllOk(disks)
    ensures AllVisible(OntoOverlays(disks)) == AllVisible(disks)
  {
    forall d | 0 <= d < |disks| ensures OntoOverlays(disks)[d].Visible() == disks[d].Visible() {
      assert !disks[d].file;
    }
  }

  lemma {:induction false} OverlaidExact(disks: seq<Disk>, from: nat)
    requires from <= |disks|
    ensures forall d :: d in Overlaid(disks, from) <==> from <= d < |disks| && disks[d].active
    decreases |disks| - from
  {
    if from < |disks| {
      OverlaidExact(disks, from + 1);
    }
  }

  lemma StepKeepsDisks(s: State, step: Step)
    requires Inv(s) && Enabled(s, step)
    ensures DisksOk(After(s, step)) && |After(s, step).disks| == |s.disks|
  {
    hide ControlOk, CoverOk, StrayOk, BaseOk, ImagesOk, CanMove, DisksAfter, WorkAfter, GivenUp;
    match step
    case Write(d, b, v) => WriteIsSeen(s.disks[d], b, v);
    case Copy(d, b) => CopyKeepsDisk(s.disks[d], b);
    case Commit(who, m) => MoveShowsNothing(s.disks, WorkOf(s, who), who, m);
    case _ =>
  }

  lemma CommitKeepsControl(s: State, who: Who, m: Move)
    requires Inv(s) && Enabled(s, Commit(who, m))
    ensures ControlOk(Moved(s, who, m))
  {
    hide CoverOk, StrayOk, BaseOk, ImagesOk, CanMoveOn, DisksAfter, GivenUp, DisksOk;
  }

  lemma StepKeepsControl(s: State, step: Step)
    requires Inv(s) && Enabled(s, step)
    ensures ControlOk(After(s, step))
  {
    hide CoverOk, StrayOk, BaseOk, ImagesOk, CanMove, NoFiles, AllOk, OntoOverlays, AllVisible, Moved;
    if step.Commit? {
      CommitKeepsControl(s, step.who, step.move);
    }
  }

  /** The disks stay the same ones, and none goes onto an overlay. */
  ghost predicate Fewer(disks: seq<Disk>, after: seq<Disk>) {
    |after| == |disks| && forall d :: 0 <= d < |disks| && after[d].active ==> disks[d].active
  }

  lemma MoveIsFewer(disks: seq<Disk>, w: Work, who: Who, m: Move)
    ensures Fewer(disks, DisksAfter(disks, w, who, m))
  {
  }

  /** Only a snapshot puts a disk onto an overlay, and no committer is at work then. */
  lemma StepIsFewer(s: State, step: Step)
    requires Inv(s) && Enabled(s, step) && step !in {Snapshot, LateSnapshot}
    ensures Fewer(s.disks, After(s, step).disks)
  {
    hide ControlOk, CoverOk, StrayOk, BaseOk, ImagesOk, CanMove, DisksAfter, WorkAfter, GivenUp;
    if step.Commit? {
      MoveIsFewer(s.disks, WorkOf(s, step.who), step.who, step.move);
    }
  }

  lemma MoveKeepsWork(disks: seq<Disk>, w: Work, who: Who, m: Move)
    requires WorkOk(disks, w) && CanMove(disks, w, who, m)
    ensures WorkOk(DisksAfter(disks, w, who, m), WorkAfter(disks, w, m))
  {
    OverlaidExact(disks, 0);
    assert w.Busy() ==> forall k :: 0 <= k < |w.left[1..]| ==> w.left[1..][k] == w.left[k + 1];
    assert forall k :: 0 <= k < |Overlaid(disks, 0)| ==> Overlaid(disks, 0)[k] in Overlaid(disks, 0);
  }

  lemma MoveKeepsCover(disks: seq<Disk>, givenUp: set<nat>, w: Work, who: Who, m: Move)
    requires WorkOk(disks, w) && CanMove(disks, w, who, m) && Covers(disks, givenUp, w)
    ensures Covers(DisksAfter(disks, w, who, m), givenUp + GivenUp(disks, w, m), WorkAfter(disks, w, m))
    ensures WorkAfter(disks, w, m).phase != Off && (m.Crash? ==> WorkAfter(disks, w, m) == DONE)
  {
    OverlaidExact(disks, 0);
    var after := DisksAfter(disks, w, who, m);
    forall d | 0 <= d < |after| && after[d].active
      ensures disks[d].active && (w.Busy() && d in w.left && d !in w.left[1..] ==> d == w.left[0])
    {
    }
  }

  lemma CommitKeepsWork(s: State, who: Who, m: Move)
    requires Inv(s) && Enabled(s, Commit(who, m))
    ensures var t := Moved(s, who, m);
      WorkOk(t.disks, t.thread) && (t.job.Cleaning? || t.job.Finishing? ==> WorkOk(t.disks, t.job.work))
  {
    hide CoverOk, StrayOk, BaseOk, ImagesOk, DisksOk, CanMove, DisksAfter, WorkAfter, GivenUp;
    var w := WorkOf(s, who);
    MoveKeepsWork(s.disks, w, who, m);
    MoveIsFewer(s.disks, w, who, m);
  }

  lemma StepKeepsWork(s: State, step: Step)
    requires Inv(s) && Enabled(s, step)
    ensures var t := After(s, step);
      WorkOk(t.disks, t.thread) && (t.job.Cleaning? || t.job.Finishing? ==> WorkOk(t.disks, t.job.work))
  {
    hide CoverOk, StrayOk, BaseOk, ImagesOk, DisksOk, CanMove, NoFiles, Moved;
    if step.Commit? {
      CommitKeepsWork(s, step.who, step.move);
    }
  }

  lemma CommitKeepsCover(s: State, who: Who, m: Move)
    requires Inv(s) && Enabled(s, Commit(who, m))
    ensures CoverOk(Moved(s, who, m))
  {
    hide StrayOk, BaseOk, ImagesOk, DisksOk, CanMove, DisksAfter, WorkAfter, GivenUp;
    var w := WorkOf(s, who);
    MoveIsFewer(s.disks, w, who, m);
    if Covers(s.disks, s.givenUp, w) {
      MoveKeepsCover(s.disks, s.givenUp, w, who, m);
    }
  }

  lemma StepKeepsCover(s: State, step: Step)
    requires Inv(s) && Enabled(s, step)
    ensures CoverOk(After(s, step))
  {
    hide StrayOk, BaseOk, ImagesOk, DisksOk, CanMove, WorkOk, Moved;
    if step.Commit? {
      CommitKeepsCover(s, step.who, step.move);
    }
  }

  lemma StepKeepsStray(s: State, step: Step)
    requires Inv(s) && Enabled(s, step)
    ensures StrayOk(After(s, step))
  {
    hide CoverOk, BaseOk, ImagesOk, CanMoveOn, WorkAfter;
  }

  lemma CommitKeepsBase(s: State, who: Who, m: Move)
    requires Inv(s) && Enabled(s, Commit(who, m))
    ensures BaseOk(Moved(s, who, m))
  {
    hide CoverOk, StrayOk, ImagesOk, WorkAfter, GivenUp, CanMoveOn, DiskAfter;
    var w := WorkOf(s, who);
    if w.Busy() {
      MoveKeepsDisk(s.disks[w.left[0]], w.phase, who, m);
    }
  }

  lemma StepKeepsBase(s: State, step: Step)
    requires Inv(s) && Enabled(s, step)
    ensures BaseOk(After(s, step))
  {
    hide CoverOk, StrayOk, ImagesOk, WorkOk, CanMove, Moved;
    if step.Commit? {
      CommitKeepsBase(s, step.who, step.move);
    }
  }

  lemma CommitKeepsImages(s: State, who: Who, m: Move)
    requires Inv(s) && Enabled(s, Commit(who, m))
    ensures ImagesOk(Moved(s, who, m))
  {
    hide CoverOk, StrayOk, BaseOk, DisksOk, CanMoveOn, DiskAfter, WorkAfter, GivenUp;
  }

  lemma StepKeepsImages(s: State, step: Step)
    requires Inv(s) && Enabled(s, step)
    ensures ImagesOk(After(s, step))
  {
    hide CoverOk, StrayOk, WorkOk, CanMove, Moved, NoFiles, AllOk;
    if step.Commit? {
      CommitKeepsImages(s, step.who, step.move);
    }
  }

  lemma StepKeeps(s: State, step: Step)
    requires Inv(s) && Enabled(s, step)
    ensures Inv(After(s, step))
  {
    hide DisksOk, ControlOk, WorkOk, CoverOk, StrayOk, BaseOk, ImagesOk, Enabled, After;
    StepKeepsDisks(s, step);
    StepKeepsControl(s, step);
    StepKeepsWork(s, step);
    StepKeepsCover(s, step);
    StepKeepsStray(s, step);
    StepKeepsBase(s, step);
    StepKeepsImages(s, step);
  }

  // ---------- whole runs ----------

  /** A capture about to begin, over whatever earlier captures left behind; listing those may have failed. */
  ghost predicate Init(s: State) {
    && DisksOk(s)
    && s.job in {Cleaning(Begin(Overlaid(s.disks, 0), true)), Cleaning(DONE)}
    && s.givenUp == (if s.job == Cleaning(DONE) then set d | d in Overlaid(s.disks, 0) else {})
    && s.thread == IDLE && !s.snapshotted && s.snap == None && s.images == [] && s.quiet == [] && !s.pending && !s.stray
  }

  lemma InitOk(s: State)
    requires Init(s)
    ensures Inv(s)
  {
    OverlaidExact(s.disks, 0);
    assert forall k :: 0 <= k < |Overlaid(s.disks, 0)| ==> Overlaid(s.disks, 0)[k] in Overlaid(s.disks, 0);
  }

  /** Taking the steps in order leads from one state to the other. */
  ghost predicate Reaches(s: State, steps: seq<Step>, t: State) {
    Runs.Reaches(Enabled, After, s, steps, t)
  }

  lemma {:induction false} RunKeeps(s: State, steps: seq<Step>, t: State)
    requires Inv(s) && Reaches(s, steps, t)
    ensures Inv(t) && t.order == s.order && |t.disks| == |s.disks|
    decreases |steps|
  {
    hide Inv, Enabled, After;
    if steps != [] {
      StepKeeps(s, steps[0]);
      StepKeepsDisks(s, steps[0]);
      StepKeepsOrder(s, steps[0]);
      RunKeeps(After(s, steps[0]), steps[1..], t);
    }
  }

  lemma StepKeepsOrder(s: State, step: Step)
    requires Enabled(s, step)
    ensures var t := After(s, step); t.order == s.order && (s.stray || step == LateSnapshot <==> t.stray)
  {
    hide CanMove, DisksAfter, WorkAfter, GivenUp;
  }

  /** The disks as the guest wrote them. */
  function SeenAll(contents: seq<seq<int>>, steps: seq<Step>): seq<seq<int>>
    decreases |steps|
  {
    if steps == [] then contents else SeenAll(Seen(contents, steps[0]), steps[1..])
  }

  /**
   No write is lost and none appears: whatever the capture does, wherever it fails, is cancelled or gets
   stuck, the guest always reads exactly what it wrote.
   */
  lemma {:induction false} NoWriteIsLost(s: State, steps: seq<Step>, t: State)
    requires Inv(s) && Reaches(s, steps, t)
    ensures AllVisible(t.disks) == SeenAll(AllVisible(s.disks), steps)
    decreases |steps|
  {
    hide Enabled, After, Inv, Seen;
    if steps != [] {
      StepShowsWrites(s, steps[0]);
      StepKeeps(s, steps[0]);
      NoWriteIsLost(After(s, steps[0]), steps[1..], t);
    }
  }

  /** An overlay file disappears only in a state where the guest no longer runs on it; one in use is always there. */
  lemma RemovedOnlyAfterPivot(s: State, steps: seq<Step>, t: State, step: Step, d: nat)
    requires Init(s) && Reaches(s, steps, t) && Enabled(t, step) && d < |s.disks|
    ensures var u := After(t, step);
      && |t.disks| == |u.disks| == |s.disks|
      && (t.disks[d].active ==> t.disks[d].file) && (u.disks[d].active ==> u.disks[d].file)
      && (t.disks[d].file && !u.disks[d].file ==> !t.disks[d].active && !u.disks[d].active)
  {
    hide Inv, Init, Enabled, After, Runs.Reaches;
    InitOk(s);
    RunKeeps(s, steps, t);
    StepRemovesUnused(t, step, d);
  }

  lemma MoveRemovesUnused(disks: seq<Disk>, w: Work, who: Who, m: Move, d: nat)
    requires AllOk(disks) && WorkOk(disks, w) && CanMove(disks, w, who, m) && d < |disks|
    ensures var after := DisksAfter(disks, w, who, m);
      && |after| == |disks|
      && (disks[d].file && !after[d].file ==> !disks[d].active && !after[d].active)
  {
    hide CanMoveOn, DiskAfter;
    if w.Busy() && CanMoveOn(disks[w.left[0]], w.phase, who, m) {
      MoveKeepsDisk(disks[w.left[0]], w.phase, who, m);
    }
  }

  lemma StepRemovesUnused(s: State, step: Step, d: nat)
    requires Inv(s) && Enabled(s, step) && d < |s.disks|
    ensures var t := After(s, step);
      && |t.disks| == |s.disks| && (s.disks[d].active ==> s.disks[d].file) && (t.disks[d].active ==> t.disks[d].file)
      && (s.disks[d].file && !t.disks[d].file ==> !s.disks[d].active && !t.disks[d].active)
  {
    hide ControlOk, CoverOk, StrayOk, BaseOk, ImagesOk, CanMove, DisksAfter, WorkAfter, GivenUp, NoFiles, Overlaid;
    StepKeepsDisks(s, step);
    assert s.disks[d].Ok() && After(s, step).disks[d].Ok();
    if step.Commit? {
      MoveRemovesUnused(s.disks, WorkOf(s, step.who), step.who, step.move, d);
    }
  }

  /** What the snapshot recorded is what the guest had written then, and it is never replaced. */
  lemma {:induction false} SnapIsVisible(s: State, steps: seq<Step>, t: State)
    requires Inv(s) && s.snap == None && Reaches(s, steps, t) && t.snap.Some?
    ensures exists j :: 0 <= j < |steps| && steps[j] == Snapshot
              && t.snap.value == SeenAll(AllVisible(s.disks), steps[..j])
    decreases |steps|
  {
    hide Inv, Enabled, Seen;
    if steps == [] {
      assert false;
    } else {
      var u := After(s, steps[0]);
      StepKeeps(s, steps[0]);
      if steps[0] == Snapshot {
        SnapStays(u, steps[1..], t);
        assert steps[..0] == [];
      } else {
        StepKeepsSnap(s, steps[0]);
        SnapIsVisible(u, steps[1..], t);
        StepShowsWrites(s, steps[0]);
        var j :| 0 <= j < |steps[1..]| && steps[1..][j] == Snapshot
                 && t.snap.value == SeenAll(AllVisible(u.disks), steps[1..][..j]);
        assert steps[..j + 1][1..] == steps[1..][..j] && steps[..j + 1][0] == steps[0];
        assert steps[j + 1] == Snapshot;
      }
    }
  }

  lemma StepKeepsSnap(s: State, step: Step)
    requires Inv(s) && Enabled(s, step)
    ensures step != Snapshot ==> After(s, step).snap == s.snap
    ensures s.snap.Some? ==> step != Snapshot
  {
    hide CoverOk, StrayOk, BaseOk, ImagesOk, CanMove, DisksAfter, WorkAfter, GivenUp;
  }

  lemma {:induction false} SnapStays(s: State, steps: seq<Step>, t: State)
    requires Inv(s) && s.snap.Some? && Reaches(s, steps, t)
    ensures t.snap == s.snap
    decreases |steps|
  {
    hide Inv, Enabled, After;
    if steps != [] {
      StepKeepsSnap(s, steps[0]);
      StepKeeps(s, steps[0]);
      SnapStays(After(s, steps[0]), steps[1..], t);
    }
  }

  /**
   Point in time: once a snapshot was taken, the image of the first disk is what the guest's writes up to
   the snapshot had made of that disk, for every interleaving of writes, commits and failures after it;
   and so is the image of any later disk that the guest left alone until it was flattened.
   */
  lemma PointInTime(s: State, steps: seq<Step>, t: State, i: nat)
    requires Init(s) && Reaches(s, steps, t) && t.snap.Some?
    requires i < |t.images| && (i == 0 || (i < |t.quiet| && t.quiet[i]))
    ensures exists j :: 0 <= j < |steps| && steps[j] == Snapshot
              && i < |t.order| && t.order[i] < |SeenAll(AllVisible(s.disks), steps[..j])|
              && t.images[i] == SeenAll(AllVisible(s.disks), steps[..j])[t.order[i]]
  {
    hide After, Enabled, Runs.Reaches, SeenAll;
    InitOk(s);
    RunKeeps(s, steps, t);
    SnapIsVisible(s, steps, t);
  }

  // ---------- what is forgotten ----------

  /** When job and thread have ended. */
  ghost predicate Over(s: State) {
    s.job == Finishing(DONE) && s.thread.phase in {Off, Done}
  }

  /** A disk is left on its overlay, and nobody gave up on it. */
  ghost predicate Forgotten(s: State, d: nat) {
    d < |s.disks| && s.disks[d].active && d !in s.givenUp
  }

  /**
   When everything is over, a disk still on its overlay is one that a committer gave up on: with the one exact
   exception that the snapshot command took effect after it had reported failure, and then it is all of them.
   */
  lemma NothingForgotten(s: State, steps: seq<Step>, t: State)
    requires Init(s) && Reaches(s, steps, t) && Over(t)
    ensures LateSnapshot !in steps ==> forall d :: !Forgotten(t, d)
    ensures LateSnapshot in steps ==> forall d :: 0 <= d < |s.disks| ==> Forgotten(t, d)
  {
    InitOk(s);
    RunKeeps(s, steps, t);
    StrayExact(s, steps, t);
  }

  lemma {:induction false} StrayExact(s: State, steps: seq<Step>, t: State)
    requires Reaches(s, steps, t)
    ensures t.stray <==> s.stray || LateSnapshot in steps
    decreases |steps|
  {
    hide Enabled, After;
    if steps != [] {
      StepKeepsOrder(s, steps[0]);
      StrayExact(After(s, steps[0]), steps[1..], t);
    }
  }

  /** No listing fails, no command of a committer is refused or fails, and none crashes. */
  ghost predicate Works(step: Step) {
    step.Commit? ==> step.move.List? || step.move.Start? || step.move.Pivot? || step.move.Abort? || step.move.Remove?
  }

  lemma WorkingGivesUpNothing(s: State, step: Step)
    requires Enabled(s, step) && Works(step) && s.givenUp == {}
    ensures After(s, step).givenUp == {}
  {
    hide CanMove, DisksAfter, WorkAfter, Overlaid, NoFiles;
  }

  lemma {:induction false} WorkingRunGivesUpNothing(s: State, steps: seq<Step>, t: State)
    requires Reaches(s, steps, t) && s.givenUp == {} && forall step :: step in steps ==> Works(step)
    ensures t.givenUp == {}
    decreases |steps|
  {
    hide Enabled, After, Works;
    if steps != [] {
      WorkingGivesUpNothing(s, steps[0]);
      assert forall step :: step in steps[1..] ==> step in steps;
      WorkingRunGivesUpNothing(After(s, steps[0]), steps[1..], t);
    }
  }

  /**
   When nothing goes wrong but the capture itself, which may fail or be cancelled anywhere, every overlay has been
   committed when everything is over: no disk is left on one.
   */
  lemma AllCommitted(s: State, steps: seq<Step>, t: State)
    requires Init(s) && s.givenUp == {} && Reaches(s, steps, t) && Over(t)
    requires LateSnapshot !in steps && forall step :: step in steps ==> Works(step)
    ensures forall d :: 0 <= d < |t.disks| ==> !t.disks[d].active
  {
    NothingForgotten(s, steps, t);
    WorkingRunGivesUpNothing(s, steps, t);
    forall d | 0 <= d < |t.disks| ensures !t.disks[d].active {
      assert !Forgotten(t, d);
    }
  }

  /** An overlay is given up on only when the list of them cannot be had, in a crash, or when it fails a second time. */
  lemma GivesUpAtTheSecondFailure(s: State, step: Step, d: nat)
    requires Inv(s) && Enabled(s, step) && d in After(s, step).givenUp && d !in s.givenUp
    ensures step.Commit? && d < |s.disks|
    ensures var w := WorkOf(s, step.who);
      || (step.move == ListFails && s.disks[d].active)
      || (step.move == Crash && d in w.left)
      || (&& w.phase in {Second, SecondWait} && w.left != [] && w.left[0] == d
          && (step.move.Refused? || step.move.PivotUnseen? || step.move.JobFails?))
  {
    hide CoverOk, StrayOk, BaseOk, ImagesOk, ControlOk, DisksAfter, WorkAfter, CanMoveOn, NoFiles, Overlaid,
         AllOk, OntoOverlays, AllVisible, GivenUp;
    if step.Commit? {
      WhatIsGivenUp(s.disks, WorkOf(s, step.who), step.move, d);
    }
  }

  lemma WhatIsGivenUp(disks: seq<Disk>, w: Work, m: Move, d: nat)
    requires d in GivenUp(disks, w, m)
    ensures
      || (m == ListFails && d < |disks| && disks[d].active)
      || (m == Crash && d in w.left)
      || (&& w.phase in {Second, SecondWait} && w.left != [] && w.left[0] == d
          && (m.Refused? || m.PivotUnseen? || m.JobFails?))
  {
    OverlaidExact(disks, 0);
  }

  /** What a command leaves behind that reports failure: it may have pivoted, and its block job may be gone or go on. */
  lemma FailureLeavesBehind(disks: seq<Disk>, w: Work, who: Who, m: Move)
    requires CanMove(disks, w, who, m)
    ensures m == ListFails ==> WorkAfter(disks, w, m) == DONE
    ensures w.left != [] ==>
      var x := w.left[0];
      && (m == PivotUnseen ==>
            DisksAfter(disks, w, who, m) == disks[x := disks[x].(active := false, job := None)])
      && (m == JobFails(true) && disks[x].job == Some(who) ==>
            DisksAfter(disks, w, who, m) == disks[x := disks[x].(job := None)])
      && (m == JobFails(false) || m == Refused ==> DisksAfter(disks, w, who, m) == disks)
  {
  }

  /** The blocks a block job still has to copy. */
  function Unsynced(d: Disk): set<nat> {
    set b | b in d.overlay && b < |d.base| && d.base[b] != d.overlay[b]
  }

  /**
   A block job can always finish: while the guest rests, copying brings the base up to the overlay, and the guest
   sees nothing of it.
   */
  lemma {:induction false} BlockJobFinishes(s: State, x: nat) returns (steps: seq<Step>, t: State)
    requires x < |s.disks| && s.disks[x].Ok() && s.disks[x].job.Some?
    ensures Reaches(s, steps, t) && forall step :: step in steps ==> step.Copy? && step.disk == x
    ensures |t.disks| == |s.disks| && t == s.(disks := s.disks[x := s.disks[x].(base := t.disks[x].base)])
    ensures t.disks[x].Synced() && t.disks[x].Visible() == s.disks[x].Visible()
    decreases |Unsynced(s.disks[x])|
  {
    hide Runs.Reaches, Disk.Visible, Disk.Ok, Enabled, After;
    if b :| b in Unsynced(s.disks[x]) {
      var d := s.disks[x];
      var u := CopiesOne(s, x, b);
      var more;
      more, t := BlockJobFinishes(u, x);
      Runs.Continue(Enabled, After, s, [Copy(x, b)], u, more, t);
      steps := [Copy(x, b)] + more;
      assert t.disks == s.disks[x := d.(base := t.disks[x].base)];
    } else {
      steps, t := [], s;
      Runs.Nothing(Enabled, After, s);
      assert s.disks == s.disks[x := s.disks[x].(base := s.disks[x].base)];
      NothingToCopy(s.disks[x]);
    }
  }

  lemma NothingToCopy(d: Disk)
    requires Unsynced(d) == {}
    ensures d.Synced()
  {
    forall b | b in d.overlay && b < |d.base| ensures d.base[b] == d.overlay[b] {
      assert b !in Unsynced(d);
    }
  }

  lemma CopiesOne(s: State, x: nat, b: nat) returns (t: State)
    requires x < |s.disks| && s.disks[x].Ok() && s.disks[x].job.Some? && b in Unsynced(s.disks[x])
    ensures Reaches(s, [Copy(x, b)], t) && |t.disks| == |s.disks| && t.disks[x].Ok()
    ensures t == s.(disks := s.disks[x := s.disks[x].(base := t.disks[x].base)])
    ensures t.disks[x].Visible() == s.disks[x].Visible()
    ensures Unsynced(t.disks[x]) < Unsynced(s.disks[x]) && |Unsynced(t.disks[x])| < |Unsynced(s.disks[x])|
  {
    hide Runs.Reaches;
    var d := s.disks[x];
    Runs.One(Enabled, After, s, Copy(x, b));
    t := After(s, Copy(x, b));
    CopyKeepsDisk(d, b);
    hide Disk.Visible, Disk.Ok, Enabled, After;
    assert t.disks[x] == d.(base := d.base[b := d.overlay[b]]);
    assert Unsynced(t.disks[x]) == Unsynced(d) - {b};
  }

  /** A block job may die, and then nothing of it is left but what it copied. */
  lemma BlockJobDies(s: State, d: nat)
    requires Enabled(s, JobDies(d))
    ensures After(s, JobDies(d)) == s.(disks := s.disks[d := s.disks[d].(job := None)])
  {
  }

  /** After the first failure an overlay is tried again, its block job aborted; after the second comes the next one. */
  lemma TriesTwice(disks: seq<Disk>, w: Work, who: Who, m: Move)
    requires CanMove(disks, w, who, m) && w.left != []
    ensures m.Refused? || m.PivotUnseen? || m.JobFails? ==>
      (WorkAfter(disks, w, m) ==
       if w.phase in {First, FirstWait} then Work(Aborting, w.left, w.cleaning)
       else if w.left[1..] == [] then DONE
       else Work(if w.cleaning then Aborting else First, w.left[1..], w.cleaning))
    ensures m.Abort? ==> WorkAfter(disks, w, m) == Work(Second, w.left, w.cleaning)
    ensures m == Abort(true) ==> w.left[0] < |disks| && DisksAfter(disks, w, who, m)[w.left[0]].job == None
  {
  }

  /** That happens to every capture that finds no overlay file: a run that ends with every disk forgotten. */
  lemma LateSnapshotIsForgotten(s: State)
    requires Init(s) && s.job == Cleaning(DONE) && NoFiles(s.disks)
    ensures exists steps: seq<Step>, t: State :: Reaches(s, steps, t) && Over(t) && LateSnapshot in steps
              && forall d :: 0 <= d < |s.disks| ==> Forgotten(t, d)
  {
    hide Runs.Reaches, OntoOverlays, Inv;
    Runs.One(Enabled, After, s, SnapshotFails(true));
    var a := After(s, SnapshotFails(true));
    Runs.One(Enabled, After, a, LateSnapshot);
    var t := After(a, LateSnapshot);
    Runs.Continue(Enabled, After, s, [SnapshotFails(true)], a, [LateSnapshot], t);
    var steps := [SnapshotFails(true)] + [LateSnapshot];
    if t.job.Flattening? {
      Runs.One(Enabled, After, t, Fail);
      Runs.Continue(Enabled, After, s, steps, t, [Fail], After(t, Fail));
      steps, t := steps + [Fail], After(t, Fail);
    }
    assert steps[1] == LateSnapshot;
    assert Reaches(s, steps, t) && Over(t);
    NothingForgotten(s, steps, t);
  }

  // ---------- only the first image is safe ----------

  /** At some point of the run the disk held this image. */
  ghost predicate Held(contents: seq<seq<int>>, steps: seq<Step>, d: nat, image: seq<int>)
    decreases |steps|
  {
    || (d < |contents| && contents[d] == image)
    || (steps != [] && Held(Seen(contents, steps[0]), steps[1..], d, image))
  }

  lemma {:induction false} HeldAt(contents: seq<seq<int>>, steps: seq<Step>, j: nat, d: nat)
    requires j <= |steps| && d < |SeenAll(contents, steps[..j])|
    ensures Held(contents, steps, d, SeenAll(contents, steps[..j])[d])
    decreases |steps|
  {
    if j > 0 {
      assert steps[..j][1..] == steps[1..][..j - 1] && steps[..j][0] == steps[0];
      HeldAt(Seen(contents, steps[0]), steps[1..], j - 1, d);
    }
  }

  ghost predicate NoWrites(steps: seq<Step>) {
    forall step :: step in steps ==> !step.Write?
  }

  /** Steps without a write can be left out in front. */
  lemma {:induction false} HeldLater(contents: seq<seq<int>>, steps: seq<Step>, more: seq<Step>, d: nat,
                                      image: seq<int>)
    requires NoWrites(steps)
    ensures Held(contents, steps + more, d, image) <==> Held(contents, more, d, image)
    decreases |steps|
  {
    if steps == [] {
      assert steps + more == more;
    } else {
      assert (steps + more)[1..] == steps[1..] + more && steps[0] in steps;
      assert forall step :: step in steps[1..] ==> step in steps;
      HeldLater(contents, steps[1..], more, d, image);
    }
  }

  /** In every run that took a snapshot the image at `i` is one its disk held. */
  ghost predicate AlwaysHeld(s: State, i: nat) {
    forall steps: seq<Step>, t: State ::
      Reaches(s, steps, t) && t.snap.Some? && i < |t.images| && i < |t.order| ==>
        Held(AllVisible(s.disks), steps, t.order[i], t.images[i])
  }

  /** A capture that finds no overlay, with a disk of at least two blocks at `i`. */
  ghost predicate Ready(s: State, i: nat) {
    && Init(s) && s.job == Cleaning(DONE) && NoFiles(s.disks)
    && i < |s.order| && s.order[i] < |s.disks| && |s.disks[s.order[i]].base| >= 2
  }

  /**
   Only the first disk of a capture is safe: for every capture, the image at a position is in all runs one that
   its disk held if and only if the position is the first.  Any later disk can tear.
   */
  lemma OnlyTheFirstIsSafe(s: State, i: nat)
    requires Ready(s, i)
    ensures AlwaysHeld(s, i) <==> i == 0
  {
    if i == 0 {
      forall steps: seq<Step>, t: State | Reaches(s, steps, t) && t.snap.Some? && i < |t.images| && i < |t.order|
        ensures Held(AllVisible(s.disks), steps, t.order[i], t.images[i])
      {
        PointInTime(s, steps, t, 0);
        var j :| 0 <= j < |steps| && steps[j] == Snapshot
                 && t.order[0] < |SeenAll(AllVisible(s.disks), steps[..j])|
                 && t.images[0] == SeenAll(AllVisible(s.disks), steps[..j])[t.order[0]];
        HeldAt(AllVisible(s.disks), steps, j, t.order[0]);
      }
    } else {
      var steps, t := LaterDisksTear(s, i);
    }
  }

  // The run in which a later disk tears: every overlay is committed, and the guest writes to the base that is read.

  /** The disk without an overlay. */
  function Plain(d: Disk): Disk { Disk(d.base, map[], false, false, None) }

  function AllPlain(disks: seq<Disk>): seq<Disk> {
    seq(|disks|, d requires 0 <= d < |disks| => Plain(disks[d]))
  }

  /** The job has read up to the end of its disk, unless somebody writes. */
  function Rest(s: State): seq<int>
    requires s.job.Flattening? && s.job.at < |s.order| && s.order[s.job.at] < |s.disks|
    requires |s.job.image| <= |s.disks[s.order[s.job.at]].base|
  {
    s.disks[s.order[s.job.at]].base[|s.job.image|..]
  }

  lemma {:induction false} ReadsOn(s: State) returns (steps: seq<Step>)
    requires s.job.Flattening? && s.job.at < |s.order| && s.order[s.job.at] < |s.disks|
    requires |s.job.image| <= |s.disks[s.order[s.job.at]].base|
    ensures NoWrites(steps) && Reaches(s, steps, s.(job := Flattening(s.job.at, s.job.image + Rest(s))))
    decreases |Rest(s)|
  {
    hide Runs.Reaches;
    if Rest(s) == [] {
      assert s.job.image + Rest(s) == s.job.image;
      steps := [];
      Runs.Nothing(Enabled, After, s);
    } else {
      Runs.One(Enabled, After, s, Read);
      var t := After(s, Read);
      var more := ReadsOn(t);
      assert t.job.image + Rest(t) == s.job.image + Rest(s);
      Runs.Continue(Enabled, After, s, [Read], t, more, s.(job := Flattening(s.job.at, s.job.image + Rest(s))));
      steps := [Read] + more;
    }
  }

  /** One disk is flattened from where the job stands. */
  lemma Flattens(s: State) returns (steps: seq<Step>, t: State)
    requires s.job.Flattening? && s.job.at < |s.order| && s.order[s.job.at] < |s.disks|
    requires |s.job.image| <= |s.disks[s.order[s.job.at]].base|
    ensures NoWrites(steps) && Reaches(s, steps, t)
    ensures t == s.(images := s.images + [s.job.image + Rest(s)], quiet := t.quiet, job := Saving(s.job.at),
                    thread := if s.snapshotted then LISTING else s.thread)
  {
    hide Runs.Reaches;
    var more := ReadsOn(s);
    var u := s.(job := Flattening(s.job.at, s.job.image + Rest(s)));
    Runs.One(Enabled, After, u, Flattened);
    t := After(u, Flattened);
    Runs.Continue(Enabled, After, s, more, u, [Flattened], t);
    steps := more + [Flattened];
  }

  /** On an overlay to which nothing was written. */
  predicate Fresh(d: Disk) { d == Disk(d.base, map[], true, true, None) }

  /** The thread commits the overlay it is at, to which nothing was written. */
  lemma CommitsOne(s: State, x: nat, rest: seq<nat>) returns (steps: seq<Step>)
    requires s.thread == Work(First, [x] + rest, false) && x < |s.disks|
    requires Fresh(s.disks[x])
    ensures NoWrites(steps)
    ensures Reaches(s, steps, s.(disks := s.disks[x := Plain(s.disks[x])], thread := Begin(rest, false)))
  {
    hide Runs.Reaches, Begin, Moved;
    var left := [x] + rest;
    var d := s.disks[x];
    var t := s.(disks := s.disks[x := d.(job := Some(Thread))], thread := Work(FirstWait, left, false));
    var u := s.(disks := s.disks[x := d.(active := false)], thread := Work(Removing, left, false));
    var v := s.(disks := s.disks[x := Plain(d)], thread := Begin(rest, false));
    assert left[0] == x && left[1..] == rest;
    ThreadMoves(s, Start);
    assert WorkAfter(s.disks, s.thread, Start) == t.thread;
    ThreadMoves(t, Pivot);
    assert t.disks[x := d.(active := false)] == u.disks;
    ThreadMoves(u, Remove(true));
    assert u.disks[x := Plain(d)] == v.disks;
    Runs.Continue(Enabled, After, s, [Commit(Thread, Start)], t, [Commit(Thread, Pivot)], u);
    Runs.Continue(Enabled, After, s, [Commit(Thread, Start)] + [Commit(Thread, Pivot)], u,
        [Commit(Thread, Remove(true))], v);
    steps := [Commit(Thread, Start)] + [Commit(Thread, Pivot)] + [Commit(Thread, Remove(true))];
  }

  /** A move of the thread that gives up on nothing. */
  lemma ThreadMoves(s: State, m: Move)
    requires CanMove(s.disks, s.thread, Thread, m) && s.thread.Busy() && s.thread.left[0] < |s.disks|
    requires m in {Start, Pivot, Remove(true)}
    ensures Reaches(s, [Commit(Thread, m)],
                    s.(disks := s.disks[s.thread.left[0] := DiskAfter(s.disks[s.thread.left[0]], Thread, m)],
                       thread := WorkAfter(s.disks, s.thread, m)))
  {
    hide Runs.Reaches;
    assert s.givenUp + {} == s.givenUp;
    Runs.One(Enabled, After, s, Commit(Thread, m));
  }

  /** The disks in the list have lost their overlays, the others are as they were. */
  ghost predicate Lost(disks: seq<Disk>, left: seq<nat>, after: seq<Disk>) {
    |after| == |disks| && forall x :: 0 <= x < |disks| ==> after[x] == if x in left then Plain(disks[x]) else disks[x]
  }

  ghost predicate Distinct(left: seq<nat>) {
    forall j, k :: 0 <= j < k < |left| ==> left[j] != left[k]
  }

  lemma {:induction false} CommitsAll(s: State, left: seq<nat>) returns (steps: seq<Step>, t: State)
    requires s.thread == Begin(left, false)
    requires forall k :: 0 <= k < |left| ==> left[k] < |s.disks| && Fresh(s.disks[left[k]])
    requires Distinct(left)
    ensures NoWrites(steps) && Reaches(s, steps, t)
    ensures t == s.(disks := t.disks, thread := DONE) && Lost(s.disks, left, t.disks)
    decreases |left|
  {
    hide Runs.Reaches;
    if left == [] {
      steps, t := [], s;
      Runs.Nothing(Enabled, After, s);
    } else {
      var x, rest := left[0], left[1..];
      assert left == [x] + rest;
      var some := CommitsOne(s, x, rest);
      var u := s.(disks := s.disks[x := Plain(s.disks[x])], thread := Begin(rest, false));
      assert forall k :: 0 <= k < |rest| ==> rest[k] == left[k + 1];
      var more;
      more, t := CommitsAll(u, rest);
      Runs.Continue(Enabled, After, s, some, u, more, t);
      steps := some + more;
    }
  }

  lemma {:induction false} OverlaidDistinct(disks: seq<Disk>, from: nat)
    requires from <= |disks|
    ensures Distinct(Overlaid(disks, from))
    decreases |disks| - from
  {
    if from < |disks| {
      OverlaidDistinct(disks, from + 1);
      OverlaidExact(disks, from + 1);
      var rest := Overlaid(disks, from + 1);
      forall k | 0 <= k < |rest| ensures rest[k] > from {
        assert rest[k] in rest;
      }
      if disks[from].active {
        assert Overlaid(disks, from) == [from] + rest;
      } else {
        assert Overlaid(disks, from) == [] + rest == rest;
      }
    }
  }

  /** Snapshot, the first disk flattened, and the thread has listed the overlays. */
  lemma FirstFlattened(s: State) returns (steps: seq<Step>, t: State)
    requires Init(s) && s.job == Cleaning(DONE) && NoFiles(s.disks) && |s.order| > 1
    ensures NoWrites(steps) && Reaches(s, steps, t)
    ensures t.job == Saving(0) && t.disks == OntoOverlays(s.disks) && t.order == s.order && |t.images| == 1
    ensures t.snap.Some? && t.thread == Begin(Overlaid(t.disks, 0), false)
  {
    hide Runs.Reaches, Overlaid;
    Runs.One(Enabled, After, s, Snapshot);
    var a := After(s, Snapshot);
    var more, b := Flattens(a);
    Runs.Continue(Enabled, After, s, [Snapshot], a, more, b);
    var list := Commit(Thread, List);
    Runs.One(Enabled, After, b, list);
    t := After(b, list);
    Runs.Continue(Enabled, After, s, [Snapshot] + more, b, [list], t);
    steps := [Snapshot] + more + [list];
  }

  /** Every overlay is committed, the first image is saved, and the job goes on to the second disk. */
  lemma FirstDone(s: State) returns (steps: seq<Step>, t: State)
    requires Init(s) && s.job == Cleaning(DONE) && NoFiles(s.disks) && |s.order| > 1
    ensures NoWrites(steps) && Reaches(s, steps, t)
    ensures t.job == Flattening(1, []) && t.disks == AllPlain(s.disks) && t.order == s.order && |t.images| == 1
    ensures t.snap.Some? && !t.snapshotted
  {
    hide Runs.Reaches, Init, NoFiles, Overlaid;
    var some, a := FirstFlattened(s);
    OverlaidExact(a.disks, 0);
    OverlaidDistinct(a.disks, 0);
    var left := Overlaid(a.disks, 0);
    forall k | 0 <= k < |left| ensures left[k] < |a.disks| && Fresh(a.disks[left[k]]) {
      assert left[k] in left;
    }
    var more, b := CommitsAll(a, left);
    Runs.Continue(Enabled, After, s, some, a, more, b);
    assert b.disks == AllPlain(s.disks);
    Runs.One(Enabled, After, b, Saved);
    t := After(b, Saved);
    Runs.Continue(Enabled, After, s, some + more, b, [Saved], t);
    steps := some + more + [Saved];
  }

  /** The disks before position `i` are flattened and saved. */
  lemma {:induction false} UpTo(s: State, i: nat) returns (steps: seq<Step>, t: State)
    requires Init(s) && s.job == Cleaning(DONE) && NoFiles(s.disks) && 1 <= i < |s.order|
    ensures NoWrites(steps) && Reaches(s, steps, t)
    ensures t.job == Flattening(i, []) && t.disks == AllPlain(s.disks) && t.order == s.order && |t.images| == i
    ensures t.snap.Some? && !t.snapshotted
    decreases i
  {
    if i == 1 {
      steps, t := FirstDone(s);
    } else {
      assert forall k :: 0 <= k < |s.order| ==> s.order[k] < |s.disks|;
      hide Runs.Reaches, Init, NoFiles, AllPlain;
      var some, a := UpTo(s, i - 1);
      var more;
      more, t := GoesOn(a);
      Runs.Continue(Enabled, After, s, some, a, more, t);
      steps := some + more;
    }
  }

  /** A later disk is flattened and saved, and the next one begins. */
  lemma GoesOn(s: State) returns (steps: seq<Step>, t: State)
    requires s.job.Flattening? && s.job.image == [] && s.job.at + 1 < |s.order| && s.order[s.job.at] < |s.disks|
    requires !s.snapshotted
    ensures NoWrites(steps) && Reaches(s, steps, t) && |t.images| == |s.images| + 1
    ensures t == s.(job := Flattening(s.job.at + 1, []), images := t.images, quiet := t.quiet)
  {
    hide Runs.Reaches;
    var more, a := Flattens(s);
    Runs.One(Enabled, After, a, Saved);
    t := After(a, Saved);
    Runs.Continue(Enabled, After, s, more, a, [Saved], t);
    steps := more + [Saved];
  }

  /** The next two blocks of a disk without an overlay, both one more. */
  function Raised(d: Disk): Disk
    requires |d.base| >= 2
  {
    d.(base := d.base[0 := d.base[0] + 1][1 := d.base[1] + 1])
  }

  /** One block is read, and the guest writes it and then the next. */
  lemma ReadsThenWrites(s: State, d: nat)
    requires s.job.Flattening? && s.job.at < |s.order| && s.order[s.job.at] == d < |s.disks| && s.job.image == []
    requires |s.disks[d].base| >= 2 && !s.disks[d].active
    ensures var base := s.disks[d].base;
      Reaches(s, [Read] + [Write(d, 0, base[0] + 1)] + [Write(d, 1, base[1] + 1)],
              s.(job := Flattening(s.job.at, [base[0]]), disks := s.disks[d := Raised(s.disks[d])],
                 written := s.written + {d}))
  {
    hide Runs.Reaches;
    var base := s.disks[d].base;
    var first, second := Write(d, 0, base[0] + 1), Write(d, 1, base[1] + 1);
    var a := s.(job := Flattening(s.job.at, [base[0]]));
    var b := a.(disks := a.disks[d := a.disks[d].(base := base[0 := base[0] + 1])], written := a.written + {d});
    Runs.One(Enabled, After, s, Read);
    assert [] + [base[0]] == [base[0]];
    assert After(s, Read) == a;
    Runs.OneMore(Enabled, After, s, [Read], a, first);
    assert After(a, first) == b;
    Runs.OneMore(Enabled, After, s, [Read] + [first], b, second);
    assert b.disks[d := Raised(s.disks[d])] == s.disks[d := Raised(s.disks[d])];
    assert b.written + {d} == s.written + {d};
  }

  /** One block is read, the guest writes it and then the next, and the rest is read. */
  lemma Tears(s: State, d: nat) returns (steps: seq<Step>, t: State)
    requires s.job.Flattening? && s.job.at < |s.order| && s.order[s.job.at] == d < |s.disks| && s.job.image == []
    requires |s.disks[d].base| >= 2 && !s.disks[d].active && !s.snapshotted
    ensures Reaches(s, steps, t) && t.order == s.order && t.snap == s.snap && |t.images| == |s.images| + 1
    ensures !Held(AllVisible(s.disks), steps, d, t.images[|s.images|])
  {
    hide Runs.Reaches, Held, Enabled, After;
    var base := s.disks[d].base;
    var first, second := Write(d, 0, base[0] + 1), Write(d, 1, base[1] + 1);
    ReadsThenWrites(s, d);
    var c := s.(job := Flattening(s.job.at, [base[0]]), disks := s.disks[d := Raised(s.disks[d])],
                written := s.written + {d});
    var rest;
    rest, t := Flattens(c);
    Runs.Continue(Enabled, After, s, [Read] + [first] + [second], c, rest, t);
    steps := [Read] + [first] + [second] + rest;
    assert AllVisible(s.disks)[d] == base;
    NeverHeld(AllVisible(s.disks), d, rest, t.images[|s.images|]);
    assert steps == [Read] + ([first] + ([second] + rest));
  }

  /** Contents with the first block as it was have the second as it was, unlike the image. */
  lemma NeverHeld(contents: seq<seq<int>>, d: nat, rest: seq<Step>, image: seq<int>)
    requires d < |contents| && |contents[d]| == |image| >= 2 && NoWrites(rest)
    requires image[0] == contents[d][0] && image[1] == contents[d][1] + 1
    ensures var first, second := Write(d, 0, contents[d][0] + 1), Write(d, 1, contents[d][1] + 1);
      !Held(contents, [Read] + ([first] + ([second] + rest)), d, image)
  {
    var first, second := Write(d, 0, contents[d][0] + 1), Write(d, 1, contents[d][1] + 1);
    var once := Seen(contents, first);
    var twice := Seen(once, second);
    HeldLater(twice, rest, [], d, image);
    assert rest + [] == rest;
    assert !Held(twice, rest, d, image);
    assert ([second] + rest)[1..] == rest;
    assert !Held(once, [second] + rest, d, image);
    assert ([first] + ([second] + rest))[1..] == [second] + rest;
    assert !Held(contents, [first] + ([second] + rest), d, image);
    HeldLater(contents, [Read], [first] + ([second] + rest), d, image);
  }

  /**
   For every capture with a disk of at least two blocks behind the first: a run gives an image that disk never
   held.
   */
  lemma LaterDisksTear(s: State, i: nat) returns (steps: seq<Step>, t: State)
    requires Ready(s, i) && i > 0
    ensures Reaches(s, steps, t) && t.snap.Some? && i < |t.images| && t.order == s.order
    ensures !Held(AllVisible(s.disks), steps, s.order[i], t.images[i])
  {
    hide Runs.Reaches, Held;
    var d := s.order[i];
    var some, a := UpTo(s, i);
    PlainShowsAll(s.disks);
    var more;
    more, t := Tears(a, d);
    Runs.Continue(Enabled, After, s, some, a, more, t);
    steps := some + more;
    HeldLater(AllVisible(s.disks), some, more, d, t.images[i]);
  }

  lemma PlainShowsAll(disks: seq<Disk>)
    requires NoFiles(disks) && AllOk(disks)
    ensures AllVisible(AllPlain(disks)) == AllVisible(disks)
  {
    forall d | 0 <= d < |disks| ensures AllPlain(disks)[d].Visible() == disks[d].Visible() {
      assert !disks[d].file;
    }
  }
}
