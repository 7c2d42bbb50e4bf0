/**
 Creating a disk by cloning a golden image.  The importer moves the DataVolume through its phases as
 it likes; a clone that failed for good never recovers by itself, and the operator must notice, delete
 it and create it anew, one attempt after the other.
 */
module CloneHealing {
  import opened Options
  import opened DataVolumes
  import Runs

  // ---------- passes ----------

  datatype Place = Idle | Getting | CreatingAfter404 | Deleting | Recreating | Waiting | Proceeding

  /** A pass saw the DataVolume `uid` failed; `deleting`: at that time its deletion had been requested. */
  datatype Sighting = Sighting(pass: nat, uid: nat, deleting: bool, erred: bool)

  /**
   `dv` is the cluster's.  `pass` counts the attempts, `erred` says whether an API call of this one failed,
   `sightings` lists the failed clones that ended an attempt, and `seenReady` whether this one saw success.
   */
  datatype State = State(dv: Option<DataVolume>, nextUid: nat, place: Place, pass: nat, erred: bool,
                         sightings: seq<Sighting>, seenReady: bool)

  datatype Step =
    | Moves(phase: string, conditions: seq<Condition>)   // the importer
    | DeletedByOther                                       // somebody else requests the deletion
    | Vanishes                                             // a requested deletion completes
    | Create                                               // the first create of an attempt
    | Get
    | Delete(worked: bool)
    | CreateAgain                                          // after a 404, or after the delete
    | Check(answered: bool)
    | GivesUp                                              // an API error, the timeout, or the owner is gone

  ghost predicate Enabled(s: State, step: Step) {
    match step
    case Moves(phase, conditions) =>
      s.dv.Some? && (s.dv.value.Failed() ==> s.dv.value.(phase := phase, conditions := conditions).Failed())
    case DeletedByOther => s.dv.Some?
    case Vanishes => s.dv.Some? && s.dv.value.deleting
    case Create => s.place == Idle
    case Get => s.place == Getting
    case Delete(_) => s.place == Deleting
    case CreateAgain => s.place in {CreatingAfter404, Recreating}
    case Check(_) => s.place == Waiting
    case GivesUp => s.place !in {Idle, Proceeding}
  }

  function Fresh(s: State): State {
    s.(dv := Some(DataVolume(s.nextUid, "", [], false)), nextUid := s.nextUid + 1, place := Waiting)
  }

  function Retry(s: State): State {
    s.(place := Idle, pass := s.pass + 1)
  }

  function After(s: State, step: Step): State {
    match step
    case Moves(phase, conditions) =>
      if s.dv.Some? then s.(dv := Some(s.dv.value.(phase := phase, conditions := conditions))) else s
    case DeletedByOther => if s.dv.Some? then s.(dv := Some(s.dv.value.(deleting := true))) else s
    case Vanishes => s.(dv := None)
    case Create =>
      var t := s.(erred := false, seenReady := false);
      if s.dv.None? then Fresh(t) else t.(place := Getting)
    case Get =>
      (match StatusOf(s.dv)
       case Ready => s.(place := Waiting, seenReady := true)
       case Failed => s.(place := Deleting)
       case Deleted => s.(place := CreatingAfter404)
       case Pending => s.(place := Waiting))
    case Delete(worked) =>
      if !worked then s.(place := Recreating, erred := true)
      else if s.dv.None? then s.(place := Recreating)
      else s.(place := Recreating, dv := Some(s.dv.value.(deleting := true)))
    case CreateAgain =>
      if s.dv.None? then Fresh(s)
      else if s.place == Recreating then s.(place := Waiting)
      else Retry(s.(erred := true))
    case Check(answered) =>
      if !answered then s
      else
        (match StatusOf(s.dv)
         case Ready => s.(place := Proceeding, seenReady := true)
         case Pending => s
         case Deleted => Retry(s)
         case Failed =>
           Retry(s.(sightings := s.sightings + [Sighting(s.pass, s.dv.value.uid, s.dv.value.deleting, s.erred)])))
    case GivesUp => Retry(s.(erred := true))
  }

  // ---------- the invariant ----------

  ghost predicate Seen(s: State, uid: nat) {
    exists k :: 0 <= k < |s.sightings| && s.sightings[k].uid == uid
  }

  /** What has been sighted has failed for good, and belongs to an earlier attempt. */
  ghost predicate SightingsOk(s: State) {
    && (s.dv.Some? ==> s.dv.value.uid < s.nextUid)
    && (forall k :: 0 <= k < |s.sightings| ==> s.sightings[k].uid < s.nextUid && s.sightings[k].pass < s.pass)
    && (s.dv.Some? && Seen(s, s.dv.value.uid) ==> s.dv.value.Failed())
  }

  /**
   An attempt without an API error gets to the wait only with a clone that is new, not known as failed, or on
   its way out.
   */
  ghost predicate PlaceOk(s: State) {
    && (s.place == Recreating && !s.erred ==> s.dv.None? || s.dv.value.deleting)
    && (s.place == Waiting && !s.erred && s.dv.Some? ==> s.dv.value.deleting || !Seen(s, s.dv.value.uid))
    && (s.place == Proceeding ==> s.seenReady)
  }

  /** A clone that was sighted before is, at every later sighting, already being deleted. */
  ghost predicate RepeatsOk(s: State) {
    forall i, j :: 0 <= i < j < |s.sightings| && s.sightings[i].uid == s.sightings[j].uid ==>
      s.sightings[i].pass < s.sightings[j].pass && (s.sightings[j].deleting || s.sightings[j].erred)
  }

  ghost predicate Inv(s: State) { SightingsOk(s) && PlaceOk(s) && RepeatsOk(s) }

  lemma StepKeepsSightings(s: State, step: Step)
    requires Inv(s) && Enabled(s, step)
    ensures SightingsOk(After(s, step))
  {
    hide RepeatsOk, PlaceOk;
    var t := After(s, step);
    if t.sightings == s.sightings {
      assert forall uid :: Seen(t, uid) ==> Seen(s, uid);
    } else {
      assert t.dv == s.dv && s.dv.value.Failed();
    }
  }

  lemma StepKeepsPlace(s: State, step: Step)
    requires Inv(s) && Enabled(s, step)
    ensures PlaceOk(After(s, step))
  {
    hide RepeatsOk;
  }

  lemma StepKeepsRepeats(s: State, step: Step)
    requires Inv(s) && Enabled(s, step)
    ensures RepeatsOk(After(s, step))
  {
    var t := After(s, step);
    if t.sightings != s.sightings {
      var last := t.sightings[|s.sightings|];
      assert forall i :: 0 <= i < |s.sightings| ==> t.sightings[i] == s.sightings[i];
      if i :| 0 <= i < |s.sightings| && s.sightings[i].uid == last.uid {
        assert Seen(s, last.uid);
      }
    }
  }

  lemma StepKeeps(s: State, step: Step)
    requires Inv(s) && Enabled(s, step)
    ensures Inv(After(s, step))
  {
    StepKeepsSightings(s, step);
    StepKeepsPlace(s, step);
    StepKeepsRepeats(s, step);
  }

  // ---------- one attempt ----------

  /**
   The create part of an attempt ends, unless an API call failed, having seen success, or with a clone that
   has not failed, or with one that is marked for deletion.
   */
  lemma CreateLeavesHope(s: State, step: Step)
    requires Inv(s) && Enabled(s, step)
    requires s.place != Waiting && After(s, step).place == Waiting && !After(s, step).erred
    ensures var t := After(s, step); t.seenReady || t.dv.None? || !t.dv.value.Failed() || t.dv.value.deleting
  {
  }

  // ---------- whole runs ----------

  ghost predicate Init(s: State) {
    s.place == Idle && s.sightings == [] && (s.dv.Some? ==> s.dv.value.uid < s.nextUid)
  }

  ghost predicate Run(states: seq<State>, steps: seq<Step>) {
    && |states| == |steps| + 1 && Init(states[0])
    && forall k :: 0 <= k < |steps| ==> Taken(states[k], steps[k], states[k + 1])
  }

  ghost predicate Taken(s: State, step: Step, t: State) {
    Enabled(s, step) && t == After(s, step)
  }

  lemma {:induction false} RunKeeps(states: seq<State>, steps: seq<Step>, k: nat)
    requires Run(states, steps) && k <= |steps|
    ensures Inv(states[k])
  {
    if k > 0 {
      RunKeeps(states, steps, k - 1);
      assert Taken(states[k - 1], steps[k - 1], states[k]);
      StepKeeps(states[k - 1], steps[k - 1]);
    }
  }

  /**
   No attempt fails twice on one clone without having asked for its deletion: at every sighting but the
   first the clone is being deleted, unless the API refused the deletion in that very attempt.
   */
  lemma NoBlindRetry(states: seq<State>, steps: seq<Step>, k: nat, i: nat, j: nat)
    requires Run(states, steps) && k <= |steps| && i < j < |states[k].sightings|
    requires states[k].sightings[i].uid == states[k].sightings[j].uid
    ensures states[k].sightings[j].deleting || states[k].sightings[j].erred
  {
    RunKeeps(states, steps, k);
  }

  /** A run proceeds only after a look that found the DataVolume succeeded, and nothing was asked of it since. */
  lemma {:induction false} ProceedsOnlyOnSuccess(states: seq<State>, steps: seq<Step>, k: nat)
    requires Run(states, steps) && k <= |steps| && states[k].place == Proceeding
    ensures exists j :: 0 <= j < k && steps[j] == Check(true) && StatusOf(states[j].dv) == Ready
              && states[j].pass == states[k].pass && forall i :: j < i <= k ==> states[i].place == Proceeding
  {
    assert Taken(states[k - 1], steps[k - 1], states[k]);
    if states[k - 1].place == Proceeding {
      ProceedsOnlyOnSuccess(states, steps, k - 1);
    }
  }

  /** A clone that is gone never comes back. */
  lemma {:induction false} GoneIsGone(states: seq<State>, steps: seq<Step>, k: nat, l: nat, uid: nat)
    requires Run(states, steps) && k <= l <= |steps|
    requires uid < states[k].nextUid && (states[k].dv.Some? ==> states[k].dv.value.uid != uid)
    ensures uid < states[l].nextUid && (states[l].dv.Some? ==> states[l].dv.value.uid != uid)
  {
    if k < l {
      GoneIsGone(states, steps, k, l - 1, uid);
      assert Taken(states[l - 1], steps[l - 1], states[l]);
    }
  }

  /** Deletions are accepted, and complete before the next attempt begins. */
  ghost predicate Fair(s: State, step: Step) {
    && step != Delete(false)
    && (step == Create ==> s.dv.None? || !s.dv.value.deleting)
  }

  ghost predicate FairRun(states: seq<State>, steps: seq<Step>) {
    Run(states, steps) && forall k :: 0 <= k < |steps| ==> Fair(states[k], steps[k])
  }

  ghost predicate SeenTwice(s: State, uid: nat) {
    exists i, j :: 0 <= i < j < |s.sightings| && s.sightings[i].uid == uid && s.sightings[j].uid == uid
  }

  ghost predicate SeenThrice(s: State, uid: nat) {
    exists i, j, l :: 0 <= i < j < l < |s.sightings|
      && s.sightings[i].uid == uid && s.sightings[j].uid == uid && s.sightings[l].uid == uid
  }

  ghost predicate FairInv(s: State) {
    && (s.place !in {Idle, Proceeding} ==> !s.erred)
    && (s.dv.Some? && SeenTwice(s, s.dv.value.uid) ==> s.place == Idle && s.dv.value.deleting)
    && (forall uid :: !SeenThrice(s, uid))
  }

  lemma FairStepKeeps(s: State, step: Step)
    requires Inv(s) && FairInv(s) && Enabled(s, step) && Fair(s, step)
    ensures FairInv(After(s, step))
  {
    hide SightingsOk, RepeatsOk;
    var t := After(s, step);
    if t.sightings == s.sightings {
      assert forall uid :: SeenTwice(t, uid) == SeenTwice(s, uid);
      assert forall uid :: SeenThrice(t, uid) ==> SeenThrice(s, uid);
    } else {
      MoreSeen(s, t);
    }
    if t.nextUid > s.nextUid {
      FreshIsUnseen(s, step);
    }
  }

  lemma MoreSeen(s: State, t: State)
    requires |t.sightings| == |s.sightings| + 1 && t.sightings[..|s.sightings|] == s.sightings
    ensures forall uid :: SeenTwice(t, uid) ==>
      SeenTwice(s, uid) || (Seen(s, uid) && t.sightings[|s.sightings|].uid == uid)
    ensures forall uid :: SeenThrice(t, uid) ==>
      SeenThrice(s, uid) || (SeenTwice(s, uid) && t.sightings[|s.sightings|].uid == uid)
  {
    assert forall k :: 0 <= k < |s.sightings| ==> t.sightings[k] == s.sightings[k];
  }

  lemma FreshIsUnseen(s: State, step: Step)
    requires Inv(s) && Enabled(s, step) && After(s, step).nextUid > s.nextUid
    ensures !Seen(After(s, step), s.nextUid)
  {
  }

  lemma {:induction false} FairRunKeeps(states: seq<State>, steps: seq<Step>, k: nat)
    requires FairRun(states, steps) && k <= |steps|
    ensures FairInv(states[k])
  {
    if k > 0 {
      FairRunKeeps(states, steps, k - 1);
      RunKeeps(states, steps, k - 1);
      assert Taken(states[k - 1], steps[k - 1], states[k]) && Fair(states[k - 1], steps[k - 1]);
      FairStepKeeps(states[k - 1], steps[k - 1]);
    }
  }

  /** When deletions are accepted and complete in time, no clone ends more than two attempts. */
  lemma AtMostTwoAttempts(states: seq<State>, steps: seq<Step>, k: nat, uid: nat)
    requires FairRun(states, steps) && k <= |steps|
    ensures !SeenThrice(states[k], uid)
  {
    FairRunKeeps(states, steps, k);
  }

  /** An attempt that gives up leaves the clone there is to the next one; somebody else may mark it for deletion. */
  lemma OthersAct(s: State)
    ensures Enabled(s, GivesUp) ==> After(s, GivesUp) == s.(erred := true, place := Idle, pass := s.pass + 1)
    ensures s.dv.Some? ==> After(s, DeletedByOther) == s.(dv := Some(s.dv.value.(deleting := true)))
  {
  }

  // ---------- a failed clone is healed ----------

  ghost predicate Reaches(s: State, steps: seq<Step>, t: State) {
    Runs.Reaches(Enabled, After, s, steps, t)
  }

  /** From any attempt that begins with a failed clone there is a way through within it, with a clone of its own. */
  lemma FailedCloneIsHealed(s: State) returns (steps: seq<Step>, t: State)
    requires s.place == Idle && s.dv.Some? && s.dv.value.Failed()
    ensures Reaches(s, steps, t) && DeletedByOther !in steps
    ensures t.place == Proceeding && t.pass == s.pass && !t.erred && t.sightings == s.sightings
    ensures t.dv == Some(DataVolume(s.nextUid, "Succeeded", [], false))
  {
    hide Runs.Reaches;
    var some, a := FailedCloneGoes(s);
    var more;
    more, t := NewCloneSucceeds(a);
    Runs.Continue(Enabled, After, s, some, a, more, t);
    steps := some + more;
  }

  /** The failed clone is found and deleted, and goes. */
  lemma FailedCloneGoes(s: State) returns (steps: seq<Step>, t: State)
    requires s.place == Idle && s.dv.Some? && s.dv.value.Failed()
    ensures Reaches(s, steps, t) && DeletedByOther !in steps
    ensures t == s.(dv := None, place := Recreating, erred := false, seenReady := false)
  {
    hide Runs.Reaches;
    Runs.One(Enabled, After, s, Create);
    t := After(s, Create);
    Runs.OneMore(Enabled, After, s, [Create], t, Get);
    t := After(t, Get);
    Runs.OneMore(Enabled, After, s, [Create] + [Get], t, Delete(true));
    t := After(t, Delete(true));
    Runs.OneMore(Enabled, After, s, [Create] + [Get] + [Delete(true)], t, Vanishes);
    t := After(t, Vanishes);
    steps := [Create] + [Get] + [Delete(true)] + [Vanishes];
  }

  /** It is created anew, succeeds, and is seen to. */
  lemma NewCloneSucceeds(s: State) returns (steps: seq<Step>, t: State)
    requires s.place == Recreating && s.dv == None
    ensures Reaches(s, steps, t) && DeletedByOther !in steps
    ensures t == s.(dv := Some(DataVolume(s.nextUid, "Succeeded", [], false)), nextUid := s.nextUid + 1,
                    place := Proceeding, seenReady := true)
  {
    hide Runs.Reaches;
    var done := Moves("Succeeded", []);
    Runs.One(Enabled, After, s, CreateAgain);
    t := After(s, CreateAgain);
    assert !t.dv.value.Failed();
    Runs.OneMore(Enabled, After, s, [CreateAgain], t, done);
    t := After(t, done);
    Runs.OneMore(Enabled, After, s, [CreateAgain] + [done], t, Check(true));
    t := After(t, Check(true));
    steps := [CreateAgain] + [done] + [Check(true)];
  }
}
