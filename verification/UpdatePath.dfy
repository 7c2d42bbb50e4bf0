/**
 Cloning a disk that an update adds.  Here the create takes any conflict as success and the wait only
 looks on: nothing ever asks for the deletion of a clone that failed.  Importer, deletions by others and
 unanswered looks come in between at any time.
 */
module UpdatePath {
  import opened Options
  import opened DataVolumes
  import Runs

  datatype Place = Between | Watching | Through

  /** `pass` counts the attempts, `ended` lists the clones whose failure ended one, in order. */
  datatype Update = Update(dv: Option<DataVolume>, nextUid: nat, place: Place, pass: nat, ended: seq<nat>)

  datatype Event =
    | Imports(phase: string, conditions: seq<Condition>)
    | DeletedByOther
    | Vanishes
    | Create
    | Look(answered: bool)
    | GivesUp                  // an API error, the timeout, or the owner is gone

  ghost predicate Enabled(s: Update, event: Event) {
    match event
    case Imports(phase, conditions) =>
      s.dv.Some? && (s.dv.value.Failed() ==> s.dv.value.(phase := phase, conditions := conditions).Failed())
    case DeletedByOther => s.dv.Some?
    case Vanishes => s.dv.Some? && s.dv.value.deleting
    case Create => s.place == Between
    case Look(_) => s.place == Watching
    case GivesUp => s.place != Through
  }

  function Retry(s: Update): Update {
    s.(place := Between, pass := s.pass + 1)
  }

  function After(s: Update, event: Event): Update {
    match event
    case Imports(phase, conditions) =>
      if s.dv.Some? then s.(dv := Some(s.dv.value.(phase := phase, conditions := conditions))) else s
    case DeletedByOther => if s.dv.Some? then s.(dv := Some(s.dv.value.(deleting := true))) else s
    case Vanishes => s.(dv := None)
    case Create =>
      if s.dv.Some? then s.(place := Watching)
      else s.(dv := Some(DataVolume(s.nextUid, "", [], false)), nextUid := s.nextUid + 1, place := Watching)
    case Look(answered) =>
      if !answered then s
      else
        (match StatusOf(s.dv)
         case Ready => s.(place := Through)
         case Pending => s
         case Deleted => Retry(s)
         case Failed => Retry(s.(ended := s.ended + [s.dv.value.uid])))
    case GivesUp => Retry(s)
  }

  ghost predicate Reaches(s: Update, events: seq<Event>, t: Update) {
    Runs.Reaches(Enabled, After, s, events, t)
  }

  /** Nobody else asks for a deletion, before or during the run. */
  ghost predicate LeftAlone(s: Update, events: seq<Event>) {
    (s.dv.Some? ==> !s.dv.value.deleting) && DeletedByOther !in events
  }

  /** An update about to begin; a volume of that name may be there, in any phase. */
  ghost predicate Init(s: Update) {
    s.place == Between && s.ended == [] && (s.dv.Some? ==> s.dv.value.uid < s.nextUid)
  }

  // ---------- what a failure leads to ----------

  /** The volume there is has failed, and every attempt that ended on a failure ended on it. */
  ghost predicate StuckOn(s: Update, uid: nat) {
    && s.dv.Some? && s.dv.value.uid == uid && s.dv.value.Failed() && !s.dv.value.deleting
    && s.place != Through
    && forall k :: 0 <= k < |s.ended| ==> s.ended[k] == uid
  }

  lemma EventKeepsStuck(s: Update, event: Event, uid: nat)
    requires StuckOn(s, uid) && Enabled(s, event) && event != DeletedByOther
    ensures var t := After(s, event); StuckOn(t, uid) && s.ended <= t.ended
  {
  }

  lemma {:induction false} StuckForGood(s: Update, events: seq<Event>, t: Update, uid: nat)
    requires StuckOn(s, uid) && Reaches(s, events, t) && DeletedByOther !in events
    ensures StuckOn(t, uid) && s.ended <= t.ended
    decreases |events|
  {
    hide Enabled, After, StuckOn;
    if events != [] {
      EventKeepsStuck(s, events[0], uid);
      StuckForGood(After(s, events[0]), events[1..], t, uid);
    }
  }

  /** While nobody deletes it, the volume that ended an attempt is the one there is, and it has failed. */
  ghost predicate EndedOk(s: Update) {
    && (s.dv.Some? ==> !s.dv.value.deleting && s.dv.value.uid < s.nextUid)
    && (s.ended != [] ==> s.dv.Some? && StuckOn(s, s.dv.value.uid))
  }

  lemma EventKeepsEnded(s: Update, event: Event)
    requires EndedOk(s) && Enabled(s, event) && event != DeletedByOther
    ensures EndedOk(After(s, event))
  {
    if s.ended != [] {
      EventKeepsStuck(s, event, s.dv.value.uid);
    }
  }

  lemma {:induction false} RunKeepsEnded(s: Update, events: seq<Event>, t: Update)
    requires EndedOk(s) && Reaches(s, events, t) && DeletedByOther !in events
    ensures EndedOk(t)
    decreases |events|
  {
    hide Enabled, After, EndedOk;
    if events != [] {
      EventKeepsEnded(s, events[0]);
      RunKeepsEnded(After(s, events[0]), events[1..], t);
    }
  }

  /**
   Once the failure of a clone has ended one attempt, then on every continuation that nobody else's deletion
   breaks: the clone stays, it stays failed, every later attempt that a failure ends is ended by it, and no
   attempt gets through.
   */
  lemma OneFailureIsForGood(s: Update, events: seq<Event>, t: Update, more: seq<Event>, u: Update)
    requires Init(s) && LeftAlone(s, events + more) && Reaches(s, events, t) && Reaches(t, more, u) && t.ended != []
    ensures u.dv.Some? && u.dv.value.uid == t.ended[0] && u.dv.value.Failed() && u.place != Through
    ensures t.ended <= u.ended && forall k :: 0 <= k < |u.ended| ==> u.ended[k] == t.ended[0]
  {
    hide Runs.Reaches, Enabled, After;
    assert forall event :: event in events ==> event in events + more;
    assert forall event :: event in more ==> event in events + more;
    RunKeepsEnded(s, events, t);
    StuckForGood(t, more, u, t.dv.value.uid);
  }

  // ---------- when an update is stuck ----------

  /** An attempt can still get through without somebody else's deletion. */
  ghost predicate CanGetThrough(s: Update) {
    exists events: seq<Event>, t: Update :: Reaches(s, events, t) && DeletedByOther !in events && t.place == Through
  }

  /** An update that nobody's deletion helps can get through if and only if the volume there is has not failed. */
  lemma StuckIffFailed(s: Update)
    requires s.place != Through && (s.dv.Some? ==> !s.dv.value.deleting)
    ensures CanGetThrough(s) <==> !(s.dv.Some? && s.dv.value.Failed())
  {
    if s.dv.Some? && s.dv.value.Failed() {
      forall events: seq<Event>, t: Update | Reaches(s, events, t) && DeletedByOther !in events
          ensures t.place != Through {
        FailedBlocks(s, events, t);
      }
    } else {
      var events, t := GetsThrough(s);
    }
  }

  lemma {:induction false} FailedBlocks(s: Update, events: seq<Event>, t: Update)
    requires s.place != Through && s.dv.Some? && s.dv.value.Failed() && !s.dv.value.deleting
    requires Reaches(s, events, t) && DeletedByOther !in events
    ensures t.place != Through
    decreases |events|
  {
    if events != [] {
      FailedBlocks(After(s, events[0]), events[1..], t);
    }
  }

  lemma GetsThrough(s: Update) returns (events: seq<Event>, t: Update)
    requires s.place != Through && !(s.dv.Some? && s.dv.value.Failed())
    ensures Reaches(s, events, t) && DeletedByOther !in events && t.place == Through
  {
    hide Runs.Reaches;
    events, t := [], s;
    assert Reaches(s, events, t) by { Runs.Nothing(Enabled, After, s); }
    if s.place == Watching && s.dv.None? {
      Runs.One(Enabled, After, s, GivesUp);
      events, t := [GivesUp], After(s, GivesUp);
    }
    if t.place == Between {
      Runs.One(Enabled, After, t, Create);
      Runs.Continue(Enabled, After, s, events, t, [Create], After(t, Create));
      events, t := events + [Create], After(t, Create);
    }
    FreshIsAlive(t);
    var done := Imports("Succeeded", []);
    Runs.One(Enabled, After, t, done);
    Runs.Continue(Enabled, After, s, events, t, [done], After(t, done));
    events, t := events + [done], After(t, done);
    Runs.One(Enabled, After, t, Look(true));
    Runs.Continue(Enabled, After, s, events, t, [Look(true)], After(t, Look(true)));
    events, t := events + [Look(true)], After(t, Look(true));
  }

  /** Somebody else's deletion helps a stuck update: once the clone is gone, an attempt can get through again. */
  lemma DeletionHelps(s: Update) returns (t: Update)
    requires s.place != Through && s.dv.Some?
    ensures Reaches(s, [DeletedByOther] + [Vanishes], t) && t == s.(dv := None) && CanGetThrough(t)
  {
    hide Runs.Reaches;
    Runs.One(Enabled, After, s, DeletedByOther);
    t := After(s, DeletedByOther);
    Runs.OneMore(Enabled, After, s, [DeletedByOther], t, Vanishes);
    t := After(t, Vanishes);
    StuckIffFailed(t);
  }

  lemma FreshIsAlive(s: Update)
    ensures s.dv.Some? && s.dv.value.phase == "" && s.dv.value.conditions == [] ==> !s.dv.value.Failed()
  {
  }

  /** Some look of the run finds the clone failed. */
  ghost predicate SeesFailure(s: Update, events: seq<Event>)
    decreases |events|
  {
    events != [] &&
      ((events[0] == Look(true) && StatusOf(s.dv) == Failed) || SeesFailure(After(s, events[0]), events[1..]))
  }

  /** At some point of the run an attempt has been ended by a clone from which no continuation gets through. */
  ghost predicate GetsStuck(s: Update, events: seq<Event>)
    decreases |events|
  {
    || (s.ended != [] && !CanGetThrough(s))
    || (events != [] && GetsStuck(After(s, events[0]), events[1..]))
  }

  lemma {:induction false} EndedThenStuck(s: Update, events: seq<Event>)
    requires EndedOk(s) && s.ended != []
    ensures GetsStuck(s, events)
  {
    StuckIffFailed(s);
  }

  /** A run that nobody else's deletion breaks gets stuck if and only if one of its looks finds the clone failed. */
  lemma {:induction false} StuckIffSeenFailed(s: Update, events: seq<Event>, t: Update)
    requires EndedOk(s) && s.ended == [] && Reaches(s, events, t) && DeletedByOther !in events
    ensures GetsStuck(s, events) <==> SeesFailure(s, events)
    decreases |events|
  {
    hide CanGetThrough;
    if events != [] {
      var u := After(s, events[0]);
      EventKeepsEnded(s, events[0]);
      if u.ended != [] {
        EndedThenStuck(u, events[1..]);
      } else {
        StuckIffSeenFailed(u, events[1..], t);
      }
    }
  }

  // ---------- both ways into it ----------

  /** `n` attempts more on the clone there is. */
  lemma {:induction false} FailsAgain(s: Update, n: nat) returns (events: seq<Event>, t: Update)
    requires s.place == Between && s.dv.Some? && s.dv.value.Failed()
    ensures Reaches(s, events, t) && DeletedByOther !in events
    ensures t.dv == s.dv && t.place == Between && |t.ended| == |s.ended| + n && t.pass == s.pass + n
    decreases n
  {
    if n == 0 {
      events, t := [], s;
    } else {
      hide Runs.Reaches;
      Runs.One(Enabled, After, s, Create);
      var a := After(s, Create);
      Runs.One(Enabled, After, a, Look(true));
      var b := After(a, Look(true));
      Runs.Continue(Enabled, After, s, [Create], a, [Look(true)], b);
      var more;
      more, t := FailsAgain(b, n - 1);
      Runs.Continue(Enabled, After, s, [Create] + [Look(true)], b, more, t);
      events := [Create] + [Look(true)] + more;
    }
  }

  /** The clone was not there before: the first attempt creates it, it fails, and `n` attempts are ended by it. */
  lemma AbsentVolumeGetsStuck(n: nat)
    ensures exists events: seq<Event>, t: Update ::
      && Reaches(Update(None, 0, Between, 0, []), events, t) && DeletedByOther !in events
      && |t.ended| == n && t.pass == n && t.dv.Some? && t.dv.value.Failed()
  {
    hide Runs.Reaches;
    var s := Update(None, 0, Between, 0, []);
    Runs.One(Enabled, After, s, Create);
    var a := After(s, Create);
    var fails := Imports("Failed", []);
    Runs.One(Enabled, After, a, fails);
    var b := After(a, fails);
    Runs.Continue(Enabled, After, s, [Create], a, [fails], b);
    if n == 0 {
      assert Reaches(s, [Create] + [fails], b);
    } else {
      Runs.One(Enabled, After, b, Look(true));
      var c := After(b, Look(true));
      Runs.Continue(Enabled, After, s, [Create] + [fails], b, [Look(true)], c);
      var more, t := FailsAgain(c, n - 1);
      Runs.Continue(Enabled, After, s, [Create] + [fails] + [Look(true)], c, more, t);
      assert Reaches(s, [Create] + [fails] + [Look(true)] + more, t);
    }
  }
}
