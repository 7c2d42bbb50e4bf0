/**
 The job table, with the threads that dispatch, cancel and finish jobs, and the update that drains them
 before it restarts the daemon.  A transition system: between any two accesses to shared data any other
 thread may run.
 */
module Jobs {
  import Runs

  datatype Status = Running | Completed | Failed | Cancelled

  /** `working`: the worker thread has not returned yet. */
  datatype Job = Job(command: string, status: Status, working: bool)

  /** A request handler: it saw the drain and will cancel it; has arrived at the dispatch; passed the drain check;
      passed the limit check; or found a job running that it will cancel. */
  datatype Handler = Free | Cancels(command: string) | Arrived(command: string) | Passed(command: string)
                   | Admitted(command: string) | Ends(id: nat)

  datatype Updater = Idle | Clearing | Looping | Blocked | Final | Restarting | Restarted

  /**
   History: `timedOut` for the drain in progress, the jobs created `late`, while draining, and `early`, the
   number of dispatches that were in flight when the drain began.
   */
  datatype State = State(jobs: map<nat, Job>, next: nat, handlers: seq<Handler>, maxJobs: nat,
                         draining: bool, cancel: bool, updater: Updater,
                         timedOut: bool, late: set<nat>, early: nat)

  const SKIP_DRAIN := {"vms/state", "vms/states", "host/disk-usage", "gc/discover", "vm/ssh-exec", "vm/guest-exec",
                       "containers/states", "mesh/setup", "mesh/join-network"}

  datatype Step =
    | Request(h: nat, command: string)
    | SetCancel(h: nat)
    | CheckDraining(h: nat)
    | CheckLimit(h: nat)
    | CreateJob(h: nat)
    | Abandon(h: nat)                      // no handler for the command, or the body cannot be read
    | FindRunning(h: nat, id: nat)
    | MarkCancelled(h: nat)
    | Finish(id: nat, success: bool)
    | Forget(id: nat)                      // an old job is dropped from the table
    | BeginDrain
    | ClearCancel
    | Poll
    | SeeCancel
    | TimeOut
    | LastCheck
    | Restart

  ghost function RunningIds(jobs: map<nat, Job>): set<nat> {
    set id | id in jobs && jobs[id].status == Running
  }

  /** `_get_blocking_jobs` */
  ghost function Blocking(jobs: map<nat, Job>): set<nat> {
    set id | id in jobs && jobs[id].status == Running && jobs[id].command !in SKIP_DRAIN
  }

  predicate InFlight(h: Handler) { h.Passed? || h.Admitted? }

  function CountAdmitted(handlers: seq<Handler>): nat {
    if handlers == [] then 0 else (if handlers[0].Admitted? then 1 else 0) + CountAdmitted(handlers[1..])
  }

  function CountInFlight(handlers: seq<Handler>): nat {
    if handlers == [] then 0 else (if InFlight(handlers[0]) then 1 else 0) + CountInFlight(handlers[1..])
  }

  ghost predicate Enabled(s: State, step: Step) {
    && s.updater != Restarted
    && match step
       case Request(h, _) => h < |s.handlers| && s.handlers[h].Free?
       case SetCancel(h) => h < |s.handlers| && s.handlers[h].Cancels?
       case CheckDraining(h) => h < |s.handlers| && s.handlers[h].Arrived?
       case CheckLimit(h) => h < |s.handlers| && s.handlers[h].Passed?
       case CreateJob(h) => h < |s.handlers| && s.handlers[h].Admitted?
       case Abandon(h) => h < |s.handlers| && !s.handlers[h].Free? && !s.handlers[h].Ends?
       case FindRunning(h, id) => h < |s.handlers| && s.handlers[h].Free? && id in s.jobs
           && s.jobs[id].status == Running
       case MarkCancelled(h) => h < |s.handlers| && s.handlers[h].Ends?
       case Finish(id, _) => id in s.jobs && s.jobs[id].working
       case Forget(id) => id in s.jobs && s.jobs[id].status in {Completed, Failed}
       case BeginDrain => s.updater == Idle
       case ClearCancel => s.updater == Clearing
       case Poll => s.updater == Looping
       case SeeCancel => s.updater == Blocked
       case TimeOut => s.updater == Looping
       case LastCheck => s.updater == Final
       case Restart => s.updater == Restarting
  }

  function At(s: State, h: nat): Handler { if h < |s.handlers| then s.handlers[h] else Free }

  /** The handler a step is about, if any. */
  function Who(step: Step): nat {
    match step
    case Request(h, _) => h
    case SetCancel(h) => h
    case CheckDraining(h) => h
    case CheckLimit(h) => h
    case CreateJob(h) => h
    case Abandon(h) => h
    case FindRunning(h, _) => h
    case MarkCancelled(h) => h
    case _ => 0
  }

  predicate ByHandler(step: Step) {
    || step.Request? || step.SetCancel? || step.CheckDraining? || step.CheckLimit? || step.CreateJob? || step.Abandon?
    || step.FindRunning? || step.MarkCancelled?
  }

  /** The table after a step. */
  function JobsAfter(s: State, step: Step): map<nat, Job> {
    match step
    case CreateJob(h) => if At(s, h).Admitted? then s.jobs[s.next := Job(At(s, h).command, Running, true)] else s.jobs
    case MarkCancelled(h) =>
      if At(s, h).Ends? && At(s, h).id in s.jobs then
        s.jobs[At(s, h).id := s.jobs[At(s, h).id].(status := Cancelled)]
      else s.jobs
    case Finish(id, success) =>
      if id in s.jobs then s.jobs[id := s.jobs[id].(status := if success then Completed else Failed, working := false)]
      else s.jobs
    case Forget(id) => s.jobs - {id}
    case _ => s.jobs
  }

  /** The handler of a step after it. */
  ghost function HandlerAfter(s: State, step: Step): Handler {
    match step
    case Request(_, command) => if s.draining && command !in SKIP_DRAIN then Cancels(command) else Arrived(command)
    case SetCancel(h) => if At(s, h).Cancels? then Arrived(At(s, h).command) else At(s, h)
    case CheckDraining(h) => if At(s, h).Arrived? && !s.draining then Passed(At(s, h).command) else Free
    case CheckLimit(h) =>
      if At(s, h).Passed? && |RunningIds(s.jobs)| < s.maxJobs then Admitted(At(s, h).command) else Free
    case FindRunning(_, id) => Ends(id)
    case _ => Free
  }

  ghost function HandlersAfter(s: State, step: Step): seq<Handler> {
    if ByHandler(step) && Who(step) < |s.handlers| then s.handlers[Who(step) := HandlerAfter(s, step)] else s.handlers
  }

  ghost function After(s: State, step: Step): State {
    Onward(s, step).(handlers := HandlersAfter(s, step), jobs := JobsAfter(s, step))
  }

  /** The rest of the state after a step. */
  ghost function Onward(s: State, step: Step): State {
    match step
    case SetCancel(_) => s.(cancel := true)
    case CreateJob(h) =>
      if At(s, h).Admitted? then s.(next := s.next + 1, late := if s.draining then s.late + {s.next} else s.late) else s
    case BeginDrain =>
      s.(draining := true, updater := Clearing, timedOut := false, late := {}, early := CountInFlight(s.handlers))
    case ClearCancel => s.(cancel := false, updater := Looping)
    case Poll => s.(updater := if Blocking(s.jobs) == {} then Final else Blocked)
    case SeeCancel => if s.cancel then s.(draining := false, updater := Idle) else s.(updater := Looping)
    case TimeOut => s.(updater := Final, timedOut := true)
    case LastCheck => if s.cancel then s.(draining := false, updater := Idle) else s.(updater := Restarting)
    case Restart => s.(updater := Restarted)
    case _ => s
  }

  // ---------- the invariant ----------

  /** A job that runs has a worker that will finish it. */
  ghost predicate TableOk(s: State) {
    forall id :: id in s.jobs ==> id < s.next && (s.jobs[id].status == Running ==> s.jobs[id].working)
  }

  ghost predicate LimitOk(s: State) {
    |RunningIds(s.jobs)| + CountAdmitted(s.handlers) < s.maxJobs + |s.handlers|
  }

  /** Only a dispatch that was in flight when the drain began can still create a job. */
  ghost predicate LateOk(s: State) {
    && (s.draining <==> s.updater != Idle)
    && (s.draining ==> |s.late| + CountInFlight(s.handlers) <= s.early)
  }

  /** Once nothing blocked, only late jobs can. */
  ghost predicate ClearedOk(s: State) {
    s.updater in {Final, Restarting, Restarted} && !s.timedOut ==> Blocking(s.jobs) <= s.late
  }

  ghost predicate Inv(s: State) { TableOk(s) && LimitOk(s) && LateOk(s) && ClearedOk(s) }

  lemma {:induction false} PutCounts(handlers: seq<Handler>, h: nat, handler: Handler)
    requires h < |handlers|
    ensures CountAdmitted(handlers[h := handler]) ==
      CountAdmitted(handlers) - (if handlers[h].Admitted? then 1 else 0) + (if handler.Admitted? then 1 else 0)
    ensures CountInFlight(handlers[h := handler]) ==
      CountInFlight(handlers) - (if InFlight(handlers[h]) then 1 else 0) + (if InFlight(handler) then 1 else 0)
  {
    if h > 0 {
      assert handlers[h := handler][1..] == handlers[1..][h - 1 := handler];
      PutCounts(handlers[1..], h - 1, handler);
    } else {
      assert handlers[h := handler][1..] == handlers[1..];
    }
  }

  lemma {:induction false} AtMostAll(handlers: seq<Handler>)
    ensures CountAdmitted(handlers) <= CountInFlight(handlers) <= |handlers|
  {
    if handlers != [] {
      AtMostAll(handlers[1..]);
    }
  }

  /** What a step makes of the counts. */
  lemma StepCounts(s: State, step: Step)
    requires Enabled(s, step)
    ensures var t := After(s, step); |t.handlers| == |s.handlers| && t.maxJobs == s.maxJobs
    ensures var t := After(s, step);
      CountAdmitted(t.handlers) == CountAdmitted(s.handlers)
        + (if step.CheckLimit? && |RunningIds(s.jobs)| < s.maxJobs then 1 else 0)
        - (if step.CreateJob? || (step.Abandon? && At(s, Who(step)).Admitted?) then 1 else 0)
    ensures var t := After(s, step);
      CountInFlight(t.handlers) <= CountInFlight(s.handlers)
        + (if step.CheckDraining? && !s.draining then 1 else 0) - (if step.CreateJob? then 1 else 0)
  {
    hide Blocking, JobsAfter;
    if ByHandler(step) {
      PutCounts(s.handlers, Who(step), HandlerAfter(s, step));
    }
  }

  /** A running job was running already, unless it was just created. */
  lemma StepJobs(s: State, step: Step)
    requires TableOk(s) && Enabled(s, step)
    ensures var t := After(s, step);
      && t.next == s.next + (if step.CreateJob? then 1 else 0)
      && forall id :: id in t.jobs && !(step.CreateJob? && id == s.next) ==>
           id in s.jobs && t.jobs[id].command == s.jobs[id].command
           && (t.jobs[id].status == Running ==>
               s.jobs[id].status == Running && t.jobs[id].working == s.jobs[id].working)
    ensures step.CreateJob? ==>
        && s.next in After(s, step).jobs
        && After(s, step).jobs[s.next] == Job(At(s, Who(step)).command, Running, true)
  {
    hide RunningIds, Blocking, CountInFlight, TableOk, HandlersAfter;
  }

  /** Only `CreateJob` makes a job run. */
  lemma StepRunning(s: State, step: Step)
    requires TableOk(s) && Enabled(s, step)
    ensures var t := After(s, step);
      && RunningIds(t.jobs) <= RunningIds(s.jobs) + (if step.CreateJob? then {s.next} else {})
      && Blocking(t.jobs) <= Blocking(s.jobs) + (if step.CreateJob? then {s.next} else {})
      && TableOk(t) && t.next == s.next + (if step.CreateJob? then 1 else 0)
  {
    hide Enabled, After;
    StepJobs(s, step);
  }

  lemma StepKeepsLimit(s: State, step: Step)
    requires Inv(s) && Enabled(s, step)
    ensures LimitOk(After(s, step))
  {
    hide Enabled, After, TableOk, LateOk, ClearedOk;
    StepCounts(s, step);
    StepRunning(s, step);
    AtMostAll(After(s, step).handlers);
    var some := RunningIds(s.jobs) + (if step.CreateJob? then {s.next} else {});
    Smaller(RunningIds(After(s, step).jobs), some);
  }

  lemma {:induction false} Smaller(a: set<nat>, b: set<nat>)
    requires a <= b
    ensures |a| <= |b|
  {
    if x :| x in a {
      Smaller(a - {x}, b - {x});
    }
  }

  lemma StepKeepsLate(s: State, step: Step)
    requires Inv(s) && Enabled(s, step)
    ensures LateOk(After(s, step))
  {
    hide TableOk, LimitOk, ClearedOk, RunningIds, Blocking;
    StepCounts(s, step);
  }

  lemma StepKeepsCleared(s: State, step: Step)
    requires Inv(s) && Enabled(s, step)
    ensures ClearedOk(After(s, step))
  {
    hide LimitOk, RunningIds, Blocking;
    StepRunning(s, step);
  }

  lemma StepKeeps(s: State, step: Step)
    requires Inv(s) && Enabled(s, step)
    ensures Inv(After(s, step))
  {
    hide Enabled, After, LimitOk, LateOk, ClearedOk, TableOk;
    StepRunning(s, step);
    StepKeepsLimit(s, step);
    StepKeepsLate(s, step);
    StepKeepsCleared(s, step);
  }

  // ---------- whole runs ----------

  ghost predicate Init(s: State) {
    && s.jobs == map[] && (forall h :: 0 <= h < |s.handlers| ==> s.handlers[h] == Free)
    && s.maxJobs + |s.handlers| > 0 && !s.draining && s.updater == Idle
  }

  /** Taking the steps in order leads from one state to the other. */
  ghost predicate Reaches(s: State, steps: seq<Step>, t: State) {
    Runs.Reaches(Enabled, After, s, steps, t)
  }

  lemma {:induction false} AllFree(handlers: seq<Handler>)
    requires forall h :: 0 <= h < |handlers| ==> handlers[h] == Free
    ensures CountAdmitted(handlers) == CountInFlight(handlers) == 0
  {
    if handlers != [] {
      AllFree(handlers[1..]);
    }
  }

  lemma InitOk(s: State)
    requires Init(s)
    ensures Inv(s)
  {
    AllFree(s.handlers);
    assert RunningIds(s.jobs) == {};
  }

  lemma {:induction false} RunKeeps(s: State, steps: seq<Step>, t: State)
    requires Inv(s) && Reaches(s, steps, t)
    ensures Inv(t) && t.maxJobs == s.maxJobs && |t.handlers| == |s.handlers|
    decreases |steps|
  {
    hide Enabled, After, Inv;
    if steps != [] {
      StepKeeps(s, steps[0]);
      StepCounts(s, steps[0]);
      RunKeeps(After(s, steps[0]), steps[1..], t);
    }
  }

  /** With N handler threads at most max_jobs - 1 + N jobs run, or are about to be created, at any time. */
  lemma NeverTooMany(s: State, steps: seq<Step>, t: State)
    requires Init(s) && Reaches(s, steps, t)
    ensures |RunningIds(t.jobs)| + CountAdmitted(t.handlers) <= s.maxJobs - 1 + |s.handlers|
  {
    InitOk(s);
    RunKeeps(s, steps, t);
  }

  /** A job that does not run never runs again, and an id that was used is not given to another job. */
  lemma {:induction false} NeverRunsAgain(s: State, steps: seq<Step>, t: State, id: nat)
    requires Inv(s) && Reaches(s, steps, t)
    requires id < s.next && id !in RunningIds(s.jobs)
    ensures id < t.next && id !in RunningIds(t.jobs)
    decreases |steps|
  {
    hide Enabled, After, RunningIds, Blocking;
    if steps != [] {
      StepKeeps(s, steps[0]);
      StepRunning(s, steps[0]);
      NeverRunsAgain(After(s, steps[0]), steps[1..], t, id);
    }
  }

  // ---------- the restart ----------

  /**
   Without a timeout a restart only kills jobs created during the drain, no more than were in flight when it
   began.
   */
  lemma RestartKillsFew(s: State, steps: seq<Step>, t: State)
    requires Init(s) && Reaches(s, steps, t) && t.updater in {Restarting, Restarted}
    ensures t.timedOut || Blocking(t.jobs) <= t.late
    ensures |t.late| <= t.early
  {
    InitOk(s);
    RunKeeps(s, steps, t);
  }

  /** With no dispatch in flight when it began, a drain only ever sees the blocking jobs become fewer. */
  lemma {:induction false} BlockingOnlyShrinks(s: State, steps: seq<Step>, t: State)
    requires Inv(s) && s.draining && s.early == 0
    requires Reaches(s, steps, t) && t.draining && BeginDrain !in steps
    ensures Blocking(t.jobs) <= Blocking(s.jobs) && t.next == s.next
    decreases |steps|
  {
    hide After, RunningIds, Blocking;
    if steps != [] {
      var step := steps[0];
      StepKeeps(s, step);
      StepRunning(s, step);
      NoneInFlight(s, step);
      DrainGoesOn(s, step);
      if !After(s, step).draining {
        DrainIsOver(After(s, step), steps[1..], t);
      }
      BlockingOnlyShrinks(After(s, step), steps[1..], t);
    }
  }

  lemma DrainGoesOn(s: State, step: Step)
    requires Enabled(s, step) && step != BeginDrain
    ensures var t := After(s, step); t.early == s.early && (t.draining ==> s.draining)
  {
    hide RunningIds, Blocking, CountInFlight;
  }

  lemma {:induction false} DrainIsOver(s: State, steps: seq<Step>, t: State)
    requires !s.draining && Reaches(s, steps, t) && BeginDrain !in steps
    ensures !t.draining
    decreases |steps|
  {
    hide Enabled, After;
    if steps != [] {
      DrainGoesOn(s, steps[0]);
      DrainIsOver(After(s, steps[0]), steps[1..], t);
    }
  }

  lemma NoneInFlight(s: State, step: Step)
    requires Inv(s) && Enabled(s, step) && s.draining && s.early == 0
    ensures !step.CreateJob?
  {
    if step.CreateJob? {
      PutCounts(s.handlers, step.h, Free);
    }
  }

  /** A dispatch in flight that can still create a blocking job. */
  predicate Threatens(handler: Handler, maxJobs: nat) {
    InFlight(handler) && handler.command !in SKIP_DRAIN && (handler.Passed? ==> maxJobs > 0)
  }

  ghost predicate Threat(s: State) {
    exists h :: 0 <= h < |s.handlers| && Threatens(s.handlers[h], s.maxJobs)
  }

  /** However this drain goes on: if it restarts, then after a timeout or with nothing that blocks. */
  ghost predicate EndsCleanly(s: State) {
    forall steps: seq<Step>, t: State ::
      Reaches(s, steps, t) && BeginDrain !in steps && t.updater == Restarted ==> t.timedOut || Blocking(t.jobs) == {}
  }

  /**
   A drain ends cleanly on every continuation if and only if no dispatch with a blocking command, which the job
   limit has admitted or can still admit, is in flight when it begins.
   */
  lemma RestartIsClean(s: State)
    requires Inv(s) && Enabled(s, BeginDrain)
    ensures EndsCleanly(After(s, BeginDrain)) <==> !Threat(s)
  {
    var t := After(s, BeginDrain);
    StepKeeps(s, BeginDrain);
    if Threat(s) {
      var h :| 0 <= h < |s.handlers| && Threatens(s.handlers[h], s.maxJobs);
      var steps, u := DirtyRun(t, h);
    } else {
      forall steps: seq<Step>, u: State | Reaches(t, steps, u) && BeginDrain !in steps && u.updater == Restarted
        ensures u.timedOut || Blocking(u.jobs) == {}
      {
        RunKeeps(t, steps, u);
        TameRun(t, steps, u);
        assert u.draining && Blocking(u.jobs) * u.late == {};
      }
    }
  }

  /** While the drain lasts nothing in flight threatens it, and no late job blocks. */
  ghost predicate Tame(s: State) {
    s.draining ==> !Threat(s) && forall id :: id in s.late && id in s.jobs ==> s.jobs[id].command in SKIP_DRAIN
  }

  lemma TameStep(s: State, step: Step)
    requires Inv(s) && Tame(s) && Enabled(s, step) && step != BeginDrain
    ensures Tame(After(s, step))
  {
    hide LimitOk, LateOk, ClearedOk, RunningIds, Blocking, CountInFlight, JobsAfter;
    var t := After(s, step);
    StepJobs(s, step);
    if t.draining {
      forall h | 0 <= h < |t.handlers| ensures !Threatens(t.handlers[h], t.maxJobs) {
        assert !Threatens(s.handlers[h], s.maxJobs);
      }
    }
  }

  lemma {:induction false} TameRun(s: State, steps: seq<Step>, t: State)
    requires Inv(s) && Tame(s) && Reaches(s, steps, t) && BeginDrain !in steps
    ensures Tame(t)
    decreases |steps|
  {
    hide Inv, Tame, Enabled, After;
    if steps != [] {
      StepKeeps(s, steps[0]);
      TameStep(s, steps[0]);
      TameRun(After(s, steps[0]), steps[1..], t);
    }
  }

  /** All jobs come to an end, and nothing else happens. */
  lemma {:induction false} FinishAll(s: State) returns (steps: seq<Step>, t: State)
    requires TableOk(s) && s.updater != Restarted
    ensures Reaches(s, steps, t) && t == s.(jobs := t.jobs) && RunningIds(t.jobs) == {} && BeginDrain !in steps
    decreases |RunningIds(s.jobs)|
  {
    if id :| id in RunningIds(s.jobs) {
      var step := Finish(id, true);
      var u := After(s, step);
      assert RunningIds(u.jobs) == RunningIds(s.jobs) - {id};
      Runs.One(Enabled, After, s, step);
      StepRunning(s, step);
      var more;
      more, t := FinishAll(u);
      Runs.Continue(Enabled, After, s, [step], u, more, t);
      steps := [step] + more;
    } else {
      steps, t := [], s;
    }
  }

  /** From the clearing of the flag to the last check, with every job coming to its end before the poll. */
  lemma RunsToTheEnd(s: State) returns (steps: seq<Step>, t: State)
    requires TableOk(s) && s.updater == Clearing
    ensures Reaches(s, steps, t) && BeginDrain !in steps && RunningIds(t.jobs) == {}
    ensures t == s.(jobs := t.jobs, cancel := false, updater := Restarting)
  {
    hide Runs.Reaches, RunningIds, CountInFlight, After, Enabled;
    ClearsFlag(s);
    var a := s.(cancel := false, updater := Looping);
    var more, b := FinishAll(a);
    Runs.Continue(Enabled, After, s, [ClearCancel], a, more, b);
    NothingBlocks(b.jobs);
    ChecksLast(b);
    t := b.(updater := Restarting);
    Runs.Continue(Enabled, After, s, [ClearCancel] + more, b, [Poll] + [LastCheck], t);
    steps := [ClearCancel] + more + ([Poll] + [LastCheck]);
  }

  lemma ClearsFlag(s: State)
    requires s.updater == Clearing
    ensures Reaches(s, [ClearCancel], s.(cancel := false, updater := Looping))
  {
    hide Runs.Reaches;
    Runs.One(Enabled, After, s, ClearCancel);
  }

  lemma ChecksLast(s: State)
    requires s.updater == Looping && !s.cancel && Blocking(s.jobs) == {}
    ensures Reaches(s, [Poll] + [LastCheck], s.(updater := Restarting))
  {
    hide Runs.Reaches;
    Runs.One(Enabled, After, s, Poll);
    Runs.OneMore(Enabled, After, s, [Poll], s.(updater := Final), LastCheck);
  }

  lemma NothingBlocks(jobs: map<nat, Job>)
    requires RunningIds(jobs) == {}
    ensures Blocking(jobs) == {}
  {
    assert Blocking(jobs) <= RunningIds(jobs);
  }

  /** The dispatch creates its job after the last check, and the restart kills it. */
  lemma DirtyRun(s: State, h: nat) returns (steps: seq<Step>, t: State)
    requires TableOk(s) && s.updater == Clearing && !s.timedOut
    requires h < |s.handlers| && Threatens(s.handlers[h], s.maxJobs)
    ensures Reaches(s, steps, t) && BeginDrain !in steps
    ensures t.updater == Restarted && !t.timedOut && Blocking(t.jobs) != {}
  {
    hide Runs.Reaches, Blocking, RunningIds, CountInFlight;
    var a;
    steps, a := RunsToTheEnd(s);
    if a.handlers[h].Passed? {
      Runs.OneMore(Enabled, After, s, steps, a, CheckLimit(h));
      steps, a := steps + [CheckLimit(h)], After(a, CheckLimit(h));
    }
    var more;
    more, t := CreatesAndRestarts(a, h);
    Runs.Continue(Enabled, After, s, steps, a, more, t);
    steps := steps + more;
  }

  lemma CreatesAndRestarts(s: State, h: nat) returns (steps: seq<Step>, t: State)
    requires s.updater == Restarting && !s.timedOut && h < |s.handlers|
    requires s.handlers[h].Admitted? && s.handlers[h].command !in SKIP_DRAIN
    ensures Reaches(s, steps, t) && BeginDrain !in steps
    ensures t.updater == Restarted && !t.timedOut && Blocking(t.jobs) != {}
  {
    hide Runs.Reaches, Blocking, RunningIds, CountInFlight;
    Runs.One(Enabled, After, s, CreateJob(h));
    var a := After(s, CreateJob(h));
    Runs.OneMore(Enabled, After, s, [CreateJob(h)], a, Restart);
    steps, t := [CreateJob(h)] + [Restart], After(a, Restart);
    CreatedBlocks(t.jobs, s.next);
  }

  lemma CreatedBlocks(jobs: map<nat, Job>, id: nat)
    requires id in jobs && jobs[id].status == Running && jobs[id].command !in SKIP_DRAIN
    ensures Blocking(jobs) != {}
  {
    assert id in Blocking(jobs);
  }

  // ---------- the cancel ----------

  /** However it goes on, there is no restart before another drain begins. */
  ghost predicate NeverRestarts(s: State) {
    forall steps: seq<Step>, t: State :: Reaches(s, steps, t) && BeginDrain !in steps ==> t.updater != Restarted
  }

  /**
   A cancel prevents the restart on every continuation if and only if it is set between the clearing of the
   flag and the last check, or when the drain is over anyway.
   */
  lemma CancelPreventsRestart(s: State, h: nat)
    requires Inv(s) && Enabled(s, SetCancel(h))
    ensures NeverRestarts(After(s, SetCancel(h))) <==> s.updater in {Looping, Blocked, Final, Idle}
  {
    var t := After(s, SetCancel(h));
    StepKeeps(s, SetCancel(h));
    if s.updater in {Looping, Blocked, Final, Idle} {
      forall steps: seq<Step>, u: State | Reaches(t, steps, u) && BeginDrain !in steps ensures u.updater != Restarted {
        CancelLasts(t, steps, u);
      }
    } else {
      var steps, u := RestartsAnyway(t);
    }
  }

  lemma {:induction false} CancelLasts(s: State, steps: seq<Step>, t: State)
    requires s.cancel && s.updater in {Looping, Blocked, Final, Idle}
    requires Reaches(s, steps, t) && BeginDrain !in steps
    ensures t.cancel && t.updater in {Looping, Blocked, Final, Idle}
    decreases |steps|
  {
    hide RunningIds, Blocking, CountInFlight, JobsAfter, HandlersAfter;
    if steps != [] {
      CancelLasts(After(s, steps[0]), steps[1..], t);
    }
  }

  lemma RestartsAnyway(s: State) returns (steps: seq<Step>, t: State)
    requires TableOk(s) && s.updater in {Clearing, Restarting}
    ensures Reaches(s, steps, t) && BeginDrain !in steps && t.updater == Restarted
  {
    hide Runs.Reaches, RunningIds;
    steps, t := [], s;
    assert Reaches(s, steps, t) by { Runs.Nothing(Enabled, After, s); }
    if s.updater == Clearing {
      steps, t := RunsToTheEnd(s);
    }
    Runs.One(Enabled, After, t, Restart);
    Runs.Continue(Enabled, After, s, steps, t, [Restart], After(t, Restart));
    steps, t := steps + [Restart], After(t, Restart);
  }

  // ---------- cancelling a job, and what a drain refuses ----------

  /** A handler that finds a job running is about to cancel it. */
  lemma FindsRunning(s: State, h: nat, id: nat)
    requires Enabled(s, FindRunning(h, id))
    ensures After(s, FindRunning(h, id)) == s.(handlers := s.handlers[h := Ends(id)])
  {
    hide Blocking, RunningIds, CountInFlight;
  }

  /** An old job is dropped from the table; a cancelled or running one never is. */
  lemma ForgetsOld(s: State, id: nat)
    requires Enabled(s, Forget(id))
    ensures s.jobs[id].status in {Completed, Failed} && After(s, Forget(id)) == s.(jobs := s.jobs - {id})
  {
    hide Blocking, RunningIds, CountInFlight;
  }

  /** A request that finds the daemon draining cancels the drain, if its command is one to wait for, and goes on. */
  lemma CancelsAndGoesOn(s: State, h: nat)
    requires Enabled(s, SetCancel(h))
    ensures After(s, SetCancel(h)) == s.(cancel := true, handlers := s.handlers[h := Arrived(s.handlers[h].command)])
  {
    hide Blocking, RunningIds, CountInFlight;
  }

  /** At either look a cancel ends the drain and the daemon takes jobs again; else the drain goes on. */
  lemma CancelEndsDrain(s: State, step: Step)
    requires Enabled(s, step) && step in {SeeCancel, LastCheck}
    ensures After(s, step) == if s.cancel then s.(draining := false, updater := Idle)
                              else s.(updater := if step == SeeCancel then Looping else Restarting)
  {
    hide Blocking, RunningIds, CountInFlight;
  }

  /** However many jobs block, the drain can time out, and comes to its last check. */
  lemma TimeOutEndsWaiting(s: State)
    requires Enabled(s, TimeOut)
    ensures After(s, TimeOut) == s.(updater := Final, timedOut := true)
  {
    hide Blocking, RunningIds, CountInFlight;
  }

  /** A job found running and then marked is cancelled, whatever became of it in between, and nothing else changes. */
  lemma MarkingCancels(s: State, h: nat)
    requires Enabled(s, MarkCancelled(h))
    ensures var t, id := After(s, MarkCancelled(h)), s.handlers[h].id;
      && t == s.(jobs := t.jobs, handlers := s.handlers[h := Free])
      && t.jobs == if id in s.jobs then s.jobs[id := Job(s.jobs[id].command, Cancelled, s.jobs[id].working)] else s.jobs
  {
    hide Blocking, RunningIds, CountInFlight;
  }

  /** While the daemon drains, a dispatch is sent away; and so it is at the limit. */
  lemma SentAway(s: State, h: nat)
    ensures Enabled(s, CheckDraining(h)) && s.draining ==>
      After(s, CheckDraining(h)) == s.(handlers := s.handlers[h := Free])
    ensures Enabled(s, CheckLimit(h)) && |RunningIds(s.jobs)| >= s.maxJobs ==>
      After(s, CheckLimit(h)) == s.(handlers := s.handlers[h := Free])
  {
    hide Blocking, RunningIds, CountInFlight;
  }

  ghost predicate Reads(s: State, id: nat, status: Status) { id in s.jobs && s.jobs[id].status == status }

  /** However it goes on, the job reads as cancelled. */
  ghost predicate StaysCancelled(s: State, id: nat) {
    forall steps: seq<Step>, t: State :: Reaches(s, steps, t) ==> Reads(t, id, Cancelled)
  }

  /** A cancelled job reads so for good if and only if its worker has returned; else the worker's end replaces it. */
  lemma CancelledForGood(s: State, id: nat)
    requires TableOk(s) && s.updater != Restarted && Reads(s, id, Cancelled)
    ensures StaysCancelled(s, id) <==> !s.jobs[id].working
  {
    if s.jobs[id].working {
      Runs.One(Enabled, After, s, Finish(id, true));
      var t := After(s, Finish(id, true));
      assert Reaches(s, [Finish(id, true)], t) && Reads(t, id, Completed);
    } else {
      forall steps: seq<Step>, t: State | Reaches(s, steps, t) ensures Reads(t, id, Cancelled) {
        StillCancelled(s, steps, t, id);
      }
    }
  }

  lemma {:induction false} StillCancelled(s: State, steps: seq<Step>, t: State, id: nat)
    requires TableOk(s) && Reaches(s, steps, t) && Reads(s, id, Cancelled) && !s.jobs[id].working
    ensures Reads(t, id, Cancelled)
    decreases |steps|
  {
    hide TableOk, Enabled, After;
    if steps != [] {
      StepRunning(s, steps[0]);
      StepKeepsCancelled(s, steps[0], id);
      StillCancelled(After(s, steps[0]), steps[1..], t, id);
    }
  }

  lemma StepKeepsCancelled(s: State, step: Step, id: nat)
    requires TableOk(s) && Enabled(s, step) && Reads(s, id, Cancelled) && !s.jobs[id].working
    ensures var t := After(s, step); Reads(t, id, Cancelled) && !t.jobs[id].working
  {
    hide RunningIds, Blocking, CountInFlight, HandlersAfter, Onward;
  }

  // ---------- the windows are reached ----------

  const DEFINE := "vm/define"

  /** A daemon at rest, and one with `n` jobs running. */
  function Daemon(maxJobs: nat, n: nat, handlers: seq<Handler>): State {
    State(Table(n), n, handlers, maxJobs, false, false, Idle, false, {}, 0)
  }

  function Table(n: nat): map<nat, Job> {
    if n == 0 then map[] else Table(n - 1)[n - 1 := Job(DEFINE, Running, true)]
  }

  lemma {:induction false} TableRuns(n: nat)
    ensures |RunningIds(Table(n))| == n && forall id :: id in Table(n) ==> id < n
  {
    if n == 0 {
      assert RunningIds(Table(0)) == {};
    } else {
      TableRuns(n - 1);
      assert RunningIds(Table(n)) == RunningIds(Table(n - 1)) + {n - 1};
    }
  }

  /** A free handler passes both checks, while fewer jobs run than are allowed. */
  lemma Admits(maxJobs: nat, n: nat, handlers: seq<Handler>, h: nat) returns (steps: seq<Step>)
    requires n < maxJobs && h < |handlers| && handlers[h] == Free
    ensures Reaches(Daemon(maxJobs, n, handlers), steps, Daemon(maxJobs, n, handlers[h := Admitted(DEFINE)]))
  {
    hide Runs.Reaches, RunningIds, Table;
    var s := Daemon(maxJobs, n, handlers);
    var a := Daemon(maxJobs, n, handlers[h := Arrived(DEFINE)]);
    var b := Daemon(maxJobs, n, handlers[h := Passed(DEFINE)]);
    var c := Daemon(maxJobs, n, handlers[h := Admitted(DEFINE)]);
    TableRuns(n);
    Runs.One(Enabled, After, s, Request(h, DEFINE));
    assert After(s, Request(h, DEFINE)) == a;
    Runs.One(Enabled, After, a, CheckDraining(h));
    assert a.handlers[h := Passed(DEFINE)] == b.handlers;
    assert After(a, CheckDraining(h)) == b;
    Runs.One(Enabled, After, b, CheckLimit(h));
    assert b.handlers[h := Admitted(DEFINE)] == c.handlers;
    assert After(b, CheckLimit(h)) == c;
    Runs.Continue(Enabled, After, s, [Request(h, DEFINE)], a, [CheckDraining(h)], b);
    Runs.Continue(Enabled, After, s, [Request(h, DEFINE)] + [CheckDraining(h)], b, [CheckLimit(h)], c);
    steps := [Request(h, DEFINE)] + [CheckDraining(h)] + [CheckLimit(h)];
  }

  lemma Creates(maxJobs: nat, n: nat, handlers: seq<Handler>, h: nat)
    requires h < |handlers| && handlers[h] == Admitted(DEFINE)
    ensures Reaches(Daemon(maxJobs, n, handlers), [CreateJob(h)], Daemon(maxJobs, n + 1, handlers[h := Free]))
  {
    hide Runs.Reaches;
    var s := Daemon(maxJobs, n, handlers);
    Runs.One(Enabled, After, s, CreateJob(h));
    assert Table(n + 1) == Table(n)[n := Job(DEFINE, Running, true)];
  }

  /** The first `k` of `n` handlers are admitted, the others free. */
  function Handlers(n: nat, k: nat): seq<Handler> {
    seq(n, i requires 0 <= i < n => if i < k then Admitted(DEFINE) else Free)
  }

  /** One handler creates `n` jobs, one after the other. */
  lemma {:induction false} FillsUp(maxJobs: nat, threads: nat, n: nat) returns (steps: seq<Step>)
    requires n <= maxJobs && threads > 0
    ensures Reaches(Daemon(maxJobs, 0, Handlers(threads, 0)), steps, Daemon(maxJobs, n, Handlers(threads, 0)))
  {
    hide Runs.Reaches;
    var free := Handlers(threads, 0);
    if n == 0 {
      steps := [];
      Runs.Nothing(Enabled, After, Daemon(maxJobs, 0, free));
    } else {
      var first := FillsUp(maxJobs, threads, n - 1);
      var more := Admits(maxJobs, n - 1, free, 0);
      var busy := free[0 := Admitted(DEFINE)];
      Creates(maxJobs, n - 1, busy, 0);
      assert busy[0 := Free] == free;
      var s, t := Daemon(maxJobs, 0, free), Daemon(maxJobs, n - 1, free);
      Runs.Continue(Enabled, After, s, first, t, more, Daemon(maxJobs, n - 1, busy));
      Runs.Continue(Enabled, After, s, first + more, Daemon(maxJobs, n - 1, busy), [CreateJob(0)],
                    Daemon(maxJobs, n, free));
      steps := first + more + [CreateJob(0)];
    }
  }

  /** The handlers pass the limit check before any of them creates its job. */
  lemma {:induction false} AdmitsMany(maxJobs: nat, n: nat, threads: nat, k: nat) returns (steps: seq<Step>)
    requires n < maxJobs && k <= threads
    ensures Reaches(Daemon(maxJobs, n, Handlers(threads, 0)), steps, Daemon(maxJobs, n, Handlers(threads, k)))
  {
    hide Runs.Reaches;
    if k == 0 {
      steps := [];
      Runs.Nothing(Enabled, After, Daemon(maxJobs, n, Handlers(threads, 0)));
    } else {
      var some := AdmitsMany(maxJobs, n, threads, k - 1);
      var more := Admits(maxJobs, n, Handlers(threads, k - 1), k - 1);
      assert Handlers(threads, k - 1)[k - 1 := Admitted(DEFINE)] == Handlers(threads, k);
      Runs.Continue(Enabled, After, Daemon(maxJobs, n, Handlers(threads, 0)), some,
                    Daemon(maxJobs, n, Handlers(threads, k - 1)),
               more, Daemon(maxJobs, n, Handlers(threads, k)));
      steps := some + more;
    }
  }

  lemma {:induction false} CreatesMany(maxJobs: nat, n: nat, threads: nat, k: nat) returns (steps: seq<Step>)
    requires k <= threads
    ensures Reaches(Daemon(maxJobs, n, Handlers(threads, k)), steps, Daemon(maxJobs, n + k, Handlers(threads, 0)))
    decreases k
  {
    hide Runs.Reaches;
    if k == 0 {
      steps := [];
      Runs.Nothing(Enabled, After, Daemon(maxJobs, n, Handlers(threads, 0)));
    } else {
      Creates(maxJobs, n, Handlers(threads, k), k - 1);
      assert Handlers(threads, k)[k - 1 := Free] == Handlers(threads, k - 1);
      var more := CreatesMany(maxJobs, n + 1, threads, k - 1);
      Runs.Continue(Enabled, After, Daemon(maxJobs, n, Handlers(threads, k)), [CreateJob(k - 1)],
          Daemon(maxJobs, n + 1, Handlers(threads, k - 1)),
               more, Daemon(maxJobs, n + k, Handlers(threads, 0)));
      steps := [CreateJob(k - 1)] + more;
    }
  }

  /** The bound of `NeverTooMany` is reached, for every limit and every number of threads. */
  lemma BoundIsReached(maxJobs: nat, threads: nat) returns (steps: seq<Step>, t: State)
    requires maxJobs > 0 && threads > 0
    ensures Reaches(Daemon(maxJobs, 0, Handlers(threads, 0)), steps, t)
    ensures |RunningIds(t.jobs)| == maxJobs - 1 + threads
  {
    hide Runs.Reaches, RunningIds;
    var s, a := Daemon(maxJobs, 0, Handlers(threads, 0)), Daemon(maxJobs, maxJobs - 1, Handlers(threads, 0));
    var b := Daemon(maxJobs, maxJobs - 1, Handlers(threads, threads));
    t := Daemon(maxJobs, maxJobs - 1 + threads, Handlers(threads, 0));
    var some := FillsUp(maxJobs, threads, maxJobs - 1);
    var more := AdmitsMany(maxJobs, maxJobs - 1, threads, threads);
    var rest := CreatesMany(maxJobs, maxJobs - 1, threads, threads);
    Runs.Continue(Enabled, After, s, some, a, more, b);
    Runs.Continue(Enabled, After, s, some + more, b, rest, t);
    steps := some + more + rest;
    TableRuns(maxJobs - 1 + threads);
  }

  /** More jobs can run than are allowed if and only if there are at least two handler threads. */
  lemma LimitCanBeExceeded(maxJobs: nat, threads: nat)
    requires maxJobs > 0
    ensures (exists steps: seq<Step>, t: State ::
               Reaches(Daemon(maxJobs, 0, Handlers(threads, 0)), steps, t) && |RunningIds(t.jobs)| > maxJobs)
      <==> threads >= 2
  {
    var s := Daemon(maxJobs, 0, Handlers(threads, 0));
    if threads >= 2 {
      var steps, t := BoundIsReached(maxJobs, threads);
      assert Reaches(s, steps, t) && |RunningIds(t.jobs)| > maxJobs;
    } else {
      forall steps: seq<Step>, t: State | Reaches(s, steps, t) ensures |RunningIds(t.jobs)| <= maxJobs {
        assert Init(s);
        NeverTooMany(s, steps, t);
      }
    }
  }

  ghost predicate KillsAJob(s: State) {
    s.updater == Restarted && !s.timedOut && Blocking(s.jobs) != {}
  }

  /** A run in which a dispatch is in flight when a drain begins, and the restart kills its job. */
  lemma RestartCanKillAJob()
    ensures exists steps: seq<Step>, t: State :: Reaches(Daemon(1, 0, Handlers(1, 0)), steps, t) && KillsAJob(t)
  {
    hide Runs.Reaches, RunningIds, Blocking, Table;
    var s, a := Daemon(1, 0, Handlers(1, 0)), Daemon(1, 0, Handlers(1, 1));
    var some := AdmitsMany(1, 0, 1, 1);
    Runs.OneMore(Enabled, After, s, some, a, BeginDrain);
    var b := After(a, BeginDrain);
    assert b.handlers[0] == Admitted(DEFINE);
    TableIsOk(0);
    var more, t := DirtyRun(b, 0);
    Runs.Continue(Enabled, After, s, some + [BeginDrain], b, more, t);
    assert Reaches(s, some + [BeginDrain] + more, t) && KillsAJob(t);
  }

  lemma {:induction false} TableIsOk(n: nat)
    ensures forall id :: id in Table(n) ==> id < n && Table(n)[id] == Job(DEFINE, Running, true)
  {
    if n > 0 {
      TableIsOk(n - 1);
    }
  }

  /** A drain has begun, and a handler that saw it is about to cancel it. */
  lemma DrainIsSeen() returns (steps: seq<Step>, t: State)
    ensures Reaches(Daemon(1, 0, Handlers(1, 0)), steps, t) && Inv(t)
    ensures t.updater == Clearing && t.handlers == [Cancels(DEFINE)]
  {
    hide Runs.Reaches, RunningIds, Blocking, CountInFlight;
    var s := Daemon(1, 0, Handlers(1, 0));
    Runs.One(Enabled, After, s, BeginDrain);
    var a := After(s, BeginDrain);
    Runs.OneMore(Enabled, After, s, [BeginDrain], a, Request(0, DEFINE));
    steps, t := [BeginDrain] + [Request(0, DEFINE)], After(a, Request(0, DEFINE));
    assert t.handlers == [Cancels(DEFINE)];
    InitOk(s);
    RunKeeps(s, steps, t);
  }

  /** A run to a state in which a cancel that is set now comes too early or too late to prevent the restart. */
  lemma CancelCanBeLost(tooLate: bool)
    ensures exists steps: seq<Step>, t: State ::
      && Reaches(Daemon(1, 0, Handlers(1, 0)), steps, t) && Enabled(t, SetCancel(0))
      && t.updater == (if tooLate then Restarting else Clearing) && !NeverRestarts(After(t, SetCancel(0)))
  {
    hide Runs.Reaches, Inv, After, NeverRestarts, RunningIds;
    var steps, t := DrainIsSeen();
    if tooLate {
      assert TableOk(t) by { InvTable(t); }
      var more, u := RunsToTheEnd(t);
      RunKeeps(t, more, u);
      Runs.Continue(Enabled, After, Daemon(1, 0, Handlers(1, 0)), steps, t, more, u);
      steps, t := steps + more, u;
    }
    CancelPreventsRestart(t, 0);
    assert Reaches(Daemon(1, 0, Handlers(1, 0)), steps, t);
  }

  lemma InvTable(s: State)
    requires Inv(s)
    ensures TableOk(s)
  {
  }
}
