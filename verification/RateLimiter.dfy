/**
 The authentication rate limiter of troshkad: sliding failure windows, temporary bans,
 a ban history, permanent bans and a periodic sweep.

 The reference definition is written over the whole log of failures, which nothing ever
 prunes.  The class keeps the four pruned tables of the program and is a data refinement
 of that log: what a caller can observe is a function of the log alone.
 */
module RateLimiter {
  import opened Options

  type Ip = string

  const BAN_WINDOW := 60.0
  const BAN_THRESHOLD := 10
  const BAN_DURATION := 300.0
  const PERMABAN_THRESHOLD := 3
  const PERMABAN_WINDOW := 3600.0

  // ---------- the reference: a log of failures and what it means ----------

  /** All authentication failures so far, the latest outermost. */
  datatype Log = Start | Then(prev: Log, ip: Ip, time: real)

  /** The latest failure in the log triggers a temporary ban of its address. */
  predicate Triggers(log: Log)
    decreases log, 1
  {
    match log
    case Start => false
    case Then(prev, ip, time) =>
      !Permanent(prev, ip) && SinceTrigger(prev, ip, time - BAN_WINDOW) + 1 >= BAN_THRESHOLD
  }

  /** How many failures of `ip` came after its last trigger and later than `cutoff`. */
  function SinceTrigger(log: Log, ip: Ip, cutoff: real): nat
    decreases log, 2
  {
    match log
    case Start => 0
    case Then(prev, who, time) =>
      if who != ip then SinceTrigger(prev, ip, cutoff)
      else if Triggers(log) then 0
      else SinceTrigger(prev, ip, cutoff) + if time > cutoff then 1 else 0
  }

  /** How many temporary bans of `ip` were triggered later than `cutoff`. */
  function Strikes(log: Log, ip: Ip, cutoff: real): nat
    decreases log, 2
  {
    match log
    case Start => 0
    case Then(prev, who, time) =>
      Strikes(prev, ip, cutoff) + if who == ip && Triggers(log) && time > cutoff then 1 else 0
  }

  /** The time of the last trigger of `ip`. */
  function LastTrigger(log: Log, ip: Ip): Option<real>
    decreases log, 2
  {
    match log
    case Start => None
    case Then(prev, who, time) =>
      if who == ip && Triggers(log) then Some(time) else LastTrigger(prev, ip)
  }

  /** Some trigger of `ip` was its third one within the permanent-ban window. */
  predicate Permanent(log: Log, ip: Ip)
    decreases log, 3
  {
    match log
    case Start => false
    case Then(prev, who, time) =>
      || Permanent(prev, ip)
      || (who == ip && Triggers(log) && Strikes(log, ip, time - PERMABAN_WINDOW) >= PERMABAN_THRESHOLD)
  }

  /** What an address is told at time `now`. */
  predicate Banned(log: Log, ip: Ip, now: real) {
    || Permanent(log, ip)
    || (LastTrigger(log, ip).Some? && now <= LastTrigger(log, ip).value + BAN_DURATION)
  }

  // ---------- what the reference says in plain terms ----------

  /** How many failures of `ip` the log holds later than `cutoff`, triggers or not. */
  function FailuresAfter(log: Log, ip: Ip, cutoff: real): nat {
    match log
    case Start => 0
    case Then(prev, who, time) =>
      FailuresAfter(prev, ip, cutoff) + if who == ip && time > cutoff then 1 else 0
  }

  /** No failure of `ip` ever was the tenth one of a 60 s window. */
  predicate Quiet(log: Log, ip: Ip) {
    match log
    case Start => true
    case Then(prev, who, time) =>
      Quiet(prev, ip) && (who == ip ==> FailuresAfter(log, ip, time - 60.0) < 10)
  }

  lemma {:induction false} SinceTriggerAtMostAll(log: Log, ip: Ip, cutoff: real)
    ensures SinceTrigger(log, ip, cutoff) <= FailuresAfter(log, ip, cutoff)
  {
    match log
    case Start =>
    case Then(prev, _, _) => SinceTriggerAtMostAll(prev, ip, cutoff);
  }

  /** No false positives: an address that never fails ten times in a window is never banned. */
  lemma {:induction false} QuietIsNeverBanned(log: Log, ip: Ip, now: real)
    requires Quiet(log, ip)
    ensures LastTrigger(log, ip) == None && !Banned(log, ip, now)
  {
    match log
    case Start =>
    case Then(prev, who, time) =>
      QuietIsNeverBanned(prev, ip, now);
      if who == ip {
        SinceTriggerAtMostAll(prev, ip, time - BAN_WINDOW);
        assert !Triggers(log);
      }
  }

  /** `count` further failures of `ip`, all at times in `times`. */
  function Burst(log: Log, ip: Ip, times: seq<real>): Log {
    if times == [] then log
    else Then(Burst(log, ip, times[..|times| - 1]), ip, times[|times| - 1])
  }

  /** No false negatives: ten failures in a row that fit in one window leave the address banned. */
  lemma {:induction false} BurstIsBanned(log: Log, ip: Ip, times: seq<real>, now: real)
    requires |times| == 10
    requires forall i, j :: 0 <= i <= j < |times| ==> times[i] <= times[j] < times[i] + 60.0
    requires times[|times| - 1] <= now <= times[0] + 300.0
    ensures Banned(Burst(log, ip, times), ip, now)
  {
    assert times[..BAN_THRESHOLD] == times;
    BurstCounts(log, ip, times, BAN_THRESHOLD, now);
  }

  lemma {:induction false} BurstCounts(log: Log, ip: Ip, times: seq<real>, n: nat, now: real)
    requires n <= |times| <= BAN_THRESHOLD
    requires forall i, j :: 0 <= i <= j < |times| ==> times[i] <= times[j] < times[i] + BAN_WINDOW
    requires |times| > 0 && now <= times[0] + BAN_DURATION
    ensures var after := Burst(log, ip, times[..n]);
      || Banned(after, ip, now)
      || (n < BAN_THRESHOLD && forall c :: c < times[0] ==> SinceTrigger(after, ip, c) >= n)
  {
    if n > 0 {
      BurstCounts(log, ip, times, n - 1, now);
      assert times[..n][..n - 1] == times[..n - 1];
      var before, time := Burst(log, ip, times[..n - 1]), times[n - 1];
      var after := Then(before, ip, time);
      assert after == Burst(log, ip, times[..n]);
      assert times[0] <= time < times[0] + BAN_WINDOW;
      if Triggers(after) {
        assert LastTrigger(after, ip) == Some(time);
      } else if !Banned(before, ip, now) {
        assert SinceTrigger(before, ip, time - BAN_WINDOW) >= n - 1;
        forall c | c < times[0] ensures SinceTrigger(after, ip, c) >= n {
          assert SinceTrigger(after, ip, c) == SinceTrigger(before, ip, c) + 1;
        }
      } else {
        assert Banned(after, ip, now);
      }
    }
  }

  // ---------- lists of times ----------

  /** The times later than `cutoff`, in order. */
  function Later(times: seq<real>, cutoff: real): (r: seq<real>) {
    if times == [] then []
    else (if times[0] > cutoff then [times[0]] else []) + Later(times[1..], cutoff)
  }

  predicate Sorted(times: seq<real>) {
    forall i, j :: 0 <= i <= j < |times| ==> times[i] <= times[j]
  }

  lemma {:induction false} LaterAppend(a: seq<real>, b: seq<real>, c: real)
    ensures Later(a + b, c) == Later(a, c) + Later(b, c)
  {
    if a == [] {
      assert a + b == b;
    } else {
      assert (a + b)[1..] == a[1..] + b;
      LaterAppend(a[1..], b, c);
    }
  }

  lemma {:induction false} LaterLater(times: seq<real>, k: real, c: real)
    requires k <= c
    ensures Later(Later(times, k), c) == Later(times, c)
  {
    if times != [] {
      LaterLater(times[1..], k, c);
      LaterAppend(if times[0] > k then [times[0]] else [], Later(times[1..], k), c);
    }
  }

  lemma {:induction false} LaterOfOld(times: seq<real>, c: real)
    requires forall x :: x in times ==> x <= c
    ensures Later(times, c) == []
  {
    if times != [] {
      assert times[0] in times && forall x :: x in times[1..] ==> x in times;
      LaterOfOld(times[1..], c);
    }
  }

  lemma {:induction false} LaterIsSorted(times: seq<real>, c: real)
    requires Sorted(times)
    ensures Sorted(Later(times, c)) && |Later(times, c)| <= |times|
    ensures forall x :: x in Later(times, c) ==> x in times
  {
    if times != [] {
      LaterIsSorted(times[1..], c);
      var rest := Later(times[1..], c);
      forall j | 0 <= j < |rest| ensures times[0] <= rest[j] && rest[j] in times {
        assert rest[j] in rest && rest[j] in times[1..];
      }
    }
  }

  // ---------- the four tables refine the log ----------

  function Get(table: map<Ip, seq<real>>, ip: Ip): seq<real> {
    if ip in table then table[ip] else []
  }

  /** From `clock` on, the stored failures of `ip` count like the log does. */
  ghost predicate FailsMatch(fails: map<Ip, seq<real>>, log: Log, clock: real, ip: Ip) {
    && Sorted(Get(fails, ip))
    && (forall x :: x in Get(fails, ip) ==> x <= clock)
    && |Get(fails, ip)| < BAN_THRESHOLD
    && forall c :: c >= clock - BAN_WINDOW ==> |Later(Get(fails, ip), c)| == SinceTrigger(log, ip, c)
  }

  /** From `clock` on, the stored bans of `ip` count like the triggers of the log do. */
  ghost predicate HistoryMatches(history: map<Ip, seq<real>>, log: Log, clock: real, ip: Ip) {
    && Sorted(Get(history, ip))
    && (forall x :: x in Get(history, ip) ==> x <= clock)
    && |Get(history, ip)| < PERMABAN_THRESHOLD
    && forall c :: c >= clock - PERMABAN_WINDOW ==> |Later(Get(history, ip), c)| == Strikes(log, ip, c)
  }

  /** The stored expiry of `ip` is the one of its last trigger, unless that one has passed. */
  ghost predicate BansMatch(banned: map<Ip, real>, log: Log, clock: real, ip: Ip) {
    match LastTrigger(log, ip)
    case None => ip !in banned
    case Some(time) =>
      if ip in banned then banned[ip] == time + BAN_DURATION else time + BAN_DURATION < clock
  }

  datatype Tables = Tables(fails: map<Ip, seq<real>>, banned: map<Ip, real>, history: map<Ip, seq<real>>,
                           perma: set<Ip>)

  /** A permanently banned address is in no other table; any other one is tracked faithfully. */
  ghost predicate Tracked(t: Tables, log: Log, clock: real, ip: Ip) {
    && (ip in t.perma <==> Permanent(log, ip))
    && (ip in t.perma ==> ip !in t.fails && ip !in t.banned && ip !in t.history)
    && (ip !in t.perma ==>
      && FailsMatch(t.fails, log, clock, ip)
      && HistoryMatches(t.history, log, clock, ip)
      && BansMatch(t.banned, log, clock, ip))
  }

  /** The two tables say the same about every address but `ip`. */
  ghost predicate AgreeBut(t: Tables, u: Tables, ip: Ip) {
    && t.fails - {ip} == u.fails - {ip}
    && t.banned - {ip} == u.banned - {ip}
    && t.history - {ip} == u.history - {ip}
    && t.perma - {ip} == u.perma - {ip}
  }

  lemma {:induction false} AgreeingIsTracked(t: Tables, u: Tables, log: Log, clock: real, ip: Ip, who: Ip)
    requires AgreeBut(t, u, ip) && who != ip && Tracked(t, log, clock, who)
    ensures Tracked(u, log, clock, who)
  {
    assert who in t.fails <==> who in t.fails - {ip};
    assert who in u.fails <==> who in u.fails - {ip};
    assert who in t.banned <==> who in t.banned - {ip};
    assert who in u.banned <==> who in u.banned - {ip};
    assert who in t.history <==> who in t.history - {ip};
    assert who in u.history <==> who in u.history - {ip};
    assert who in t.perma <==> who in t.perma - {ip};
    assert who in u.perma <==> who in u.perma - {ip};
    assert Get(t.fails, who) == Get(t.fails - {ip}, who) == Get(u.fails, who);
    assert Get(t.history, who) == Get(t.history - {ip}, who) == Get(u.history, who);
    assert who in t.banned ==> t.banned[who] == (t.banned - {ip})[who];
    assert who in u.banned ==> u.banned[who] == (u.banned - {ip})[who];
  }

  /** Dropping what is out of the window and adding `now` keeps every later count. */
  lemma {:induction false} SlideWindow(times: seq<real>, cutoff: real, now: real)
    requires Sorted(times) && forall x :: x in times ==> x <= now
    ensures var next := Later(times, cutoff) + [now];
      && Sorted(next) && (forall x :: x in next ==> x <= now)
      && forall c :: cutoff <= c ==> |Later(next, c)| == |Later(times, c)| + if now > c then 1 else 0
  {
    LaterIsSorted(times, cutoff);
    var kept := Later(times, cutoff);
    forall i | 0 <= i < |kept| ensures kept[i] <= now {
      assert kept[i] in kept && kept[i] in times;
    }
    var next := kept + [now];
    forall c | cutoff <= c ensures |Later(next, c)| == |Later(times, c)| + if now > c then 1 else 0 {
      LaterLater(times, cutoff, c);
      LaterAppend(Later(times, cutoff), [now], c);
      assert Later([now], c) == if now > c then [now] else [];
    }
  }

  /** The sweep's test: nothing in the list, or its newest entry is out of the window. */
  predicate Stale(times: seq<real>, cutoff: real) {
    times == [] || times[|times| - 1] < cutoff
  }

  /** A list whose newest entry is out of the window counts nothing, so it may be dropped. */
  lemma {:induction false} StaleCountsNothing(times: seq<real>, cutoff: real, c: real)
    requires Sorted(times) && Stale(times, cutoff) && cutoff <= c
    ensures Later(times, c) == []
  {
    forall x | x in times ensures x <= c {
      var i :| 0 <= i < |times| && times[i] == x;
      assert times[i] <= times[|times| - 1];
    }
    LaterOfOld(times, c);
  }

  /** Time passing, with or without a failure of another address, keeps an address tracked. */
  lemma {:induction false} StillTracked(t: Tables, log: Log, clock: real, ip: Ip, who: Ip, now: real)
    requires Tracked(t, log, clock, ip) && clock <= now
    ensures Tracked(t, log, now, ip)
    ensures who != ip || ip in t.perma ==> Tracked(t, Then(log, who, now), now, ip)
  {
    if who != ip {
      forall c ensures SinceTrigger(Then(log, who, now), ip, c) == SinceTrigger(log, ip, c) {}
      forall c ensures Strikes(Then(log, who, now), ip, c) == Strikes(log, ip, c) {}
    }
  }

  /** A failure that triggers nothing only extends the failure list. */
  lemma {:induction false} FailureCounted(t: Tables, log: Log, clock: real, ip: Ip, now: real)
    requires Tracked(t, log, clock, ip) && clock <= now && ip !in t.perma
    ensures var times := Later(Get(t.fails, ip), now - 60.0) + [now];
      var next := Then(log, ip, now);
      && (Triggers(next) <==> |times| >= 10)
      && (!Triggers(next) ==> Tracked(t.(fails := t.fails[ip := times]), next, now, ip))
  {
    var times := Later(Get(t.fails, ip), now - BAN_WINDOW) + [now];
    var next := Then(log, ip, now);
    SlideWindow(Get(t.fails, ip), now - BAN_WINDOW, now);
    assert |Later(Get(t.fails, ip), now - BAN_WINDOW)| == SinceTrigger(log, ip, now - BAN_WINDOW);
    assert Triggers(next) <==> |times| >= BAN_THRESHOLD;
    if !Triggers(next) {
      forall c | c >= now - BAN_WINDOW ensures |Later(times, c)| == SinceTrigger(next, ip, c) {
        assert SinceTrigger(next, ip, c) == SinceTrigger(log, ip, c) + if now > c then 1 else 0;
      }
      forall c ensures Strikes(next, ip, c) == Strikes(log, ip, c) {}
      assert LastTrigger(next, ip) == LastTrigger(log, ip);
    }
  }

  /** A failure that triggers a ban empties the failure list and extends the ban history. */
  lemma {:induction false} TriggerCounted(t: Tables, log: Log, clock: real, ip: Ip, now: real)
    requires Tracked(t, log, clock, ip) && clock <= now && ip !in t.perma
    requires Triggers(Then(log, ip, now))
    ensures var bans := Later(Get(t.history, ip), now - 3600.0) + [now];
      var next := Then(log, ip, now);
      && (Permanent(next, ip) <==> |bans| >= 3)
      && (!Permanent(next, ip) ==>
            Tracked(Tables(t.fails - {ip}, t.banned[ip := now + 300.0], t.history[ip := bans], t.perma),
                    next, now, ip))
  {
    var bans := Later(Get(t.history, ip), now - PERMABAN_WINDOW) + [now];
    var next := Then(log, ip, now);
    SlideWindow(Get(t.history, ip), now - PERMABAN_WINDOW, now);
    assert Strikes(log, ip, now - PERMABAN_WINDOW) == |bans| - 1;
    assert Strikes(next, ip, now - PERMABAN_WINDOW) == |bans|;
    if !Permanent(next, ip) {
      assert |bans| < PERMABAN_THRESHOLD;
      forall c | c >= now - PERMABAN_WINDOW ensures |Later(bans, c)| == Strikes(next, ip, c) {
        assert Strikes(next, ip, c) == Strikes(log, ip, c) + if now > c then 1 else 0;
      }
      forall c ensures SinceTrigger(next, ip, c) == 0 {}
      assert LastTrigger(next, ip) == Some(now);
      assert Get(t.fails - {ip}, ip) == [];
    }
  }

  /** The tables after recording a failure. */
  function Recorded(t: Tables, ip: Ip, now: real): Tables {
    if ip in t.perma then t
    else
      var times := Later(Get(t.fails, ip), now - BAN_WINDOW) + [now];
      if |times| < BAN_THRESHOLD then t.(fails := t.fails[ip := times])
      else
        var bans := Later(Get(t.history, ip), now - PERMABAN_WINDOW) + [now];
        if |bans| < PERMABAN_THRESHOLD then
          Tables(t.fails[ip := times] - {ip}, t.banned[ip := now + BAN_DURATION], t.history[ip := bans], t.perma)
        else
          Tables(t.fails[ip := times] - {ip}, t.banned[ip := now + BAN_DURATION] - {ip},
                 t.history[ip := bans] - {ip}, t.perma + {ip})
  }

  /** What recording a failure does to the address itself. */
  lemma {:induction false} RecordedHere(t: Tables, log: Log, clock: real, ip: Ip, now: real)
    requires clock <= now && Tracked(t, log, clock, ip)
    ensures var next, u := Then(log, ip, now), Recorded(t, ip, now);
      && Tracked(u, next, now, ip) && AgreeBut(t, u, ip)
      && (Triggers(next) && !Permanent(next, ip) ==> ip in u.banned && u.banned[ip] == now + BAN_DURATION)
      && (!Triggers(next) ==> u.banned == t.banned)
      && u.perma == t.perma + if Permanent(next, ip) then {ip} else {}
  {
    hide FailsMatch, HistoryMatches, BansMatch, Later, SinceTrigger, Strikes, LastTrigger;
    var next := Then(log, ip, now);
    if ip in t.perma {
      StillTracked(t, log, clock, ip, ip, now);
      assert !Triggers(next);
    } else {
      FailureCounted(t, log, clock, ip, now);
      if Triggers(next) {
        TriggerCounted(t, log, clock, ip, now);
        var times := Later(Get(t.fails, ip), now - BAN_WINDOW) + [now];
        assert t.fails[ip := times] - {ip} == t.fails - {ip};
      } else {
        assert !Permanent(next, ip);
      }
    }
  }

  /** Recording in the tables follows recording in the log. */
  lemma {:induction false} RecordedIsTracked(t: Tables, log: Log, clock: real, ip: Ip, now: real)
    requires clock <= now && forall who :: Tracked(t, log, clock, who)
    ensures var next, u := Then(log, ip, now), Recorded(t, ip, now);
      && (forall who :: Tracked(u, next, now, who))
      && (Triggers(next) && !Permanent(next, ip) ==> ip in u.banned && u.banned[ip] == now + BAN_DURATION)
      && (!Triggers(next) ==> u.banned == t.banned)
      && u.perma == t.perma + if Permanent(next, ip) then {ip} else {}
  {
    hide Tracked, Triggers, Permanent, Recorded, AgreeBut;
    var next, u := Then(log, ip, now), Recorded(t, ip, now);
    RecordedHere(t, log, clock, ip, now);
    forall who | who != ip ensures Tracked(u, next, now, who) {
      StillTracked(t, log, clock, who, ip, now);
      AgreeingIsTracked(t, u, next, now, ip, who);
    }
  }

  /** Dropping a stale failure list cannot be observed. */
  lemma {:induction false} StaleFailsDropped(t: Tables, log: Log, clock: real, ip: Ip)
    requires Tracked(t, log, clock, ip) && ip in t.fails && Stale(t.fails[ip], clock - BAN_WINDOW)
    ensures Tracked(t.(fails := t.fails - {ip}), log, clock, ip)
  {
    forall c | c >= clock - BAN_WINDOW ensures Later(t.fails[ip], c) == [] {
      StaleCountsNothing(t.fails[ip], clock - BAN_WINDOW, c);
    }
  }

  /** Dropping a stale ban history cannot be observed. */
  lemma {:induction false} StaleHistoryDropped(t: Tables, log: Log, clock: real, ip: Ip)
    requires Tracked(t, log, clock, ip) && ip in t.history && Stale(t.history[ip], clock - PERMABAN_WINDOW)
    ensures Tracked(t.(history := t.history - {ip}), log, clock, ip)
  {
    forall c | c >= clock - PERMABAN_WINDOW ensures Later(t.history[ip], c) == [] {
      StaleCountsNothing(t.history[ip], clock - PERMABAN_WINDOW, c);
    }
  }

  /** Dropping an expired ban cannot be observed. */
  lemma {:induction false} ExpiredBanDropped(t: Tables, log: Log, clock: real, ip: Ip)
    requires Tracked(t, log, clock, ip) && ip in t.banned && clock > t.banned[ip]
    ensures Tracked(t.(banned := t.banned - {ip}), log, clock, ip)
  {
  }

  // ---------- whole runs, with and without the sweep ----------

  /** The tables after a sweep. */
  function Swept(t: Tables, now: real): Tables {
    Tables(map ip | ip in t.fails && !Stale(t.fails[ip], now - BAN_WINDOW) :: t.fails[ip],
           map ip | ip in t.banned && now <= t.banned[ip] :: t.banned[ip],
           map ip | ip in t.history && !Stale(t.history[ip], now - PERMABAN_WINDOW) :: t.history[ip],
           t.perma)
  }

  /** What the tables answer, and what they are afterwards: an expired ban is dropped on the way. */
  function Answer(t: Tables, ip: Ip, now: real): bool {
    ip in t.perma || (ip in t.banned && now <= t.banned[ip])
  }

  function Asked(t: Tables, ip: Ip, now: real): Tables {
    if ip !in t.perma && ip in t.banned && now > t.banned[ip] then t.(banned := t.banned - {ip}) else t
  }

  datatype Call = Failure(ip: Ip, time: real) | Question(ip: Ip, time: real) | Sweep(time: real)

  /** What every call shows: the answer to a question, and whether a failure leaves its address banned. */
  function Shown(t: Tables, calls: seq<Call>): seq<bool>
    decreases |calls|
  {
    if calls == [] then []
    else
      match calls[0]
      case Failure(ip, now) => [Answer(Recorded(t, ip, now), ip, now)] + Shown(Recorded(t, ip, now), calls[1..])
      case Question(ip, now) => [Answer(t, ip, now)] + Shown(Asked(t, ip, now), calls[1..])
      case Sweep(now) => Shown(Swept(t, now), calls[1..])
  }

  function WithoutSweeps(calls: seq<Call>): seq<Call> {
    if calls == [] then [] else (if calls[0].Sweep? then [] else [calls[0]]) + WithoutSweeps(calls[1..])
  }

  /** The clock never goes back. */
  predicate Timely(calls: seq<Call>, clock: real) {
    calls != [] ==> clock <= calls[0].time && Timely(calls[1..], calls[0].time)
  }

  ghost predicate AllTracked(t: Tables, log: Log, clock: real) {
    forall who :: Tracked(t, log, clock, who)
  }

  /** The tables say the same about one address. */
  ghost predicate SameAt(t: Tables, u: Tables, ip: Ip) {
    && (ip in t.fails <==> ip in u.fails) && (ip in t.fails ==> t.fails[ip] == u.fails[ip])
    && (ip in t.banned <==> ip in u.banned) && (ip in t.banned ==> t.banned[ip] == u.banned[ip])
    && (ip in t.history <==> ip in u.history) && (ip in t.history ==> t.history[ip] == u.history[ip])
    && (ip in t.perma <==> ip in u.perma)
  }

  lemma SameIsTracked(t: Tables, u: Tables, log: Log, clock: real, ip: Ip)
    requires SameAt(t, u, ip) && Tracked(t, log, clock, ip)
    ensures Tracked(u, log, clock, ip)
  {
    assert Get(t.fails, ip) == Get(u.fails, ip) && Get(t.history, ip) == Get(u.history, ip);
  }

  /** After a sweep the tables stand for the same log. */
  lemma {:induction false} SweptIsTracked(t: Tables, log: Log, clock: real, now: real)
    requires AllTracked(t, log, clock) && clock <= now
    ensures AllTracked(Swept(t, now), log, now)
  {
    forall who ensures Tracked(Swept(t, now), log, now, who) {
      hide Tracked, Stale;
      StillTracked(t, log, clock, who, who, now);
      var a := if who in t.fails && Stale(t.fails[who], now - BAN_WINDOW) then t.(fails := t.fails - {who}) else t;
      if a != t {
        StaleFailsDropped(t, log, now, who);
      }
      var b := if who in a.history && Stale(a.history[who], now - PERMABAN_WINDOW)
          then a.(history := a.history - {who}) else a;
      if b != a {
        StaleHistoryDropped(a, log, now, who);
      }
      var c := if who in b.banned && now > b.banned[who] then b.(banned := b.banned - {who}) else b;
      if c != b {
        ExpiredBanDropped(b, log, now, who);
      }
      SameIsTracked(c, Swept(t, now), log, now, who);
    }
  }

  /** After a question the tables stand for the same log, and the answer is the log's. */
  lemma {:induction false} AskedIsTracked(t: Tables, log: Log, clock: real, ip: Ip, now: real)
    requires AllTracked(t, log, clock) && clock <= now
    ensures AllTracked(Asked(t, ip, now), log, now)
    ensures Answer(t, ip, now) <==> Banned(log, ip, now)
  {
    forall who ensures Tracked(t, log, now, who) && Tracked(Asked(t, ip, now), log, now, who) {
      StillTracked(t, log, clock, who, who, now);
      if Asked(t, ip, now) != t {
        if who == ip {
          ExpiredBanDropped(t, log, now, ip);
        } else {
          SameIsTracked(t, Asked(t, ip, now), log, now, who);
        }
      }
    }
    assert Tracked(t, log, now, ip);
  }

  /** Tables that stand for one log answer alike from then on, however often either is swept. */
  lemma {:induction false} SameLogSameAnswers(t: Tables, u: Tables, log: Log, clock: real, calls: seq<Call>)
    requires AllTracked(t, log, clock) && AllTracked(u, log, clock) && Timely(calls, clock)
    ensures Shown(t, calls) == Shown(u, WithoutSweeps(calls))
    decreases |calls|
  {
    hide AllTracked, Recorded, Asked, Swept, Answer, Banned;
    if calls != [] {
      var rest, now := calls[1..], calls[0].time;
      match calls[0]
      case Failure(ip, _) =>
        RecordedAnswers(t, log, clock, ip, now);
        RecordedAnswers(u, log, clock, ip, now);
        SameLogSameAnswers(Recorded(t, ip, now), Recorded(u, ip, now), Then(log, ip, now), now, rest);
      case Question(ip, _) =>
        AskedIsTracked(t, log, clock, ip, now);
        AskedIsTracked(u, log, clock, ip, now);
        SameLogSameAnswers(Asked(t, ip, now), Asked(u, ip, now), log, now, rest);
      case Sweep(_) =>
        SweptIsTracked(t, log, clock, now);
        LaterTracked(u, log, clock, now);
        SameLogSameAnswers(Swept(t, now), u, log, now, rest);
        assert WithoutSweeps(calls) == WithoutSweeps(rest);
    }
  }

  lemma {:induction false} RecordedAnswers(t: Tables, log: Log, clock: real, ip: Ip, now: real)
    requires AllTracked(t, log, clock) && clock <= now
    ensures AllTracked(Recorded(t, ip, now), Then(log, ip, now), now)
    ensures Answer(Recorded(t, ip, now), ip, now) <==> Banned(Then(log, ip, now), ip, now)
  {
    hide Tracked, Recorded, Answer;
    RecordedIsTracked(t, log, clock, ip, now);
    AskedIsTracked(Recorded(t, ip, now), Then(log, ip, now), now, ip, now);
  }

  lemma {:induction false} LaterTracked(t: Tables, log: Log, clock: real, now: real)
    requires AllTracked(t, log, clock) && clock <= now
    ensures AllTracked(t, log, now)
  {
    forall who ensures Tracked(t, log, now, who) {
      StillTracked(t, log, clock, who, who, now);
    }
  }

  /** The sweep cannot be observed: any run shows the same with all its sweeps taken out. */
  lemma {:induction false} SweepsCannotBeObserved(calls: seq<Call>)
    requires Timely(calls, 0.0)
    ensures var empty := Tables(map[], map[], map[], {}); Shown(empty, calls) == Shown(empty, WithoutSweeps(calls))
  {
    var empty := Tables(map[], map[], map[], {});
    assert AllTracked(empty, Start, 0.0);
    SameLogSameAnswers(empty, empty, Start, 0.0, calls);
  }

  class Limiter {
    var failTracker: map<Ip, seq<real>>
    var bannedIps: map<Ip, real>
    var banHistory: map<Ip, seq<real>>
    var permabannedIps: set<Ip>

    ghost var log: Log     // every failure recorded so far
    ghost var clock: real  // the latest time the limiter has seen

    ghost function View(): Tables
      reads this
    {
      Tables(failTracker, bannedIps, banHistory, permabannedIps)
    }

    /** The data refinement: the pruned tables stand for the unpruned log. */
    ghost predicate Valid()
      reads this
    {
      forall ip :: Tracked(View(), log, clock, ip)
    }

    constructor ()
      ensures Valid() && log == Start && clock == 0.0
    {
      failTracker, bannedIps, banHistory, permabannedIps := map[], map[], map[], {};
      log, clock := Start, 0.0;
    }

    /** One failure is one entry of the log, whatever was pruned before. */
    method RecordAuthFailure(ip: Ip, now: real)
      requires Valid() && clock <= now
      modifies this
      ensures Valid() && log == Then(old(log), ip, now) && clock == now && View() == Recorded(old(View()), ip, now)
      ensures Triggers(log) && !Permanent(log, ip) ==> ip in bannedIps && bannedIps[ip] == now + 300.0
      ensures !Triggers(log) ==> bannedIps == old(bannedIps)
      ensures permabannedIps == old(permabannedIps) + if Permanent(log, ip) then {ip} else {}
    {
      RecordedIsTracked(View(), log, clock, ip, now);
      log, clock := Then(log, ip, now), now;
      if ip in permabannedIps {
        return;
      }
      var times := Later(Get(failTracker, ip), now - BAN_WINDOW) + [now];
      failTracker := failTracker[ip := times];
      if |times| >= BAN_THRESHOLD {
        bannedIps := bannedIps[ip := now + BAN_DURATION];
        failTracker := failTracker - {ip};
        var history := Later(Get(banHistory, ip), now - PERMABAN_WINDOW) + [now];
        banHistory := banHistory[ip := history];
        if |history| >= PERMABAN_THRESHOLD {
          permabannedIps := permabannedIps + {ip};
          bannedIps := bannedIps - {ip};
          banHistory := banHistory - {ip};
        }
      }
      assert View() == Recorded(old(View()), ip, now);
    }

    /** After a change at `ip` only, it is enough that `ip` itself is tracked. */
    lemma KeepOthers(t: Tables, ip: Ip)
      requires AgreeBut(t, View(), ip) && Tracked(View(), log, clock, ip)
      requires forall who :: who != ip ==> Tracked(t, log, clock, who)
      ensures Valid()
    {
      forall who | who != ip ensures Tracked(View(), log, clock, who) {
        AgreeingIsTracked(t, View(), log, clock, ip, who);
      }
    }

    /** The answer is the one the whole log gives; lazily dropping an expired ban changes nothing. */
    method IsBanned(ip: Ip, now: real) returns (banned: bool)
      requires Valid() && clock <= now
      modifies this
      ensures Valid() && log == old(log) && clock == now
      ensures banned <==> Banned(log, ip, now)
      ensures banned == Answer(old(View()), ip, now) && View() == Asked(old(View()), ip, now)
    {
      Advance(now);
      assert Tracked(View(), log, clock, ip);
      if ip in permabannedIps {
        return true;
      }
      if ip !in bannedIps {
        return false;
      }
      if now > bannedIps[ip] {
        ghost var t := View();
        bannedIps := bannedIps - {ip};
        KeepOthers(t, ip);
        return false;
      }
      return true;
    }

    ghost method Advance(now: real)
      requires Valid() && clock <= now
      modifies this`clock
      ensures Valid() && clock == now
    {
      ghost var t := View();
      forall who ensures Tracked(t, log, now, who) {
        StillTracked(t, log, clock, who, who, now);
      }
      clock := now;
      assert View() == t;
    }

    /** The sweep leaves the log alone, so no later answer or ban decision can tell it ran. */
    method CleanupRateLimit(now: real)
      requires Valid() && clock <= now
      modifies this
      ensures Valid() && log == old(log) && clock == now && View() == Swept(old(View()), now)
      ensures forall ip :: ip in failTracker <==>
        && ip in old(failTracker) && old(failTracker)[ip] != []
        && old(failTracker)[ip][|old(failTracker)[ip]| - 1] >= now - 60.0
      ensures forall ip :: ip in bannedIps <==> ip in old(bannedIps) && old(bannedIps)[ip] >= now
      ensures forall ip :: ip in banHistory <==>
        && ip in old(banHistory) && old(banHistory)[ip] != []
        && old(banHistory)[ip][|old(banHistory)[ip]| - 1] >= now - 3600.0
    {
      Advance(now);
      SweepFails(now);
      SweepBans(now);
      SweepHistory(now);
    }

    method SweepFails(now: real)
      requires Valid() && clock == now
      modifies this`failTracker
      ensures Valid()
      ensures failTracker == map ip | ip in old(failTracker)
          && !Stale(old(failTracker)[ip], now - BAN_WINDOW) :: old(failTracker)[ip]
    {
      var stale := set ip | ip in failTracker && Stale(failTracker[ip], now - BAN_WINDOW);
      ghost var all := stale;
      while stale != {}
        invariant Valid() && stale <= all && failTracker == old(failTracker) - (all - stale)
        decreases stale
      {
        var ip :| ip in stale;
        ghost var t := View();
        StaleFailsDropped(t, log, clock, ip);
        stale, failTracker := stale - {ip}, failTracker - {ip};
        KeepOthers(t, ip);
      }
    }

    method SweepBans(now: real)
      requires Valid() && clock == now
      modifies this`bannedIps
      ensures Valid()
      ensures bannedIps == map ip | ip in old(bannedIps) && now <= old(bannedIps)[ip] :: old(bannedIps)[ip]
    {
      var expired := set ip | ip in bannedIps && now > bannedIps[ip];
      ghost var all := expired;
      while expired != {}
        invariant Valid() && expired <= all && bannedIps == old(bannedIps) - (all - expired)
        decreases expired
      {
        var ip :| ip in expired;
        ghost var t := View();
        assert Tracked(t, log, clock, ip);
        expired, bannedIps := expired - {ip}, bannedIps - {ip};
        KeepOthers(t, ip);
      }
    }

    method SweepHistory(now: real)
      requires Valid() && clock == now
      modifies this`banHistory
      ensures Valid()
      ensures banHistory == map ip | ip in old(banHistory)
          && !Stale(old(banHistory)[ip], now - PERMABAN_WINDOW) :: old(banHistory)[ip]
    {
      var stale := set ip | ip in banHistory && Stale(banHistory[ip], now - PERMABAN_WINDOW);
      ghost var all := stale;
      while stale != {}
        invariant Valid() && stale <= all && banHistory == old(banHistory) - (all - stale)
        decreases stale
      {
        var ip :| ip in stale;
        ghost var t := View();
        StaleHistoryDropped(t, log, clock, ip);
        stale, banHistory := stale - {ip}, banHistory - {ip};
        KeepOthers(t, ip);
      }
    }
  }
}
