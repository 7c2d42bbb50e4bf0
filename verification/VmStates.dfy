/**
 The cache of VM states, healed from time to time against the hypervisor, and the bounded log of state
 events that pollers follow by timestamp.
 */
module VmStates {
  import opened Options

  datatype Entry = Entry(state: string, since: real)

  datatype Event = Event(domain: string, what: string, timestamp: real)

  function States(cache: map<string, Entry>): map<string, string> {
    map name | name in cache :: cache[name].state
  }

  const CAP := 500

  function Last(log: seq<Event>, n: nat): seq<Event> {
    if |log| <= n then log else log[|log| - n..]
  }

  function Newer(events: seq<Event>, since: real): seq<Event> {
    if events == [] then [] else (if events[0].timestamp > since then [events[0]] else []) + Newer(events[1..], since)
  }

  ghost predicate Chronological(log: seq<Event>) {
    forall i, j :: 0 <= i < j < |log| ==> log[i].timestamp <= log[j].timestamp
  }

  /** The timestamp a poller passes that has seen the first `p` events. */
  function Since(log: seq<Event>, p: nat): real
    requires p <= |log|
  {
    if p == 0 then 0.0 else log[p - 1].timestamp
  }

  lemma {:induction false} AllNewer(events: seq<Event>, since: real)
    requires forall k :: 0 <= k < |events| ==> events[k].timestamp > since
    ensures Newer(events, since) == events
  {
    if events != [] {
      AllNewer(events[1..], since);
    }
  }

  lemma {:induction false} NoneNewer(events: seq<Event>, since: real)
    requires forall k :: 0 <= k < |events| ==> events[k].timestamp <= since
    ensures Newer(events, since) == []
  {
    if events != [] {
      NoneNewer(events[1..], since);
    }
  }

  lemma {:induction false} NewerAppend(a: seq<Event>, b: seq<Event>, since: real)
    ensures Newer(a + b, since) == Newer(a, since) + Newer(b, since)
  {
    if a == [] {
      assert a + b == b;
    } else {
      assert (a + b)[1..] == a[1..] + b;
      NewerAppend(a[1..], b, since);
    }
  }

  lemma {:induction false} NewerShorter(events: seq<Event>, since: real)
    ensures |Newer(events, since)| <= |events|
    ensures events != [] && events[0].timestamp <= since ==> |Newer(events, since)| < |events|
  {
    if events != [] {
      NewerShorter(events[1..], since);
    }
  }

  /** No more than the cap arrived since the first `p`, and the next one is later than the last of those. */
  predicate KeepsUp(log: seq<Event>, p: nat)
    requires p <= |log|
  {
    |log| - p <= CAP && (p < |log| ==> log[p].timestamp > Since(log, p))
  }

  /**
   A poller that has seen the first `p` events gets exactly the others, in order, none twice, if and only if
   no more than the cap arrived since and the next event is later than the last one it saw.
   */
  lemma PollExact(log: seq<Event>, p: nat)
    requires Chronological(log) && p <= |log| && (log != [] ==> log[0].timestamp >= 0.0)
    ensures Newer(Last(log, CAP), Since(log, p)) == log[p..] <==> KeepsUp(log, p)
  {
    hide Newer;
    var since, kept := Since(log, p), Last(log, CAP);
    var cut := |log| - |kept|;
    if cut <= p {
      assert kept == log[cut..p] + log[p..];
      NoneNewer(log[cut..p], since);
      NewerAppend(log[cut..p], log[p..], since);
      assert [] + Newer(log[p..], since) == Newer(log[p..], since);
      AllOrFewer(log[p..], since);
    } else {
      NewerShorter(kept, since);
    }
  }

  /** Two events at one time, the first of them seen: the second is never delivered. */
  lemma EqualTimesLoseAnEvent(first: Event, second: Event)
    requires first.timestamp == second.timestamp >= 0.0
    ensures Chronological([first, second])
        && Newer(Last([first, second], CAP), Since([first, second], 1)) != [first, second][1..]
  {
    PollExact([first, second], 1);
  }

  lemma AllOrFewer(events: seq<Event>, since: real)
    requires Chronological(events)
    ensures Newer(events, since) == events <==> (events == [] || events[0].timestamp > since)
  {
    if events != [] && events[0].timestamp > since {
      AllNewer(events, since);
    } else {
      NewerShorter(events, since);
    }
  }

  class Agent {
    var cache: map<string, Entry>
    var events: seq<Event>
    /** Every event ever appended. */
    ghost var log: seq<Event>

    ghost predicate Valid()
      reads this
    {
      events == Last(log, CAP)
    }

    constructor ()
      ensures Valid() && cache == map[] && log == []
    {
      cache, events, log := map[], [], [];
    }

    /** `_append_vm_event` */
    method AppendVmEvent(event: Event)
      requires Valid()
      modifies this`events, this`log
      ensures Valid() && log == old(log) + [event]
      ensures events == if |log| <= 500 then log else log[|log| - 500..]
    {
      events := events + [event];
      log := log + [event];
      while |events| > CAP
        invariant log == old(log) + [event]
        invariant |events| <= |log| && events == log[|log| - |events|..]
        invariant |events| == |log| || |events| >= CAP
      {
        events := events[1..];
      }
    }

    /** `_lifecycle_cb`; an event of a kind that is not known has no state. */
    method Lifecycle(name: string, state: Option<string>, now: real)
      requires Valid()
      modifies this
      ensures Valid()
      ensures "troshka-" <= name && state.Some? ==>
        cache == old(cache)[name := Entry(state.value, now)] && log == old(log) + [Event(name, state.value, now)]
      ensures !("troshka-" <= name && state.Some?) ==> cache == old(cache) && log == old(log)
    {
      if !("troshka-" <= name) || state.None? {
        return;
      }
      cache := cache[name := Entry(state.value, now)];
      AppendVmEvent(Event(name, state.value, now));
    }

    /**
     `_reconcile_vm_state_cache`: the cache says what the hypervisor said, and a domain whose state it
     already had right keeps the time since when.
     */
    method Reconcile(live: map<string, string>, now: real)
      requires Valid()
      modifies this`cache
      ensures States(cache) == live
      ensures forall name :: name in live ==>
        cache[name].since ==
        if name in old(cache) && old(cache)[name].state == live[name] then old(cache)[name].since else now
    {
      ghost var before := cache;
      var todo := live.Keys;
      while todo != {}
        invariant todo <= live.Keys && cache.Keys == before.Keys + (live.Keys - todo)
        invariant forall name :: name in cache ==>
          if name in live && name !in todo then
            cache[name] == Entry(live[name],
                                 if name in before && before[name].state == live[name] then before[name].since else now)
          else name in before && cache[name] == before[name]
      {
        var name :| name in todo;
        todo := todo - {name};
        if name !in cache || cache[name].state != live[name] {
          cache := cache[name := Entry(live[name], now)];
        }
      }
      cache := map name | name in cache && name in live :: cache[name];
    }

    /** `handle_vm_events` */
    method VmEvents(since: real) returns (filtered: seq<Event>)
      requires Valid()
      ensures filtered == Newer(Last(log, CAP), since)
    {
      filtered := [];
      for k := 0 to |events|
        invariant filtered == Newer(events[..k], since)
      {
        assert events[..k + 1] == events[..k] + [events[k]];
        NewerAppend(events[..k], [events[k]], since);
        assert Newer([events[k]], since) == if events[k].timestamp > since then [events[k]] else [];
        if events[k].timestamp > since {
          filtered := filtered + [events[k]];
        }
      }
      assert events[..|events|] == events;
    }
  }

  /** A client that asks for what is later than the last event it got. */
  class Poller {
    var since: real
    ghost var seen: seq<Event>

    /** It has seen this much of the log. */
    ghost predicate Follows(log: seq<Event>)
      reads this
    {
      seen <= log && since == Since(log, |seen|)
    }

    constructor ()
      ensures since == 0.0 && seen == []
    {
      since, seen := 0.0, [];
    }

    /** However often it polls: as long as it keeps up, it has seen every event once and in order. */
    method Poll(agent: Agent) returns (news: seq<Event>)
      requires agent.Valid() && Follows(agent.log) && Chronological(agent.log)
      requires agent.log != [] ==> agent.log[0].timestamp >= 0.0
      modifies this
      ensures seen == old(seen) + news
      ensures KeepsUp(agent.log, |old(seen)|) <==> seen == agent.log
      ensures seen == agent.log ==> Follows(agent.log)
    {
      hide Newer;
      news := agent.VmEvents(since);
      PollExact(agent.log, |seen|);
      assert agent.log == seen + agent.log[|seen|..];
      assert (seen + news)[|seen|..] == news;
      seen := seen + news;
      if news != [] {
        since := news[|news| - 1].timestamp;
      }
    }
  }
}
