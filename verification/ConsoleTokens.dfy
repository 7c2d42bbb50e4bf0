/**
 The console relay daemon: a token opens one relay, once.  What a token says, once its signature is
 verified, is a function of its text.  Handlers run interleaved; each method here is what one handler
 does between two points where it waits.
 */
module ConsoleTokens {
  import opened Options

  /** `exp` and the domain are absent, or given; no domain reads as "". */
  datatype Claims = Claims(exp: Option<real>, domain: string)
  {
    /** The comparison of `_verify_jwt`: no `exp` counts as 0. */
    predicate Expired(now: real) { (if exp.Some? then exp.value else 0.0) < now }
  }

  datatype Path = Check(token: string) | Connect(token: string) | Elsewhere

  function Parse(path: string): Path {
    if "/check/" <= path then Check(path[7..]) else if "/ws/" <= path then Connect(path[4..]) else Elsewhere
  }

  datatype Reply = InvalidPath | InvalidToken | AlreadyUsed | InUse | Available | MissingDomain | Admitted

  /** A handler past the check of its token: it is connecting, or it relays. */
  datatype Session = Session(token: string, domain: string, relaying: bool)

  ghost predicate Distinct(tokens: seq<string>) {
    forall i, j :: 0 <= i < j < |tokens| ==> tokens[i] != tokens[j]
  }

  type Decoder = string -> Option<Claims>

  /** The two tables agree, and what was pruned can no longer be verified. */
  ghost predicate TokensOk(claims: Decoder, consumed: set<string>, expiry: map<string, real>, used: seq<string>,
                           clock: real)
  {
    && consumed == expiry.Keys
    && (forall token :: token in consumed ==>
          token in used && claims(token).Some? && claims(token).value.exp == Some(expiry[token]))
    && (forall token :: token in used ==>
          token in consumed || (claims(token).Some? && claims(token).value.Expired(clock)))
    && Distinct(used)
  }

  /** Each session has a token of its own. */
  ghost predicate SessionsOk(sessions: map<nat, Session>, next: nat, used: seq<string>, relayed: seq<string>) {
    && (forall id :: id in sessions ==>
          id < next && sessions[id].token in used && (sessions[id].token in relayed <==> sessions[id].relaying))
    && (forall a, b :: a in sessions && b in sessions && a != b ==> sessions[a].token != sessions[b].token)
    && (forall token :: token in relayed ==> token in used)
    && Distinct(relayed)
  }

  /** The live relays on a domain during which none on that domain ended. */
  ghost function Lit(sessions: map<nat, Session>, shaded: set<nat>, domain: string): set<nat> {
    set id | id in sessions && sessions[id].relaying && sessions[id].domain == domain && id !in shaded
  }

  /** A domain is active exactly when there is such a relay on it. */
  ghost predicate ActiveOk(active: set<string>, sessions: map<nat, Session>, shaded: set<nat>) {
    forall domain :: domain in active <==> Lit(sessions, shaded, domain) != {}
  }

  lemma ConsumedOnce(claims: Decoder, consumed: set<string>, expiry: map<string, real>, used: seq<string>,
                     before: real, now: real, token: string)
    requires TokensOk(claims, consumed, expiry, used, before) && before <= now && now > 0.0 && token !in consumed
    requires claims(token).Some? && !claims(token).value.Expired(now)
    ensures claims(token).value.exp.Some? && token !in used
    ensures TokensOk(claims, consumed + {token}, expiry[token := claims(token).value.exp.value], used + [token], now)
  {
    assert forall t :: t in used + [token] <==> t in used || t == token;
  }

  lemma LaterOk(claims: Decoder, consumed: set<string>, expiry: map<string, real>, used: seq<string>, before: real,
                now: real)
    requires TokensOk(claims, consumed, expiry, used, before) && before <= now
    ensures TokensOk(claims, consumed, expiry, used, now)
  {
  }

  lemma SessionAdmitted(sessions: map<nat, Session>, next: nat, used: seq<string>, relayed: seq<string>,
                        active: set<string>, shaded: set<nat>, session: Session)
    requires SessionsOk(sessions, next, used, relayed) && ActiveOk(active, sessions, shaded)
    requires session.token !in used && !session.relaying
    ensures SessionsOk(sessions, next, used + [session.token], relayed)
    ensures SessionsOk(sessions[next := session], next + 1, used + [session.token], relayed)
    ensures ActiveOk(active, sessions[next := session], shaded)
  {
    forall domain ensures Lit(sessions[next := session], shaded, domain) == Lit(sessions, shaded, domain) {
    }
  }

  lemma SessionOpened(sessions: map<nat, Session>, next: nat, used: seq<string>, relayed: seq<string>,
                      active: set<string>, shaded: set<nat>, id: nat)
    requires SessionsOk(sessions, next, used, relayed) && ActiveOk(active, sessions, shaded)
    requires id in sessions && !sessions[id].relaying
    ensures var session := sessions[id].(relaying := true);
      && session.token !in relayed
      && SessionsOk(sessions[id := session], next, used, relayed + [session.token])
      && ActiveOk(active + {session.domain}, sessions[id := session], shaded - {id})
  {
    var session := sessions[id].(relaying := true);
    var after, shades := sessions[id := session], shaded - {id};
    assert forall t :: t in relayed + [session.token] <==> t in relayed || t == session.token;
    forall domain ensures Lit(after, shades, domain) ==
        Lit(sessions, shaded, domain) + (if domain == session.domain then {id} else {}) {
    }
  }

  lemma SessionGone(sessions: map<nat, Session>, next: nat, used: seq<string>, relayed: seq<string>, id: nat)
    requires SessionsOk(sessions, next, used, relayed)
    ensures SessionsOk(sessions - {id}, next, used, relayed)
  {
  }

  lemma NotYetRelaying(sessions: map<nat, Session>, active: set<string>, shaded: set<nat>, id: nat)
    requires ActiveOk(active, sessions, shaded) && id in sessions && !sessions[id].relaying
    ensures ActiveOk(active, sessions - {id}, shaded)
  {
    forall domain ensures Lit(sessions - {id}, shaded, domain) == Lit(sessions, shaded, domain) {
    }
  }

  /** The relays on this domain that go on. */
  ghost function Others(sessions: map<nat, Session>, domain: string): set<nat> {
    set other | other in sessions && sessions[other].relaying && sessions[other].domain == domain
  }

  lemma RelayEnded(sessions: map<nat, Session>, active: set<string>, shaded: set<nat>, id: nat)
    requires ActiveOk(active, sessions, shaded) && id in sessions && sessions[id].relaying
    ensures var domain, rest := sessions[id].domain, sessions - {id};
      ActiveOk(active - {domain}, rest, shaded + Others(rest, domain))
  {
    var ended, rest := sessions[id].domain, sessions - {id};
    forall domain
      ensures Lit(rest, shaded + Others(rest, ended), domain) == if domain == ended then {}
          else Lit(sessions, shaded, domain)
    {
    }
  }

  class Daemon {
    const claims: string -> Option<Claims>
    var consumed: set<string>
    var expiry: map<string, real>
    var active: set<string>
    var sessions: map<nat, Session>
    var next: nat

    /** The time of the last look at the clock. */
    ghost var clock: real
    /** Every token ever consumed, and every token that ever relayed a relay, in order. */
    ghost var used: seq<string>
    ghost var relayed: seq<string>
    /** The relays during which another relay on the same domain ended. */
    ghost var shaded: set<nat>

    ghost predicate Valid()
      reads this
    {
      && TokensOk(claims, consumed, expiry, used, clock)
      && SessionsOk(sessions, next, used, relayed)
      && ActiveOk(active, sessions, shaded)
    }

    constructor (claims: string -> Option<Claims>)
      ensures Valid() && used == [] && relayed == [] && clock == 0.0 && this.claims == claims
    {
      this.claims := claims;
      consumed, expiry, active, sessions, next := {}, map[], {}, map[], 0;
      clock, used, relayed, shaded := 0.0, [], [], {};
    }

    /** What a connection on this path is told at this time. */
    function ReplyTo(path: string, now: real): Reply
      reads this
    {
      match Parse(path)
      case Elsewhere => InvalidPath
      case Check(token) =>
        if claims(token).None? || claims(token).value.Expired(now) then InvalidToken
        else if token in consumed then AlreadyUsed
        else if claims(token).value.domain in active then InUse
        else Available
      case Connect(token) =>
        if claims(token).None? || claims(token).value.Expired(now) then InvalidToken
        else if token in consumed then AlreadyUsed
        else if claims(token).value.domain == "" then MissingDomain
        else Admitted
    }

    /**
     `_handle_connection` up to the connection to the VNC port.  A token is consumed by the first connection
     that presents it, and by no check; no token is ever consumed twice.
     */
    method HandleConnection(path: string, now: real) returns (reply: Reply, id: nat)
      requires Valid() && now >= clock && now > 0.0
      modifies this
      ensures Valid() && clock == now
      ensures reply == old(ReplyTo(path, now))
      ensures active == old(active) && relayed == old(relayed)
      ensures reply in {Admitted, MissingDomain} ==>
        && Parse(path).Connect? && Parse(path).token !in old(used) && used == old(used) + [Parse(path).token]
        && consumed == old(consumed) + {Parse(path).token}
      ensures reply !in {Admitted, MissingDomain} ==> consumed == old(consumed) && used == old(used)
      ensures reply == Admitted ==>
        && id !in old(sessions)
        && sessions == old(sessions)[id := Session(Parse(path).token, claims(Parse(path).token).value.domain, false)]
      ensures reply != Admitted ==> sessions == old(sessions)
    {
      hide TokensOk, SessionsOk, ActiveOk;
      LaterOk(claims, consumed, expiry, used, clock, now);
      clock := now;
      id := next;
      var checkOnly := "/check/" <= path;
      var token;
      if checkOnly {
        token := path[7..];
      } else if "/ws/" <= path {
        token := path[4..];
      } else {
        return InvalidPath, id;
      }
      var verified := claims(token);
      if verified.None? || verified.value.Expired(now) {
        return InvalidToken, id;
      }
      if token in consumed {
        return AlreadyUsed, id;
      }
      if checkOnly {
        return if verified.value.domain in active then InUse else Available, id;
      }
      ConsumedOnce(claims, consumed, expiry, used, clock, now, token);
      SessionAdmitted(sessions, next, used, relayed, active, shaded, Session(token, verified.value.domain, false));
      consumed, expiry := consumed + {token}, expiry[token := verified.value.exp.value];
      used := used + [token];
      if verified.value.domain == "" {
        return MissingDomain, id;
      }
      sessions := sessions[id := Session(token, verified.value.domain, false)];
      next := next + 1;
      return Admitted, id;
    }
  
    /** The rest of `_handle_connection` up to the relay: the VNC port may be missing or refuse. */
    method OpenRelay(id: nat, vncReady: bool) returns (relaying: bool)
      requires Valid() && id in sessions && !sessions[id].relaying
      modifies this
      ensures Valid() && clock == old(clock) && consumed == old(consumed) && used == old(used)
      ensures relaying == vncReady
      ensures relaying ==>
        && old(sessions)[id].token !in old(relayed) && relayed == old(relayed) + [old(sessions)[id].token]
        && sessions == old(sessions)[id := old(sessions)[id].(relaying := true)]
        && active == old(active) + {old(sessions)[id].domain}
      ensures !relaying ==> sessions == old(sessions) - {id} && active == old(active) && relayed == old(relayed)
    {
      hide TokensOk, SessionsOk, ActiveOk;
      var session := sessions[id];
      if !vncReady {
        SessionGone(sessions, next, used, relayed, id);
        NotYetRelaying(sessions, active, shaded, id);
        sessions := sessions - {id};
        return false;
      }
      SessionOpened(sessions, next, used, relayed, active, shaded, id);
      active := active + {session.domain};
      sessions := sessions[id := session.(relaying := true)];
      relayed := relayed + [session.token];
      shaded := shaded - {id};
      return true;
    }

    /** The `finally` clause of a relay. */
    method EndRelay(id: nat)
      requires Valid() && id in sessions && sessions[id].relaying
      modifies this
      ensures Valid() && clock == old(clock) && consumed == old(consumed) && used == old(used)
          && relayed == old(relayed)
      ensures sessions == old(sessions) - {id} && active == old(active) - {old(sessions)[id].domain}
    {
      hide TokensOk, SessionsOk, ActiveOk;
      var domain := sessions[id].domain;
      SessionGone(sessions, next, used, relayed, id);
      RelayEnded(sessions, active, shaded, id);
      active := active - {domain};
      sessions := sessions - {id};
      shaded := shaded + Others(sessions, domain);
    }

    /** `_prune_consumed`: no answer, now or later, is another for it. */
    method PruneConsumed(now: real)
      requires Valid() && now >= clock
      modifies this
      ensures Valid() && clock == now
      ensures sessions == old(sessions) && active == old(active) && used == old(used) && relayed == old(relayed)
      ensures forall token :: token in consumed <==> token in old(consumed) && !claims(token).value.Expired(now)
      ensures forall path: string, later: real :: later >= now ==> ReplyTo(path, later) == old(ReplyTo(path, later))
    {
      hide SessionsOk, ActiveOk;
      clock := now;
      var expired := set token | token in expiry && expiry[token] < now;
      consumed := consumed - expired;
      expiry := expiry - expired;
    }
  }

  /** A token is good while it is not expired; one without an expiry is not, once the clock is past 0. */
  predicate Good(claims: Option<Claims>, now: real) {
    claims.Some? && (if claims.value.exp.Some? then claims.value.exp.value >= now else 0.0 >= now)
  }

  /**
   What a check is told: whether its token is good, whether it was used, and whether somebody is on its domain; and
   what a connection is told.  Any other path is not valid.
   */
  lemma Answers(daemon: Daemon, token: string, now: real)
    ensures var claims, used := daemon.claims(token), token in daemon.consumed;
      && (daemon.ReplyTo("/check/" + token, now) == InvalidToken <==> !Good(claims, now))
      && (daemon.ReplyTo("/check/" + token, now) == AlreadyUsed <==> Good(claims, now) && used)
      && (daemon.ReplyTo("/check/" + token, now) == InUse <==>
            Good(claims, now) && !used && claims.value.domain in daemon.active)
      && (daemon.ReplyTo("/check/" + token, now) == Available <==>
            Good(claims, now) && !used && claims.value.domain !in daemon.active)
      && (daemon.ReplyTo("/ws/" + token, now) == InvalidToken <==> !Good(claims, now))
      && (daemon.ReplyTo("/ws/" + token, now) == AlreadyUsed <==> Good(claims, now) && used)
      && (daemon.ReplyTo("/ws/" + token, now) == MissingDomain <==>
            Good(claims, now) && !used && claims.value.domain == "")
      && (daemon.ReplyTo("/ws/" + token, now) == Admitted <==>
            Good(claims, now) && !used && claims.value.domain != "")
    ensures forall path: string ::
      daemon.ReplyTo(path, now) == InvalidPath <==> !("/check/" <= path) && !("/ws/" <= path)
  {
    PathsParse(token);
  }

  lemma PathsParse(token: string)
    ensures Parse("/check/" + token) == Check(token) && Parse("/ws/" + token) == Connect(token)
  {
    var check, connect := "/check/" + token, "/ws/" + token;
    assert "/check/" <= check && check[7..] == token;
    assert connect[1] == 'w' && "/check/"[1] == 'c' && "/ws/" <= connect && connect[4..] == token;
  }

  /** A domain that is active has a live relay. */
  lemma ActiveMeansLive(active: set<string>, sessions: map<nat, Session>, shaded: set<nat>, domain: string)
    requires ActiveOk(active, sessions, shaded) && domain in active
    ensures exists id :: id in sessions && sessions[id].relaying && sessions[id].domain == domain
  {
    var id :| id in Lit(sessions, shaded, domain);
  }

  /** The converse fails: of two relays on one domain, the end of the first makes the second one's domain inactive. */
  method OverlappingRelays(daemon: Daemon, a: nat, b: nat)
    requires daemon.Valid() && a in daemon.sessions && b in daemon.sessions && a != b
    requires !daemon.sessions[a].relaying && !daemon.sessions[b].relaying
    requires daemon.sessions[a].domain == daemon.sessions[b].domain
    modifies daemon
    ensures daemon.Valid() && b in daemon.sessions && daemon.sessions[b].relaying
    ensures daemon.sessions[b].domain == old(daemon.sessions[b].domain) && daemon.sessions[b].domain !in daemon.active
  {
    var first := daemon.OpenRelay(a, true);
    var second := daemon.OpenRelay(b, true);
    daemon.EndRelay(a);
  }
}
