/**
 What the steps of the tunnel bring about: nobody is left hanging.  A stream that leaves the table is closed,
 an opening that leaves it is answered, and what is read on one end arrives at the other.
 */
module TunnelEffects {
  import opened Options
  import opened Frames
  import opened Tunnel
  import Runs

  // ---------- what the pump does with a message ----------

  /** The session's inbox without its first message. */
  function Taken(s: State, e: nat): map<nat, seq<Message>>
    requires Enabled(s, PumpReads(e))
  {
    s.inbox[e := s.inbox[e][1..]]
  }

  /** The pump of a running session has this message before it. */
  ghost predicate Reads(s: State, e: nat, m: Message) {
    Inv(s) && Enabled(s, PumpReads(e)) && s.inbox[e][0] == m
  }

  lemma TableIsOwned(s: State, sid: nat)
    requires Inv(s)
    ensures sid in s.streams ==> Key(s.streams[sid], sid) in s.owner
    ensures sid in s.acks ==> Key(s.acks[sid], sid) in s.owner
  {
    hide SessionsOk, HolderOk, DroppedOk, EarlyOk, OwnersOk, UpOk, DownOk;
  }

  lemma WriterOf(owner: map<Key, nat>, sid: nat, e: nat)
    requires Key(e, sid) in owner
    ensures Writers(map[sid := e], owner) == {owner[Key(e, sid)]}
  {
    var one := map[sid := e];
    assert sid in one && forall x :: x in one ==> x == sid;
  }

  /** A close message takes its stream out of the table and closes the writer, and does nothing else. */
  lemma ClosingCloses(s: State, e: nat, sid: nat)
    requires Reads(s, e, Closing(sid))
    ensures sid in s.streams ==>
      && Key(s.streams[sid], sid) in s.owner
      && After(s, PumpReads(e)) == s.(inbox := Taken(s, e), streams := s.streams - {sid},
                                      closed := s.closed + {s.owner[Key(s.streams[sid], sid)]})
    ensures sid !in s.streams ==> After(s, PumpReads(e)) == s.(inbox := Taken(s, e))
  {
    hide Inv;
    TableIsOwned(s, sid);
    if sid in s.streams {
      WriterOf(s.owner, sid, s.streams[sid]);
    }
  }

  lemma SettleSettles(s: State, sid: nat, outcome: Future)
    ensures var t := Settle(s, sid, outcome);
      && t == s.(futures := t.futures) && t.futures.Keys == s.futures.Keys
      && forall k :: k in s.futures ==>
           (t.futures[k] ==
            if sid in s.acks && k == Key(s.acks[sid], sid) && s.futures[k] == Pending then outcome else s.futures[k])
  {
    if sid in s.acks {
      var at := Key(s.acks[sid], sid);
      if at in s.futures && s.futures[at] == Pending {
        assert s.futures[at := outcome].Keys == s.futures.Keys;
        assert Settle(s, sid, outcome).futures == s.futures[at := outcome];
      }
    }
  }

  /** An answer settles the future that waits under its id, and no other; one that was settled stays so. */
  lemma AnswersSettle(s: State, e: nat, sid: nat, granted: bool)
    requires Reads(s, e, if granted then Opened(sid) else Refused(sid))
    ensures var t := After(s, PumpReads(e));
      && t == s.(inbox := Taken(s, e), futures := t.futures) && t.futures.Keys == s.futures.Keys
      && forall k :: k in s.futures ==>
           (t.futures[k] ==
            if sid in s.acks && k == Key(s.acks[sid], sid) && s.futures[k] == Pending
            then (if granted then Granted else Failed) else s.futures[k])
  {
    hide Inv, Settle;
    SettleSettles(s.(inbox := Taken(s, e)), sid, if granted then Granted else Failed);
  }

  /** A frame is written to the open writer of its stream, and to no other. */
  lemma FramesAreWritten(s: State, e: nat, data: Bytes)
    requires Reads(s, e, Binary(data))
    ensures var t := After(s, PumpReads(e)); t == s.(inbox := Taken(s, e), got := t.got)
    ensures var t := After(s, PumpReads(e));
      forall k :: At(t.got, k) == At(s.got, k) +
        if |data| >= 4 && Unpack(data).value.sid in s.streams
           && k == Key(s.streams[Unpack(data).value.sid], Unpack(data).value.sid)
           && k in s.owner && s.owner[k] !in s.closed
        then data[4..] else []
  {
    hide Inv;
    assert forall k :: At(s.got, k) + [] == At(s.got, k);
  }

  // ---------- the end of a session ----------

  /** Every writer in the table is closed, every opening in it that waits fails, and the tables are empty. */
  ghost predicate AllReleased(s: State, t: State) {
    && t.streams == map[] && t.acks == map[]
    && (forall sid :: sid in s.streams && Key(s.streams[sid], sid) in s.owner ==>
          s.owner[Key(s.streams[sid], sid)] in t.closed)
    && (forall c :: c in t.closed ==> c in s.closed || IsWriter(s, c))
    && t.futures.Keys == s.futures.Keys
    && (forall k :: k in s.futures ==>
          (t.futures[k] ==
           if k.sid in s.acks && s.acks[k.sid] == k.epoch && s.futures[k] == Pending then Failed else s.futures[k]))
  }

  ghost predicate IsWriter(s: State, c: nat) {
    exists sid :: sid in s.streams && Key(s.streams[sid], sid) in s.owner && s.owner[Key(s.streams[sid], sid)] == c
  }

  /** However its pump ends, a session leaves nobody behind and is no longer the one to use. */
  lemma EndReleasesAll(s: State, e: nat)
    requires Inv(s) && Enabled(s, PumpEnds(e))
    ensures var t := After(s, PumpEnds(e));
      && AllReleased(s, t) && Pump(t.pumps, e) == Done && t.ws != Some(e) && (s.ws != Some(e) ==> t.ws == s.ws)
      && t == s.(streams := map[], acks := map[], closed := t.closed, futures := t.futures, ws := t.ws,
                 pumps := s.pumps[e := Done])
  {
    hide Inv;
  }

  /** Before it dials anew, a client that was told to closes everything there is. */
  lemma ClosedBeforeRedial(s: State)
    requires Inv(s) && Enabled(s, SocketClosed) && s.lock.stage.closeLocals
    ensures var t := After(s, SocketClosed);
      && AllReleased(s, t)
      && t == s.(streams := map[], acks := map[], closed := t.closed, futures := t.futures, lock := t.lock)
  {
    hide Inv;
  }

  /** What dropping a session leaves of it. */
  ghost predicate LetGo(s: State, t: State, who: Party) {
    && t == s.(ws := None, pumps := t.pumps, lock := t.lock) && t.lock.Held? && t.lock.holder == who
    && (s.ws.Some? ==>
          && t.lock.stage.AwaitPump? && t.lock.stage.session == s.ws.value
          && Pump(t.pumps, s.ws.value) == if Pump(s.pumps, s.ws.value) == Running then Cancelling else Done)
    && forall e: nat :: s.ws != Some(e) ==> Pump(t.pumps, e) == Pump(s.pumps, e)
  }

  lemma DropsSession(s: State, who: Party, closeLocals: bool)
    ensures LetGo(s, Drop(s, who, closeLocals), who)
  {
    var t := Drop(s, who, closeLocals);
    if s.ws == None {
      assert t.pumps == s.pumps;
    } else {
      assert t.pumps == s.pumps[s.ws.value := if Pump(s.pumps, s.ws.value) == Running then Cancelling else Done];
    }
  }

  /** Dropping a session: it is not used from here on, and its pump is cancelled, or never runs. */
  lemma DropLetsGo(s: State, step: Step)
    requires Enabled(s, step)
    ensures step.StartDrop? ==> LetGo(s, After(s, step), ClientTask(step.c))
    ensures step.IdleDrop? ==> LetGo(s, After(s, step), IdleTask)
  {
    hide LetGo, Drop;
    if step.StartDrop? {
      DropsSession(s, ClientTask(step.c), s.lock.stage.force);
    } else if step.IdleDrop? {
      DropsSession(s, IdleTask, false);
    }
  }

  // ---------- clients ----------

  /** A leaving client is gone: its writer is closed, and its id out of both tables. */
  lemma LeavesCleanly(s: State, c: nat)
    requires Inv(s) && Enabled(s, Leave(c))
    ensures var t, sid := After(s, Leave(c)), if s.clients[c].key.Some? then s.clients[c].key.value.sid else 0;
      t == s.(clients := s.clients[c := s.clients[c].(phase := Gone)], closed := s.closed + {c},
              streams := s.streams - {sid}, acks := s.acks - {sid})
  {
    hide Inv;
  }

  /** What a client reads and sends arrives on its own stream, and on no other. */
  lemma RelaysUp(s: State, c: nat, n: nat)
    requires Inv(s) && Enabled(s, Read(c, n)) && s.clients[c].key.Some? && s.clients[c].key.value.sid < 0x1_0000_0000
    ensures var cl := s.clients[c];
      var t := After(s, Read(c, n));
      Enabled(t, SendOk(c)) &&
      var u := After(t, SendOk(c));
      && At(u.up, cl.key.value) == At(s.up, cl.key.value) + cl.wrote[cl.read..cl.read + n]
      && (forall k :: k != cl.key.value ==> At(u.up, k) == At(s.up, k))
      && u == s.(up := u.up, clients := s.clients[c := cl.(phase := Streaming([]), read := cl.read + n)])
  {
    hide Inv;
    var cl := s.clients[c];
    UnpackPack(cl.key.value.sid, cl.wrote[cl.read..cl.read + n]);
  }

  /** An opening that succeeds frees the lock and starts the stream. */
  lemma OpenStarts(s: State, c: nat)
    requires Inv(s) && Enabled(s, OpenOk(c))
    ensures After(s, OpenOk(c)) ==
      s.(lock := Free, clients := s.clients[c := s.clients[c].(phase := Streaming([]))])
  {
    hide Inv;
  }

  /** An opening that fails goes from the tables, and is tried once more on a fresh session if no other is in use. */
  lemma OpenIsRetried(s: State, c: nat)
    requires Enabled(s, OpenFail(c)) && !s.lock.stage.retry
    ensures var sid := s.lock.stage.stream.sid;
      var u := s.(streams := s.streams - {sid}, acks := s.acks - {sid});
      After(s, OpenFail(c)) ==
      if u.streams == map[] && u.acks == map[] then u.(lock := Held(ClientTask(c), Deciding(true)))
      else u.(clients := s.clients[c := s.clients[c].(phase := Leaving)], lock := Free)
  {
  }

  /** The second time the client gives up: it is gone at once, or leaves. */
  lemma OpenGivesUp(s: State, c: nat)
    requires Enabled(s, OpenFail(c)) && s.lock.stage.retry
    ensures var sid := s.lock.stage.stream.sid;
      After(s, OpenFail(c)) in
      {s.(clients := s.clients[c := s.clients[c].(phase := Leaving)], lock := Free),
       s.(clients := s.clients[c := s.clients[c].(phase := Gone)], lock := Free, closed := s.closed + {c},
          streams := s.streams - {sid}, acks := s.acks - {sid})}
  {
    hide GiveUp;
    TwoWaysToGiveUp(s, c, s.lock.stage.stream.sid);
  }

  lemma TwoWaysToGiveUp(s: State, c: nat, sid: nat)
    requires c in s.clients
    ensures GiveUp(s, c, sid) in
      {s.(clients := s.clients[c := s.clients[c].(phase := Leaving)], lock := Free),
       s.(clients := s.clients[c := s.clients[c].(phase := Gone)], lock := Free, closed := s.closed + {c},
          streams := s.streams - {sid}, acks := s.acks - {sid})}
  {
  }

  /** A dial that fails sends its client away; and what the lock's holder waits for goes on once the pump is done. */
  lemma FailedDialEnds(s: State, c: nat)
    requires Enabled(s, DialFail(c))
    ensures After(s, DialFail(c)) == s.(clients := s.clients[c := s.clients[c].(phase := Leaving)], lock := Free)
  {
  }

  lemma JoinedPumpIsClosed(s: State)
    requires Enabled(s, PumpJoined)
    ensures After(s, PumpJoined) == s.(lock := Held(s.lock.holder, AwaitClose(s.lock.stage.closeLocals)))
  {
  }

  /** What the peer writes stands behind what it wrote before; a writer can be closed, or fail, at any time. */
  lemma PeersActAnyTime(s: State, c: nat, data: Bytes, e: nat, sid: nat)
    ensures c in s.clients ==>
      && After(s, Write(c, data)) == s.(clients := s.clients[c := s.clients[c].(wrote := s.clients[c].wrote + data)])
      && After(s, CloseWriter(c)) == s.(closed := s.closed + {c})
    ensures Pump(s.pumps, e) == Running ==> After(s, PumpPops(e, sid)) == s.(streams := s.streams - {sid})
  {
  }

  // ---------- nobody is left hanging ----------

  /** The stream's entry is in the table. */
  ghost predicate Listed(s: State, k: Key) { k.sid in s.streams && s.streams[k.sid] == k.epoch }

  /** Its opening waits for an answer, and is in the table for it. */
  ghost predicate Waits(s: State, k: Key) {
    k.sid in s.acks && s.acks[k.sid] == k.epoch && k in s.futures && s.futures[k] == Pending
  }

  ghost predicate Settled(s: State, k: Key) { k in s.futures && s.futures[k] != Pending }

  /** Between the two states nobody was dropped without a word, except perhaps under this id. */
  ghost predicate NoneHangs(s: State, t: State, popped: set<nat>) {
    && s.closed <= t.closed
    && (forall k :: Listed(s, k) && k in s.owner && k.sid !in popped ==> Listed(t, k) || s.owner[k] in t.closed)
    && (forall k :: Waits(s, k) && k.sid !in popped ==> Waits(t, k) || Settled(t, k))
    && (forall k :: Settled(s, k) ==> Settled(t, k) && t.futures[k] == s.futures[k])
  }

  /** The ids a step takes out of the tables without looking whose they are, or because writing failed. */
  function Popped(s: State, step: Step): set<nat>
    requires Enabled(s, step)
  {
    match step
    case PumpPops(_, sid) => {sid}
    case Leave(c) => if s.clients[c].key.Some? then {s.clients[c].key.value.sid} else {}
    case OpenFail(_) => {s.lock.stage.stream.sid}
    case _ => {}
  }

  // The tables, the futures and the closed writers are all that counts here.

  ghost predicate Same(s: State, t: State) {
    t.streams == s.streams && t.acks == s.acks && t.futures == s.futures && s.closed <= t.closed
  }

  ghost predicate SameBut(s: State, t: State, sid: nat) {
    && t.futures == s.futures && s.closed <= t.closed
    && t.streams in {s.streams, s.streams - {sid}} && t.acks in {s.acks, s.acks - {sid}}
  }

  lemma SameHangsNone(s: State, t: State)
    requires Same(s, t)
    ensures NoneHangs(s, t, {})
  {
  }

  lemma SameButHangsNone(s: State, t: State, sid: nat)
    requires SameBut(s, t, sid)
    ensures NoneHangs(s, t, {sid})
  {
  }

  lemma QuietClient(s: State, step: Step)
    requires Enabled(s, step)
    requires step.Connect? || step.Write? || step.Acquire? || step.DialFail? || step.OpenOk? || step.Stop?
        || step.CloseWriter?
    ensures Same(s, After(s, step))
  {
  }

  lemma QuietRelay(s: State, step: Step)
    requires Enabled(s, step) && (step.Read? || step.SendOk? || step.ServerSends?)
    ensures Same(s, After(s, step))
  {
    hide Pack, Unpack;
  }

  lemma QuietSession(s: State, step: Step)
    requires Enabled(s, step)
    requires step.PumpJoined? || step.PumpStarts? || (step.SocketClosed? && !s.lock.stage.closeLocals)
    ensures Same(s, After(s, step))
  {
  }

  lemma QuietDrop(s: State, step: Step)
    requires Enabled(s, step) && (step.StartDrop? || step.IdleDrop?)
    ensures Same(s, After(s, step))
  {
    DropLetsGo(s, step);
  }

  lemma AllocateHangsNone(s: State, step: Step)
    requires Inv(s) && Enabled(s, step) && (step.Reuse? || step.DialOk?)
    ensures NoneHangs(s, After(s, step), {})
  {
    hide HolderOk, EarlyOk, UpOk, DownOk, NoneHangs;
    var t := After(s, step);
    var k := if step.Reuse? then Key(s.ws.value, s.nextStream) else Key(s.epoch + 1, 1);
    assert t.streams == s.streams[k.sid := k.epoch] && t.acks == s.acks[k.sid := k.epoch];
    assert t.futures == s.futures[k := Pending] && t.closed == s.closed;
    NewIsNotHanging(s, t, k);
  }

  lemma NewIsNotHanging(s: State, t: State, k: Key)
    requires t.streams == s.streams[k.sid := k.epoch] && t.acks == s.acks[k.sid := k.epoch]
    requires t.futures == s.futures[k := Pending] && t.closed == s.closed
    requires k.sid !in s.streams && k.sid !in s.acks && k !in s.futures
    ensures NoneHangs(s, t, {})
  {
  }

  lemma PopHangsNone(s: State, e: nat, sid: nat)
    requires Enabled(s, PumpPops(e, sid))
    ensures NoneHangs(s, After(s, PumpPops(e, sid)), Popped(s, PumpPops(e, sid)))
  {
    hide NoneHangs;
    SameButHangsNone(s, After(s, PumpPops(e, sid)), sid);
  }

  lemma LeaveIsSame(s: State, c: nat)
    requires Inv(s) && Enabled(s, Leave(c))
    ensures s.clients[c].key.Some? ==> SameBut(s, After(s, Leave(c)), s.clients[c].key.value.sid)
    ensures s.clients[c].key.None? ==> SameBut(s, After(s, Leave(c)), 0) && 0 !in s.streams && 0 !in s.acks
  {
    hide SessionsOk, HolderOk, DroppedOk, EarlyOk, UpOk, DownOk;
    LeavesCleanly(s, c);
  }

  lemma LeaveHangsNone(s: State, c: nat)
    requires Inv(s) && Enabled(s, Leave(c))
    ensures NoneHangs(s, After(s, Leave(c)), Popped(s, Leave(c)))
  {
    hide Inv, After, NoneHangs, SameBut;
    LeaveIsSame(s, c);
    if s.clients[c].key.Some? {
      SameButHangsNone(s, After(s, Leave(c)), s.clients[c].key.value.sid);
    } else {
      NoneHasNone(s, After(s, Leave(c)));
    }
  }

  lemma NoneHasNone(s: State, t: State)
    requires SameBut(s, t, 0) && 0 !in s.streams && 0 !in s.acks
    ensures NoneHangs(s, t, {})
  {
    assert s.streams - {0} == s.streams && s.acks - {0} == s.acks;
  }

  lemma HolderIsThere(s: State, c: nat)
    requires Enabled(s, OpenFail(c))
    ensures c in s.clients && s.lock.Held? && s.lock.stage.Opening?
  {
  }

  lemma OpenFailIsSame(s: State, c: nat)
    requires Enabled(s, OpenFail(c))
    ensures SameBut(s, After(s, OpenFail(c)), s.lock.stage.stream.sid)
  {
    hide SameBut, After, Enabled, GiveUp, FailFirst, Pump;
    HolderIsThere(s, c);
    var t := After(s, OpenFail(c));
    if s.lock.stage.retry {
      OpenGivesUp(s, c);
      GivenUpIsSame(s, t, c, s.lock.stage.stream.sid);
    } else {
      OpenIsRetried(s, c);
      RetriedIsSame(s, t, c, s.lock.stage.stream.sid);
    }
  }

  lemma GivenUpIsSame(s: State, t: State, c: nat, sid: nat)
    requires c in s.clients
    requires t in
      {s.(clients := s.clients[c := s.clients[c].(phase := Leaving)], lock := Free),
       s.(clients := s.clients[c := s.clients[c].(phase := Gone)], lock := Free, closed := s.closed + {c},
          streams := s.streams - {sid}, acks := s.acks - {sid})}
    ensures SameBut(s, t, sid)
  {
  }

  lemma RetriedIsSame(s: State, t: State, c: nat, sid: nat)
    requires t == s.(streams := s.streams - {sid}, acks := s.acks - {sid}, clients := t.clients, lock := t.lock)
    ensures SameBut(s, t, sid)
  {
  }

  lemma OpenFailHangsNone(s: State, c: nat)
    requires Enabled(s, OpenFail(c))
    ensures NoneHangs(s, After(s, OpenFail(c)), Popped(s, OpenFail(c)))
  {
    hide After, NoneHangs, SameBut;
    OpenFailIsSame(s, c);
    SameButHangsNone(s, After(s, OpenFail(c)), s.lock.stage.stream.sid);
  }

  lemma AnswerHangsNone(s: State, e: nat, sid: nat, granted: bool)
    requires Reads(s, e, if granted then Opened(sid) else Refused(sid))
    ensures NoneHangs(s, After(s, PumpReads(e)), {})
  {
    hide Inv;
    AnswersSettle(s, e, sid, granted);
    hide After, Enabled, Taken;
  }

  lemma ClosingHangsNone(s: State, e: nat, sid: nat)
    requires Reads(s, e, Closing(sid))
    ensures NoneHangs(s, After(s, PumpReads(e)), {})
  {
    hide Inv, NoneHangs, Enabled, After;
    ClosingCloses(s, e, sid);
    if sid in s.streams {
      ClosedIsNotHanging(s, After(s, PumpReads(e)), sid);
    } else {
      SameHangsNone(s, After(s, PumpReads(e)));
    }
  }

  lemma ClosedIsNotHanging(s: State, t: State, sid: nat)
    requires sid in s.streams && Key(s.streams[sid], sid) in s.owner
    requires t == s.(inbox := t.inbox, streams := s.streams - {sid},
                     closed := s.closed + {s.owner[Key(s.streams[sid], sid)]})
    ensures NoneHangs(s, t, {})
  {
  }

  lemma OtherReadsAreSame(s: State, e: nat)
    requires Inv(s) && Enabled(s, PumpReads(e)) && (s.inbox[e][0].Binary? || s.inbox[e][0].Ignored?)
    ensures Same(s, After(s, PumpReads(e)))
  {
    hide Inv, Unpack;
    var m := s.inbox[e][0];
    assert Reads(s, e, m);
    match m
    case Binary(data) => FramesAreWritten(s, e, data);
    case Ignored => IgnoredIsDropped(s, e);
    hide After, Enabled, Taken;
  }

  lemma ReadingHangsNone(s: State, e: nat)
    requires Inv(s) && Enabled(s, PumpReads(e))
    ensures NoneHangs(s, After(s, PumpReads(e)), {})
  {
    hide Inv, After, NoneHangs, Same, Unpack;
    var m := s.inbox[e][0];
    assert Reads(s, e, m);
    match m
    case Opened(sid) => AnswerHangsNone(s, e, sid, true);
    case Refused(sid) => AnswerHangsNone(s, e, sid, false);
    case Closing(sid) => ClosingHangsNone(s, e, sid);
    case _ =>
      OtherReadsAreSame(s, e);
      SameHangsNone(s, After(s, PumpReads(e)));
  }

  lemma IgnoredIsDropped(s: State, e: nat)
    requires Reads(s, e, Ignored)
    ensures After(s, PumpReads(e)) == s.(inbox := Taken(s, e))
  {
    hide Inv;
  }

  lemma ReleaseHangsNone(s: State, t: State)
    requires AllReleased(s, t) && s.closed <= t.closed
    ensures NoneHangs(s, t, {})
  {
  }

  lemma EndHangsNone(s: State, step: Step)
    requires Inv(s) && Enabled(s, step)
    requires step.PumpEnds? || (step.SocketClosed? && s.lock.stage.closeLocals)
    ensures NoneHangs(s, After(s, step), {})
  {
    hide NoneHangs, AllReleased, Inv;
    if step.PumpEnds? {
      EndReleasesAll(s, step.e);
    } else {
      ClosedBeforeRedial(s);
    }
    EndKeepsClosed(s, step);
    ReleaseHangsNone(s, After(s, step));
  }

  lemma EndKeepsClosed(s: State, step: Step)
    requires Enabled(s, step) && (step.PumpEnds? || (step.SocketClosed? && s.lock.stage.closeLocals))
    ensures s.closed <= After(s, step).closed
  {
  }

  /** A stream's entry goes only if its writer is closed, and a waiting opening only if it is settled. */
  lemma StepHangsNone(s: State, step: Step)
    requires Inv(s) && Enabled(s, step)
    ensures NoneHangs(s, After(s, step), Popped(s, step))
  {
    hide Inv, Enabled, After, NoneHangs;
    match step
    case Reuse(_) => AllocateHangsNone(s, step);
    case DialOk(_) => AllocateHangsNone(s, step);
    case PumpPops(e, sid) => PopHangsNone(s, e, sid);
    case Leave(c) => LeaveHangsNone(s, c);
    case OpenFail(c) => OpenFailHangsNone(s, c);
    case PumpReads(e) => ReadingHangsNone(s, e);
    case PumpEnds(_) => EndHangsNone(s, step);
    case SocketClosed => ClosedHangsNone(s);
    case _ =>
      QuietStep(s, step);
      SameHangsNone(s, After(s, step));
  }

  lemma ClosedHangsNone(s: State)
    requires Inv(s) && Enabled(s, SocketClosed)
    ensures NoneHangs(s, After(s, SocketClosed), {})
  {
    hide Inv, After, NoneHangs;
    if s.lock.stage.closeLocals {
      EndHangsNone(s, SocketClosed);
    } else {
      QuietSession(s, SocketClosed);
      SameHangsNone(s, After(s, SocketClosed));
    }
  }

  lemma QuietStep(s: State, step: Step)
    requires Enabled(s, step) && !step.Reuse? && !step.DialOk? && !step.PumpPops? && !step.Leave? && !step.OpenFail?
    requires !step.PumpReads? && !step.PumpEnds? && !step.SocketClosed?
    ensures Same(s, After(s, step))
  {
    hide Enabled, After;
    match step
    case Read(_, _) => QuietRelay(s, step);
    case SendOk(_) => QuietRelay(s, step);
    case ServerSends(_, _) => QuietRelay(s, step);
    case PumpJoined => QuietSession(s, step);
    case PumpStarts(_) => QuietSession(s, step);
    case StartDrop(_) => QuietDrop(s, step);
    case IdleDrop => QuietDrop(s, step);
    case _ => QuietClient(s, step);
  }

  /** Some step of the run pops the id so. */
  ghost predicate EverPops(s: State, steps: seq<Step>, sid: nat)
    decreases |steps|
  {
    && steps != [] && Enabled(s, steps[0])
    && (sid in Popped(s, steps[0]) || EverPops(After(s, steps[0]), steps[1..], sid))
  }

  /**
   Nobody is left hanging.  Over any run, a stream whose entry was in the table still has it, or its client's writer
   is closed; and an opening that waited still waits, or was answered or failed: unless a step pops its id from the
   tables, because writing to it failed, or because a client of that id, its own or a left-over one, goes away.
   */
  lemma {:induction false} NobodyIsLeftHanging(s: State, steps: seq<Step>, t: State, k: Key)
    requires Inv(s) && Tunnel.Reaches(s, steps, t) && k in s.owner && !EverPops(s, steps, k.sid)
    ensures Listed(s, k) || s.owner[k] in s.closed ==> Listed(t, k) || s.owner[k] in t.closed
    ensures Waits(s, k) || Settled(s, k) ==> Waits(t, k) || Settled(t, k)
    decreases |steps|
  {
    hide Inv, Enabled, After, Listed, Waits, Settled, Popped;
    if steps != [] {
      var u := After(s, steps[0]);
      StepHangsNone(s, steps[0]);
      StepKeeps(s, steps[0]);
      StepKeepsOwner(s, steps[0], k);
      NobodyIsLeftHanging(u, steps[1..], t, k);
    }
  }

  /**
   Nothing is held back.  In every reachable state the server has all that a streaming client's task has read and
   sent on, and a stream with an open writer in the table has got all that the pump has read.
   */
  lemma NothingIsHeldBack(s: State, steps: seq<Step>, t: State, k: Key)
    requires Init(s) && Tunnel.Reaches(s, steps, t) && k in t.owner
    ensures var c := t.owner[k];
      c in t.clients && t.clients[c].key == Some(k) && t.clients[c].phase == Streaming([]) ==>
        At(t.up, k) <= t.clients[c].wrote && |At(t.up, k)| == t.clients[c].read
    ensures Listed(t, k) && k.epoch == t.epoch && t.owner[k] !in t.closed && Inbox(t.inbox, k.epoch) == [] ==>
      At(t.got, k) == At(t.sent, k)
  {
    InitOk(s);
    RunKeeps(s, steps, t);
    AllIsThere(t, k);
  }

  lemma AllIsThere(t: State, k: Key)
    requires Inv(t) && k in t.owner
    ensures var c := t.owner[k];
      c in t.clients && t.clients[c].key == Some(k) && t.clients[c].phase == Streaming([]) ==>
        At(t.up, k) <= t.clients[c].wrote && |At(t.up, k)| == t.clients[c].read
    ensures Listed(t, k) && k.epoch == t.epoch && t.owner[k] !in t.closed && Inbox(t.inbox, k.epoch) == [] ==>
      At(t.got, k) == At(t.sent, k)
  {
    hide SessionsOk, HolderOk, TablesOk, DroppedOk, EarlyOk, OwnersOk;
    var c := t.owner[k];
    assert StreamUpOk(k, t.owner, t.clients, t.up);
    assert ClientOk(c, t.clients[c], t.owner, t.up);
    assert Flows(Live(t.epoch, t.streams, t.owner, t.closed, k), At(t.got, k), Due(t.inbox, k), At(t.sent, k));
    assert At(t.up, k) + [] == At(t.up, k);
    assert At(t.got, k) + [] == At(t.got, k);
  }
}
