/**
 The multiplexed API tunnel as an interleaved transition system: client tasks, one pump per
 session, the idle task and the lock.  A step runs from one `await` to the next.

 Two things are only in the model: the number of a session (`epoch`), and the logs of what
 went over each stream.  A stream is known by its session and its id.
 */
module Tunnel {
  import opened Options
  import opened Frames
  import Runs

  datatype Key = Key(epoch: nat, sid: nat)

  datatype Future = Pending | Granted | Failed

  /** A pump that is cancelled before its first step never runs its `finally`. */
  datatype PumpPhase = Unstarted | Running | Cancelling | Done

  datatype Message =
    | Opened(sid: nat)
    | Refused(sid: nat)
    | Closing(sid: nat)
    | Binary(frame: Bytes)
    | Ignored

  datatype Phase = Waiting | InLock | Streaming(unsent: Bytes) | Leaving | Gone

  /** A local connection: what its peer wrote so far, and how much of that was read. */
  datatype Client = Client(phase: Phase, key: Option<Key>, wrote: Bytes, read: nat)

  datatype Party = ClientTask(id: nat) | IdleTask

  /** Where the holder of the lock is suspended. */
  datatype Stage =
    | Deciding(force: bool)
    | AwaitPump(session: nat, closeLocals: bool)
    | AwaitClose(closeLocals: bool)
    | Dialing(force: bool)
    | Opening(retry: bool, stream: Key)

  datatype Lock = Free | Held(holder: Party, stage: Stage)

  datatype State = State(
    epoch: nat,                       // sessions dialled so far
    ws: Option<nat>,                  // the session in `ws` (and its pump in `pump`)
    pumps: map<nat, PumpPhase>,
    nextStream: nat,
    streams: map<nat, nat>,           // stream id -> session of the writer's stream
    acks: map<nat, nat>,              // `opened`: stream id -> session of the future's stream
    lock: Lock,
    clients: map<nat, Client>,
    closed: set<nat>,                 // the clients whose writer is closed
    futures: map<Key, Future>,
    owner: map<Key, nat>,             // who a stream was allocated to
    up: map<Key, Bytes>,              // payload that reached the server
    inbox: map<nat, seq<Message>>,    // sent by the server, not yet read by the pump
    sent: map<Key, Bytes>,            // payload the server sent
    got: map<Key, Bytes>)             // payload written to the stream's client

  function At(log: map<Key, Bytes>, k: Key): Bytes {
    if k in log then log[k] else []
  }

  function Inbox(inbox: map<nat, seq<Message>>, e: nat): seq<Message> {
    if e in inbox then inbox[e] else []
  }

  function Pump(pumps: map<nat, PumpPhase>, e: nat): PumpPhase {
    if e in pumps then pumps[e] else Done
  }

  predicate HeldBy(lock: Lock, clients: map<nat, Client>, c: nat) {
    lock.Held? && lock.holder == ClientTask(c) && c in clients && clients[c].phase.InLock?
  }

  predicate NoStreams(streams: map<nat, nat>, acks: map<nat, nat>) {
    streams == map[] && acks == map[]
  }

  predicate Writable(owner: map<Key, nat>, closed: set<nat>, k: Key) {
    k in owner && owner[k] !in closed
  }

  // ---------- what clients, pumps and the idle task do ----------

  /** The futures still waiting in `opened` fail. */
  function FailWaiting(futures: map<Key, Future>, acks: map<nat, nat>): map<Key, Future> {
    map k | k in futures ::
      if k.sid in acks && acks[k.sid] == k.epoch && futures[k] == Pending then Failed else futures[k]
  }

  /** The clients whose writer is in `streams`. */
  function Writers(streams: map<nat, nat>, owner: map<Key, nat>): set<nat> {
    set sid | sid in streams && Key(streams[sid], sid) in owner :: owner[Key(streams[sid], sid)]
  }

  /** Close every writer, fail every waiting future, empty both tables. */
  function CloseLocals(s: State): State {
    s.(closed := s.closed + Writers(s.streams, s.owner), futures := FailWaiting(s.futures, s.acks),
       streams := map[], acks := map[])
  }

  /** `pop` by bare stream id, from both tables. */
  function Pop(s: State, sid: nat): State {
    s.(streams := s.streams - {sid}, acks := s.acks - {sid})
  }

  function SetPhase(s: State, c: nat, phase: Phase): State
    requires c in s.clients
  {
    s.(clients := s.clients[c := s.clients[c].(phase := phase)])
  }

  /** `_allocate_stream` in session `e`, then suspended in `_open_stream_on_ws`. */
  function Allocate(s: State, c: nat, e: nat, retry: bool): State
    requires c in s.clients
  {
    var k := Key(e, s.nextStream);
    s.(nextStream := s.nextStream + 1,
       streams := s.streams[k.sid := e],
       acks := s.acks[k.sid := e],
       futures := s.futures[k := Pending],
       owner := s.owner[k := c],
       clients := s.clients[c := s.clients[c].(key := Some(k))],
       lock := Held(ClientTask(c), Opening(retry, k)))
  }

  /** The start of `_drop_ws`, up to its first suspension. */
  function Drop(s: State, who: Party, closeLocals: bool): State {
    match s.ws
    case None => s.(lock := Held(who, AwaitClose(closeLocals)))
    case Some(e) =>
      s.(ws := None,
         pumps := s.pumps[e := if Pump(s.pumps, e) == Running then Cancelling else Done],
         lock := Held(who, AwaitPump(e, closeLocals)))
  }

  /** The `finally` of the pump of session `e`. */
  function PumpFinally(s: State, e: nat): State {
    CloseLocals(s).(ws := if s.ws == Some(e) then None else s.ws, pumps := s.pumps[e := Done])
  }

  /** An answer to `open` settles the future that waits under that id. */
  function Settle(s: State, sid: nat, outcome: Future): State {
    if sid in s.acks && Key(s.acks[sid], sid) in s.futures && s.futures[Key(s.acks[sid], sid)] == Pending
    then s.(futures := s.futures[Key(s.acks[sid], sid) := outcome]) else s
  }

  /** `w.write(payload)`: what is written to a closed writer is lost. */
  function Deliver(s: State, k: Key, payload: Bytes): State {
    if Writable(s.owner, s.closed, k) then s.(got := s.got[k := At(s.got, k) + payload]) else s
  }

  /** What the pump does with a message. */
  function Handle(s: State, m: Message): State {
    match m
    case Opened(sid) => Settle(s, sid, Granted)
    case Refused(sid) => Settle(s, sid, Failed)
    case Closing(sid) =>
      if sid in s.streams
      then s.(closed := s.closed + Writers(map[sid := s.streams[sid]], s.owner), streams := s.streams - {sid}) else s
    case Binary(data) =>
      (match Unpack(data)
       case None => s
       case Some(frame) =>
         if frame.sid in s.streams then Deliver(s, Key(s.streams[frame.sid], frame.sid), frame.payload) else s)
    case Ignored => s
  }

  /** The first attempt failed: pop its entries and, when nothing else is under way, go on to a forced redial. */
  function FailFirst(s: State, c: nat, sid: nat): State
    requires c in s.clients
  {
    var t := Pop(s, sid);
    if NoStreams(t.streams, t.acks) then t.(lock := Held(ClientTask(c), Deciding(true)))
    else SetPhase(t, c, Leaving).(lock := Free)
  }

  /**
   The second attempt failed: give up.  A failure before the pump's first step means that `send`
   raised without suspending, and then the `finally` of the client runs on in the same turn.
   */
  function GiveUp(s: State, c: nat, sid: nat): State
    requires c in s.clients
  {
    if Pump(s.pumps, s.epoch) == Unstarted
    then SetPhase(Pop(s, sid), c, Gone).(closed := s.closed + {c}, lock := Free)
    else SetPhase(s, c, Leaving).(lock := Free)
  }

  /** The end of a client: pop its entries by stream id, and close its writer. */
  function Left(s: State, c: nat, sid: nat): State
    requires c in s.clients
  {
    SetPhase(Pop(s, sid), c, Gone).(closed := s.closed + {c})
  }

  datatype Step =
    // a client
    | Connect(c: nat)
    | Write(c: nat, data: Bytes)
    | Acquire(c: nat)
    | Reuse(c: nat)
    | StartDrop(c: nat)
    | DialOk(c: nat)
    | DialFail(c: nat)
    | OpenOk(c: nat)
    | OpenFail(c: nat)
    | Read(c: nat, n: nat)
    | SendOk(c: nat)
    | Stop(c: nat)
    | Leave(c: nat)
    | CloseWriter(c: nat)
    // the idle task, and whoever drops a session
    | IdleDrop
    | PumpJoined
    | SocketClosed
    // the pump of a session
    | PumpStarts(e: nat)
    | PumpReads(e: nat)
    | PumpPops(e: nat, sid: nat)
    | PumpEnds(e: nat)
    // the server
    | ServerSends(e: nat, m: Message)

  /** When a step can be taken. */
  predicate Enabled(s: State, step: Step) {
    match step
    case Connect(c) => c !in s.clients && c !in s.closed
    case Write(c, _) => c in s.clients
    case Acquire(c) => s.lock.Free? && c in s.clients && s.clients[c].phase.Waiting?
    // `_ensure_ws` returns the session it has
    case Reuse(c) =>
      && HeldBy(s.lock, s.clients, c) && s.lock.stage == Deciding(false)
      && s.ws.Some? && Pump(s.pumps, s.ws.value) != Done
    // `_ensure_ws` is forced, or finds its session not usable
    case StartDrop(c) => HeldBy(s.lock, s.clients, c) && s.lock.stage.Deciding?
    case DialOk(c) => HeldBy(s.lock, s.clients, c) && s.lock.stage.Dialing?
    case DialFail(c) => HeldBy(s.lock, s.clients, c) && s.lock.stage.Dialing?
    case OpenOk(c) =>
      && HeldBy(s.lock, s.clients, c) && s.lock.stage.Opening?
      && s.lock.stage.stream in s.futures && s.futures[s.lock.stage.stream] == Granted
    case OpenFail(c) => HeldBy(s.lock, s.clients, c) && s.lock.stage.Opening?
    case Read(c, n) =>
      && c in s.clients && s.clients[c].phase == Streaming([])
      && 0 < n <= |s.clients[c].wrote| - s.clients[c].read
    case SendOk(c) =>
      && c in s.clients && s.clients[c].phase.Streaming? && s.clients[c].phase.unsent != []
      && s.clients[c].key.Some? && Pack(s.clients[c].key.value.sid, s.clients[c].phase.unsent).Some?
    case Stop(c) => c in s.clients && s.clients[c].phase.Streaming?
    case Leave(c) => s.lock.Free? && c in s.clients && s.clients[c].phase.Leaving?
    case CloseWriter(c) => c in s.clients
    case IdleDrop => s.lock.Free? && NoStreams(s.streams, s.acks) && s.ws.Some?
    case PumpJoined => s.lock.Held? && s.lock.stage.AwaitPump? && Pump(s.pumps, s.lock.stage.session) == Done
    case SocketClosed => s.lock.Held? && s.lock.stage.AwaitClose?
    case PumpStarts(e) => Pump(s.pumps, e) == Unstarted
    case PumpReads(e) => Pump(s.pumps, e) == Running && Inbox(s.inbox, e) != []
    case PumpPops(e, _) => Pump(s.pumps, e) == Running
    case PumpEnds(e) => Pump(s.pumps, e) == Running || Pump(s.pumps, e) == Cancelling
    // the server speaks on a stream only once it was allocated
    case ServerSends(e, m) =>
      && 0 < e <= s.epoch
      && (m.Binary? ==> Unpack(m.frame).Some? && Key(e, Unpack(m.frame).value.sid) in s.owner)
  }

  function After(s: State, step: Step): State
    requires Enabled(s, step)
  {
    match step
    case Connect(c) => s.(clients := s.clients[c := Client(Waiting, None, [], 0)])
    case Write(c, data) => s.(clients := s.clients[c := s.clients[c].(wrote := s.clients[c].wrote + data)])
    case Acquire(c) => SetPhase(s, c, InLock).(lock := Held(ClientTask(c), Deciding(false)))
    case Reuse(c) => Allocate(s, c, s.ws.value, false)
    case StartDrop(c) => Drop(s, ClientTask(c), s.lock.stage.force)
    case DialOk(c) =>
      var e := s.epoch + 1;
      Allocate(s.(epoch := e, ws := Some(e), pumps := s.pumps[e := Unstarted], nextStream := 1),
               c, e, s.lock.stage.force)
    case DialFail(c) => SetPhase(s, c, Leaving).(lock := Free)
    case OpenOk(c) => SetPhase(s, c, Streaming([])).(lock := Free)
    case OpenFail(c) =>
      if s.lock.stage.retry then GiveUp(s, c, s.lock.stage.stream.sid) else FailFirst(s, c, s.lock.stage.stream.sid)
    case Read(c, n) =>
      var cl := s.clients[c];
      s.(clients := s.clients[c := cl.(phase := Streaming(cl.wrote[cl.read..cl.read + n]), read := cl.read + n)])
    case SendOk(c) => Receive(SetPhase(s, c, Streaming([])), s.clients[c].key.value.epoch,
                              Pack(s.clients[c].key.value.sid, s.clients[c].phase.unsent).value)
    case Stop(c) => SetPhase(s, c, Leaving)
    case Leave(c) =>
      Left(s, c, if s.clients[c].key.Some? then s.clients[c].key.value.sid else 0)
    case CloseWriter(c) => s.(closed := s.closed + {c})
    case IdleDrop => Drop(s, IdleTask, false)
    case PumpJoined => s.(lock := Held(s.lock.holder, AwaitClose(s.lock.stage.closeLocals)))
    case SocketClosed =>
      var t := if s.lock.stage.closeLocals then CloseLocals(s) else s;
      t.(lock := if s.lock.holder.IdleTask? then Free else Held(s.lock.holder, Dialing(s.lock.stage.closeLocals)))
    case PumpStarts(e) => s.(pumps := s.pumps[e := Running])
    case PumpReads(e) => Handle(s.(inbox := s.inbox[e := Inbox(s.inbox, e)[1..]]), Inbox(s.inbox, e)[0])
    case PumpPops(_, sid) => s.(streams := s.streams - {sid})
    case PumpEnds(e) => PumpFinally(s, e)
    case ServerSends(e, m) =>
      s.(inbox := s.inbox[e := Inbox(s.inbox, e) + [m]],
         sent := if m.Binary? then LogFrame(s.sent, e, m.frame) else s.sent)
  }

  /** What a frame adds to the log of its stream. */
  function LogFrame(log: map<Key, Bytes>, e: nat, data: Bytes): map<Key, Bytes> {
    match Unpack(data)
    case None => log
    case Some(frame) => log[Key(e, frame.sid) := At(log, Key(e, frame.sid)) + frame.payload]
  }

  /** The server of session `e` reads a frame. */
  function Receive(s: State, e: nat, data: Bytes): State {
    s.(up := LogFrame(s.up, e, data))
  }

  predicate Init(s: State) {
    && s.ws == None && NoStreams(s.streams, s.acks) && s.lock == Free && s.clients == map[] && s.owner == map[]
    && s.pumps == map[] && s.up == map[] && s.sent == map[] && s.got == map[] && s.inbox == map[]
    && s.futures == map[] && s.nextStream > 0
  }

  // ---------- the invariant ----------

  /** Which session is current, what its pump does, and what the lock's holder waits for. */
  ghost predicate SessionsOk(epoch: nat, ws: Option<nat>, pumps: map<nat, PumpPhase>, lock: Lock) {
    && (ws.Some? ==>
          && ws.value == epoch && epoch > 0
          && (Pump(pumps, epoch) == Unstarted || Pump(pumps, epoch) == Running))
    && (ws == None ==> Pump(pumps, epoch) == Cancelling || Pump(pumps, epoch) == Done)
    && (forall e :: e in pumps && pumps[e] != Done ==> e == epoch)
    && (Pump(pumps, epoch) == Cancelling ==> lock.Held? && lock.stage.AwaitPump? && lock.stage.session == epoch)
    && (lock.Held? ==> StageOk(epoch, ws, lock))
  }

  predicate StageOk(epoch: nat, ws: Option<nat>, lock: Lock)
    requires lock.Held?
  {
    && (lock.holder.IdleTask? ==> lock.stage.AwaitPump? || lock.stage.AwaitClose?)
    && (lock.stage.AwaitPump? || lock.stage.AwaitClose? || lock.stage.Dialing? ==> ws == None)
    && (lock.stage.AwaitPump? ==> lock.stage.session == epoch)
    && (lock.stage.Opening? ==> lock.stage.stream.epoch == epoch)
  }

  /** The client that holds the lock is in its critical section, and opens its own stream. */
  predicate HolderOk(lock: Lock, clients: map<nat, Client>) {
    lock.Held? && lock.holder.ClientTask? ==>
      && HeldBy(lock, clients, lock.holder.id)
      && (lock.stage.Opening? ==> clients[lock.holder.id].key == Some(lock.stage.stream))
  }

  /** Both tables speak of allocated streams of the current session only. */
  predicate TablesOk(epoch: nat, streams: map<nat, nat>, acks: map<nat, nat>, owner: map<Key, nat>) {
    && (forall sid :: sid in streams ==> streams[sid] == epoch && Key(epoch, sid) in owner)
    && (forall sid :: sid in acks ==> acks[sid] == epoch && Key(epoch, sid) in owner)
  }

  /** Both tables are empty once a session is dropped, and while the idle task holds the lock. */
  predicate DroppedOk(epoch: nat, ws: Option<nat>, pumps: map<nat, PumpPhase>, lock: Lock,
                      streams: map<nat, nat>, acks: map<nat, nat>)
  {
    && (ws == None && Pump(pumps, epoch) != Cancelling ==> NoStreams(streams, acks))
    && (lock.Held? && lock.holder.IdleTask? ==> NoStreams(streams, acks))
  }

  /** Until its pump starts, a session has at most the stream that the lock's holder is opening. */
  ghost predicate EarlyOk(epoch: nat, pumps: map<nat, PumpPhase>, lock: Lock,
                          streams: map<nat, nat>, acks: map<nat, nat>, futures: map<Key, Future>)
  {
    Pump(pumps, epoch) == Unstarted ==>
      && (forall k :: k in futures && k.epoch == epoch ==> futures[k] != Granted)
      && (forall sid :: sid in streams ==> OpeningOf(lock, sid))
      && (forall sid :: sid in acks ==> OpeningOf(lock, sid))
  }

  predicate OpeningOf(lock: Lock, sid: nat) {
    lock.Held? && lock.stage.Opening? && lock.stage.stream.sid == sid
  }

  /** Ids are handed out once per session, and each client knows its own stream. */
  predicate OwnersOk(epoch: nat, nextStream: nat, owner: map<Key, nat>, futures: map<Key, Future>) {
    && nextStream > 0
    && (forall k :: k in owner ==> 0 < k.epoch <= epoch && 0 < k.sid && (k.epoch == epoch ==> k.sid < nextStream))
    && (forall k :: k in futures ==> k in owner)
  }

  /** A client's stream is its own, and what went upstream on it is the start of what it wrote. */
  predicate ClientOk(c: nat, cl: Client, owner: map<Key, nat>, up: map<Key, Bytes>) {
    && cl.read <= |cl.wrote|
    && (cl.key.Some? ==> cl.key.value in owner && owner[cl.key.value] == c)
    && (cl.phase.Waiting? || cl.phase.InLock? ==> cl.read == 0)
    && (cl.phase.Streaming? ==> cl.key.Some? && At(up, cl.key.value) + cl.phase.unsent == cl.wrote[..cl.read])
  }

  /** Bytes upstream: what a stream carried is the start of what its client wrote. */
  predicate StreamUpOk(k: Key, owner: map<Key, nat>, clients: map<nat, Client>, up: map<Key, Bytes>)
    requires k in owner
  {
    && owner[k] in clients
    && At(up, k) <= clients[owner[k]].wrote
    && (clients[owner[k]].phase.Waiting? || clients[owner[k]].phase.InLock? ==> At(up, k) == [])
  }

  predicate UpOk(owner: map<Key, nat>, clients: map<nat, Client>, up: map<Key, Bytes>) {
    && (forall k :: k in up ==> k in owner)
    && (forall k :: k in owner ==> StreamUpOk(k, owner, clients, up))
    && (forall c :: c in clients ==> ClientOk(c, clients[c], owner, up))
  }

  /** The payload waiting in a session's inbox for one stream. */
  function Payload(inbox: seq<Message>, sid: nat): Bytes {
    if inbox == [] then [] else PayloadOf(inbox[0], sid) + Payload(inbox[1..], sid)
  }

  function PayloadOf(m: Message, sid: nat): Bytes {
    if m.Binary? && Unpack(m.frame).Some? && Unpack(m.frame).value.sid == sid then Unpack(m.frame).value.payload else []
  }

  /** What the pump has yet to read of a stream. */
  function Due(inbox: map<nat, seq<Message>>, k: Key): Bytes {
    Payload(Inbox(inbox, k.epoch), k.sid)
  }

  /** A stream whose writer is in the table and open gets everything, in order; any other one got a prefix. */
  predicate Flows(live: bool, got: Bytes, due: Bytes, sent: Bytes) {
    got <= sent && (live ==> got + due == sent)
  }

  predicate Live(epoch: nat, streams: map<nat, nat>, owner: map<Key, nat>, closed: set<nat>, k: Key) {
    k.epoch == epoch && k.sid in streams && Writable(owner, closed, k)
  }

  /** Bytes downstream: what a client got is the start of what the server sent on its stream. */
  ghost predicate DownOk(epoch: nat, streams: map<nat, nat>, owner: map<Key, nat>, closed: set<nat>,
                         inbox: map<nat, seq<Message>>, sent: map<Key, Bytes>, got: map<Key, Bytes>)
  {
    && (forall k :: k in got || k in sent ==> k in owner)
    && (forall k :: k in owner ==> Flows(Live(epoch, streams, owner, closed, k), At(got, k), Due(inbox, k),
        At(sent, k)))
    && (forall k :: k !in owner ==> Due(inbox, k) == [])
  }

  ghost predicate Inv(s: State) {
    && SessionsOk(s.epoch, s.ws, s.pumps, s.lock)
    && HolderOk(s.lock, s.clients)
    && TablesOk(s.epoch, s.streams, s.acks, s.owner)
    && DroppedOk(s.epoch, s.ws, s.pumps, s.lock, s.streams, s.acks)
    && EarlyOk(s.epoch, s.pumps, s.lock, s.streams, s.acks, s.futures)
    && OwnersOk(s.epoch, s.nextStream, s.owner, s.futures)
    && UpOk(s.owner, s.clients, s.up)
    && DownOk(s.epoch, s.streams, s.owner, s.closed, s.inbox, s.sent, s.got)
  }

  // ---------- every step keeps the invariant ----------

  /** What a client may become without touching what is known of the bytes upstream. */
  lemma ClientKeepsUp(owner: map<Key, nat>, clients: map<nat, Client>, up: map<Key, Bytes>, c: nat, cl: Client)
    requires UpOk(owner, clients, up) && ClientOk(c, cl, owner, up)
    requires c in clients ==> clients[c].wrote <= cl.wrote
    requires c in clients && (cl.phase.Waiting? || cl.phase.InLock?) ==>
        clients[c].phase.Waiting? || clients[c].phase.InLock?
    ensures UpOk(owner, clients[c := cl], up)
  {
    forall k | k in owner ensures StreamUpOk(k, owner, clients[c := cl], up) {
      assert StreamUpOk(k, owner, clients, up);
    }
    var next := clients[c := cl];
    forall d | d in next ensures ClientOk(d, next[d], owner, up) {
      assert d in clients ==> ClientOk(d, clients[d], owner, up);
    }
  }

  /** A client outside the critical section may change at will. */
  lemma OthersKeepHolder(lock: Lock, clients: map<nat, Client>, c: nat, cl: Client)
    requires HolderOk(lock, clients) && (c in clients ==> !clients[c].phase.InLock?)
    ensures HolderOk(lock, clients[c := cl])
  {
  }

  /** The invariant is about the state, however it is written down. */
  lemma Rename(s: State, t: State)
    requires Inv(s) && s == t
    ensures Inv(t)
  {
    hide Inv;
  }

  /** A client that only moves on. */
  lemma PhaseKeepsUp(owner: map<Key, nat>, clients: map<nat, Client>, up: map<Key, Bytes>, c: nat, phase: Phase)
    requires UpOk(owner, clients, up) && c in clients && !phase.Waiting?
    requires phase.InLock? ==> clients[c].phase.Waiting?
    requires phase.Streaming? ==> clients[c].phase.InLock? && clients[c].key.Some? && phase.unsent == []
    ensures UpOk(owner, clients[c := clients[c].(phase := phase)], up)
  {
    assert ClientOk(c, clients[c], owner, up);
    if phase.Streaming? {
      assert StreamUpOk(clients[c].key.value, owner, clients, up);
    }
    ClientKeepsUp(owner, clients, up, c, clients[c].(phase := phase));
  }

  /** A new stream starts with nothing on it. */
  lemma AllocateKeepsUp(owner: map<Key, nat>, clients: map<nat, Client>, up: map<Key, Bytes>, c: nat, k: Key)
    requires UpOk(owner, clients, up) && c in clients && clients[c].phase.InLock? && k !in owner
    ensures UpOk(owner[k := c], clients[c := clients[c].(key := Some(k))], up)
  {
    var next, now := clients[c := clients[c].(key := Some(k))], owner[k := c];
    forall j | j in now ensures StreamUpOk(j, now, next, up) {
      assert j in owner ==> StreamUpOk(j, owner, clients, up);
    }
    forall d | d in next ensures ClientOk(d, next[d], now, up) {
      assert ClientOk(d, clients[d], owner, up);
    }
  }

  lemma AllocateKeepsDown(epoch: nat, streams: map<nat, nat>, owner: map<Key, nat>, closed: set<nat>,
                          inbox: map<nat, seq<Message>>, sent: map<Key, Bytes>, got: map<Key, Bytes>, c: nat, k: Key)
    requires DownOk(epoch, streams, owner, closed, inbox, sent, got) && k !in owner && k.epoch == epoch
    ensures DownOk(epoch, streams[k.sid := epoch], owner[k := c], closed, inbox, sent, got)
  {
    assert Due(inbox, k) == [];
    assert k !in got && k !in sent;
    var now, next := owner[k := c], streams[k.sid := epoch];
    forall j | j in now ensures Flows(Live(epoch, next, now, closed, j), At(got, j), Due(inbox, j), At(sent, j)) {
      if j != k {
        assert Flows(Live(epoch, streams, owner, closed, j), At(got, j), Due(inbox, j), At(sent, j));
      }
    }
  }

  /** Allocating in the current session keeps the tables, the owners and the early stage right. */
  lemma AllocateKeepsTables(epoch: nat, streams: map<nat, nat>, acks: map<nat, nat>, owner: map<Key, nat>,
                            futures: map<Key, Future>, nextStream: nat, c: nat)
    requires TablesOk(epoch, streams, acks, owner) && OwnersOk(epoch, nextStream, owner, futures) && epoch > 0
    ensures var k := Key(epoch, nextStream);
      && TablesOk(epoch, streams[k.sid := epoch], acks[k.sid := epoch], owner[k := c])
      && OwnersOk(epoch, nextStream + 1, owner[k := c], futures[k := Pending])
  {
  }

  /** In the current session a client that holds the lock may allocate a stream. */
  lemma AllocateKeeps(s: State, c: nat, retry: bool)
    requires s.ws == Some(s.epoch) && s.epoch > 0
    requires HeldBy(s.lock, s.clients, c) && !s.lock.stage.Opening?
    requires Pump(s.pumps, s.epoch) == Unstarted || Pump(s.pumps, s.epoch) == Running
    requires forall e :: e in s.pumps && s.pumps[e] != Done ==> e == s.epoch
    requires TablesOk(s.epoch, s.streams, s.acks, s.owner) && OwnersOk(s.epoch, s.nextStream, s.owner, s.futures)
    requires Pump(s.pumps, s.epoch) == Unstarted ==>
      NoStreams(s.streams, s.acks) && forall k :: k in s.futures && k.epoch == s.epoch ==> s.futures[k] != Granted
    requires UpOk(s.owner, s.clients, s.up)
    requires DownOk(s.epoch, s.streams, s.owner, s.closed, s.inbox, s.sent, s.got)
    ensures Inv(Allocate(s, c, s.epoch, retry))
    ensures Allocate(s, c, s.epoch, retry).owner == s.owner[Key(s.epoch, s.nextStream) := c]
  {
    hide UpOk, DownOk, TablesOk;
    var k := Key(s.epoch, s.nextStream);
    AllocateKeepsTables(s.epoch, s.streams, s.acks, s.owner, s.futures, s.nextStream, c);
    AllocateKeepsUp(s.owner, s.clients, s.up, c, k);
    AllocateKeepsDown(s.epoch, s.streams, s.owner, s.closed, s.inbox, s.sent, s.got, c, k);
  }

  /** With empty tables a new session may begin. */
  lemma NextSessionKeepsDown(epoch: nat, owner: map<Key, nat>, closed: set<nat>,
                             inbox: map<nat, seq<Message>>, sent: map<Key, Bytes>, got: map<Key, Bytes>)
    requires DownOk(epoch, map[], owner, closed, inbox, sent, got)
    ensures DownOk(epoch + 1, map[], owner, closed, inbox, sent, got)
  {
    forall k | k in owner ensures Flows(Live(epoch + 1, map[], owner, closed, k), At(got, k), Due(inbox, k),
        At(sent, k)) {
      assert Flows(Live(epoch, map[], owner, closed, k), At(got, k), Due(inbox, k), At(sent, k));
    }
  }

  lemma DropNothingKeeps(s: State, who: Party, closeLocals: bool)
    requires Inv(s) && (s.lock.Free? || s.lock.stage.Deciding?) && s.ws == None
    requires HolderOk(Held(who, AwaitClose(closeLocals)), s.clients) && (who.IdleTask? ==> NoStreams(s.streams, s.acks))
    ensures Inv(s.(lock := Held(who, AwaitClose(closeLocals))))
  {
    hide UpOk, DownOk, OwnersOk, TablesOk, HolderOk;
  }

  /** Before its pump starts, and with nobody opening a stream, a session has none. */
  lemma EarlyEmpty(epoch: nat, pumps: map<nat, PumpPhase>, lock: Lock,
                   streams: map<nat, nat>, acks: map<nat, nat>, futures: map<Key, Future>)
    requires EarlyOk(epoch, pumps, lock, streams, acks, futures)
    ensures Pump(pumps, epoch) == Unstarted && !(lock.Held? && lock.stage.Opening?) ==> NoStreams(streams, acks)
  {
    if Pump(pumps, epoch) == Unstarted && !(lock.Held? && lock.stage.Opening?) {
      assert forall sid :: sid !in streams && sid !in acks;
    }
  }

  lemma DropSessionKeeps(s: State, who: Party, closeLocals: bool, phase: PumpPhase)
    requires Inv(s) && (s.lock.Free? || s.lock.stage.Deciding?) && s.ws.Some?
    requires HolderOk(Held(who, AwaitPump(s.epoch, closeLocals)), s.clients)
        && (who.IdleTask? ==> NoStreams(s.streams, s.acks))
    requires phase == if Pump(s.pumps, s.epoch) == Running then Cancelling else Done
    ensures Inv(s.(ws := None, pumps := s.pumps[s.epoch := phase], lock := Held(who, AwaitPump(s.epoch, closeLocals))))
  {
    hide UpOk, DownOk, OwnersOk, TablesOk, HolderOk, EarlyOk;
    EarlyEmpty(s.epoch, s.pumps, s.lock, s.streams, s.acks, s.futures);
    EarlyOver(s.epoch, s.pumps[s.epoch := phase], Held(who, AwaitPump(s.epoch, closeLocals)), s.streams, s.acks,
        s.futures);
  }

  lemma EarlyOver(epoch: nat, pumps: map<nat, PumpPhase>, lock: Lock,
                  streams: map<nat, nat>, acks: map<nat, nat>, futures: map<Key, Future>)
    requires Pump(pumps, epoch) != Unstarted
    ensures EarlyOk(epoch, pumps, lock, streams, acks, futures)
  {
  }

  /** Without other streams, the first failed attempt goes on to a forced redial. */
  lemma RetryKeeps(s: State, c: nat)
    requires Inv(s) && HeldBy(s.lock, s.clients, c) && s.lock.stage.Opening? && NoStreams(s.streams, s.acks)
    ensures Inv(s.(lock := Held(ClientTask(c), Deciding(true))))
  {
    hide UpOk, DownOk, OwnersOk, TablesOk;
  }

  /** A client that does not hold the lock moves on. */
  lemma MoveKeeps(s: State, c: nat, phase: Phase)
    requires Inv(s) && s.lock.Free? && c in s.clients && (phase.Leaving? || phase.Gone?)
    ensures Inv(SetPhase(s, c, phase))
  {
    hide UpOk, DownOk, OwnersOk, TablesOk, SessionsOk, DroppedOk, EarlyOk;
    PhaseKeepsUp(s.owner, s.clients, s.up, c, phase);
  }

  lemma ReadKeepsUp(owner: map<Key, nat>, clients: map<nat, Client>, up: map<Key, Bytes>, c: nat, n: nat)
    requires UpOk(owner, clients, up) && c in clients && clients[c].phase == Streaming([])
    requires 0 < n <= |clients[c].wrote| - clients[c].read
    ensures var cl := clients[c];
      UpOk(owner, clients[c := cl.(phase := Streaming(cl.wrote[cl.read..cl.read + n]), read := cl.read + n)], up)
  {
    var cl := clients[c];
    assert ClientOk(c, cl, owner, up);
    assert At(up, cl.key.value) == At(up, cl.key.value) + [];
    assert cl.wrote[..cl.read] + cl.wrote[cl.read..cl.read + n] == cl.wrote[..cl.read + n];
    ClientKeepsUp(owner, clients, up, c, cl.(phase := Streaming(cl.wrote[cl.read..cl.read + n]), read := cl.read + n));
  }

  /** The old socket is closed: the idle task is done, a client goes on to dial. */
  lemma ClosedKeeps(s: State)
    requires Inv(s) && s.lock.Held? && s.lock.stage.AwaitClose?
    ensures Inv(s.(lock := if s.lock.holder.IdleTask? then Free
        else Held(s.lock.holder, Dialing(s.lock.stage.closeLocals))))
  {
    hide UpOk, DownOk, OwnersOk, TablesOk;
  }

  lemma PopKeeps(s: State, sid: nat)
    requires Inv(s)
    ensures Inv(Pop(s, sid))
  {
    hide UpOk, DownOk, OwnersOk, SessionsOk, HolderOk;
    FewerKeepDown(s.epoch, s.streams, s.streams - {sid}, s.owner, s.closed, s.closed, s.inbox, s.sent, s.got);
  }

  /** A client gives the lock back and goes on. */
  lemma ReleaseKeeps(s: State, c: nat, phase: Phase)
    requires Inv(s) && HeldBy(s.lock, s.clients, c) && (s.lock.stage.Opening? || s.lock.stage.Dialing?)
    requires Pump(s.pumps, s.epoch) == Unstarted ==> NoStreams(s.streams, s.acks)
    requires phase.Leaving? || phase.Gone? || (phase == Streaming([]) && s.clients[c].key.Some?)
    ensures Inv(SetPhase(s, c, phase).(lock := Free))
  {
    hide UpOk, DownOk, OwnersOk, TablesOk;
    PhaseKeepsUp(s.owner, s.clients, s.up, c, phase);
  }

  /** Streams leave the table and writers close; what was got stays a prefix. */
  lemma FewerKeepDown(epoch: nat, streams: map<nat, nat>, fewer: map<nat, nat>, owner: map<Key, nat>, closed: set<nat>,
                      more: set<nat>, inbox: map<nat, seq<Message>>, sent: map<Key, Bytes>, got: map<Key, Bytes>)
    requires DownOk(epoch, streams, owner, closed, inbox, sent, got)
    requires fewer.Keys <= streams.Keys && closed <= more
    ensures DownOk(epoch, fewer, owner, more, inbox, sent, got)
  {
    forall k | k in owner ensures Flows(Live(epoch, fewer, owner, more, k), At(got, k), Due(inbox, k), At(sent, k)) {
      assert Flows(Live(epoch, streams, owner, closed, k), At(got, k), Due(inbox, k), At(sent, k));
    }
  }

  lemma CloseKeeps(s: State, closed: set<nat>)
    requires Inv(s) && s.closed <= closed
    ensures Inv(s.(closed := closed))
  {
    hide UpOk, DownOk, OwnersOk, TablesOk, SessionsOk, DroppedOk, EarlyOk, HolderOk;
    FewerKeepDown(s.epoch, s.streams, s.streams, s.owner, s.closed, closed, s.inbox, s.sent, s.got);
  }

  /** Failing the waiting futures grants none, and forgets none. */
  lemma FailWaitingKeeps(epoch: nat, nextStream: nat, owner: map<Key, nat>, futures: map<Key, Future>,
                         acks: map<nat, nat>,
                         pumps: map<nat, PumpPhase>, lock: Lock, streams: map<nat, nat>)
    requires OwnersOk(epoch, nextStream, owner, futures) && EarlyOk(epoch, pumps, lock, streams, acks, futures)
    ensures OwnersOk(epoch, nextStream, owner, FailWaiting(futures, acks))
    ensures EarlyOk(epoch, pumps, lock, map[], map[], FailWaiting(futures, acks))
  {
    var failed := FailWaiting(futures, acks);
    assert forall k :: k in failed ==> k in futures && (failed[k] == Granted ==> futures[k] == Granted);
  }

  lemma CloseLocalsKeeps(s: State)
    requires Inv(s)
    ensures Inv(CloseLocals(s))
  {
    hide UpOk, DownOk, SessionsOk, HolderOk, OwnersOk, EarlyOk, FailWaiting, Writers;
    FailWaitingKeeps(s.epoch, s.nextStream, s.owner, s.futures, s.acks, s.pumps, s.lock, s.streams);
    FewerKeepDown(s.epoch, s.streams, map[], s.owner, s.closed, s.closed + Writers(s.streams, s.owner), s.inbox,
        s.sent, s.got);
  }

  lemma SettleKeeps(s: State, sid: nat, outcome: Future)
    requires Inv(s) && Pump(s.pumps, s.epoch) == Running
    ensures Inv(Settle(s, sid, outcome))
  {
    hide UpOk, DownOk, SessionsOk, HolderOk, TablesOk, DroppedOk;
    if sid in s.acks && Key(s.acks[sid], sid) in s.futures && s.futures[Key(s.acks[sid], sid)] == Pending {
      var futures := s.futures[Key(s.acks[sid], sid) := outcome];
      assert OwnersOk(s.epoch, s.nextStream, s.owner, futures);
    }
  }

  lemma {:induction false} PayloadAppend(inbox: seq<Message>, m: Message, sid: nat)
    ensures Payload(inbox + [m], sid) == Payload(inbox, sid) + PayloadOf(m, sid)
  {
    if inbox == [] {
      assert inbox + [m] == [m] && Payload([m][1..], sid) == [];
    } else {
      assert (inbox + [m])[1..] == inbox[1..] + [m];
      PayloadAppend(inbox[1..], m, sid);
    }
  }

  lemma DueTaken(inbox: map<nat, seq<Message>>, e: nat, k: Key)
    requires Inbox(inbox, e) != []
    ensures Due(inbox, k) == (if k.epoch == e then PayloadOf(Inbox(inbox, e)[0], k.sid) else [])
                             + Due(inbox[e := Inbox(inbox, e)[1..]], k)
  {
  }

  lemma DueAppended(inbox: map<nat, seq<Message>>, e: nat, m: Message, k: Key)
    ensures Due(inbox[e := Inbox(inbox, e) + [m]], k)
         == Due(inbox, k) + if k.epoch == e then PayloadOf(m, k.sid) else []
  {
    PayloadAppend(Inbox(inbox, e), m, k.sid);
  }

  lemma FlowDelivered(got: Bytes, now: Bytes, due: Bytes, sent: Bytes)
    requires Flows(true, got, now + due, sent)
    ensures Flows(true, got + now, due, sent)
  {
    assert got + (now + due) == (got + now) + due;
  }

  lemma FlowStopped(got: Bytes, due: Bytes, other: Bytes, sent: Bytes)
    requires Flows(false, got, due, sent)
    ensures Flows(false, got, other, sent)
  {
  }

  lemma FlowOn(live: bool, got: Bytes, due: Bytes, sent: Bytes, more: Bytes)
    requires Flows(live, got, due, sent)
    ensures Flows(live, got, due + more, sent + more)
  {
    assert got + (due + more) == (got + due) + more;
  }

  lemma LogAppended(sent: map<Key, Bytes>, e: nat, m: Message, k: Key)
    ensures At(if m.Binary? then LogFrame(sent, e, m.frame) else sent, k)
         == At(sent, k) + if k.epoch == e then PayloadOf(m, k.sid) else []
  {
  }

  /** The message the pump takes carries nothing for an open writer. */
  lemma SkipKeepsDown(epoch: nat, streams: map<nat, nat>, owner: map<Key, nat>, closed: set<nat>,
                      inbox: map<nat, seq<Message>>, sent: map<Key, Bytes>, got: map<Key, Bytes>)
    requires DownOk(epoch, streams, owner, closed, inbox, sent, got) && Inbox(inbox, epoch) != []
    requires forall k :: Live(epoch, streams, owner, closed, k) ==> PayloadOf(Inbox(inbox, epoch)[0], k.sid) == []
    ensures DownOk(epoch, streams, owner, closed, inbox[epoch := Inbox(inbox, epoch)[1..]], sent, got)
  {
    hide Flows, Due, PayloadOf;
    var rest := inbox[epoch := Inbox(inbox, epoch)[1..]];
    forall k ensures k in owner ==> Flows(Live(epoch, streams, owner, closed, k), At(got, k), Due(rest, k), At(sent, k))
      ensures k !in owner ==> Due(rest, k) == []
    {
      DueTaken(inbox, epoch, k);
      if Live(epoch, streams, owner, closed, k) || k.epoch != epoch {
        assert Due(inbox, k) == [] + Due(rest, k) == Due(rest, k);
      } else if k in owner {
        FlowStopped(At(got, k), Due(inbox, k), Due(rest, k), At(sent, k));
      }
    }
  }

  /** The message the pump takes is written to an open writer. */
  lemma DeliverKeepsDown(epoch: nat, streams: map<nat, nat>, owner: map<Key, nat>, closed: set<nat>,
                         inbox: map<nat, seq<Message>>, sent: map<Key, Bytes>, got: map<Key, Bytes>, k: Key)
    requires DownOk(epoch, streams, owner, closed, inbox, sent, got) && Inbox(inbox, epoch) != []
    requires Live(epoch, streams, owner, closed, k)
    requires forall other :: other != k.sid ==> PayloadOf(Inbox(inbox, epoch)[0], other) == []
    ensures DownOk(epoch, streams, owner, closed, inbox[epoch := Inbox(inbox, epoch)[1..]], sent,
                   got[k := At(got, k) + PayloadOf(Inbox(inbox, epoch)[0], k.sid)])
  {
    hide Flows, Due, PayloadOf;
    var m, rest := Inbox(inbox, epoch)[0], inbox[epoch := Inbox(inbox, epoch)[1..]];
    var next := got[k := At(got, k) + PayloadOf(m, k.sid)];
    forall j ensures j in owner ==>
        Flows(Live(epoch, streams, owner, closed, j), At(next, j), Due(rest, j), At(sent, j))
      ensures j !in owner ==> Due(rest, j) == []
    {
      DueTaken(inbox, epoch, j);
      if j == k {
        FlowDelivered(At(got, k), PayloadOf(m, k.sid), Due(rest, k), At(sent, k));
      } else {
        assert Due(inbox, j) == [] + Due(rest, j) == Due(rest, j);
      }
    }
  }

  /** The server speaks on an allocated stream. */
  lemma SendKeepsDown(epoch: nat, streams: map<nat, nat>, owner: map<Key, nat>, closed: set<nat>,
                      inbox: map<nat, seq<Message>>, sent: map<Key, Bytes>, got: map<Key, Bytes>, e: nat, m: Message)
    requires DownOk(epoch, streams, owner, closed, inbox, sent, got)
    requires m.Binary? ==> Unpack(m.frame).Some? && Key(e, Unpack(m.frame).value.sid) in owner
    ensures DownOk(epoch, streams, owner, closed, inbox[e := Inbox(inbox, e) + [m]],
                   if m.Binary? then LogFrame(sent, e, m.frame) else sent, got)
  {
    var more, log := inbox[e := Inbox(inbox, e) + [m]], if m.Binary? then LogFrame(sent, e, m.frame) else sent;
    forall k ensures k in owner ==> Flows(Live(epoch, streams, owner, closed, k), At(got, k), Due(more, k), At(log, k))
      ensures k !in owner ==> Due(more, k) == []
    {
      DueAppended(inbox, e, m, k);
      LogAppended(sent, e, m, k);
      if k in owner {
        FlowOn(Live(epoch, streams, owner, closed, k), At(got, k), Due(inbox, k), At(sent, k),
               if k.epoch == e then PayloadOf(m, k.sid) else []);
      }
    }
  }

  /** The pump is done, and `ws` no longer refers to its session. */
  lemma EndKeeps(s: State, e: nat)
    requires Inv(s) && NoStreams(s.streams, s.acks) && (Pump(s.pumps, e) == Running || Pump(s.pumps, e) == Cancelling)
    ensures Inv(s.(ws := if s.ws == Some(e) then None else s.ws, pumps := s.pumps[e := Done]))
  {
    hide UpOk, DownOk, OwnersOk, TablesOk, HolderOk;
  }

  /** A message that is not for a stream in the table, or not a frame at all. */
  lemma SkipKeeps(s: State)
    requires Inv(s) && Inbox(s.inbox, s.epoch) != []
    requires forall k :: Live(s.epoch, s.streams, s.owner, s.closed, k) ==>
        PayloadOf(Inbox(s.inbox, s.epoch)[0], k.sid) == []
    ensures Inv(s.(inbox := s.inbox[s.epoch := Inbox(s.inbox, s.epoch)[1..]]))
  {
    hide UpOk, DownOk, SessionsOk, HolderOk, TablesOk, DroppedOk, OwnersOk, EarlyOk;
    SkipKeepsDown(s.epoch, s.streams, s.owner, s.closed, s.inbox, s.sent, s.got);
  }

  lemma BinaryKeeps(s: State, data: Bytes)
    requires Inv(s) && Inbox(s.inbox, s.epoch) != [] && Inbox(s.inbox, s.epoch)[0] == Binary(data)
    ensures var t := Handle(s.(inbox := s.inbox[s.epoch := Inbox(s.inbox, s.epoch)[1..]]), Binary(data));
      Inv(t) && t.owner == s.owner
  {
    hide UpOk, DownOk, SessionsOk, HolderOk, DroppedOk, OwnersOk, EarlyOk;
    var frame, t := Unpack(data), s.(inbox := s.inbox[s.epoch := Inbox(s.inbox, s.epoch)[1..]]);
    if frame.Some? && frame.value.sid in s.streams && Writable(s.owner, s.closed, Key(s.epoch, frame.value.sid)) {
      var k := Key(s.epoch, frame.value.sid);
      DeliverKeepsDown(s.epoch, s.streams, s.owner, s.closed, s.inbox, s.sent, s.got, k);
      var u := t.(got := s.got[k := At(s.got, k) + frame.value.payload]);
      assert Inv(u);
      Rename(u, Handle(t, Binary(data)));
    } else {
      SkipKeeps(s);
      Rename(t, Handle(t, Binary(data)));
    }
  }

  lemma ControlKeeps(s: State, m: Message)
    requires Inv(s) && Pump(s.pumps, s.epoch) == Running && !m.Binary?
    ensures Inv(Handle(s, m)) && Handle(s, m).owner == s.owner
  {
    hide Inv;
    match m {
      case Opened(sid) =>
        SettleKeeps(s, sid, Granted);
        Rename(Settle(s, sid, Granted), Handle(s, m));
      case Refused(sid) =>
        SettleKeeps(s, sid, Failed);
        Rename(Settle(s, sid, Failed), Handle(s, m));
      case Closing(sid) =>
        if sid in s.streams {
          var closed := s.closed + Writers(map[sid := s.streams[sid]], s.owner);
          CloseKeeps(s, closed);
          UnlistKeeps(s.(closed := closed), sid);
          Rename(s.(closed := closed, streams := s.streams - {sid}), Handle(s, m));
        } else {
          Rename(s, Handle(s, m));
        }
      case Ignored => Rename(s, Handle(s, m));
    }
  }

  lemma UnlistKeeps(s: State, sid: nat)
    requires Inv(s)
    ensures Inv(s.(streams := s.streams - {sid}))
  {
    hide UpOk, DownOk, SessionsOk, HolderOk, OwnersOk;
    FewerKeepDown(s.epoch, s.streams, s.streams - {sid}, s.owner, s.closed, s.closed, s.inbox, s.sent, s.got);
  }

  /** What a client reads is next in line; what it sends goes to its own stream. */
  lemma SendKeepsUp(owner: map<Key, nat>, clients: map<nat, Client>, up: map<Key, Bytes>, c: nat)
    requires UpOk(owner, clients, up) && c in clients && clients[c].phase.Streaming? && clients[c].key.Some?
    requires Pack(clients[c].key.value.sid, clients[c].phase.unsent).Some?
    ensures var k := clients[c].key.value;
      UpOk(owner, clients[c := clients[c].(phase := Streaming([]))],
           LogFrame(up, k.epoch, Pack(k.sid, clients[c].phase.unsent).value))
  {
    var cl, k := clients[c], clients[c].key.value;
    var log := LogFrame(up, k.epoch, Pack(k.sid, cl.phase.unsent).value);
    var next := clients[c := cl.(phase := Streaming([]))];
    UnpackPack(k.sid, cl.phase.unsent);
    assert log == up[k := At(up, k) + cl.phase.unsent];
    assert ClientOk(c, cl, owner, up);
    assert At(log, k) + [] == cl.wrote[..cl.read];
    forall j | j in owner ensures StreamUpOk(j, owner, next, log) {
      assert StreamUpOk(j, owner, clients, up);
    }
    forall d | d in next ensures ClientOk(d, next[d], owner, log) {
      assert ClientOk(d, clients[d], owner, up);
    }
  }

  lemma GiveUpKeeps(s: State, c: nat, sid: nat)
    requires Inv(s) && HeldBy(s.lock, s.clients, c) && s.lock.stage.Opening? && s.lock.stage.stream.sid == sid
    ensures Inv(GiveUp(s, c, sid)) && GiveUp(s, c, sid).owner == s.owner
  {
    hide UpOk, DownOk, OwnersOk, TablesOk;
    if Pump(s.pumps, s.epoch) == Unstarted {
      var t := Pop(s, sid);
      PopKeeps(s, sid);
      OpeningPopped(s, sid);
      ReleaseKeeps(t, c, Gone);
      CloseKeeps(SetPhase(t, c, Gone).(lock := Free), s.closed + {c});
      Rename(SetPhase(t, c, Gone).(lock := Free).(closed := s.closed + {c}), GiveUp(s, c, sid));
    } else {
      ReleaseKeeps(s, c, Leaving);
      Rename(SetPhase(s, c, Leaving).(lock := Free), GiveUp(s, c, sid));
    }
  }

  /** The stream being opened was the only one of a session whose pump has not started. */
  lemma OpeningPopped(s: State, sid: nat)
    requires Inv(s) && s.lock.Held? && s.lock.stage.Opening? && s.lock.stage.stream.sid == sid
    ensures Pump(s.pumps, s.epoch) == Unstarted ==> NoStreams(Pop(s, sid).streams, Pop(s, sid).acks)
  {
    hide UpOk, DownOk, OwnersOk, TablesOk, SessionsOk, HolderOk, DroppedOk;
    if Pump(s.pumps, s.epoch) == Unstarted {
      assert forall other :: other !in Pop(s, sid).streams && other !in Pop(s, sid).acks;
    }
  }

  lemma FailFirstKeeps(s: State, c: nat, sid: nat)
    requires Inv(s) && HeldBy(s.lock, s.clients, c) && s.lock.stage.Opening? && s.lock.stage.stream.sid == sid
    ensures Inv(FailFirst(s, c, sid)) && FailFirst(s, c, sid).owner == s.owner
  {
    hide UpOk, DownOk, OwnersOk, TablesOk;
    var t := Pop(s, sid);
    PopKeeps(s, sid);
    OpeningPopped(s, sid);
    if NoStreams(t.streams, t.acks) {
      RetryKeeps(t, c);
      Rename(t.(lock := Held(ClientTask(c), Deciding(true))), FailFirst(s, c, sid));
    } else {
      ReleaseKeeps(t, c, Leaving);
      Rename(SetPhase(t, c, Leaving).(lock := Free), FailFirst(s, c, sid));
    }
  }

  lemma LeftKeeps(s: State, c: nat, sid: nat)
    requires Inv(s) && s.lock.Free? && c in s.clients
    ensures Inv(Left(s, c, sid)) && Left(s, c, sid).owner == s.owner
  {
    hide Inv;
    PopKeeps(s, sid);
    MoveKeeps(Pop(s, sid), c, Gone);
    CloseKeeps(SetPhase(Pop(s, sid), c, Gone), s.closed + {c});
  }

  lemma ConnectKeeps(s: State, c: nat)
    requires Inv(s) && Enabled(s, Connect(c))
    ensures Inv(After(s, Connect(c)))
    ensures After(s, Connect(c)).owner == s.owner
  {
    hide SessionsOk, TablesOk, DroppedOk, EarlyOk, OwnersOk, DownOk;
    ClientKeepsUp(s.owner, s.clients, s.up, c, Client(Waiting, None, [], 0));
  }

  lemma WriteKeeps(s: State, c: nat, data: Bytes)
    requires Inv(s) && Enabled(s, Write(c, data))
    ensures Inv(After(s, Write(c, data)))
    ensures After(s, Write(c, data)).owner == s.owner
  {
    hide SessionsOk, TablesOk, DroppedOk, EarlyOk, OwnersOk, DownOk;
    assert ClientOk(c, s.clients[c], s.owner, s.up);
    ClientKeepsUp(s.owner, s.clients, s.up, c, s.clients[c].(wrote := s.clients[c].wrote + data));
  }

  lemma AcquireKeeps(s: State, c: nat)
    requires Inv(s) && Enabled(s, Acquire(c))
    ensures Inv(After(s, Acquire(c)))
    ensures After(s, Acquire(c)).owner == s.owner
  {
    hide TablesOk, OwnersOk, UpOk, DownOk;
    PhaseKeepsUp(s.owner, s.clients, s.up, c, InLock);
  }

  lemma ReuseKeeps(s: State, c: nat)
    requires Inv(s) && Enabled(s, Reuse(c))
    ensures Inv(After(s, Reuse(c)))
    ensures After(s, Reuse(c)).owner == s.owner[Key(s.ws.value, s.nextStream) := c]
  {
    hide UpOk, DownOk, OwnersOk, TablesOk, HolderOk;
    EarlyEmpty(s.epoch, s.pumps, s.lock, s.streams, s.acks, s.futures);
    AllocateKeeps(s, c, false);
  }

  lemma StartDropKeeps(s: State, c: nat)
    requires Inv(s) && Enabled(s, StartDrop(c))
    ensures Inv(After(s, StartDrop(c)))
    ensures After(s, StartDrop(c)).owner == s.owner
  {
    hide UpOk, DownOk, OwnersOk, TablesOk;
    if s.ws == None {
      DropNothingKeeps(s, ClientTask(c), s.lock.stage.force);
    } else {
      DropSessionKeeps(s, ClientTask(c), s.lock.stage.force, if Pump(s.pumps, s.epoch) == Running then Cancelling
          else Done);
    }
  }

  lemma DialOkKeeps(s: State, c: nat)
    requires Inv(s) && Enabled(s, DialOk(c))
    ensures Inv(After(s, DialOk(c)))
    ensures After(s, DialOk(c)).owner == s.owner[Key(s.epoch + 1, 1) := c]
  {
    hide UpOk, DownOk, EarlyOk, HolderOk, Allocate;
    var e := s.epoch + 1;
    NextSessionKeepsDown(s.epoch, s.owner, s.closed, s.inbox, s.sent, s.got);
    AllocateKeeps(s.(epoch := e, ws := Some(e), pumps := s.pumps[e := Unstarted], nextStream := 1), c,
        s.lock.stage.force);
  }

  lemma DialFailKeeps(s: State, c: nat)
    requires Inv(s) && Enabled(s, DialFail(c))
    ensures Inv(After(s, DialFail(c)))
    ensures After(s, DialFail(c)).owner == s.owner
  {
    hide UpOk, DownOk, OwnersOk, TablesOk;
    ReleaseKeeps(s, c, Leaving);
  }

  lemma OpenOkKeeps(s: State, c: nat)
    requires Inv(s) && Enabled(s, OpenOk(c))
    ensures Inv(After(s, OpenOk(c)))
    ensures After(s, OpenOk(c)).owner == s.owner
  {
    hide UpOk, DownOk, OwnersOk, TablesOk;
    ReleaseKeeps(s, c, Streaming([]));
  }

  lemma OpenFailKeeps(s: State, c: nat)
    requires Inv(s) && Enabled(s, OpenFail(c))
    ensures Inv(After(s, OpenFail(c)))
    ensures After(s, OpenFail(c)).owner == s.owner
  {
    hide Inv, GiveUp, FailFirst;
    if s.lock.stage.retry {
      GiveUpKeeps(s, c, s.lock.stage.stream.sid);
    } else {
      FailFirstKeeps(s, c, s.lock.stage.stream.sid);
    }
  }

  lemma ReadKeeps(s: State, c: nat, n: nat)
    requires Inv(s) && Enabled(s, Read(c, n))
    ensures Inv(After(s, Read(c, n)))
    ensures After(s, Read(c, n)).owner == s.owner
  {
    hide SessionsOk, TablesOk, DroppedOk, EarlyOk, OwnersOk, DownOk, UpOk, HolderOk;
    ReadKeepsUp(s.owner, s.clients, s.up, c, n);
    var cl := s.clients[c];
    OthersKeepHolder(s.lock, s.clients, c,
        cl.(phase := Streaming(cl.wrote[cl.read..cl.read + n]), read := cl.read + n));
  }

  lemma SendOkKeeps(s: State, c: nat)
    requires Inv(s) && Enabled(s, SendOk(c))
    ensures Inv(After(s, SendOk(c)))
    ensures After(s, SendOk(c)).owner == s.owner
  {
    hide SessionsOk, TablesOk, DroppedOk, EarlyOk, OwnersOk, DownOk, UpOk;
    SendKeepsUp(s.owner, s.clients, s.up, c);
  }

  lemma StopKeeps(s: State, c: nat)
    requires Inv(s) && Enabled(s, Stop(c))
    ensures Inv(After(s, Stop(c)))
    ensures After(s, Stop(c)).owner == s.owner
  {
    hide SessionsOk, TablesOk, DroppedOk, EarlyOk, OwnersOk, DownOk, UpOk;
    PhaseKeepsUp(s.owner, s.clients, s.up, c, Leaving);
  }

  lemma LeaveKeeps(s: State, c: nat)
    requires Inv(s) && Enabled(s, Leave(c))
    ensures Inv(After(s, Leave(c)))
    ensures After(s, Leave(c)).owner == s.owner
  {
    hide Inv, Left;
    LeftKeeps(s, c, if s.clients[c].key.Some? then s.clients[c].key.value.sid else 0);
  }

  lemma CloseWriterKeeps(s: State, c: nat)
    requires Inv(s) && Enabled(s, CloseWriter(c))
    ensures Inv(After(s, CloseWriter(c)))
    ensures After(s, CloseWriter(c)).owner == s.owner
  {
    hide Inv;
    CloseKeeps(s, s.closed + {c});
  }

  lemma IdleDropKeeps(s: State)
    requires Inv(s) && Enabled(s, IdleDrop)
    ensures Inv(After(s, IdleDrop))
    ensures After(s, IdleDrop).owner == s.owner
  {
    hide UpOk, DownOk, OwnersOk, TablesOk;
    DropSessionKeeps(s, IdleTask, false, if Pump(s.pumps, s.epoch) == Running then Cancelling else Done);
  }

  lemma PumpJoinedKeeps(s: State)
    requires Inv(s) && Enabled(s, PumpJoined)
    ensures Inv(After(s, PumpJoined))
    ensures After(s, PumpJoined).owner == s.owner
  {
    hide UpOk, DownOk, OwnersOk, TablesOk;

  }

  lemma SocketClosedKeeps(s: State)
    requires Inv(s) && Enabled(s, SocketClosed)
    ensures Inv(After(s, SocketClosed))
    ensures After(s, SocketClosed).owner == s.owner
  {
    hide Inv;
    if s.lock.stage.closeLocals {
      CloseLocalsKeeps(s);
      ClosedKeeps(CloseLocals(s));
    } else {
      ClosedKeeps(s);
    }
  }

  lemma PumpStartsKeeps(s: State, e: nat)
    requires Inv(s) && Enabled(s, PumpStarts(e))
    ensures Inv(After(s, PumpStarts(e)))
    ensures After(s, PumpStarts(e)).owner == s.owner
  {
    hide UpOk, DownOk, OwnersOk, TablesOk;

  }

  lemma PumpReadsKeeps(s: State, e: nat)
    requires Inv(s) && Enabled(s, PumpReads(e))
    ensures Inv(After(s, PumpReads(e)))
    ensures After(s, PumpReads(e)).owner == s.owner
  {
    hide UpOk, DownOk, OwnersOk, TablesOk, DroppedOk, EarlyOk, HolderOk;
    var m := Inbox(s.inbox, e)[0];
    if m.Binary? {
      BinaryKeeps(s, m.frame);
    } else {
      SkipKeeps(s);
      ControlKeeps(s.(inbox := s.inbox[e := Inbox(s.inbox, e)[1..]]), m);
    }
  }

  lemma PumpPopsKeeps(s: State, e: nat, sid: nat)
    requires Inv(s) && Enabled(s, PumpPops(e, sid))
    ensures Inv(After(s, PumpPops(e, sid)))
    ensures After(s, PumpPops(e, sid)).owner == s.owner
  {
    hide Inv;
    UnlistKeeps(s, sid);
  }

  lemma PumpEndsKeeps(s: State, e: nat)
    requires Inv(s) && Enabled(s, PumpEnds(e))
    ensures Inv(After(s, PumpEnds(e)))
    ensures After(s, PumpEnds(e)).owner == s.owner
  {
    hide Inv;
    CloseLocalsKeeps(s);
    EndKeeps(CloseLocals(s), e);
  }

  lemma ServerSendsKeeps(s: State, e: nat, m: Message)
    requires Inv(s) && Enabled(s, ServerSends(e, m))
    ensures Inv(After(s, ServerSends(e, m)))
    ensures After(s, ServerSends(e, m)).owner == s.owner
  {
    hide SessionsOk, TablesOk, DroppedOk, EarlyOk, OwnersOk, DownOk, UpOk, HolderOk;
    SendKeepsDown(s.epoch, s.streams, s.owner, s.closed, s.inbox, s.sent, s.got, e, m);
  }

  /** A step allocates one new stream, or none. */
  function OwnersAfter(s: State, step: Step): map<Key, nat>
    requires Enabled(s, step)
  {
    match step
    case Reuse(c) => s.owner[Key(s.ws.value, s.nextStream) := c]
    case DialOk(c) => s.owner[Key(s.epoch + 1, 1) := c]
    case _ => s.owner
  }

  /** Whatever any task does next, the invariant holds. */
  lemma {:induction false} StepKeeps(s: State, step: Step)
    requires Inv(s) && Enabled(s, step)
    ensures Inv(After(s, step))
    ensures After(s, step).owner == OwnersAfter(s, step)
  {
    hide Inv, Enabled, After;
    match step
    case Connect(c) =>
      ConnectKeeps(s, c);
      Rename(After(s, Connect(c)), After(s, step));
    case Write(c, data) =>
      WriteKeeps(s, c, data);
      Rename(After(s, Write(c, data)), After(s, step));
    case Acquire(c) =>
      AcquireKeeps(s, c);
      Rename(After(s, Acquire(c)), After(s, step));
    case Reuse(c) =>
      ReuseKeeps(s, c);
      Rename(After(s, Reuse(c)), After(s, step));
    case StartDrop(c) =>
      StartDropKeeps(s, c);
      Rename(After(s, StartDrop(c)), After(s, step));
    case DialOk(c) =>
      DialOkKeeps(s, c);
      Rename(After(s, DialOk(c)), After(s, step));
    case DialFail(c) =>
      DialFailKeeps(s, c);
      Rename(After(s, DialFail(c)), After(s, step));
    case OpenOk(c) =>
      OpenOkKeeps(s, c);
      Rename(After(s, OpenOk(c)), After(s, step));
    case OpenFail(c) =>
      OpenFailKeeps(s, c);
      Rename(After(s, OpenFail(c)), After(s, step));
    case Read(c, n) =>
      ReadKeeps(s, c, n);
      Rename(After(s, Read(c, n)), After(s, step));
    case SendOk(c) =>
      SendOkKeeps(s, c);
      Rename(After(s, SendOk(c)), After(s, step));
    case Stop(c) =>
      StopKeeps(s, c);
      Rename(After(s, Stop(c)), After(s, step));
    case Leave(c) =>
      LeaveKeeps(s, c);
      Rename(After(s, Leave(c)), After(s, step));
    case CloseWriter(c) =>
      CloseWriterKeeps(s, c);
      Rename(After(s, CloseWriter(c)), After(s, step));
    case IdleDrop =>
      IdleDropKeeps(s);
      Rename(After(s, IdleDrop), After(s, step));
    case PumpJoined =>
      PumpJoinedKeeps(s);
      Rename(After(s, PumpJoined), After(s, step));
    case SocketClosed =>
      SocketClosedKeeps(s);
      Rename(After(s, SocketClosed), After(s, step));
    case PumpStarts(e) =>
      PumpStartsKeeps(s, e);
      Rename(After(s, PumpStarts(e)), After(s, step));
    case PumpReads(e) =>
      PumpReadsKeeps(s, e);
      Rename(After(s, PumpReads(e)), After(s, step));
    case PumpPops(e, sid) =>
      PumpPopsKeeps(s, e, sid);
      Rename(After(s, PumpPops(e, sid)), After(s, step));
    case PumpEnds(e) =>
      PumpEndsKeeps(s, e);
      Rename(After(s, PumpEnds(e)), After(s, step));
    case ServerSends(e, m) =>
      ServerSendsKeeps(s, e, m);
      Rename(After(s, ServerSends(e, m)), After(s, step));
  }

  // ---------- whole runs ----------

  /** Taking the steps in order leads from one state to the other. */
  ghost predicate Reaches(s: State, steps: seq<Step>, t: State) {
    Runs.Reaches(Enabled, After, s, steps, t)
  }

  lemma {:induction false} RunKeeps(s: State, steps: seq<Step>, t: State)
    requires Inv(s) && Reaches(s, steps, t)
    ensures Inv(t)
    decreases |steps|
  {
    hide Inv, Enabled, After;
    if steps != [] {
      StepKeeps(s, steps[0]);
      RunKeeps(After(s, steps[0]), steps[1..], t);
    }
  }

  lemma InitOk(s: State)
    requires Init(s)
    ensures Inv(s)
  {
  }

  /** The next id of a session, or of the next session, is not taken. */
  lemma FreshIds(s: State)
    requires Inv(s)
    ensures s.ws.Some? ==> Key(s.ws.value, s.nextStream) !in s.owner
    ensures Key(s.epoch + 1, 1) !in s.owner
  {
    hide UpOk, DownOk, TablesOk, DroppedOk, EarlyOk, HolderOk;
  }

  /** A stream, once allocated, stays its client's for good. */
  lemma {:induction false} StepKeepsOwner(s: State, step: Step, k: Key)
    requires Inv(s) && Enabled(s, step) && k in s.owner
    ensures k in After(s, step).owner && After(s, step).owner[k] == s.owner[k]
  {
    hide Inv, After;
    FreshIds(s);
    StepKeeps(s, step);
    assert OwnersAfter(s, step)[k] == s.owner[k];
  }

  lemma {:induction false} RunKeepsOwner(s: State, steps: seq<Step>, t: State, k: Key)
    requires Inv(s) && Reaches(s, steps, t) && k in s.owner
    ensures k in t.owner && t.owner[k] == s.owner[k]
    decreases |steps|
  {
    hide Inv, Enabled, After;
    if steps != [] {
      StepKeeps(s, steps[0]);
      StepKeepsOwner(s, steps[0], k);
      RunKeepsOwner(After(s, steps[0]), steps[1..], t, k);
    }
  }

  /**
   Stream integrity.  Over any interleaving of clients, pumps, idle drops and redials: a stream
   belongs to the one client it was ever allocated to, what reached the server on it is the start
   of what that client wrote, and what was written to that client from it is the start of what the
   server sent on it.
   */
  lemma {:induction false} StreamIntegrity(s: State, before: seq<Step>, t: State, after: seq<Step>, u: State, k: Key)
    requires Init(s) && Reaches(s, before, t) && Reaches(t, after, u) && k in t.owner
    ensures k in u.owner && u.owner[k] == t.owner[k] && u.owner[k] in u.clients
    ensures At(u.up, k) <= u.clients[u.owner[k]].wrote
    ensures At(u.got, k) <= At(u.sent, k)
  {
    InitOk(s);
    RunKeeps(s, before, t);
    RunKeeps(t, after, u);
    RunKeepsOwner(t, after, u, k);
    Integrity(u, k);
  }

  lemma Integrity(s: State, k: Key)
    requires Inv(s) && k in s.owner
    ensures s.owner[k] in s.clients && At(s.up, k) <= s.clients[s.owner[k]].wrote && At(s.got, k) <= At(s.sent, k)
  {
    assert StreamUpOk(k, s.owner, s.clients, s.up);
    assert Flows(Live(s.epoch, s.streams, s.owner, s.closed, k), At(s.got, k), Due(s.inbox, k), At(s.sent, k));
  }

  /** A message of a session only ever reaches a writer of that session's own stream. */
  lemma {:induction false} NoCrossTalk(s: State, e: nat, k: Key)
    requires Inv(s) && Enabled(s, PumpReads(e)) && k.epoch != e
    ensures At(After(s, PumpReads(e)).got, k) == At(s.got, k)
  {
    hide Inv, Handle;
    RunningPumpIsCurrent(s, e);
    HandleElsewhere(s.(inbox := s.inbox[e := Inbox(s.inbox, e)[1..]]), Inbox(s.inbox, e)[0], e, k);
  }

  lemma HandleElsewhere(s: State, m: Message, e: nat, k: Key)
    requires k.epoch != e && forall sid :: sid in s.streams ==> s.streams[sid] == e
    ensures At(Handle(s, m).got, k) == At(s.got, k)
  {
  }

  lemma RunningPumpIsCurrent(s: State, e: nat)
    requires Inv(s) && Pump(s.pumps, e) == Running
    ensures e == s.epoch && forall sid :: sid in s.streams ==> s.streams[sid] == e
  {
    hide UpOk, DownOk, OwnersOk, DroppedOk, EarlyOk, HolderOk;
  }

  /**
   The session table.  In every reachable state: an entry is of the current session; once a session
   is dropped, and until the next one is dialled, both tables are empty; and from the moment the idle
   task closes a session until it is done with it, both tables are empty.
   */
  lemma {:induction false} SessionTable(s: State, steps: seq<Step>, t: State)
    requires Init(s) && Reaches(s, steps, t)
    ensures forall sid :: sid in t.streams ==> t.streams[sid] == t.epoch
    ensures t.lock.Free? && !NoStreams(t.streams, t.acks) ==> t.ws == Some(t.epoch)
    ensures t.lock.Held? && (t.lock.stage.AwaitClose? || t.lock.stage.Dialing?) ==> NoStreams(t.streams, t.acks)
    ensures t.lock.Held? && t.lock.holder.IdleTask? ==> NoStreams(t.streams, t.acks)
  {
    InitOk(s);
    RunKeeps(s, steps, t);
    hide UpOk, DownOk, OwnersOk, EarlyOk, HolderOk;
  }

  /**
   A leaving client pops by bare stream id.  It takes away a stream that is not its own exactly
   when its session is over and the current one has given out the same id.
   */
  lemma {:induction false} LeavingMayPopAnother(s: State, c: nat)
    requires Inv(s) && Enabled(s, Leave(c)) && s.clients[c].key.Some?
    ensures (exists sid ::
               && sid in s.streams && sid !in After(s, Leave(c)).streams
               && Key(s.streams[sid], sid) != s.clients[c].key.value)
      <==> s.clients[c].key.value.epoch != s.epoch && s.clients[c].key.value.sid in s.streams
  {
    hide UpOk, DownOk, OwnersOk, EarlyOk, HolderOk, DroppedOk, SessionsOk;
    var sid := s.clients[c].key.value.sid;
    assert After(s, Leave(c)).streams == s.streams - {sid};
    if sid in s.streams {
      assert sid !in After(s, Leave(c)).streams;
    }
  }

  /** Without a session, a new client dials the next one and waits for its stream, which has id 1. */
  function Dialled(s: State, c: nat): State {
    var e := s.epoch + 1;
    s.(epoch := e, ws := Some(e), pumps := s.pumps[e := Unstarted], nextStream := 2,
       streams := s.streams[1 := e], acks := s.acks[1 := e],
       lock := Held(ClientTask(c), Opening(false, Key(e, 1))),
       clients := s.clients[c := Client(InLock, Some(Key(e, 1)), [], 0)],
       futures := s.futures[Key(e, 1) := Pending], owner := s.owner[Key(e, 1) := c])
  }

  /** The client has the lock, and finds no session. */
  function Finding(s: State, c: nat): State {
    s.(clients := s.clients[c := Client(InLock, None, [], 0)], lock := Held(ClientTask(c), AwaitClose(false)))
  }

  lemma Finds(s: State, c: nat) returns (steps: seq<Step>)
    requires s.ws == None && s.lock == Free && c !in s.clients && c !in s.closed
    ensures Reaches(s, steps, Finding(s, c))
  {
    hide Runs.Reaches;
    assert Reaches(s, [], s) by { Runs.Nothing(Enabled, After, s); }
    Runs.OneMore(Enabled, After, s, [], s, Connect(c));
    var t := After(s, Connect(c));
    steps := [] + [Connect(c)];
    Runs.OneMore(Enabled, After, s, steps, t, Acquire(c));
    t, steps := After(t, Acquire(c)), steps + [Acquire(c)];
    Runs.OneMore(Enabled, After, s, steps, t, StartDrop(c));
    t, steps := After(t, StartDrop(c)), steps + [StartDrop(c)];
    assert t.clients == Finding(s, c).clients;
    assert t == Finding(s, c);
  }

  lemma DialsOn(s: State, c: nat) returns (steps: seq<Step>)
    requires c !in s.clients
    ensures Reaches(Finding(s, c), steps, Dialled(s, c))
  {
    hide Runs.Reaches;
    var t := Finding(s, c);
    assert Reaches(t, [], t) by { Runs.Nothing(Enabled, After, t); }
    Runs.OneMore(Enabled, After, t, [], t, SocketClosed);
    var u := After(t, SocketClosed);
    Runs.OneMore(Enabled, After, t, [] + [SocketClosed], u, DialOk(c));
    steps := [] + [SocketClosed] + [DialOk(c)];
    assert After(u, DialOk(c)).clients == Dialled(s, c).clients;
    assert After(u, DialOk(c)) == Dialled(s, c);
  }

  lemma Dials(s: State, c: nat) returns (steps: seq<Step>)
    requires s.ws == None && s.lock == Free && c !in s.clients && c !in s.closed
    ensures Reaches(s, steps, Dialled(s, c))
  {
    hide Runs.Reaches, Finding, Dialled;
    var some := Finds(s, c);
    var more := DialsOn(s, c);
    Runs.Continue(Enabled, After, s, some, Finding(s, c), more, Dialled(s, c));
    steps := some + more;
  }

  /** The server accepts the stream, and the client goes on to stream. */
  function Accepted(s: State, c: nat): State {
    var e := s.epoch;
    s.(pumps := s.pumps[e := Running], inbox := s.inbox[e := []], lock := Free,
       clients := s.clients[c := Client(Streaming([]), Some(Key(e, 1)), [], 0)],
       futures := s.futures[Key(e, 1) := Granted])
  }

  ghost predicate AwaitsFirst(s: State, c: nat) {
    && s.epoch > 0 && Pump(s.pumps, s.epoch) == Unstarted && Inbox(s.inbox, s.epoch) == []
    && s.lock == Held(ClientTask(c), Opening(false, Key(s.epoch, 1)))
    && c in s.clients && s.clients[c] == Client(InLock, Some(Key(s.epoch, 1)), [], 0)
    && 1 in s.acks && s.acks[1] == s.epoch && Key(s.epoch, 1) in s.futures && s.futures[Key(s.epoch, 1)] == Pending
  }

  /** The pump has started, and the server's answer is in its inbox. */
  function Answered(s: State): State {
    s.(pumps := s.pumps[s.epoch := Running], inbox := s.inbox[s.epoch := [Opened(1)]])
  }

  lemma Answers(s: State, c: nat) returns (steps: seq<Step>)
    requires AwaitsFirst(s, c)
    ensures Reaches(s, steps, Answered(s))
  {
    hide Runs.Reaches;
    var e := s.epoch;
    assert Reaches(s, [], s) by { Runs.Nothing(Enabled, After, s); }
    Runs.OneMore(Enabled, After, s, [], s, PumpStarts(e));
    var t := After(s, PumpStarts(e));
    Runs.OneMore(Enabled, After, s, [] + [PumpStarts(e)], t, ServerSends(e, Opened(1)));
    steps := [] + [PumpStarts(e)] + [ServerSends(e, Opened(1))];
    assert Inbox(s.inbox, e) + [Opened(1)] == [Opened(1)];
    assert After(t, ServerSends(e, Opened(1))) == Answered(s);
  }

  lemma Accepts(s: State, c: nat) returns (steps: seq<Step>)
    requires AwaitsFirst(s, c)
    ensures Reaches(s, steps, Accepted(s, c))
  {
    hide Runs.Reaches;
    var e, t, u := s.epoch, Answered(s), Settled(s);
    var some := Answers(s, c);
    AnswerSettles(s, c);
    Runs.Continue(Enabled, After, s, some, t, [PumpReads(e)], u);
    Runs.OneMore(Enabled, After, s, some + [PumpReads(e)], u, OpenOk(c));
    steps := some + [PumpReads(e)] + [OpenOk(c)];
    assert After(u, OpenOk(c)).clients == Accepted(s, c).clients;
    assert After(u, OpenOk(c)) == Accepted(s, c);
  }

  /** The pump has read the answer, and the stream is granted. */
  function Settled(s: State): State {
    var e := s.epoch;
    s.(pumps := s.pumps[e := Running], inbox := s.inbox[e := []], futures := s.futures[Key(e, 1) := Granted])
  }

  lemma AnswerSettles(s: State, c: nat)
    requires AwaitsFirst(s, c)
    ensures Reaches(Answered(s), [PumpReads(s.epoch)], Settled(s))
  {
    hide Runs.Reaches;
    var e, t := s.epoch, Answered(s);
    Runs.One(Enabled, After, t, PumpReads(e));
    assert Inbox(t.inbox, e)[1..] == [] && s.inbox[e := [Opened(1)]][e := []] == s.inbox[e := []];
    assert After(t, PumpReads(e)).inbox == Settled(s).inbox;
    assert After(t, PumpReads(e)) == Settled(s);
  }

  /** The session breaks, and its client, the only one, is about to leave. */
  function Broken(s: State, c: nat): State
    requires c in s.clients
  {
    PumpFinally(s, s.epoch).(clients := s.clients[c := s.clients[c].(phase := Leaving)])
  }

  lemma Breaks(s: State, c: nat) returns (steps: seq<Step>)
    requires Pump(s.pumps, s.epoch) == Running && c in s.clients && s.clients[c].phase.Streaming?
    ensures Reaches(s, steps, Broken(s, c))
  {
    hide Runs.Reaches;
    assert Reaches(s, [], s) by { Runs.Nothing(Enabled, After, s); }
    Runs.OneMore(Enabled, After, s, [], s, PumpEnds(s.epoch));
    Runs.OneMore(Enabled, After, s, [] + [PumpEnds(s.epoch)], After(s, PumpEnds(s.epoch)), Stop(c));
    steps := [] + [PumpEnds(s.epoch)] + [Stop(c)];
    assert After(After(s, PumpEnds(s.epoch)), Stop(c)) == Broken(s, c);
  }

  /** Client `1` is left over from session 1, client 2 streams in session 2, both under id 1. */
  ghost predicate LeftOver(s: State) {
    && s.lock == Free && s.epoch == 2 && s.streams == map[1 := 2]
    && 1 in s.clients && s.clients[1].phase.Leaving? && s.clients[1].key == Some(Key(1, 1))
    && 2 in s.clients && s.clients[2].phase.Streaming? && s.clients[2].key == Some(Key(2, 1))
  }

  const BLANK := State(0, None, map[], 1, map[], map[], Free, map[], {}, map[], map[], map[], map[], map[], map[])

  /** Session 1 has come and gone, and its client is about to leave. */
  lemma FirstSession() returns (steps: seq<Step>, t: State)
    ensures Reaches(BLANK, steps, t)
    ensures t.epoch == 1 && t.ws == None && t.lock == Free && NoStreams(t.streams, t.acks) && t.closed == {1}
    ensures t.clients == map[1 := Client(Leaving, Some(Key(1, 1)), [], 0)] && Inbox(t.inbox, 2) == []
  {
    hide Runs.Reaches;
    var first := Dials(BLANK, 1);
    var a := Dialled(BLANK, 1);
    var second := Accepts(a, 1);
    var b := Accepted(a, 1);
    Runs.Continue(Enabled, After, BLANK, first, a, second, b);
    var third := Breaks(b, 1);
    t := Broken(b, 1);
    Runs.Continue(Enabled, After, BLANK, first + second, b, third, t);
    steps := first + second + third;
  }

  lemma SecondSession(s: State) returns (steps: seq<Step>, t: State)
    requires s.epoch == 1 && s.ws == None && s.lock == Free && NoStreams(s.streams, s.acks) && s.closed == {1}
    requires s.clients == map[1 := Client(Leaving, Some(Key(1, 1)), [], 0)] && Inbox(s.inbox, 2) == []
    ensures Reaches(s, steps, t) && LeftOver(t)
  {
    hide Runs.Reaches;
    var first := Dials(s, 2);
    var a := Dialled(s, 2);
    var second := Accepts(a, 2);
    t := Accepted(a, 2);
    Runs.Continue(Enabled, After, s, first, a, second, t);
    steps := first + second;
  }

  /** The hazard is real: a run leads to a client of an earlier session that takes a new client's stream away. */
  lemma LeftoverPopsTheNewStream()
    ensures exists s: State, steps: seq<Step>, t: State ::
      Init(s) && Reaches(s, steps, t) && LeftOver(t) && Enabled(t, Leave(1)) && After(t, Leave(1)).streams == map[]
  {
    hide Runs.Reaches;
    var some, s := FirstSession();
    var more, t := SecondSession(s);
    Runs.Continue(Enabled, After, BLANK, some, s, more, t);
    assert Reaches(BLANK, some + more, t);
    assert Init(BLANK) && Enabled(t, Leave(1));
    assert After(t, Leave(1)).streams == map[1 := 2] - {1} == map[];
  }
}
