/** The hub's objects for one tether: stream states, the live session with its
    command queue and frame handler, and the guard of one forwarded stream
    (cargo/src/hub.rs). What interleaving does to them is Stream and Tunnel. */
module Sessions {
  import opened Prelude
  import opened Frames
  import Machine = Stream
  import Tunnel
  import Spec = RegistrySpec

  datatype ForwardError = NoTether | Revoked | Idhausted | TetherGone | TetherBusy

  datatype Result<T> = Ok(value: T) | Err(error: ForwardError)

  // ---- One stream -----------------------------------------------------------------

  /** All the accesses of `complete` or `fail` in a row. */
  function Settle(c: Machine.Cell, verdict: Machine.Outcome): Machine.Cell {
    var stored := Machine.FinishCell(c, Machine.Store, verdict);
    Machine.FinishCell(Machine.FinishCell(stored, Machine.Abort, verdict), Machine.Publish, verdict)
  }

  class StreamState {
    /** The session and the number it was made for. */
    ghost const session: nat
    ghost const number: u16
    var head: Option<Bytes>
    var completed: bool
    var outcome: Machine.Outcome
    /** The upload task: installed here, and told to stop. */
    var slot: bool
    var uploadAborted: bool
    /** The response channel. */
    var rx: Machine.Receiver
    var queue: seq<Bytes>
    ghost var accepted: seq<Bytes>

    constructor (ghost session: nat, ghost number: u16)
      ensures this.session == session && this.number == number
      ensures Cell(false) == Machine.Fresh(number).cell
    {
      this.session, this.number := session, number;
      head, completed, outcome, slot, uploadAborted := None, false, Machine.Undecided, false, false;
      rx, queue, accepted := Machine.Receiving, [], [];
    }

    /** The state as the machine has it; whether the session's map holds the stream
        is not its own business. */
    ghost function Cell(inMap: bool): Machine.Cell
      reads this
    {
      Machine.Cell(inMap, head, completed, outcome, slot, uploadAborted, rx, queue, accepted)
    }

    /** Over, with nothing left to abort. */
    predicate Ended(verdict: Machine.Outcome)
      reads this
    {
      completed && outcome == verdict && !slot
    }

    /** An upload handed over to a finished stream is aborted at once. */
    method InstallUpload()
      modifies this`slot, this`uploadAborted
      ensures if completed then uploadAborted && slot == old(slot) else slot && uploadAborted == old(uploadAborted)
    {
      if completed {
        uploadAborted := true;
      } else {
        slot := true;
      }
    }

    method FinishUpload()
      modifies this`completed, this`slot, this`uploadAborted
      ensures completed && !slot && uploadAborted == (old(uploadAborted) || old(slot))
    {
      completed := true;
      if slot {
        slot := false;
        uploadAborted := true;
      }
    }

    method Complete()
      modifies this`completed, this`slot, this`uploadAborted, this`outcome
      ensures forall m :: Cell(m) == Settle(old(Cell(m)), Machine.Complete)
    {
      FinishUpload();
      outcome := Machine.Complete;
    }

    method Fail()
      modifies this`completed, this`slot, this`uploadAborted, this`outcome
      ensures forall m :: Cell(m) == Settle(old(Cell(m)), Machine.Failed)
      ensures Ended(Machine.Failed) && uploadAborted == (old(uploadAborted) || old(slot))
    {
      FinishUpload();
      outcome := Machine.Failed;
    }

    /** `try_send` on the response channel. */
    method Offer(bytes: Bytes) returns (sent: bool)
      modifies this`queue, this`accepted
      ensures sent == (rx == Machine.Receiving && |old(queue)| < Machine.RESPONSE_CAPACITY)
      ensures queue == old(queue) + if sent then [bytes] else []
      ensures accepted == old(accepted) + if sent then [bytes] else []
    {
      sent := rx == Machine.Receiving && |queue| < Machine.RESPONSE_CAPACITY;
      if sent {
        queue, accepted := queue + [bytes], accepted + [bytes];
      }
    }
  }

  method FailAll(abandoned: set<StreamState>)
    modifies abandoned`completed, abandoned`outcome, abandoned`slot, abandoned`uploadAborted
    ensures forall x :: x in abandoned ==>
      x.Ended(Machine.Failed) && x.uploadAborted == (old(x.uploadAborted) || old(x.slot))
  {
    var todo := abandoned;
    while todo != {}
      invariant todo <= abandoned
      invariant forall x :: x in abandoned - todo ==>
        x.Ended(Machine.Failed) && x.uploadAborted == (old(x.uploadAborted) || old(x.slot))
      invariant forall x :: x in todo ==> x.slot == old(x.slot) && x.uploadAborted == old(x.uploadAborted)
      decreases todo
    {
      var x :| x in todo;
      x.Fail();
      todo := todo - {x};
    }
  }

  // ---- A frame for one stream -------------------------------------------------------

  /** What a frame does to the stream it is for, and whether the tether must be told
      that the stream is over. */
  function Handled(c: Machine.Cell, f: Frame, valid: bool): (Machine.Cell, bool)
    requires f.RespHead? || f.Data? || f.End?
  {
    var failed := (Settle(c, Machine.Failed).(inMap := false), true);
    match f
    case RespHead(_, head) => if valid && c.head == None then (c.(head := Some(head)), false) else failed
    case Data(_, bytes) =>
      if Machine.Accepts(c) then (c.(queue := c.queue + [bytes], accepted := c.accepted + [bytes]), false) else failed
    case End(_, reason) =>
      (Settle(c, if reason == [] then Machine.Complete else Machine.Failed).(inMap := false), false)
  }

  /** The frame loop's steps on the next frame, up to the notification. */
  function HandlingRun(s: Machine.State, f: Frame, valid: bool): seq<Machine.Step>
    requires f.RespHead? || f.Data? || f.End?
  {
    var handle :=
      if f.RespHead? then Machine.HandleHead(valid) else if f.Data? then Machine.HandleData else Machine.HandleEnd;
    [Machine.ByLoop(Machine.Take), Machine.ByLoop(handle)]
    + (if Handled(s.cell, f, valid).0.inMap then [] else
         [Machine.ByLoop(Machine.LoopFinish), Machine.ByLoop(Machine.LoopFinish), Machine.ByLoop(Machine.LoopFinish),
          Machine.ByLoop(Machine.LoopRemove)])
  }

  /** Undisturbed, the machine's frame loop does exactly what Handled says. */
  lemma HandledIsTheMachines(s: Machine.State, valid: bool)
    requires Machine.LoopCan(s, Machine.Take) && s.cell.inMap
    requires var f := s.links.up[s.links.upSeen]; f.RespHead? || f.Data? || f.End?
    ensures var f := s.links.up[s.links.upSeen];
      var (c, notify) := Handled(s.cell, f, valid);
      var end := Machine.Execute(s, HandlingRun(s, f, valid));
      && end.Some? && end.value.cell == c
      && end.value.hub == s.hub.(loop := if notify then Machine.Notifying else Machine.Idle)
      && end.value.links == s.links.(upSeen := s.links.upSeen + 1)
      && end.value.session == s.session && end.value.client == s.client && end.value.tether == s.tether
  {
    var f := s.links.up[s.links.upSeen];
    var run := HandlingRun(s, f, valid);
    var t := Machine.Do(Machine.Do(s, run[0]), run[1]);
    assert Machine.Execute(s, run) == Machine.Execute(t, run[2..]) by {
      assert run[1..][0] == run[1] && run[1..][1..] == run[2..];
    }
    if |run| == 6 {
      var finish := Machine.ByLoop(Machine.LoopFinish);
      assert run[2..] == [finish, finish, finish, Machine.ByLoop(Machine.LoopRemove)];
      var notify := Handled(s.cell, f, valid).1;
      FinishRun(t, notify);
    }
  }

  lemma FinishRun(s: Machine.State, notify: bool)
    requires s.hub.loop.Finishing? && s.hub.loop.fin == Machine.Store && s.hub.loop.notify == notify
    ensures var f := Machine.ByLoop(Machine.LoopFinish);
      Machine.Execute(s, [f, f, f, Machine.ByLoop(Machine.LoopRemove)]) == Some(
        Machine.WithLoop(s, if notify then Machine.Notifying else Machine.Idle)
          .(cell := Settle(s.cell, s.hub.loop.verdict).(inMap := false)))
  {
    var f := Machine.ByLoop(Machine.LoopFinish);
    var last := [Machine.ByLoop(Machine.LoopRemove)];
    var s1 := Machine.Do(s, f);
    var s2 := Machine.Do(s1, f);
    var s3 := Machine.Do(s2, f);
    assert Machine.Execute(s3, last) == Machine.Execute(Machine.Do(s3, last[0]), []);
    assert ([f] + last)[1..] == last && ([f, f] + last)[1..] == [f] + last;
    assert Machine.Execute(s2, [f] + last) == Machine.Execute(s3, last);
    assert Machine.Execute(s1, [f, f] + last) == Machine.Execute(s2, [f] + last);
    var run := [f, f, f] + last;
    assert run[1..] == [f, f] + last;
    assert run == [f, f, f, Machine.ByLoop(Machine.LoopRemove)];
  }

  // ---- One session ------------------------------------------------------------------

  class LiveSession {
    const generation: nat
    ghost const owner: Spec.Info
    var closed: bool
    var aborted: bool
    /** The command channel: frames waiting, permits held, receiver dropped. */
    var commands: seq<Frame>
    var permits: nat
    var txClosed: bool
    var lastSeen: nat
    var nextId: nat
    var streams: map<u16, StreamState>

    /** A closed session has no streams; there are never more streams than the cap,
        frames and permits than the queue holds; numbers run below `nextId`. */
    ghost predicate Valid()
      reads this
    {
      && (closed ==> streams == map[])
      && |streams| <= Tunnel.MAX_CONCURRENT_STREAMS
      && |commands| + permits <= Tunnel.COMMAND_CHANNEL_CAPACITY
      && 1 <= nextId <= Tunnel.MAX_ID + 1
      && forall i :: i in streams ==>
           0 < i as nat < nextId && streams[i].session == generation && streams[i].number == i
    }

    constructor (generation: nat, ghost owner: Spec.Info, now: nat)
      ensures Valid() && this.generation == generation && this.owner == owner
      ensures !closed && !aborted && commands == [] && permits == 0 && !txClosed
      ensures lastSeen == now && nextId == 1 && streams == map[]
    {
      this.generation, this.owner := generation, owner;
      closed, aborted, commands, permits, txClosed := false, false, [], 0, false;
      lastSeen, nextId, streams := now, 1, map[];
    }

    /** A closed session admits nothing, a full one not yet. */
    method Admit(id: u16, state: StreamState) returns (r: Result<()>)
      requires Valid() && 0 < id as nat < nextId && state.session == generation && state.number == id
      modifies this`streams
      ensures Valid()
      ensures r == if closed then Err(TetherGone)
        else if |old(streams)| >= Tunnel.MAX_CONCURRENT_STREAMS then Err(TetherBusy) else Ok(())
      ensures streams == if r.Ok? then old(streams)[id := state] else old(streams)
    {
      if closed {
        return Err(TetherGone);
      }
      if |streams| >= Tunnel.MAX_CONCURRENT_STREAMS {
        return Err(TetherBusy);
      }
      streams := streams[id := state];
      return Ok(());
    }

    predicate Stopped()
      reads this
    {
      closed && aborted && streams == map[]
    }

    /** Every stream the session still had is failed, and its upload stopped. */
    method Close()
      modifies this`closed, this`streams
      modifies streams.Values`completed, streams.Values`outcome, streams.Values`slot, streams.Values`uploadAborted
      ensures closed && streams == map[] && (old(Valid()) ==> Valid())
      ensures forall x :: x in old(streams.Values) ==>
        x.Ended(Machine.Failed) && x.uploadAborted == (old(x.uploadAborted) || old(x.slot))
    {
      var abandoned := streams.Values;
      closed := true;
      streams := map[];
      FailAll(abandoned);
    }

    /** What befalls a session that has lost its place. */
    method Stop()
      modifies this`closed, this`streams, this`aborted
      modifies streams.Values`completed, streams.Values`outcome, streams.Values`slot, streams.Values`uploadAborted
      ensures Stopped() && (old(Valid()) ==> Valid())
      ensures forall x :: x in old(streams.Values) ==> x.Ended(Machine.Failed)
    {
      Close();
      Cancel();
    }

    method Cancel()
      modifies this`aborted
      ensures aborted
    {
      aborted := true;
    }

    // ---- The command queue

    predicate Room()
      reads this`commands, this`permits
    {
      |commands| + permits < Tunnel.COMMAND_CHANNEL_CAPACITY
    }

    /** `reserve_stream_start`. */
    method Reserve() returns (r: Result<()>)
      requires Valid()
      modifies this`permits
      ensures Valid()
      ensures r == if txClosed then Err(TetherGone) else if old(Room()) then Ok(()) else Err(TetherBusy)
      ensures permits == old(permits) + if r.Ok? then 1 else 0
    {
      if txClosed {
        return Err(TetherGone);
      }
      if !Room() {
        return Err(TetherBusy);
      }
      permits := permits + 1;
      return Ok(());
    }

    method TrySend(f: Frame) returns (r: Result<()>)
      requires Valid()
      modifies this`commands
      ensures Valid()
      ensures r == if txClosed then Err(TetherGone) else if old(Room()) then Ok(()) else Err(TetherBusy)
      ensures commands == old(commands) + if r.Ok? then [f] else []
    {
      if txClosed {
        return Err(TetherGone);
      }
      if !Room() {
        return Err(TetherBusy);
      }
      commands := commands + [f];
      return Ok(());
    }

    /** `OwnedPermit::send`: cannot fail, though nobody may be left to receive. */
    method SendWithPermit(f: Frame)
      requires Valid() && permits > 0
      modifies this`permits, this`commands
      ensures Valid() && permits == old(permits) - 1
      ensures commands == if txClosed then old(commands) else old(commands) + [f]
    {
      permits := permits - 1;
      if !txClosed {
        commands := commands + [f];
      }
    }

    /** A permit that is dropped unused. */
    method Release()
      requires Valid() && permits > 0
      modifies this`permits
      ensures Valid() && permits == old(permits) - 1
    {
      permits := permits - 1;
    }

    // ---- Frames from the tether

    /** The stream a frame is for. */
    function Target(f: Frame): set<StreamState>
      reads this`streams
    {
      if !f.IsControl() && f.stream in streams then {streams[f.stream]} else {}
    }

    /** The session's loop handles one frame; true when that ends the loop. */
    method Handle(f: Frame, valid: bool, now: nat) returns (leaves: bool)
      requires Valid()
      modifies this`lastSeen, this`streams, this`commands, Target(f)
      ensures Valid()
      ensures lastSeen == if f.Pong? then now else old(lastSeen)
      ensures f.RespHead? || f.Data? || f.End? ==>
        if f.stream in old(streams) then
          var st := old(streams[f.stream]);
          var (c, notify) := Handled(old(st.Cell(true)), f, valid);
          && st.Cell(c.inMap) == c
          && streams == (if c.inMap then old(streams) else old(streams) - {f.stream})
          && Told(f.stream, old(commands), old(!txClosed && Room()), notify, leaves)
        else streams == old(streams) && Told(f.stream, old(commands), old(!txClosed && Room()), f.Data?, leaves)
      ensures !(f.RespHead? || f.Data? || f.End?) ==>
        && streams == old(streams)
        && (forall x :: x in old(Target(f)) ==> x.Cell(true) == old(x.Cell(true)))
        && commands == old(commands) + (if f.Ping? && old(!txClosed && Room()) then [Pong] else [])
        && (!leaves <==> f.Pong? || (f.Ping? && old(!txClosed && Room())))
    {
      if f.Pong? {
        lastSeen := now;
      }
      if f.RespHead? || f.Data? || f.End? {
        leaves := HandleStream(f, valid);
      } else {
        leaves := HandleControl(f);
      }
    }

    /** A stream that a frame ends leaves the map, and unless the tether ended it
        itself the tether is told, or the loop ends. */
    method HandleStream(f: Frame, valid: bool) returns (leaves: bool)
      requires Valid() && (f.RespHead? || f.Data? || f.End?)
      modifies this`streams, this`commands, Target(f)
      ensures Valid()
      ensures
        if f.stream in old(streams) then
          var st := old(streams[f.stream]);
          var (c, notify) := Handled(old(st.Cell(true)), f, valid);
          && st.Cell(c.inMap) == c
          && streams == (if c.inMap then old(streams) else old(streams) - {f.stream})
          && Told(f.stream, old(commands), old(!txClosed && Room()), notify, leaves)
        else streams == old(streams) && Told(f.stream, old(commands), old(!txClosed && Room()), f.Data?, leaves)
    {
      match f
      case RespHead(id, head) => leaves := HandleHead(id, head, valid);
      case Data(id, bytes) => leaves := HandleData(id, bytes);
      case End(id, reason) => leaves := HandleEnd(id, reason);
    }

    /** Only keepalives are welcome; a tether may not open a stream, finish a
        request, or shake hands again. */
    method HandleControl(f: Frame) returns (leaves: bool)
      requires Valid()
      modifies this`commands
      ensures Valid()
      ensures commands == old(commands) + (if f.Ping? && old(!txClosed && Room()) then [Pong] else [])
      ensures !leaves <==> f.Pong? || (f.Ping? && old(!txClosed && Room()))
    {
      if f.Ping? {
        var sent := TrySend(Pong);
        return sent.Err?;
      }
      return !f.Pong?;
    }

    ghost predicate Told(id: u16, before: seq<Frame>, sendable: bool, notify: bool, leaves: bool)
      reads this`commands
    {
      && commands == before + (if notify && sendable then [End(id, Machine.REASON)] else [])
      && leaves == (notify && !sendable)
    }

    /** A stream gets one valid head, and before anything else. */
    method HandleHead(id: u16, head: Bytes, valid: bool) returns (leaves: bool)
      requires Valid()
      modifies this`streams, this`commands, Target(RespHead(id, head))
      ensures Valid()
      ensures id !in old(streams) ==>
        streams == old(streams) && Told(id, old(commands), old(!txClosed && Room()), false, leaves)
      ensures id in old(streams) ==>
        (var st := old(streams[id]);
         var (c, notify) := Handled(old(st.Cell(true)), RespHead(id, head), valid);
         && st.Cell(c.inMap) == c
         && streams == (if c.inMap then old(streams) else old(streams) - {id})
         && Told(id, old(commands), old(!txClosed && Room()), notify, leaves))
    {
      if id !in streams {
        return false;
      }
      var st := streams[id];
      if valid && st.head == None {
        st.head := Some(head);
        return false;
      }
      st.Fail();
      leaves := Forget(id);
    }

    /** Data nobody takes ends its stream. */
    method HandleData(id: u16, bytes: Bytes) returns (leaves: bool)
      requires Valid()
      modifies this`streams, this`commands, Target(Data(id, bytes))
      ensures Valid()
      ensures id !in old(streams) ==>
        streams == old(streams) && Told(id, old(commands), old(!txClosed && Room()), true, leaves)
      ensures id in old(streams) ==>
        (var st := old(streams[id]);
         var (c, notify) := Handled(old(st.Cell(true)), Data(id, bytes), true);
         && st.Cell(c.inMap) == c
         && streams == (if c.inMap then old(streams) else old(streams) - {id})
         && Told(id, old(commands), old(!txClosed && Room()), notify, leaves))
    {
      var target: StreamState? := if id in streams then streams[id] else null;
      var accepted := false;
      if target != null && target.head.Some? {
        accepted := target.Offer(bytes);
      }
      if accepted {
        return false;
      }
      if target != null {
        target.Fail();
      }
      leaves := Forget(id);
    }

    method HandleEnd(id: u16, reason: Bytes) returns (leaves: bool)
      requires Valid()
      modifies this`streams, Target(End(id, reason))
      ensures Valid() && !leaves
      ensures streams == old(streams) - {id}
      ensures id in old(streams) ==>
        (var st := old(streams[id]); st.Cell(false) == Handled(old(st.Cell(true)), End(id, reason), true).0)
    {
      if id in streams {
        var st := streams[id];
        if reason == [] {
          st.Complete();
        } else {
          st.Fail();
        }
        Smaller(streams, id);
        streams := streams - {id};
      }
      return false;
    }

    /** Remove a stream and tell the tether; true when it cannot be told. */
    method Forget(id: u16) returns (lost: bool)
      requires Valid()
      modifies this`streams, this`commands
      ensures Valid() && streams == old(streams) - {id}
      ensures lost == !old(!txClosed && Room())
      ensures commands == old(commands) + if lost then [] else [End(id, Machine.REASON)]
    {
      Smaller(streams, id);
      streams := streams - {id};
      var sent := TrySend(End(id, Machine.REASON));
      return sent.Err?;
    }
  }

  /** Every session is closed and cancelled, and every stream it had is failed;
      `states` holds all these streams. */
  method StopAll(sessions: set<LiveSession>, ghost states: set<StreamState>)
    requires forall s :: s in sessions ==> s.streams.Values <= states
    modifies sessions`closed, sessions`aborted, sessions`streams
    modifies states`completed, states`outcome, states`slot, states`uploadAborted
    ensures forall s :: s in sessions ==> s.Stopped() && (old(s.Valid()) ==> s.Valid())
    ensures forall s, i :: s in sessions && i in old(s.streams) ==> old(s.streams[i]).Ended(Machine.Failed)
    ensures forall x :: x in states && old(x.Ended(Machine.Failed)) ==> x.Ended(Machine.Failed)
    decreases sessions
  {
    if sessions != {} {
      var s :| s in sessions;
      s.Stop();
      StopAll(sessions - {s}, states);
    }
  }

  lemma Smaller<T>(m: map<u16, T>, id: u16)
    ensures |m - {id}| <= |m|
  {
    if id in m {
      assert m.Keys == (m - {id}).Keys + {id};
    } else {
      assert m - {id} == m;
    }
  }

  // ---- The caller's guard --------------------------------------------------------------

  class StreamGuard {
    const session: LiveSession
    const state: StreamState
    const id: u16
    var released: bool

    constructor (session: LiveSession, state: StreamState, id: u16)
      ensures this.session == session && this.state == state && this.id == id && !released
    {
      this.session, this.state, this.id, released := session, state, id, false;
    }

    /** The caller is gone: stop the upload, deregister, and unless the stream is
        over tell the tether, or cancel the whole session when its queue is full. */
    method Drop()
      requires session.Valid() && !released
      modifies this, state`uploadAborted, session`streams, session`commands, session`aborted
      ensures session.Valid() && released && state.uploadAborted
      ensures session.streams == old(session.streams) - {id}
      ensures session.commands == old(session.commands)
        + if state.completed || session.txClosed || !old(session.Room()) then [] else [End(id, [])]
      ensures session.aborted == (
        old(session.aborted) || (!state.completed && !session.txClosed && !old(session.Room())))
    {
      state.uploadAborted := true;
      Smaller(session.streams, id);
      session.streams := session.streams - {id};
      released := true;
      if state.completed {
        return;
      }
      var sent := session.TrySend(End(id, []));
      if sent == Err(TetherBusy) {
        session.Cancel();
      }
    }
  }

  // ---- Starting a stream ------------------------------------------------------------------

  /** What the caller is handed. */
  datatype Forwarded = Forwarded(id: u16, state: StreamState, guard: StreamGuard)

  /** Why a stream cannot start, in the order in which it is found out. */
  function StartRefusal(nextId: nat, closed: bool, load: nat): Option<ForwardError> {
    if nextId > Tunnel.MAX_ID then Some(Idhausted)
    else if closed then Some(TetherGone)
    else if load >= Tunnel.MAX_CONCURRENT_STREAMS then Some(TetherBusy)
    else None
  }

  /** The new stream is in the map under a number that was free, its OPEN is queued
      last, and its guard is held. */
  ghost predicate Started(streams: map<u16, StreamState>, commands: seq<Frame>, nextId: nat, head: Bytes,
                          session: LiveSession, f: Forwarded)
    reads session, f.state, f.guard
  {
    && f.id as nat == nextId == session.nextId - 1 && f.id !in streams
    && session.streams == streams[f.id := f.state]
    && session.commands == commands + (if session.txClosed then [] else [Open(f.id, head)])
    && f.state.Cell(true) == Machine.Fresh(f.id).cell.(inMap := true, slot := true)
    && f.guard.session == session && f.guard.state == f.state && f.guard.id == f.id && !f.guard.released
  }

  /** The rest of it, once the number is drawn. */
  method Launch(session: LiveSession, id: u16, head: Bytes) returns (r: Result<Forwarded>)
    requires session.Valid() && session.permits > 0
    requires 0 < id as nat == session.nextId - 1 && id !in session.streams
    modifies session`streams, session`commands, session`permits
    ensures session.Valid() && session.permits == old(session.permits) - 1
    ensures old(StartRefusal(id as nat, session.closed, |session.streams|)) == if r.Ok? then None else Some(r.error)
    ensures r.Err? ==> session.streams == old(session.streams) && session.commands == old(session.commands)
    ensures r.Ok? ==> fresh(r.value.state) && fresh(r.value.guard)
    ensures r.Ok? ==> Started(old(session.streams), old(session.commands), id as nat, head, session, r.value)
  {
    var state := new StreamState(session.generation, id);
    var admitted := session.Admit(id, state);
    if admitted.Err? {
      session.Release();
      return Err(admitted.error);
    }
    session.SendWithPermit(Open(id, head));
    var guard := new StreamGuard(session, state, id);
    state.InstallUpload();
    return Ok(Forwarded(id, state, guard));
  }

  /** `start_forward`, by the holder of a permit: draw a number that was never used
      on this session, admit the stream, send OPEN, install the upload. */
  method StartForward(session: LiveSession, head: Bytes) returns (r: Result<Forwarded>)
    requires session.Valid() && session.permits > 0
    modifies session`nextId, session`streams, session`commands, session`permits
    ensures session.Valid() && session.permits == old(session.permits) - 1
    ensures old(StartRefusal(session.nextId, session.closed, |session.streams|)) ==
      if r.Ok? then None else Some(r.error)
    ensures r.Err? ==> session.streams == old(session.streams) && session.commands == old(session.commands)
    ensures session.nextId == old(session.nextId) + if r == Err(Idhausted) then 0 else 1
    ensures r.Ok? ==> fresh(r.value.state) && fresh(r.value.guard)
    ensures r.Ok? ==> Started(old(session.streams), old(session.commands), old(session.nextId), head, session, r.value)
  {
    if session.nextId > Tunnel.MAX_ID {
      session.Release();
      return Err(Idhausted);
    }
    var id := session.nextId as u16;
    session.nextId := session.nextId + 1;
    r := Launch(session, id, head);
  }

  function ServeRefusal(session: LiveSession): Option<ForwardError>
    reads session
  {
    if session.txClosed then Some(TetherGone)
    else if !session.Room() then Some(TetherBusy)
    else StartRefusal(session.nextId, session.closed, |session.streams|)
  }

  /** Reserve a place in the command queue, then start the stream. */
  method Serve(session: LiveSession, head: Bytes) returns (r: Result<Forwarded>)
    requires session.Valid()
    modifies session`nextId, session`streams, session`commands, session`permits
    ensures session.Valid() && session.permits == old(session.permits)
    ensures old(ServeRefusal(session)) == if r.Ok? then None else Some(r.error)
    ensures r.Err? ==> session.streams == old(session.streams) && session.commands == old(session.commands)
    ensures r.Ok? ==> fresh(r.value.state) && fresh(r.value.guard)
    ensures r.Ok? ==> Started(old(session.streams), old(session.commands), old(session.nextId), head, session, r.value)
  {
    var permit := session.Reserve();
    if permit.Err? {
      return Err(permit.error);
    }
    r := StartForward(session, head);
  }
}
