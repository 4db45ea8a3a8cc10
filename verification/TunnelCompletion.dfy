/** A failed stream of a session that may still be completed: the other streams, which
    share the frame loop, both links and the tether's places, can be cleared out of its
    way. */
module TunnelCompletion {
  import opened Prelude
  import opened Frames
  import opened Stream
  import opened StreamSafety
  import opened StreamSettlement
  import opened StreamRuns
  import opened StreamDebts
  import opened StreamOutcome
  import opened StreamFailure
  import opened Tunnel
  import opened TunnelProjection
  import opened TunnelRuns
  import opened TunnelDebts
  import opened TunnelOutcome

  /** Nothing is about to end the session: the hub's writer is there, and of the frames
      of no stream only PING and PONG are on their way to the hub. */
  predicate Staying(m: Multi) {
    && !m.session.writerGone
    && forall i :: m.upSeen <= i < |m.up| && IdOf(m.up[i]) == None ==> m.up[i] == Ping || m.up[i] == Pong
  }

  ghost predicate Going(m: Multi) {
    Attained(m) && Indexed(m) && Staying(m)
  }

  /** The same but that the writers may have got further with the stream's frames. */
  predicate Alike(s: State, t: State) {
    && t == s.(links := s.links.(upWritten := t.links.upWritten, downWritten := t.links.downWritten))
    && s.links.upWritten <= t.links.upWritten && s.links.downWritten <= t.links.downWritten
    && (s.session.tetherGone ==> t.links.upWritten == s.links.upWritten)
  }

  /** A run that clears something out of the way of stream `j`. */
  ghost predicate Clears(m: Multi, more: seq<MultiStep>, n: Multi, j: u16) {
    Indexed(m) && Play(m, more) == Some(n) && Going(n) && Alike(View(m, j), View(n, j))
  }

  lemma ClearsTwice(m: Multi, first: seq<MultiStep>, n: Multi, second: seq<MultiStep>, o: Multi, j: u16)
    requires Clears(m, first, n, j) && Clears(n, second, o, j)
    ensures Clears(m, first + second, o, j)
  {
    PlayTwice(m, first, n, second);
  }

  // ---- One step -------------------------------------------------------------------------

  lemma WriteClears(m: Multi, j: u16)
    requires Going(m) && m.downWritten < |m.down|
    ensures Clears(m, [Write], Perform(m, Write), j)
  {
    PlayOne(m, Write);
    GoesOn(m, [Write], Perform(m, Write));
    ViewHubWrites(m, j);
  }

  lemma TetherWriteClears(m: Multi, j: u16)
    requires Going(m) && m.upWritten < |m.up| && !m.session.tetherGone
    ensures Clears(m, [TetherWrite], Perform(m, TetherWrite), j)
  {
    PlayOne(m, TetherWrite);
    GoesOn(m, [TetherWrite], Perform(m, TetherWrite));
    ViewTetherWrites(m, j);
  }

  lemma StayingLifted(m: Multi, id: u16, a: Step)
    requires Indexed(m) && Staying(m) && Able(m, Act(id, a))
    ensures Staying(Lift(m, id, a))
  {
    Effects(View(m, id), a);
  }

  lemma ActClears(m: Multi, id: u16, a: Step, j: u16)
    requires Going(m) && Able(m, Act(id, a)) && id != j && Do(View(m, id), a).session == m.session
    ensures Clears(m, [Act(id, a)], Lift(m, id, a), j) && View(Lift(m, id, a), id) == Do(View(m, id), a)
  {
    ActGoesOn(m, id, a);
    StayingLifted(m, id, a);
    ViewSelf(m, id, a);
    ViewOther(m, id, a, j);
  }

  lemma HubTakeStays(m: Multi)
    requires Indexed(m) && Staying(m) && Able(m, HubTakesControl) && Room(m)
    ensures var n := Perform(m, HubTakesControl);
      && Staying(n) && n.session == m.session && n.loop == m.loop
      && n.upWritten == m.upWritten && n.upSeen == m.upSeen + 1
  {
  }

  lemma HubTakeClears(m: Multi, j: u16)
    requires Going(m) && Able(m, HubTakesControl) && Room(m)
    ensures Clears(m, [HubTakesControl], Perform(m, HubTakesControl), j)
  {
    HubTakeStays(m);
    PlayOne(m, HubTakesControl);
    GoesOn(m, [HubTakesControl], Perform(m, HubTakesControl));
    ViewHubTakes(m, j);
  }

  lemma TetherTakeClears(m: Multi, j: u16)
    requires Going(m) && Able(m, TetherTakesControl)
    ensures Clears(m, [TetherTakesControl], Perform(m, TetherTakesControl), j)
  {
    PlayOne(m, TetherTakesControl);
    GoesOn(m, [TetherTakesControl], Perform(m, TetherTakesControl));
    ViewTetherTakes(m, j);
  }

  // ---- Room in the queues ------------------------------------------------------------------

  lemma FullQueueHasFrames(m: Multi)
    requires Attained(m) && !Room(m)
    ensures m.downWritten < |m.down| && Occupied(m) == COMMAND_CHANNEL_CAPACITY
  {
    var run :| Attains(run, m);
    AttainsAdmission(run, m);
  }

  /** With the writer there a full command queue can be relieved. */
  lemma MakeRoom(m: Multi, j: u16) returns (more: seq<MultiStep>, n: Multi)
    requires Going(m)
    ensures Clears(m, more, n, j) && Room(n) && n == m.(downWritten := n.downWritten)
  {
    more, n := [], m;
    if !Room(m) {
      FullQueueHasFrames(m);
      WriteClears(m, j);
      more, n := [Write], Perform(m, Write);
    }
  }

  lemma FullTetherQueue(m: Multi)
    requires Attained(m) && !TetherRoom(m)
    ensures |m.up| - m.upWritten == WS_WRITER_CAPACITY
  {
    var run :| Attains(run, m);
    AttainsAdmission(run, m);
  }

  lemma MakeTetherRoom(m: Multi, j: u16) returns (more: seq<MultiStep>, n: Multi)
    requires Going(m) && !m.session.tetherGone
    ensures Clears(m, more, n, j) && TetherRoom(n) && n == m.(upWritten := n.upWritten)
  {
    more, n := [], m;
    if !TetherRoom(m) {
      FullTetherQueue(m);
      TetherWriteClears(m, j);
      more, n := [TetherWrite], Perform(m, TetherWrite);
    }
  }

  // ---- The frame loop ------------------------------------------------------------------------

  /** Turns until the loop is back for the next frame, at most. */
  function LoopLeft(l: Loop): nat {
    match l
    case Idle => 0
    case Holding(_, _) => 6
    case Finishing(fin, _, _) => FinLeft(fin) + 2
    case Removing(_) => 2
    case Notifying => 1
  }

  function NextTurn(l: Loop): LoopStep
    requires l != Idle
  {
    match l
    case Holding(f, _) => if f.RespHead? then HandleHead(true) else if f.Data? then HandleData else HandleEnd
    case Finishing(_, _, _) => LoopFinish
    case Removing(_) => LoopRemove
    case Notifying => LoopNotify(false)
  }

  /** The tether sends heads, data and ENDs only. */
  lemma HeldIsHandled(s: State)
    requires ResponseInv(s) && s.hub.loop != Idle
    ensures LoopCan(s, NextTurn(s.hub.loop))
  {
    if s.hub.loop.Holding? && s.tether.pump.Some? {
      var f := s.links.up[s.links.upSeen - 1];
      assert Fits(f, DataOf(s.links.up[..s.links.upSeen - 1]), s.tether.pump.value.answer);
    }
  }

  lemma TurnEnds(s: State)
    requires s.hub.loop != Idle && LoopCan(s, NextTurn(s.hub.loop)) && !s.session.writerGone
    ensures var t := LoopDoes(s, NextTurn(s.hub.loop));
      && t.session == s.session && LoopLeft(t.hub.loop) < LoopLeft(s.hub.loop)
      && t.links.up == s.links.up && t.links.upSeen == s.links.upSeen
  {
  }

  /** A turn the loop takes for another stream. */
  lemma ForeignTurn(m: Multi, j: u16) returns (more: seq<MultiStep>, n: Multi)
    requires Going(m) && m.loop != Idle && m.loopAt != j
    ensures Clears(m, more, n, j) && LoopLeft(n.loop) < LoopLeft(m.loop) && n.loopAt != j
    ensures n.up == m.up && n.upSeen == m.upSeen && n.upWritten == m.upWritten
  {
    var before, r := MakeRoom(m, j);
    var id, a := r.loopAt, ByLoop(NextTurn(r.loop));
    AttainedFacts(r, id);
    HeldIsHandled(View(r, id));
    TurnEnds(View(r, id));
    ActClears(r, id, a, j);
    more, n := before + [Act(id, a)], Lift(r, id, a);
    ClearsTwice(m, before, r, [Act(id, a)], n, j);
  }

  lemma {:induction false} FreeLoop(m: Multi, j: u16) returns (more: seq<MultiStep>, n: Multi)
    requires Going(m) && (m.loop == Idle || m.loopAt != j)
    ensures Clears(m, more, n, j) && n.loop == Idle
    ensures n.up == m.up && n.upSeen == m.upSeen && n.upWritten == m.upWritten
    decreases LoopLeft(m.loop)
  {
    more, n := [], m;
    if m.loop != Idle {
      var next, rest;
      more, next := ForeignTurn(m, j);
      rest, n := FreeLoop(next, j);
      ClearsTwice(m, more, next, rest, n, j);
      more := more + rest;
    }
  }

  // ---- Frames in front of the stream's -----------------------------------------------------------

  lemma TakeIsAble(m: Multi, id: u16)
    requires Indexed(m) && m.loop == Idle && !m.session.loopGone
    requires m.upSeen < m.upWritten && IdOf(m.up[m.upSeen]) == Some(id)
    ensures Able(m, Act(id, ByLoop(Take)))
  {
    var written := m.up[..m.upWritten];
    OfTake(written, m.upSeen, id);
    assert written[..m.upSeen] == m.up[..m.upSeen];
    OfPrefix(m.up, m.upWritten, id);
  }

  lemma TakeControl(m: Multi, j: u16) returns (more: seq<MultiStep>, n: Multi)
    requires Going(m) && Able(m, HubTakesControl)
    ensures Clears(m, more, n, j) && n.upWritten == m.upWritten && n.upSeen == m.upSeen + 1 && n.loop == Idle
  {
    var before, r := MakeRoom(m, j);
    HubTakeStays(r);
    HubTakeClears(r, j);
    more, n := before + [HubTakesControl], Perform(r, HubTakesControl);
    ClearsTwice(m, before, r, [HubTakesControl], n, j);
  }

  lemma TakeLifted(m: Multi, id: u16)
    requires Able(m, Act(id, ByLoop(Take)))
    ensures var n := Lift(m, id, ByLoop(Take));
      && Do(View(m, id), ByLoop(Take)).session == m.session
      && n.upWritten == m.upWritten && n.upSeen == m.upSeen + 1 && n.loopAt == id
  {
  }

  /** The loop takes a frame that is not the stream's. */
  lemma TakeForeign(m: Multi, j: u16) returns (more: seq<MultiStep>, n: Multi)
    requires Going(m) && m.loop == Idle && !m.session.loopGone
    requires m.upSeen < m.upWritten && IdOf(m.up[m.upSeen]) != Some(j)
    ensures Clears(m, more, n, j) && n.upWritten == m.upWritten && n.upSeen == m.upSeen + 1
    ensures n.loop == Idle || n.loopAt != j
  {
    match IdOf(m.up[m.upSeen])
    case None => more, n := TakeControl(m, j);
    case Some(id) =>
      TakeIsAble(m, id);
      TakeLifted(m, id);
      ActClears(m, id, ByLoop(Take), j);
      more, n := [Act(id, ByLoop(Take))], Lift(m, id, ByLoop(Take));
  }

  lemma {:induction false} NextUp(m: Multi, j: u16) returns (more: seq<MultiStep>, n: Multi)
    requires Going(m) && (m.loop == Idle || m.loopAt != j) && !m.session.loopGone
    requires View(m, j).links.upSeen < View(m, j).links.upWritten
    ensures Clears(m, more, n, j) && Able(n, Act(j, ByLoop(Take)))
    decreases m.upWritten - m.upSeen
  {
    var r;
    more, r := FreeLoop(m, j);
    n := r;
    if IdOf(r.up[r.upSeen]) == Some(j) {
      TakeIsAble(r, j);
    } else {
      var taken, next := TakeForeign(r, j);
      ClearsTwice(m, more, r, taken, next, j);
      var rest;
      rest, n := NextUp(next, j);
      ClearsTwice(m, more + taken, next, rest, n, j);
      more := more + taken + rest;
    }
  }

  /** The writers get to the stream's next frame. */
  lemma {:induction false} WritesUp(m: Multi, j: u16) returns (more: seq<MultiStep>, n: Multi)
    requires Going(m) && WireCan(View(m, j), TetherWrites)
    ensures Play(m, more) == Some(n) && Going(n) && View(n, j) == WireDoes(View(m, j), TetherWrites)
    decreases |m.up| - m.upWritten
  {
    assert m.up[..|m.up|] == m.up;
    TetherWriteClears(m, j);
    ViewTetherWrites(m, j);
    more, n := [TetherWrite], Perform(m, TetherWrite);
    if IdOf(m.up[m.upWritten]) != Some(j) {
      var next, rest := n, [];
      rest, n := WritesUp(next, j);
      PlayTwice(m, [TetherWrite], next, rest);
      more := [TetherWrite] + rest;
    }
  }

  lemma {:induction false} WritesDown(m: Multi, j: u16) returns (more: seq<MultiStep>, n: Multi)
    requires Going(m) && WireCan(View(m, j), HubWrites)
    ensures Play(m, more) == Some(n) && Going(n) && View(n, j) == WireDoes(View(m, j), HubWrites)
    decreases |m.down| - m.downWritten
  {
    assert m.down[..|m.down|] == m.down;
    WriteClears(m, j);
    ViewHubWrites(m, j);
    more, n := [Write], Perform(m, Write);
    if IdOf(m.down[m.downWritten]) != Some(j) {
      var next, rest := n, [];
      rest, n := WritesDown(next, j);
      PlayTwice(m, [Write], next, rest);
      more := [Write] + rest;
    }
  }

  // ---- At the tether ---------------------------------------------------------------------------

  /** How the tether takes a frame of a stream. */
  function Accepting(m: Multi, id: u16, f: Frame): TetherStep {
    if f.Open? then TetherOpen(Answer(true, [], [], true), |Handles(m)| >= MAX_CONCURRENT_STREAMS)
    else if f.End? then TetherStep.TetherEnd
    else TetherInput(|PartOf(m, id).tether.input| >= STREAM_INPUT_CAPACITY)
  }

  lemma FrontOfDown(m: Multi, id: u16)
    requires Indexed(m) && NextToTether(m, id)
    ensures var l := LinksOf(m, id);
      l.downSeen < l.downWritten <= |l.down| && l.down[l.downSeen] == m.down[m.downSeen]
  {
    var written := m.down[..m.downWritten];
    OfTake(written, m.downSeen, id);
    OfTake(m.down, m.downSeen, id);
    assert written[..m.downSeen] == m.down[..m.downSeen];
    OfPrefix(m.down, m.downWritten, id);
  }

  lemma AcceptingIsAble(m: Multi, id: u16)
    requires Indexed(m) && TetherRoom(m) && !m.session.tetherGone && NextToTether(m, id)
    requires OpenFirst(Of(m.down, id))
    ensures Able(m, Act(id, ByTether(Accepting(m, id, m.down[m.downSeen]))))
  {
    FrontOfDown(m, id);
    var l := LinksOf(m, id);
    assert l.downSeen > 0 ==> l.down[l.downSeen].Data? || l.down[l.downSeen].HalfEnd? || l.down[l.downSeen].End?;
  }

  lemma AcceptingLifted(m: Multi, id: u16)
    requires Indexed(m) && NextToTether(m, id)
    requires Able(m, Act(id, ByTether(Accepting(m, id, m.down[m.downSeen]))))
    ensures var a := ByTether(Accepting(m, id, m.down[m.downSeen]));
      && Do(View(m, id), a).session == m.session
      && Lift(m, id, a).downSeen == m.downSeen + 1 && Lift(m, id, a).downWritten == m.downWritten
  {
    EffectsTether(View(m, id), Accepting(m, id, m.down[m.downSeen]));
  }

  /** The tether takes a frame that is not the stream's. */
  lemma AcceptForeign(m: Multi, j: u16) returns (more: seq<MultiStep>, n: Multi)
    requires Going(m) && TetherRoom(m) && !m.session.tetherGone && m.downSeen < m.downWritten
    requires IdOf(m.down[m.downSeen]) != Some(j)
    ensures Clears(m, more, n, j) && n.downWritten == m.downWritten && n.downSeen == m.downSeen + 1
  {
    match IdOf(m.down[m.downSeen])
    case None =>
      TetherTakeClears(m, j);
      more, n := [TetherTakesControl], Perform(m, TetherTakesControl);
    case Some(id) =>
      var a := ByTether(Accepting(m, id, m.down[m.downSeen]));
      AttainedFacts(m, id);
      AcceptingIsAble(m, id);
      AcceptingLifted(m, id);
      ActClears(m, id, a, j);
      more, n := [Act(id, a)], Lift(m, id, a);
  }

  lemma ViewInOrder(m: Multi, j: u16)
    requires Indexed(m)
    ensures InOrder(View(m, j).links)
  {
    OfWritten(m.up, m.upSeen, m.upWritten, j);
    OfWritten(m.down, m.downSeen, m.downWritten, j);
  }

  lemma OfWritten(log: seq<Frame>, seen: nat, written: nat, j: u16)
    requires seen <= written <= |log|
    ensures |Of(log[..seen], j)| <= |Of(log[..written], j)| <= |Of(log, j)|
  {
    assert log[..written][..seen] == log[..seen];
    OfPrefix(log[..written], seen, j);
    OfPrefix(log, written, j);
  }

  /** What is in front of the stream's frames is taken first. */
  lemma AcceptOne(m: Multi, j: u16) returns (more: seq<MultiStep>, n: Multi)
    requires Going(m) && NextDown(View(m, j)) && IdOf(m.down[m.downSeen]) != Some(j)
    ensures Clears(m, more, n, j) && NextDown(View(n, j))
    ensures n.downWritten == m.downWritten && n.downSeen == m.downSeen + 1
  {
    var before, r := MakeTetherRoom(m, j);
    var taken;
    taken, n := AcceptForeign(r, j);
    ClearsTwice(m, before, r, taken, n, j);
    more := before + taken;
    ViewInOrder(n, j);
  }

  lemma {:induction false} NextAtTether(m: Multi, j: u16) returns (more: seq<MultiStep>, n: Multi)
    requires Going(m) && NextDown(View(m, j))
    ensures Clears(m, more, n, j) && NextToTether(n, j)
    decreases m.downWritten - m.downSeen
  {
    more, n := [], m;
    if IdOf(m.down[m.downSeen]) != Some(j) {
      var next, rest;
      more, next := AcceptOne(m, j);
      rest, n := NextAtTether(next, j);
      ClearsTwice(m, more, next, rest, n, j);
      more := more + rest;
    }
  }

  // ---- A place at the tether ---------------------------------------------------------------------

  /** Turns of a pump until its place is free again, at most. */
  function PumpRest(p: Pump): nat {
    match p.phase
    case Connecting => (if p.read < |p.answer.chunks| then |p.answer.chunks| - p.read else 0) + 4
    case Relaying => (if p.read < |p.answer.chunks| then |p.answer.chunks| - p.read else 0) + 3
    case EndSent => 2
    case Reported => 1
    case Dead => 0
  }

  /** A pump that has its handle goes on to its END, and is then reaped. */
  function PumpNext(p: Pump): Step {
    match p.phase
    case Connecting => ByPump(if p.answer.headed then PumpHead else PumpEnd)
    case Relaying => ByPump(if p.read < |p.answer.chunks| then PumpChunk else PumpEnd)
    case EndSent => ByPump(PumpReport)
    case _ => ByTether(TetherReap)
  }

  /** A live pump under a handle. */
  predicate Occupies(t: Tether) {
    t.handle && t.pump.Some? && t.pump.value.phase != Dead && t.pump.value.read <= |t.pump.value.answer.chunks|
  }

  lemma PumpGoes(s: State)
    requires Occupies(s.tether) && !s.session.tetherGone
    ensures var a := PumpNext(s.tether.pump.value);
      && Enabled(s, a) && Do(s, a).session == s.session && Do(s, a).links.downSeen == s.links.downSeen
      && Do(s, a).links.down == s.links.down
      && (a.ByTether? ==> !Do(s, a).tether.handle)
      && (a.ByPump? ==>
            Occupies(Do(s, a).tether) && PumpRest(Do(s, a).tether.pump.value) < PumpRest(s.tether.pump.value))
  {
  }

  lemma HandlesLifted(m: Multi, id: u16, a: Step)
    requires Able(m, Act(id, a))
    ensures Handles(Lift(m, id, a)) == if Do(View(m, id), a).tether.handle then Handles(m) + {id} else Handles(m) - {id}
  {
  }

  /** What is on its way to the tether, and how far it is. */
  predicate SameDown(m: Multi, n: Multi) {
    n.down == m.down && n.downSeen == m.downSeen && n.downWritten == m.downWritten
  }

  /** A pump in a place of its own, `id`. */
  predicate Placed(m: Multi, id: u16) {
    id in Handles(m) && Occupies(m.parts[id].tether)
  }

  lemma PumpTurnIsAble(m: Multi, id: u16)
    requires Indexed(m) && TetherRoom(m) && !m.session.tetherGone && Placed(m, id)
    ensures var a := PumpNext(m.parts[id].tether.pump.value);
      Able(m, Act(id, a)) && Do(View(m, id), a).session == m.session && SameDown(m, Lift(m, id, a))
  {
    PumpGoes(View(m, id));
  }

  lemma PumpTurnLifted(m: Multi, id: u16)
    requires Indexed(m) && !m.session.tetherGone && Placed(m, id)
    requires Able(m, Act(id, PumpNext(m.parts[id].tether.pump.value)))
    ensures var n := Lift(m, id, PumpNext(m.parts[id].tether.pump.value));
      || Handles(n) == Handles(m) - {id}
      || (Handles(n) == Handles(m) && Placed(n, id)
          && PumpRest(n.parts[id].tether.pump.value) < PumpRest(m.parts[id].tether.pump.value))
  {
    PumpGoes(View(m, id));
    HandlesLifted(m, id, PumpNext(m.parts[id].tether.pump.value));
  }

  lemma OnePumpTurn(m: Multi, id: u16, j: u16) returns (more: seq<MultiStep>, n: Multi)
    requires Going(m) && !m.session.tetherGone && id != j && Placed(m, id)
    ensures Clears(m, more, n, j) && SameDown(m, n)
    ensures Handles(n) == Handles(m) - {id} ||
      (Handles(n) == Handles(m) && Placed(n, id)
       && PumpRest(n.parts[id].tether.pump.value) < PumpRest(m.parts[id].tether.pump.value))
  {
    var before, r := MakeTetherRoom(m, j);
    var a := PumpNext(r.parts[id].tether.pump.value);
    assert Handles(r) == Handles(m);
    PumpTurnIsAble(r, id);
    PumpTurnLifted(r, id);
    ActClears(r, id, a, j);
    more, n := before + [Act(id, a)], Lift(r, id, a);
    ClearsTwice(m, before, r, [Act(id, a)], n, j);
  }

  lemma {:induction false} FreePlace(m: Multi, id: u16, j: u16) returns (more: seq<MultiStep>, n: Multi)
    requires Going(m) && !m.session.tetherGone && id != j && Placed(m, id)
    ensures Clears(m, more, n, j) && SameDown(m, n) && Handles(n) == Handles(m) - {id}
    decreases PumpRest(m.parts[id].tether.pump.value)
  {
    more, n := OnePumpTurn(m, id, j);
    if Handles(n) == Handles(m) {
      var next, rest := n, [];
      rest, n := FreePlace(next, id, j);
      ClearsTwice(m, more, next, rest, n, j);
      more := more + rest;
    }
  }

  lemma HandleOccupies(m: Multi, id: u16)
    requires Attained(m) && id in Handles(m)
    ensures Placed(m, id)
  {
    AttainedFacts(m, id);
  }

  lemma {:induction false} FreePlaces(m: Multi, j: u16) returns (more: seq<MultiStep>, n: Multi)
    requires Going(m) && !m.session.tetherGone && j !in Handles(m)
    ensures Clears(m, more, n, j) && SameDown(m, n) && |Handles(n)| < MAX_CONCURRENT_STREAMS
    decreases |Handles(m)|
  {
    more, n := [], m;
    if |Handles(m)| >= MAX_CONCURRENT_STREAMS {
      var id :| id in Handles(m);
      HandleOccupies(m, id);
      var next, rest;
      more, next := FreePlace(m, id, j);
      rest, n := FreePlaces(next, j);
      ClearsTwice(m, more, next, rest, n, j);
      more := more + rest;
    }
  }

  // ---- The stream's own step --------------------------------------------------------------------------

  lemma AlikeHelps(s: State, t: State)
    requires Hopeful(s) && Alike(s, t) && InOrder(t.links) && !s.session.writerGone && !Helpful(s).ByWire?
    ensures Hopeful(t) && ToGo(t) <= ToGo(s) && Helpful(t) == Helpful(s)
  {
    assert MayOpen(t) == MayOpen(s);
    assert Ahead(t) == Ahead(s);
  }

  /** Complete, or still to be completed and nearer to it. */
  ghost predicate Helped(m: Multi, n: Multi, j: u16)
    requires Indexed(m) && InOrder(View(m, j).links)
  {
    && Going(n)
    && (PartOf(n, j).cell.outcome == Complete || (Hopeful(View(n, j)) && ToGo(View(n, j)) < ToGo(View(m, j))))
  }

  lemma Helps(m: Multi, before: seq<MultiStep>, r: Multi, j: u16) returns (more: seq<MultiStep>, n: Multi)
    requires Clears(m, before, r, j) && Hopeful(View(m, j)) && !m.session.writerGone
    requires !Helpful(View(m, j)).ByWire? && Able(r, Act(j, Helpful(View(m, j))))
    ensures Play(m, more) == Some(n) && Helped(m, n, j)
  {
    var a := Helpful(View(m, j));
    AttainedFacts(r, j);
    AlikeHelps(View(m, j), View(r, j));
    HelpfulStep(View(r, j));
    ActGoesOn(r, j, a);
    StayingLifted(r, j, a);
    n := Lift(r, j, a);
    PlayTwice(m, before, r, [Act(j, a)]);
    more := before + [Act(j, a)];
  }

  /** The loop takes the stream's next frame. */
  lemma HelpsTake(m: Multi, j: u16) returns (more: seq<MultiStep>, n: Multi)
    requires Going(m) && Hopeful(View(m, j)) && Helpful(View(m, j)) == ByLoop(Take)
    ensures Play(m, more) == Some(n) && Helped(m, n, j)
  {
    AttainedFacts(m, j);
    HelpfulStep(View(m, j));
    var before, r := NextUp(m, j);
    more, n := Helps(m, before, r, j);
  }

  /** A writer writes its next frame. */
  lemma HelpsWrite(m: Multi, j: u16) returns (more: seq<MultiStep>, n: Multi)
    requires Going(m) && Hopeful(View(m, j)) && Helpful(View(m, j)).ByWire?
    ensures Play(m, more) == Some(n) && Helped(m, n, j)
  {
    AttainedFacts(m, j);
    HelpfulStep(View(m, j));
    if Helpful(View(m, j)).wire == HubWrites {
      more, n := WritesDown(m, j);
    } else {
      more, n := WritesUp(m, j);
    }
  }

  lemma OpeningHelps(s: State)
    requires ResponseInv(s) && Hopeful(s) && Helpful(s).ByTether?
    ensures Helpful(s) == ByTether(TetherOpen(Answer(true, [], [], true), false))
    ensures NextDown(s) && s.links.down[s.links.downSeen].Open? && !s.tether.handle
  {
    HelpfulStep(s);
  }

  lemma OpenIsAble(m: Multi, j: u16)
    requires Indexed(m) && NextToTether(m, j) && !m.session.tetherGone && |Handles(m)| < MAX_CONCURRENT_STREAMS
    requires var l := LinksOf(m, j); l.downSeen < |l.down| && l.down[l.downSeen].Open?
    ensures Able(m, Act(j, ByTether(TetherOpen(Answer(true, [], [], true), false))))
  {
    FrontOfDown(m, j);
  }

  /** The tether gets to the stream's OPEN and has a place for it. */
  lemma ClearsOpen(m: Multi, j: u16) returns (more: seq<MultiStep>, n: Multi)
    requires Going(m) && NextDown(View(m, j)) && !View(m, j).tether.handle
    requires LinksOf(m, j).down[LinksOf(m, j).downSeen].Open?
    ensures Clears(m, more, n, j) && Able(n, Act(j, ByTether(TetherOpen(Answer(true, [], [], true), false))))
  {
    var r, freed;
    more, r := NextAtTether(m, j);
    freed, n := FreePlaces(r, j);
    ClearsTwice(m, more, r, freed, n, j);
    more := more + freed;
    OpenIsAble(n, j);
  }

  /** The tether opens the stream. */
  lemma HelpsOpen(m: Multi, j: u16) returns (more: seq<MultiStep>, n: Multi)
    requires Going(m) && Hopeful(View(m, j)) && Helpful(View(m, j)).ByTether?
    ensures Play(m, more) == Some(n) && Helped(m, n, j)
  {
    AttainedFacts(m, j);
    OpeningHelps(View(m, j));
    var before, r := ClearsOpen(m, j);
    more, n := Helps(m, before, r, j);
  }

  lemma PumpIsAble(m: Multi, r: Multi, j: u16, a: PumpStep)
    requires Indexed(m) && Indexed(r) && TetherRoom(r) && Alike(View(m, j), View(r, j)) && PumpCan(View(m, j), a)
    ensures Able(r, Act(j, ByPump(a)))
  {
  }

  /** The pump sends its next frame. */
  lemma HelpsPump(m: Multi, j: u16) returns (more: seq<MultiStep>, n: Multi)
    requires Going(m) && Hopeful(View(m, j)) && Helpful(View(m, j)).ByPump?
    requires PumpCan(View(m, j), Helpful(View(m, j)).pump) && !m.session.tetherGone
    ensures Play(m, more) == Some(n) && Helped(m, n, j)
  {
    var before, r := MakeTetherRoom(m, j);
    PumpIsAble(m, r, j, Helpful(View(m, j)).pump);
    more, n := Helps(m, before, r, j);
  }

  lemma SendingHelps(s: State)
    requires ResponseInv(s) && Hopeful(s) && Helpful(s).ByPump?
    ensures PumpCan(s, Helpful(s).pump) && !s.session.tetherGone
  {
    HelpfulStep(s);
  }

  /** The loop has the stream in hand, or a poll makes a place for it. */
  lemma HelpsOther(m: Multi, j: u16) returns (more: seq<MultiStep>, n: Multi)
    requires Going(m) && Hopeful(View(m, j))
    requires var a := Helpful(View(m, j)); (a.ByLoop? && a != ByLoop(Take)) || a.ByCaller?
    ensures Play(m, more) == Some(n) && Helped(m, n, j)
  {
    AttainedFacts(m, j);
    HelpfulStep(View(m, j));
    more, n := Helps(m, [], m, j);
  }

  lemma HelpsSession(m: Multi, j: u16) returns (more: seq<MultiStep>, n: Multi)
    requires Going(m) && Hopeful(View(m, j))
    ensures Play(m, more) == Some(n) && Helped(m, n, j)
  {
    match Helpful(View(m, j))
    case ByWire(_) => more, n := HelpsWrite(m, j);
    case ByTether(_) => more, n := HelpsOpen(m, j);
    case ByPump(_) =>
      AttainedFacts(m, j);
      SendingHelps(View(m, j));
      more, n := HelpsPump(m, j);
    case ByLoop(x) =>
      if x == Take {
        more, n := HelpsTake(m, j);
      } else {
        more, n := HelpsOther(m, j);
      }
    case ByCaller(_) => more, n := HelpsOther(m, j);
  }

  lemma {:induction false} CompletesInSession(m: Multi, j: u16) returns (more: seq<MultiStep>, n: Multi)
    requires Going(m) && Hopeful(View(m, j))
    ensures Play(m, more) == Some(n) && PartOf(n, j).cell.outcome == Complete
    decreases ToGo(View(m, j))
  {
    more, n := HelpsSession(m, j);
    if PartOf(n, j).cell.outcome != Complete {
      var next, rest := n, [];
      rest, n := CompletesInSession(next, j);
      PlayTwice(m, more, next, rest);
      more := more + rest;
    }
  }

  /** Of a session too: a failed stream that may not be completed any more stays failed
      in every continuation. And if nothing is about to end the session, that is the
      only reason why it must: whatever the other streams have on the links and in the
      loop, and however many of them the tether serves, the stream can be completed. */
  lemma SessionFailedIsFinal(m: Multi, j: u16)
    requires Attained(m) && Indexed(m) && PartOf(m, j).cell.outcome == Failed
    ensures InOrder(View(m, j).links)
    ensures !MayComplete(View(m, j)) ==> AlwaysHas(m, j, Failed)
    ensures Staying(m) ==> (AlwaysHas(m, j, Failed) <==> !MayComplete(View(m, j)))
  {
    ViewInOrder(m, j);
    if !MayComplete(View(m, j)) {
      FailedStays(m, j);
    } else if Staying(m) {
      var more, n := CompletesInSession(m, j);
      assert Play(m, more) == Some(n);
    }
  }
}
