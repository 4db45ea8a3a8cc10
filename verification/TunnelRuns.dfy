/** The promises about a whole session, over all of its runs. */
module TunnelRuns {
  import opened Prelude
  import opened Frames
  import opened Stream
  import opened StreamSafety
  import opened StreamSettlement
  import opened StreamRuns
  import opened Tunnel
  import opened TunnelProjection

  // ---- Admission --------------------------------------------------------------

  lemma {:induction false} SubsetSize<T>(a: set<T>, b: set<T>)
    requires a <= b
    ensures |a| <= |b|
  {
    if a != {} {
      var x :| x in a;
      SubsetSize(a - {x}, b - {x});
    }
  }

  /** What the holder of the routing lock may rely on. */
  predicate RouterOk(router: Router, inMap: nat, nextId: nat, permits: nat, parts: map<u16, Part>) {
    match router
    case Free => permits == 0
    case Reserved => inMap < MAX_CONCURRENT_STREAMS && nextId <= MAX_ID && permits == 1
    case Numbered(id) => inMap < MAX_CONCURRENT_STREAMS && 1 <= id as nat == nextId - 1 && id !in parts && permits == 1
    case Starting(id) =>
      && id in parts && parts[id].starter != NotStarted && parts[id].starter != Returned
      && permits == (if parts[id].starter == Admitted then 1 else 0)
  }

  predicate IdsBelow(parts: map<u16, Part>, nextId: nat) {
    && 1 <= nextId <= MAX_ID + 1
    && forall id :: id in parts ==> 0 < id as nat < nextId
  }

  ghost predicate Known(log: seq<Frame>, parts: map<u16, Part>) {
    forall i :: 0 <= i < |log| && IdOf(log[i]).Some? ==> IdOf(log[i]).value in parts
  }

  ghost predicate Admission(m: Multi) {
    && Indexed(m)
    && |InMap(m)| <= MAX_CONCURRENT_STREAMS
    && Occupied(m) <= COMMAND_CHANNEL_CAPACITY
    && |m.up| - m.upWritten <= WS_WRITER_CAPACITY
    && IdsBelow(m.parts, m.nextId)
    && RouterOk(m.router, |InMap(m)|, m.nextId, m.permits, m.parts)
    && (forall i :: 0 <= i < |m.refusals| ==> m.refusals[i] == SessionClosed)
    && Known(m.up, m.parts) && Known(m.down, m.parts)
    && (m.loop != Idle ==> m.loopAt in m.parts)
  }

  /** A stream enters the map once, at admission, and its starter moves only by
      its own steps. */
  lemma EntersOnce(s: State, a: Step)
    requires Enabled(s, a)
    ensures var t := Do(s, a);
      && (t.cell.inMap ==> s.cell.inMap || a == ByStarter(Admit))
      && (!a.ByStarter? ==> t.hub.starter == s.hub.starter)
  {
    match a
    case ByStarter(x) =>
    case ByUpload(x) => UploadFrame(s, x); UploadKeepsStarter(s, x);
    case ByLoop(x) => LoopFrame(s, x); LoopLeavesMap(s, x);
    case BySession(x) => SessionFrame(s, x); SessionKeepsStarter(s, x);
    case ByCaller(x) => CallerFrame(s, x);
    case ByGuard(x) => GuardFrame(s, x);
    case ByTether(x) => EngineKeepsCell(s, a);
    case ByPump(x) => EngineKeepsCell(s, a);
    case ByWire(_) =>
  }

  lemma UploadKeepsStarter(s: State, a: UploadStep)
    requires UploadCan(s, a)
    ensures UploadDoes(s, a).hub.starter == s.hub.starter
  {
  }

  lemma SessionKeepsStarter(s: State, a: SessionStep)
    requires SessionCan(s, a)
    ensures SessionDoes(s, a).hub.starter == s.hub.starter
  {
  }

  lemma LoopLeavesMap(s: State, a: LoopStep)
    requires LoopCan(s, a)
    ensures LoopDoes(s, a).cell.inMap ==> s.cell.inMap
  {
  }

  lemma EngineKeepsCell(s: State, a: Step)
    requires Enabled(s, a) && (a.ByTether? || a.ByPump?)
    ensures Do(s, a).cell == s.cell && Do(s, a).hub == s.hub
  {
  }

  /** Only streams the session has numbered can act. */
  lemma ActorIsKnown(m: Multi, id: u16, a: Step)
    requires Admission(m) && Able(m, Act(id, a))
    ensures id in m.parts || (a == ByStarter(Admit) && m.router == Numbered(id))
  {
  }

  lemma InMapLifted(m: Multi, id: u16, a: Step)
    requires Able(m, Act(id, a))
    ensures InMap(Lift(m, id, a)) <= InMap(m) + (if a == ByStarter(Admit) then {id} else {})
  {
    EntersOnce(View(m, id), a);
  }

  lemma KnownGrows(log: seq<Frame>, parts: map<u16, Part>, f: Frame, more: map<u16, Part>)
    requires Known(log, parts) && parts.Keys <= more.Keys
    requires IdOf(f).Some? ==> IdOf(f).value in more
    ensures Known(log, more) && Known(log + [f], more)
  {
  }

  lemma UpKnown(m: Multi, id: u16, a: Step)
    requires Admission(m) && Able(m, Act(id, a))
    ensures Known(Lift(m, id, a).up, Lift(m, id, a).parts)
  {
    var v, w, n := View(m, id), Do(View(m, id), a), Lift(m, id, a);
    Effects(v, a);
    KnownGrows(m.up, m.parts, if w.links.up != v.links.up then w.links.up[|v.links.up|] else Ping, n.parts);
  }

  lemma DownKnown(m: Multi, id: u16, a: Step)
    requires Admission(m) && Able(m, Act(id, a))
    ensures Known(Lift(m, id, a).down, Lift(m, id, a).parts)
  {
    var v, w, n := View(m, id), Do(View(m, id), a), Lift(m, id, a);
    Effects(v, a);
    KnownGrows(m.down, m.parts, if w.links.down != v.links.down then w.links.down[|v.links.down|] else Ping, n.parts);
  }

  lemma FramesLifted(m: Multi, id: u16, a: Step)
    requires Admission(m) && Able(m, Act(id, a))
    ensures var n := Lift(m, id, a);
      && n.parts.Keys == m.parts.Keys + {id} && Known(n.up, n.parts) && Known(n.down, n.parts)
      && (n.loop != Idle ==> n.loopAt in n.parts)
  {
    UpKnown(m, id, a);
    DownKnown(m, id, a);
    Effects(View(m, id), a);
  }

  /** A frame is queued only into free capacity, or into the slot OPEN reserved. */
  lemma QueuesWithRoom(s: State, a: Step, room: bool)
    requires Enabled(s, a)
    requires a == ByUpload(UploadNext) || a == ByUpload(UploadEnd) ==> room || s.session.writerGone
    requires a.ByUpload? && a.upload.UploadReport? ==> a.upload.full == !room
    requires a.ByLoop? && a.loop.LoopNotify? ==> a.loop.full == !room
    requires a.ByGuard? && a.guard.DropNotify? ==> a.guard.full == !room
    ensures |Do(s, a).links.down| <= |s.links.down| + if room || (a.ByStarter? && a.starter.SendOpen?) then 1 else 0
  {
    match a
    case ByStarter(x) =>
    case ByUpload(x) =>
    case ByLoop(x) =>
    case BySession(x) =>
    case ByCaller(x) => CallerFrame(s, x);
    case ByGuard(x) =>
    case ByTether(x) => if x != TetherStep.TetherGone { EffectsTether(s, x); }
    case ByPump(x) => EffectsPump(s, x);
    case ByWire(_) =>
  }

  /** Neither does the tether. */
  lemma TetherQueuesWithRoom(m: Multi, id: u16, a: Step)
    requires Able(m, Act(id, a))
    ensures |Do(View(m, id), a).links.up| <= |View(m, id).links.up| + if TetherRoom(m) then 1 else 0
  {
    var s := View(m, id);
    match a
    case ByTether(x) =>
      if x != TetherStep.TetherGone {
        EffectsTether(s, x);
      }
    case ByPump(x) => EffectsPump(s, x);
    case ByStarter(x) => EffectsStarter(s, x);
    case ByUpload(x) => EffectsUpload(s, x);
    case ByLoop(x) => EffectsLoop(s, x);
    case ByCaller(x) => EffectsCaller(s, x);
    case ByGuard(x) => EffectsGuard(s, x);
    case BySession(_) =>
    case ByWire(_) =>
  }

  lemma OccupiedLifted(m: Multi, id: u16, a: Step)
    requires Admission(m) && Able(m, Act(id, a))
    ensures Occupied(Lift(m, id, a)) <= COMMAND_CHANNEL_CAPACITY
    ensures |Lift(m, id, a).up| - Lift(m, id, a).upWritten <= WS_WRITER_CAPACITY
  {
    TetherQueuesWithRoom(m, id, a);
    QueuesWithRoom(View(m, id), a, Room(m));
    Effects(View(m, id), a);
  }

  lemma LoadLifted(m: Multi, id: u16, a: Step)
    requires Admission(m) && Able(m, Act(id, a))
    ensures |InMap(Lift(m, id, a))| <= |InMap(m)| + if a == ByStarter(Admit) then 1 else 0
    ensures |InMap(Lift(m, id, a))| <= MAX_CONCURRENT_STREAMS
  {
    InMapLifted(m, id, a);
    SubsetSize(InMap(Lift(m, id, a)), InMap(m) + if a == ByStarter(Admit) then {id} else {});
  }

  lemma RouterStarted(m: Multi, id: u16, a: StarterStep)
    requires Admission(m) && Able(m, Act(id, ByStarter(a)))
    ensures var n := Lift(m, id, ByStarter(a));
      RouterOk(n.router, |InMap(n)|, n.nextId, n.permits, n.parts)
  {
  }

  /** Other actors leave the router and every starter alone. */
  lemma RouterWaits(m: Multi, id: u16, a: Step)
    requires Admission(m) && Able(m, Act(id, a)) && !a.ByStarter?
    ensures var n := Lift(m, id, a);
      RouterOk(n.router, |InMap(n)|, n.nextId, n.permits, n.parts)
  {
    LoadLifted(m, id, a);
    ActorIsKnown(m, id, a);
    EntersOnce(View(m, id), a);
    assert forall j :: j in m.parts ==> Lift(m, id, a).parts[j].starter == m.parts[j].starter;
  }

  lemma RouterLifted(m: Multi, id: u16, a: Step)
    requires Admission(m) && Able(m, Act(id, a))
    ensures var n := Lift(m, id, a);
      RouterOk(n.router, |InMap(n)|, n.nextId, n.permits, n.parts)
  {
    if a.ByStarter? {
      RouterStarted(m, id, a.starter);
    } else {
      RouterWaits(m, id, a);
    }
  }

  lemma AdmissionAct(m: Multi, id: u16, a: Step)
    requires Admission(m) && Able(m, Act(id, a))
    ensures Admission(Lift(m, id, a))
  {
    ActorIsKnown(m, id, a);
    ViewSelf(m, id, a);
    FramesLifted(m, id, a);
    OccupiedLifted(m, id, a);
    LoadLifted(m, id, a);
    RouterLifted(m, id, a);
  }

  lemma AdmissionWhole(m: Multi, a: MultiStep)
    requires Admission(m) && Able(m, a) && (a.Close? || a.Flag? || a.TetherEnds?)
    ensures Admission(Perform(m, a))
  {
    SubsetSize(InMap(Perform(m, a)), InMap(m));
  }

  lemma AdmissionHubControl(m: Multi, a: MultiStep)
    requires Admission(m) && Able(m, a) && (a.Write? || a.HubPings?)
    ensures Admission(Perform(m, a))
  {
    KnownGrows(m.down, m.parts, Ping, m.parts);
  }

  lemma AdmissionHubTakes(m: Multi)
    requires Admission(m) && Able(m, HubTakesControl)
    ensures Admission(Perform(m, HubTakesControl))
  {
    KnownGrows(m.down, m.parts, Pong, m.parts);
  }

  lemma AdmissionTetherControl(m: Multi, a: MultiStep)
    requires Admission(m) && Able(m, a) && (a.TetherWrite? || a.TetherTakesControl? || a.TetherControl?)
    ensures Admission(Perform(m, a))
  {
    KnownGrows(m.up, m.parts, if a.TetherControl? then a.frame else Pong, m.parts);
  }

  lemma AdmissionRouter(m: Multi, a: MultiStep)
    requires Admission(m) && Able(m, a) && (a.Reserve? || a.Number? || a.Refuse?)
    ensures Admission(Perform(m, a))
  {
  }

  lemma AdmissionStep(m: Multi, a: MultiStep)
    requires Admission(m) && Able(m, a)
    ensures Admission(Perform(m, a))
  {
    if a.Act? {
      AdmissionAct(m, a.id, a.step);
    } else if a.Close? || a.Flag? || a.TetherEnds? {
      AdmissionWhole(m, a);
    } else if a.Reserve? || a.Number? || a.Refuse? {
      AdmissionRouter(m, a);
    } else if a.Write? || a.HubPings? {
      AdmissionHubControl(m, a);
    } else if a.HubTakesControl? {
      AdmissionHubTakes(m);
    } else {
      AdmissionTetherControl(m, a);
    }
  }

  lemma {:induction false} RunAdmits(m: Multi, run: seq<MultiStep>)
    requires Admission(m) && Play(m, run).Some?
    ensures Admission(Play(m, run).value)
    decreases |run|
  {
    if run != [] {
      AdmissionStep(m, run[0]);
      RunAdmits(Perform(m, run[0]), run[1..]);
    }
  }

  ghost predicate Attains(run: seq<MultiStep>, m: Multi) {
    Play(Start(), run) == Some(m)
  }

  lemma StartAdmits()
    ensures Admission(Start())
  {
    assert InMap(Start()) == {};
  }

  lemma StartViews(j: u16)
    ensures View(Start(), j) == Fresh(j)
  {
  }

  lemma AttainsAdmission(run: seq<MultiStep>, m: Multi)
    requires Attains(run, m)
    ensures Admission(m)
  {
    StartAdmits();
    RunAdmits(Start(), run);
  }

  /** Every stream of a session has been through a run of its own. */
  lemma AttainsReaches(run: seq<MultiStep>, m: Multi, j: u16)
    requires Attains(run, m)
    ensures Indexed(m) && Reaches(j, OwnRun(Start(), run, j), View(m, j))
  {
    StartViews(j);
    Projection(Start(), run, j);
  }

  // ---- The promises -------------------------------------------------------------

  /** A session never holds more streams than it has places for, nor do the queues of
      the two writers, of 256 places each, ever hold more frames and permits,
      and a routed request that got its reservation is refused only if the session
      closed meanwhile: the other two refusals of admission cannot occur. */
  lemma ReservationIsSafe(run: seq<MultiStep>, m: Multi)
    requires Attains(run, m)
    ensures |InMap(m)| <= 64 && |m.down| - m.downWritten + m.permits <= 256 && |m.up| - m.upWritten <= 256
    ensures forall i :: 0 <= i < |m.refusals| ==> m.refusals[i] == SessionClosed
    ensures Able(m, Refuse) ==> m.session.closed
    ensures Able(m, Number) ==> m.nextId <= MAX_ID
  {
    AttainsAdmission(run, m);
  }

  lemma UnstartedIsBlank(s: State)
    requires Inv(s) && s.hub.starter == NotStarted
    ensures s.links.up == [] && s.links.down == [] && !s.tether.handle && s.tether.pump == None && s.hub.loop == Idle
  {
  }

  lemma NumberOf(m: Multi)
    requires Admission(m) && Able(m, Number)
    ensures var n := Perform(m, Number);
      && n.router.Numbered? && 1 <= n.router.id as nat <= MAX_ID && n.nextId == m.nextId + 1
      && n.router.id as nat == m.nextId && n.router.id !in m.parts
  {
  }

  /** A number drawn for a new stream is above every number used before and within
      16 bits, so no frame on either link, no pump and no handle belongs to it. */
  lemma NumbersAreNew(run: seq<MultiStep>, m: Multi)
    requires Attains(run, m) && Able(m, Number)
    ensures var n := Perform(m, Number);
      && n.router.Numbered? && 1 <= n.router.id as nat <= MAX_ID && n.nextId == m.nextId + 1
      && (forall id :: id in m.parts ==> id < n.router.id)
      && Of(m.up, n.router.id) == [] && Of(m.down, n.router.id) == []
      && !PartOf(m, n.router.id).tether.handle && PartOf(m, n.router.id).tether.pump == None
  {
    AttainsAdmission(run, m);
    NumberOf(m);
    var id := Perform(m, Number).router.id;
    AttainsReaches(run, m, id);
    var s := View(m, id);
    ReachableInv(id, OwnRun(Start(), run, id), s);
    assert PartOf(m, id) == FreshPart();
    UnstartedIsBlank(s);
  }

  /** A frame, notice or timer of one stream never touches another one: all the
      other sees is a session that is being cancelled or has ended. */
  lemma StreamsAreIsolated(run: seq<MultiStep>, m: Multi, id: u16, a: Step, j: u16)
    requires Attains(run, m) && Able(m, Act(id, a)) && j != id
    ensures var n := Perform(m, Act(id, a));
      && Indexed(n) && View(n, j) == View(m, j).(session := n.session) && OnlyFlags(m.session, n.session)
  {
    ViewOther(m, id, a, j);
  }

  /** The tether never overwrites a live handle when it accepts an OPEN. */
  lemma OpenFindsNoHandle(run: seq<MultiStep>, m: Multi, id: u16, answer: Answer, overloaded: bool)
    requires Attains(run, m) && Able(m, Act(id, ByTether(TetherOpen(answer, overloaded))))
    ensures !PartOf(m, id).tether.handle && PartOf(m, id).tether.pump == None
  {
    AttainsReaches(run, m, id);
    OpenIsFirst(id, OwnRun(Start(), run, id), View(m, id));
  }

  lemma OpenIsFirst(id: u16, run: seq<Step>, s: State)
    requires Reaches(id, run, s) && NextDown(s) && s.links.down[s.links.downSeen].Open?
    ensures !s.tether.handle && s.tether.pump == None
  {
    ReachableInv(id, run, s);
    assert s.links.downSeen == 0;
  }

  /** No fabricated or truncated success on any stream of any session. */
  lemma SessionNoFabricatedSuccess(run: seq<MultiStep>, m: Multi, j: u16)
    requires Attains(run, m)
    ensures var p := PartOf(m, j);
      && WellFormed(p.client.trace)
      && ChunksOf(p.client.trace) <= DataOf(Of(m.up, j))
      && (EndsCleanly(p.client.trace) ==>
            && p.tether.pump.Some? && p.tether.pump.value.answer.headed && p.tether.pump.value.answer.ok
            && ChunksOf(p.client.trace) == NonEmpty(p.tether.pump.value.answer.chunks)
            && CleanEndIn(Of(m.up, j)))
  {
    AttainsReaches(run, m, j);
    var s := View(m, j);
    NoFabricatedSuccess(j, OwnRun(Start(), run, j), s);
    CleanEndStays(s.links.up[..s.links.upSeen], s.links.up);
  }

  /** No stream that left the hub's map is left running at the tether. */
  lemma SessionNoOrphanedWork(run: seq<MultiStep>, m: Multi, j: u16)
    requires Attains(run, m) && Indexed(m)
    requires Of(m.down, j) != [] && !PartOf(m, j).cell.inMap && !Owed(View(m, j).hub, View(m, j).client)
    ensures EndIn(Of(m.up, j)) || EndIn(Of(m.down, j))
      || m.session.closed || m.session.cancelled || m.session.writerGone
  {
    AttainsReaches(run, m, j);
    NoOrphanedWork(j, OwnRun(Start(), run, j), View(m, j));
  }

  /** A closed session has an empty map for ever after, and leaves no caller that
      is still there undecided once the closers have run. */
  lemma SessionNoStrandedCaller(run: seq<MultiStep>, m: Multi)
    requires Attains(run, m) && m.session.closed
    ensures InMap(m) == {}
    ensures forall j :: j in m.parts ==>
      m.parts[j].starter == NotStarted || m.parts[j].client.guard != Held || m.parts[j].closer.CloserAt?
      || Terminal(m.parts[j].cell)
  {
    forall j | j in m.parts && m.parts[j].starter != NotStarted
      ensures !m.parts[j].cell.inMap
      ensures m.parts[j].client.guard == Held && !m.parts[j].closer.CloserAt? ==> Terminal(m.parts[j].cell)
    {
      AttainsReaches(run, m, j);
      NoStrandedCaller(j, OwnRun(Start(), run, j), View(m, j));
    }
    forall j | j in m.parts && m.parts[j].starter == NotStarted ensures !m.parts[j].cell.inMap {
      AttainsReaches(run, m, j);
      ReachableInv(j, OwnRun(Start(), run, j), View(m, j));
    }
  }

  /** Each engine reads a prefix of its own caller's body, ended only if complete. */
  lemma SessionRequestIsFaithful(run: seq<MultiStep>, m: Multi, j: u16)
    requires Attains(run, m)
    ensures var p := PartOf(m, j);
      && NonEmpty(p.tether.consumed) <= NonEmpty(p.body.chunks)
      && (p.tether.request == Normal ==> p.body.ok && NonEmpty(p.tether.consumed) == NonEmpty(p.body.chunks))
  {
    AttainsReaches(run, m, j);
    RequestIsFaithful(j, OwnRun(Start(), run, j), View(m, j));
  }
}
