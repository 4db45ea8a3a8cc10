/** The tether never drops a stream in silence: whatever OPEN it has taken it serves,
    unless it has told the hub that it does not, or the hub has told it to stop. */
module StreamTether {
  import opened Prelude
  import opened Frames
  import opened Stream
  import opened StreamSafety
  import opened StreamSettlement
  import opened StreamRuns

  ghost predicate TetherTold(l: Links, t: Tether, tetherGone: bool)
    requires l.downSeen <= |l.down|
  {
    && (t.pump.Some? && (t.pump.value.phase == EndSent || t.pump.value.phase == Reported) ==> EndIn(l.up))
    && (l.downSeen > 0 && !tetherGone && !t.handle ==> EndIn(l.up) || EndIn(l.down[..l.downSeen]))
    && (t.reading ==> t.pump.Some? && (t.pump.value.phase == Connecting || t.pump.value.phase == Relaying))
    && (t.request == Broken ==> !t.handle)
  }

  ghost predicate TetherInv(s: State) {
    s.links.downSeen <= |s.links.down| && TetherTold(s.links, s.tether, s.session.tetherGone)
  }

  lemma EndAdded(log: seq<Frame>, f: Frame)
    ensures EndIn(log + [f]) <==> EndIn(log) || f.End?
  {
    assert (log + [f])[|log|] == f;
    if EndIn(log) {
      var i :| 0 <= i < |log| && log[i].End?;
      assert (log + [f])[i] == log[i];
    }
  }

  /** The hub at most queues more frames for the tether. */
  lemma TetherByHub(s: State, t: State)
    requires TetherInv(s) && t.tether == s.tether && t.session.tetherGone == s.session.tetherGone
    requires t.links.up == s.links.up && t.links.downSeen == s.links.downSeen && s.links.down <= t.links.down
    ensures TetherInv(t)
  {
    assert t.links.down[..t.links.downSeen] == s.links.down[..s.links.downSeen];
  }

  lemma HubOnlyQueues(s: State, a: Step)
    requires Enabled(s, a) && !a.ByTether? && !a.ByPump?
    ensures var t := Do(s, a);
      && t.tether == s.tether && t.session.tetherGone == s.session.tetherGone
      && t.links.up == s.links.up && t.links.downSeen == s.links.downSeen && s.links.down <= t.links.down
  {
    match a
    case ByUpload(x) => UploadFrame(s, x);
    case ByLoop(x) => LoopFrame(s, x);
    case ByCaller(x) => CallerFrame(s, x);
    case ByGuard(x) => GuardFrame(s, x);
    case BySession(x) => SessionFrame(s, x);
    case _ =>
  }

  lemma InputIsLater(s: State, full: bool)
    requires Opening(s) && TetherCan(s, TetherInput(full))
    ensures s.links.downSeen > 0
  {
  }

  lemma TetherByTether(s: State, a: TetherStep)
    requires Opening(s) && TetherInv(s) && Withdrawn(s.links, s.tether) && TetherCan(s, a)
    ensures TetherInv(TetherDoes(s, a))
  {
    if a.TetherInput? {
      InputIsLater(s, a.full);
    }
    EndAdded(s.links.up, End(s.id, REASON));
    if !a.TetherReap? && !a.TetherGone? {
      var n := s.links.downSeen;
      assert s.links.down[..n + 1] == s.links.down[..n] + [s.links.down[n]];
      EndAdded(s.links.down[..n], s.links.down[n]);
    }
  }

  lemma TetherByPump(s: State, a: PumpStep)
    requires TetherInv(s) && PumpCan(s, a)
    ensures TetherInv(PumpDoes(s, a))
  {
    var p := s.tether.pump.value;
    match a
    case PumpHead => EndAdded(s.links.up, RespHead(s.id, p.answer.head));
    case PumpChunk => EndAdded(s.links.up, Data(s.id, p.answer.chunks[p.read]));
    case PumpEnd => EndAdded(s.links.up, End(s.id, if p.answer.headed && p.answer.ok then [] else REASON));
    case _ =>
  }

  lemma TetherStepKeeps(s: State, a: Step)
    requires Inv(s) && TetherInv(s) && Enabled(s, a)
    ensures TetherInv(Do(s, a))
  {
    match a
    case ByTether(x) => TetherByTether(s, x);
    case ByPump(x) => TetherByPump(s, x);
    case _ =>
      HubOnlyQueues(s, a);
      TetherByHub(s, Do(s, a));
  }

  lemma {:induction false} TetherRunKeeps(s: State, run: seq<Step>, t: State)
    requires Inv(s) && TetherInv(s) && Execute(s, run) == Some(t)
    ensures TetherInv(t)
    decreases |run|
  {
    if run != [] {
      StepKeeps(s, run[0]);
      TetherStepKeeps(s, run[0]);
      TetherRunKeeps(Do(s, run[0]), run[1..], t);
    }
  }

  /** A stream whose OPEN the tether has taken has a live pump, or the tether has put
      an END for it on the link, or it has taken one from the hub. */
  lemma NothingDroppedInSilence(id: u16, run: seq<Step>, s: State)
    requires Reaches(id, run, s) && s.links.downSeen > 0 && !s.session.tetherGone
    ensures s.links.downSeen <= |s.links.down|
    ensures
      || (s.tether.handle && s.tether.pump.Some? && s.tether.pump.value.phase != Dead)
      || EndIn(s.links.up) || EndIn(s.links.down[..s.links.downSeen])
  {
    ReachableInv(id, [], Fresh(id));
    ReachableInv(id, run, s);
    TetherRunKeeps(Fresh(id), run, s);
  }

  /** Input is taken for no pump but one that still relays: a pump that has sent its END
      or was aborted reads no more. */
  lemma ReadsWhileAtIt(id: u16, run: seq<Step>, s: State)
    requires Reaches(id, run, s) && s.tether.reading
    ensures s.tether.pump.Some?
    ensures s.tether.pump.value.phase == Connecting || s.tether.pump.value.phase == Relaying
  {
    ReachableInv(id, [], Fresh(id));
    TetherRunKeeps(Fresh(id), run, s);
  }

  /** An engine's request is broken off only once the tether has let go of the stream,
      and then it can be as soon as all that was queued is read: it is not kept waiting
      for more. */
  lemma BreaksOffWhenDropped(id: u16, run: seq<Step>, s: State)
    requires Reaches(id, run, s)
    ensures s.tether.request == Broken ==> !s.tether.handle
    ensures s.tether.reading && !s.tether.handle && s.tether.input == [] ==>
      PumpCan(s, PumpStarves) && PumpDoes(s, PumpStarves).tether.request == Broken
  {
    ReachableInv(id, [], Fresh(id));
    TetherRunKeeps(Fresh(id), run, s);
  }

  // ---- An aborted pump ------------------------------------------------------------------

  predicate Aborted(t: Tether) {
    !t.handle && !t.reading && t.pump.Some? && t.pump.value.phase == Dead
  }

  lemma AbortedStep(s: State, a: Step)
    requires Opening(s) && Aborted(s.tether) && Enabled(s, a)
    ensures Aborted(Do(s, a).tether) && Do(s, a).links.up == s.links.up
    ensures Do(s, a).tether.consumed == s.tether.consumed
  {
    match a
    case ByTether(x) => assert s.links.downSeen > 0;
    case ByPump(_) =>
    case _ => HubOnlyQueues(s, a);
  }

  lemma {:induction false} AbortedForEver(s: State, run: seq<Step>, t: State)
    requires Inv(s) && Aborted(s.tether) && Execute(s, run) == Some(t)
    ensures Aborted(t.tether) && t.links.up == s.links.up && t.tether.consumed == s.tether.consumed
    decreases |run|
  {
    if run != [] {
      AbortedStep(s, run[0]);
      StepKeeps(s, run[0]);
      AbortedForEver(Do(s, run[0]), run[1..], t);
    }
  }

  /** A pump that has lost its handle and has not finished can be stopped at any
      moment, and once it is it neither reads nor sends anything ever after. */
  lemma AbortIsFinal(id: u16, run: seq<Step>, s: State, more: seq<Step>, t: State)
    requires Reaches(id, run, s) && !s.tether.handle && s.tether.pump.Some? && s.tether.pump.value.phase != Reported
    ensures PumpCan(s, PumpStops)
    ensures Execute(PumpDoes(s, PumpStops), more) == Some(t) ==>
      t.links.up == s.links.up && t.tether.consumed == s.tether.consumed && !t.tether.reading
  {
    ReachableInv(id, run, s);
    StepKeeps(s, ByPump(PumpStops));
    if Execute(PumpDoes(s, PumpStops), more) == Some(t) {
      AbortedForEver(PumpDoes(s, PumpStops), more, t);
    }
  }
}
