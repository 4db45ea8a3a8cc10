/** When the outcome of a stream is final. It is not written once: as long as the
    stream is in the hub's map, or an actor is between two of its steps, a later
    verdict may replace an earlier one. Here: exactly when a completed stream stays
    complete. */
module StreamOutcome {
  import opened Prelude
  import opened Frames
  import opened Stream
  import opened StreamSafety
  import opened StreamSettlement
  import opened StreamRuns
  import opened StreamDebts

  /** The stream is over and out of the map, and nobody is about to decide it. */
  predicate Decided(s: State) {
    && s.hub.starter != NotStarted && s.cell.completed && !s.cell.inMap
    && !s.hub.loop.Finishing? && (s.hub.loop.Holding? ==> !s.hub.loop.target)
    && !s.hub.closer.CloserAt? && !s.hub.upload.Failing?
  }

  lemma DecidedStep(s: State, a: Step)
    requires Decided(s) && Enabled(s, a)
    ensures Decided(Do(s, a)) && Do(s, a).cell.outcome == s.cell.outcome
  {
    match a
    case ByStarter(x) =>
    case ByUpload(x) =>
    case ByLoop(x) =>
    case BySession(x) =>
    case ByCaller(x) => CallerKeeps(s, x);
    case ByGuard(x) =>
    case ByTether(x) =>
    case ByPump(x) =>
    case ByWire(_) =>
  }

  /** From then on the outcome never changes, whatever happens. */
  lemma {:induction false} DecidedForEver(s: State, run: seq<Step>, t: State)
    requires Decided(s) && Execute(s, run) == Some(t)
    ensures Decided(t) && t.cell.outcome == s.cell.outcome
    decreases |run|
  {
    if run != [] {
      DecidedStep(s, run[0]);
      DecidedForEver(Do(s, run[0]), run[1..], t);
    }
  }

  // ---- A complete stream -----------------------------------------------------

  /** Only the frame loop completes a stream, and then all it has left to do is to
      remove it; a stream that was never admitted has no outcome, and one that is
      not opened yet only when it is out of the map. */
  predicate CompletedLast(c: Cell, loop: Loop, starter: Starter) {
    && (c.outcome == Complete ==>
          !loop.Finishing? && (loop.Holding? ==> !loop.target) && (c.inMap ==> loop.Removing?))
    && (starter == NotStarted ==> c.outcome == Undecided)
    && (starter == Admitted && c.outcome != Undecided ==> !c.inMap)
  }

  predicate Last(s: State) {
    CompletedLast(s.cell, s.hub.loop, s.hub.starter)
  }

  lemma LastLoop(s: State, a: LoopStep)
    requires Opening(s) && LoopTold(s.cell, s.hub.loop) && Last(s) && LoopCan(s, a)
    ensures Last(LoopDoes(s, a))
  {
  }

  lemma LastUpload(s: State, a: UploadStep)
    requires Opening(s) && Last(s) && UploadCan(s, a)
    ensures Last(UploadDoes(s, a))
  {
  }

  lemma LastHub(s: State, a: Step)
    requires Opening(s) && CloserTold(s.cell, s.hub.closer, s.session.closed)
    requires Last(s) && Enabled(s, a) && (a.ByStarter? || a.BySession?)
    ensures Last(Do(s, a))
  {
  }

  lemma LastOther(s: State, a: Step)
    requires Last(s) && Enabled(s, a) && (a.ByCaller? || a.ByGuard? || a.ByTether? || a.ByPump? || a.ByWire?)
    ensures Last(Do(s, a))
  {
    match a
    case ByCaller(x) => CallerKeeps(s, x);
    case ByGuard(x) => GuardFrame(s, x);
    case _ =>
  }

  lemma LastStep(s: State, a: Step)
    requires Inv(s) && Last(s) && Enabled(s, a)
    ensures Last(Do(s, a))
  {
    match a
    case ByStarter(_) => LastHub(s, a);
    case BySession(_) => LastHub(s, a);
    case ByUpload(x) => LastUpload(s, x);
    case ByLoop(x) => LastLoop(s, x);
    case _ => LastOther(s, a);
  }

  lemma {:induction false} RunLast(s: State, run: seq<Step>, t: State)
    requires Inv(s) && Last(s) && Execute(s, run) == Some(t)
    ensures Last(t)
    decreases |run|
  {
    if run != [] {
      StepKeeps(s, run[0]);
      LastStep(s, run[0]);
      RunLast(Do(s, run[0]), run[1..], t);
    }
  }

  lemma ReachableLast(id: u16, run: seq<Step>, s: State)
    requires Reaches(id, run, s)
    ensures Inv(s) && Last(s)
  {
    ReachableInv(id, [], Fresh(id));
    ReachableInv(id, run, s);
    RunLast(Fresh(id), run, s);
  }

  /** The closer's remaining steps fail the stream, whatever it was. */
  lemma {:induction false} CloserFails(s: State) returns (more: seq<Step>, t: State)
    requires s.hub.closer.CloserAt?
    ensures Execute(s, more) == Some(t) && t.cell.outcome == Failed
    decreases FinLeft(s.hub.closer.fin)
  {
    more, t := [BySession(CloseFail)], SessionDoes(s, CloseFail);
    OneStep(s, BySession(CloseFail));
    if s.hub.closer.fin != Publish {
      var rest;
      var u := t;
      rest, t := CloserFails(u);
      ExecuteTwice(s, more, u, rest);
      more := more + rest;
    }
  }

  /** So do those of an upload that has broken. */
  lemma {:induction false} UploadFails(s: State) returns (more: seq<Step>, t: State)
    requires s.hub.upload.Failing?
    ensures Execute(s, more) == Some(t) && t.cell.outcome == Failed
    decreases FinLeft(s.hub.upload.fin)
  {
    more, t := [ByUpload(UploadFail)], UploadDoes(s, UploadFail);
    OneStep(s, ByUpload(UploadFail));
    if s.hub.upload.fin != Publish {
      var rest;
      var u := t;
      rest, t := UploadFails(u);
      ExecuteTwice(s, more, u, rest);
      more := more + rest;
    }
  }

  /** Closing the session fails every stream that is still in the map. */
  lemma ClosingFails(s: State) returns (more: seq<Step>, t: State)
    requires s.cell.inMap
    ensures Execute(s, more) == Some(t) && t.cell.outcome == Failed
  {
    var close := BySession(CloseDrain);
    var u := SessionDoes(s, CloseDrain);
    OneStep(s, close);
    more, t := CloserFails(u);
    ExecuteTwice(s, [close], u, more);
    more := [close] + more;
  }

  lemma CompleteIsUndone(s: State) returns (more: seq<Step>, t: State)
    requires Inv(s) && Last(s) && s.cell.outcome == Complete && !Decided(s)
    ensures Execute(s, more) == Some(t) && t.cell.outcome == Failed
  {
    if s.hub.closer.CloserAt? {
      more, t := CloserFails(s);
    } else if s.hub.upload.Failing? {
      more, t := UploadFails(s);
    } else {
      more, t := ClosingFails(s);
    }
  }

  /** A complete stream stays complete in every continuation exactly if it is out of
      the map and neither a closer nor a broken upload is in the middle of failing
      it; otherwise one of them may still replace the verdict. */
  lemma CompleteIsFinal(id: u16, run: seq<Step>, s: State)
    requires Reaches(id, run, s) && s.cell.outcome == Complete
    ensures (forall more, t :: Execute(s, more) == Some(t) ==> t.cell.outcome == Complete) <==> Decided(s)
    ensures Decided(s) <==> !s.cell.inMap && !s.hub.closer.CloserAt? && !s.hub.upload.Failing?
  {
    ReachableLast(id, run, s);
    if Decided(s) {
      forall more, t | Execute(s, more) == Some(t) ensures t.cell.outcome == Complete {
        DecidedForEver(s, more, t);
      }
    } else {
      var more, t := CompleteIsUndone(s);
      assert Execute(s, more) == Some(t);
    }
  }

  // ---- It happens --------------------------------------------------------------

  /** A stream whose caller's body will break off is opened and the OPEN written. */
  lemma OpensBroken() returns (run: seq<Step>, s: State)
    ensures Reaches(1, run, s)
    ensures s == Fresh(1).(cell := Fresh(1).cell.(inMap := true),
                           hub := Fresh(1).hub.(starter := Spawned, body := Body([], false), upload := Sending(0)),
                           links := Links([], 0, 0, [Open(1, [])], 1, 0))
  {
    run, s := [], Fresh(1);
    run, s := Go(run, s, ByStarter(Admit));
    run, s := Go(run, s, ByStarter(SendOpen([])));
    run, s := Go(run, s, ByStarter(Spawn(Body([], false))));
    run, s := Go(run, s, ByWire(HubWrites));
  }

  /** The engine has the head and the whole of an empty answer on its way. */
  lemma EngineAnswers() returns (run: seq<Step>, s: State)
    ensures Reaches(1, run, s) && s.hub.upload == Sending(0) && s.hub.body == Body([], false) && s.hub.loop == Idle
    ensures s.session == Fresh(1).session && s.cell == Fresh(1).cell.(inMap := true)
    ensures s.links.upSeen == 0 && s.links.upWritten == 2 && s.links.up == [RespHead(1, []), End(1, [])]
  {
    run, s := OpensBroken();
    run, s := Go(run, s, ByTether(TetherOpen(Answer(true, [], [], true), false)));
    run, s := Go(run, s, ByPump(PumpHead));
    run, s := Go(run, s, ByPump(PumpEnd));
    run, s := Go(run, s, ByWire(TetherWrites));
    run, s := Go(run, s, ByWire(TetherWrites));
  }

  /** The caller's body breaks off meanwhile. */
  lemma UploadBreaks() returns (run: seq<Step>, s: State)
    ensures Reaches(1, run, s) && s.hub.upload == Failing(Publish) && s.hub.loop == Idle && !s.session.loopGone
    ensures s.cell.inMap && s.cell.head == None && s.cell.completed
    ensures s.links.upSeen == 0 && s.links.upWritten == 2 && s.links.up == [RespHead(1, []), End(1, [])]
  {
    run, s := EngineAnswers();
    run, s := Go(run, s, ByUpload(UploadEnd));
    run, s := Go(run, s, ByUpload(UploadCheck));
    run, s := Go(run, s, ByUpload(UploadFail));
    run, s := Go(run, s, ByUpload(UploadFail));
  }

  /** The loop goes through head and END up to the removal. */
  lemma LoopCompletes(run: seq<Step>, s: State) returns (more: seq<Step>, t: State)
    requires Reaches(1, run, s) && s.hub.loop == Idle && !s.session.loopGone && s.cell.inMap && s.cell.head == None
    requires s.links.upSeen == 0 && s.links.upWritten == 2 && s.links.up == [RespHead(1, []), End(1, [])]
    ensures run <= more && Reaches(1, more, t) && t.cell.outcome == Complete && t.cell.inMap
  {
    more, t := Go(run, s, ByLoop(Take));
    more, t := Go(more, t, ByLoop(HandleHead(true)));
    more, t := Go(more, t, ByLoop(Take));
    more, t := Go(more, t, ByLoop(HandleEnd));
    more, t := Go(more, t, ByLoop(LoopFinish));
    more, t := Go(more, t, ByLoop(LoopFinish));
    more, t := Go(more, t, ByLoop(LoopFinish));
  }

  /** A stream that was failed becomes complete: the broken upload leaves it in the
      map, and then the engine's clean END arrives. */
  lemma FailedBecomesComplete() returns (run: seq<Step>, s: State, more: seq<Step>, t: State)
    ensures Reaches(1, run, s) && s.cell.outcome == Failed
    ensures run <= more && Reaches(1, more, t) && t.cell.outcome == Complete
  {
    run, s := UploadBreaks();
    run, s := Go(run, s, ByUpload(UploadFail));
    more, t := LoopCompletes(run, s);
  }

  /** A stream that was complete becomes failed: the session is closed between the
      two halves of END, when the stream is complete but not yet removed. */
  lemma CompleteBecomesFailed() returns (run: seq<Step>, s: State, more: seq<Step>, t: State)
    ensures Reaches(1, run, s) && s.cell.outcome == Complete
    ensures run <= more && Reaches(1, more, t) && t.cell.outcome == Failed
  {
    run, s := UploadBreaks();
    run, s := LoopCompletes(run, s);
    var rest;
    rest, t := ClosingFails(s);
    ExecuteTwice(Fresh(1), run, s, rest);
    more := run + rest;
  }
}
