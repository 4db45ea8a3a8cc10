/** A caller's request gets to the engine: an upload that is done has sent all of the
    body and HALF_END behind it, unless the stream is over or was given up; it fails
    only for a reason; and as long as nobody ends the stream, the rest of the body can
    still be sent, taken and read to its end. */
module StreamUpload {
  import opened Prelude
  import opened Frames
  import opened Stream
  import opened StreamSafety
  import opened StreamSettlement
  import opened StreamRequest
  import opened StreamRuns
  import opened StreamDebts

  // ---- What an upload has done -----------------------------------------------------

  ghost predicate HalfEndIn(log: seq<Frame>) {
    exists i :: 0 <= i < |log| && log[i].HalfEnd?
  }

  /** The whole body is on the link, in order, and HALF_END behind it. */
  ghost predicate AllSent(down: seq<Frame>, b: Body) {
    exists i :: 0 <= i < |down| && down[i].HalfEnd? && DataOf(down[..i]) == NonEmpty(b.chunks)
  }

  /** An upload that is done has sent HALF_END, or is of no more use. */
  ghost predicate Finished(upload: Upload, down: seq<Frame>, c: Cell) {
    upload == UploadDone ==> HalfEndIn(down) || c.completed || c.uploadAborted
  }

  /** It breaks only with the caller's body or the hub's writer. */
  predicate BreaksForCause(h: Hub, writerGone: bool) {
    h.upload == Checking || h.upload.Failing? || h.upload == Reporting ==> !h.body.ok || writerGone
  }

  /** The upload of a stream is stopped only when the stream is over or its caller has
      gone. */
  predicate StoppedForCause(c: Cell, guard: Guard) {
    c.uploadAborted ==> c.completed || (guard != Held && guard != BodyDropped)
  }

  /** The tether is told to end only streams that are over or out of the map. */
  ghost predicate EndsExcused(down: seq<Frame>, c: Cell, upload: Upload, guard: Guard) {
    && (EndIn(down) ==> c.completed || !c.inMap)
    && (upload == Reporting ==> c.completed)
    && (guard == Removed || guard == MustNotify || guard == Released ==> !c.inMap)
  }

  ghost predicate UploadInv(s: State) {
    && Finished(s.hub.upload, s.links.down, s.cell)
    && BreaksForCause(s.hub, s.session.writerGone)
    && StoppedForCause(s.cell, s.client.guard)
    && EndsExcused(s.links.down, s.cell, s.hub.upload, s.client.guard)
  }

  lemma InGrows(down: seq<Frame>, f: Frame)
    ensures HalfEndIn(down + [f]) <==> HalfEndIn(down) || f.HalfEnd?
    ensures EndIn(down + [f]) <==> EndIn(down) || f.End?
  {
    var all := down + [f];
    assert all[|down|] == f;
    if HalfEndIn(down) {
      var i :| 0 <= i < |down| && down[i].HalfEnd?;
      assert all[i] == down[i];
    }
    if EndIn(down) {
      var i :| 0 <= i < |down| && down[i].End?;
      assert all[i] == down[i];
    }
  }

  lemma UploadByStarter(s: State, a: StarterStep)
    requires Opening(s) && UploadInv(s) && StarterCan(s, a)
    ensures UploadInv(StarterDoes(s, a))
  {
    if a.SendOpen? {
      InGrows(s.links.down, Open(s.id, a.head));
    }
  }

  lemma UploadByUpload(s: State, a: UploadStep)
    requires Opening(s) && UploadInv(s) && UploadCan(s, a)
    requires s.hub.upload.Failing? && s.hub.upload.fin != Store ==> s.cell.completed
    ensures UploadInv(UploadDoes(s, a))
  {
    match a
    case UploadNext => InGrows(s.links.down, Data(s.id, s.hub.body.chunks[s.hub.upload.sent]));
    case UploadEnd => InGrows(s.links.down, HalfEnd(s.id));
    case UploadReport(_) => InGrows(s.links.down, End(s.id, REASON));
    case _ =>
  }

  lemma UploadByLoop(s: State, a: LoopStep)
    requires UploadInv(s) && LoopCan(s, a) && (s.hub.loop.Notifying? ==> !s.cell.inMap) && LoopTold(s.cell, s.hub.loop)
    ensures UploadInv(LoopDoes(s, a))
  {
    if a.LoopNotify? {
      InGrows(s.links.down, End(s.id, REASON));
    }
  }

  lemma UploadByGuard(s: State, a: GuardStep)
    requires UploadInv(s) && GuardCan(s, a)
    ensures UploadInv(GuardDoes(s, a))
  {
    if a.DropNotify? {
      InGrows(s.links.down, End(s.id, []));
    }
  }

  /** Nobody else touches what an upload is about. */
  lemma UploadByHub(s: State, a: Step)
    requires UploadInv(s) && Enabled(s, a) && (a.BySession? || a.ByCaller?)
    requires CloserTold(s.cell, s.hub.closer, s.session.closed)
    ensures UploadInv(Do(s, a))
  {
    if a.ByCaller? {
      CallerKeeps(s, a.caller);
    }
  }

  lemma UploadByTether(s: State, a: Step)
    requires UploadInv(s) && Enabled(s, a) && (a.ByTether? || a.ByPump? || a.ByWire?)
    ensures UploadInv(Do(s, a))
  {
  }

  lemma UploadStepKeeps(s: State, a: Step)
    requires Inv(s) && UploadInv(s) && Enabled(s, a)
    ensures UploadInv(Do(s, a))
  {
    match a
    case ByStarter(x) => UploadByStarter(s, x);
    case ByUpload(x) => UploadByUpload(s, x);
    case ByLoop(x) => UploadByLoop(s, x);
    case ByGuard(x) => UploadByGuard(s, x);
    case BySession(_) => UploadByHub(s, a);
    case ByCaller(_) => UploadByHub(s, a);
    case _ => UploadByTether(s, a);
  }

  lemma {:induction false} UploadRunKeeps(s: State, run: seq<Step>, t: State)
    requires Inv(s) && UploadInv(s) && Execute(s, run) == Some(t)
    ensures UploadInv(t)
    decreases |run|
  {
    if run != [] {
      StepKeeps(s, run[0]);
      UploadStepKeeps(s, run[0]);
      UploadRunKeeps(Do(s, run[0]), run[1..], t);
    }
  }

  lemma ReachableUpload(id: u16, run: seq<Step>, s: State)
    requires Reaches(id, run, s)
    ensures Inv(s) && UploadInv(s)
  {
    ReachableInv(id, [], Fresh(id));
    ReachableInv(id, run, s);
    UploadRunKeeps(Fresh(id), run, s);
  }

  lemma SentIsAll(s: State)
    requires RequestInv(s) && HalfEndIn(s.links.down)
    ensures s.hub.body.ok && AllSent(s.links.down, s.hub.body)
  {
    var down := s.links.down;
    var i :| 0 <= i < |down| && down[i].HalfEnd?;
    assert FitsBody(down[i], DataOf(down[..i]), s.hub.body);
  }

  /** An upload that is done, of a stream that is not over and that nobody stopped, has
      put the whole of a properly ended body on the link and HALF_END
      behind it. */
  lemma BodyIsSent(id: u16, run: seq<Step>, s: State)
    requires Reaches(id, run, s)
    requires s.hub.upload == UploadDone && !s.cell.completed && !s.cell.uploadAborted
    ensures s.hub.body.ok && AllSent(s.links.down, s.hub.body)
  {
    ReachableUpload(id, run, s);
    SentIsAll(s);
  }

  /** As long as the hub's writer is there, the upload of a body that ends properly
      never fails its stream. */
  lemma ProperBodyNeverBreaks(id: u16, run: seq<Step>, s: State)
    requires Reaches(id, run, s) && s.hub.body.ok && !s.session.writerGone
    ensures s.hub.upload == NoUpload || s.hub.upload.Sending? || s.hub.upload == UploadDone
  {
    ReachableUpload(id, run, s);
  }

  /** As long as the stream is not over and its caller is there, nobody stops the
      upload. */
  lemma NobodyStopsIt(id: u16, run: seq<Step>, s: State)
    requires Reaches(id, run, s) && !s.cell.completed && (s.client.guard == Held || s.client.guard == BodyDropped)
    ensures !s.cell.uploadAborted && forall a :: UploadCan(s, a) ==> !a.UploadStops?
  {
    ReachableUpload(id, run, s);
  }

  lemma {:induction false} OverForEver(s: State, run: seq<Step>, t: State)
    requires Inv(s) && s.cell.completed && Execute(s, run) == Some(t)
    ensures t.cell.completed
    decreases |run|
  {
    if run != [] {
      StepAdvances(s, run[0]);
      StepKeeps(s, run[0]);
      OverForEver(Do(s, run[0]), run[1..], t);
    }
  }

  /** At most `n` steps, all of the upload. */
  predicate OfUpload(own: seq<Step>, n: nat) {
    |own| <= n && forall i :: 0 <= i < |own| ==> own[i].ByUpload?
  }

  /** The last three, at most. */
  lemma BrokenUploadGoesOn(s: State, full: bool) returns (own: seq<Step>, t: State)
    requires Inv(s) && s.cell.completed && s.hub.upload == Failing(Abort)
    ensures Execute(s, own) == Some(t) && OfUpload(own, 3) && t.cell.completed && Settled(t.links, t.session)
  {
    own, t := PaysAlone(s, TheUpload, full);
    OverForEver(s, own, t);
  }

  lemma UploadOnce(s: State, a: UploadStep) returns (own: seq<Step>, t: State)
    requires Inv(s) && UploadCan(s, a)
    ensures t == UploadDoes(s, a) && Execute(s, own) == Some(t) && Inv(t) && OfUpload(own, 1)
  {
    own, t := [ByUpload(a)], UploadDoes(s, a);
    StepKeeps(s, ByUpload(a));
    OneStep(s, ByUpload(a));
  }

  /** The first two turns of an upload that has broken off. */
  lemma BrokenUploadStarts(s: State) returns (own: seq<Step>, t: State)
    requires Inv(s) && s.hub.upload == Checking && !s.cell.completed
    ensures Execute(s, own) == Some(t) && Inv(t) && OfUpload(own, 2)
    ensures t.cell.completed && t.hub.upload == Failing(Abort)
  {
    var u, more;
    own, u := UploadOnce(s, UploadCheck);
    more, t := UploadOnce(u, UploadFail);
    ExecuteTwice(s, own, u, more);
    own := own + more;
  }

  /** An upload that has broken off fails its stream, if it is not over, and tells the
      tether, in at most five turns of its own. */
  lemma BrokenUploadEnds(id: u16, run: seq<Step>, s: State, full: bool) returns (more: seq<Step>, t: State)
    requires Reaches(id, run, s) && s.hub.upload == Checking && !s.cell.completed
    ensures Execute(s, more) == Some(t) && |more| <= 5 && forall i :: 0 <= i < |more| ==> more[i].ByUpload?
    ensures t.cell.completed && Settled(t.links, t.session)
  {
    ReachableInv(id, run, s);
    var first, u := BrokenUploadStarts(s);
    var rest;
    rest, t := BrokenUploadGoesOn(u, full);
    ExecuteTwice(s, first, u, rest);
    more := first + rest;
  }

  // ---- What it can still do -----------------------------------------------------------

  /** The engine is still reading its request. */
  predicate Reads(t: Tether) {
    t.handle && t.reading && t.pump.Some? && (t.pump.value.phase == Connecting || t.pump.value.phase == Relaying)
  }

  /** The tether has not got to the stream's OPEN. */
  predicate Unasked(s: State) {
    s.tether.pump == None && s.links.downSeen == 0
  }

  /** Nothing stands between the rest of the body and the engine. */
  ghost predicate Feeding(s: State) {
    && !s.session.writerGone && !s.session.tetherGone
    && s.hub.upload != NoUpload && s.hub.body.ok && (s.hub.upload.Sending? || HalfEndIn(s.links.down))
    && !EndIn(s.links.down)
    && (s.tether.request == Normal || Reads(s.tether) || Unasked(s))
  }

  /** The next step that takes it there. */
  function Feed(s: State): Step {
    if s.hub.upload.Sending? then
      ByUpload(if s.hub.upload.sent < |s.hub.body.chunks| then UploadNext else UploadEnd)
    else if s.tether.pump == None then
      if s.links.downWritten == 0 then ByWire(HubWrites)
      else ByTether(TetherOpen(Answer(true, [], [], true), false))
    else if s.tether.input != [] then ByPump(PumpReceive)
    else if s.links.downSeen < s.links.downWritten then ByTether(TetherInput(false))
    else ByWire(HubWrites)
  }

  /** Steps to the end of the request at most. */
  function FeedToGo(s: State): nat {
    (if s.hub.upload.Sending? then 4 * Left(|s.hub.body.chunks|, s.hub.upload.sent) + 4 else 0)
    + Left(|s.links.down|, s.links.downWritten) + 2 * Left(|s.links.down|, s.links.downSeen) + |s.tether.input|
  }

  function Left(whole: nat, done: nat): nat {
    if done < whole then whole - done else 0
  }

  /** Still on its way, and closer to the end of the request. */
  ghost predicate Fuller(s: State, t: State) {
    Feeding(t) && t.hub.body == s.hub.body && FeedToGo(t) < FeedToGo(s)
  }

  lemma {:induction false} HalfEndIsMessage(log: seq<Frame>)
    requires HalfEndIn(log)
    ensures [] in MessagesOf(log)
    decreases |log|
  {
    var front, last := log[..|log| - 1], log[|log| - 1];
    if !last.HalfEnd? {
      var i :| 0 <= i < |log| && log[i].HalfEnd?;
      assert front[i] == log[i];
      HalfEndIsMessage(front);
    }
  }

  lemma EmptyMessageEnds(consumed: seq<Bytes>, request: RequestEnd)
    requires EndsOnce(consumed, request) && [] in consumed
    ensures request == Normal
  {
    var i :| 0 <= i < |consumed| && consumed[i] == [];
    assert i == |consumed| - 1;
  }

  /** An engine that has read all there is has not taken all of the link. */
  lemma MoreToTake(s: State)
    requires Opening(s) && RequestInv(s) && HalfEndIn(s.links.down) && Reads(s.tether) && s.tether.input == []
    ensures s.links.downSeen < |s.links.down|
  {
    if s.links.downSeen == |s.links.down| {
      assert s.links.down[..s.links.downSeen] == s.links.down;
      assert s.tether.consumed == MessagesOf(s.links.down);
      HalfEndIsMessage(s.links.down);
      EmptyMessageEnds(s.tether.consumed, s.tether.request);
    }
  }

  lemma FeedUpload(s: State)
    requires RequestInv(s) && Feeding(s) && s.hub.upload.Sending?
    ensures Enabled(s, Feed(s)) && Fuller(s, Do(s, Feed(s)))
  {
    var sent := s.hub.upload.sent;
    if sent < |s.hub.body.chunks| {
      InGrows(s.links.down, Data(s.id, s.hub.body.chunks[sent]));
    } else {
      InGrows(s.links.down, HalfEnd(s.id));
    }
  }

  lemma FeedOpen(s: State)
    requires Opening(s) && Feeding(s) && !s.hub.upload.Sending? && s.tether.pump == None
    requires s.tether.request != Normal
    ensures Enabled(s, Feed(s)) && Fuller(s, Do(s, Feed(s)))
  {
  }

  lemma FeedReceive(s: State)
    requires Feeding(s) && !s.hub.upload.Sending? && s.tether.input != [] && Reads(s.tether)
    ensures Enabled(s, Feed(s)) && Fuller(s, Do(s, Feed(s)))
  {
  }

  lemma FeedTake(s: State)
    requires RequestInv(s) && Feeding(s) && !s.hub.upload.Sending? && Reads(s.tether) && s.tether.input == []
    ensures Enabled(s, Feed(s)) && Fuller(s, Do(s, Feed(s)))
  {
    MoreToTake(s);
    var f := s.links.down[s.links.downSeen];
    assert s.links.downSeen > 0;
    assert !f.End?;
  }

  lemma FeedStep(s: State)
    requires Inv(s) && Feeding(s) && s.tether.request != Normal
    ensures Enabled(s, Feed(s)) && Fuller(s, Do(s, Feed(s)))
  {
    if s.hub.upload.Sending? {
      FeedUpload(s);
    } else if s.tether.pump == None {
      FeedOpen(s);
    } else if s.tether.input != [] {
      FeedReceive(s);
    } else {
      FeedTake(s);
    }
  }

  lemma {:induction false} FeedsOn(s: State) returns (more: seq<Step>, t: State)
    requires Inv(s) && Feeding(s)
    ensures Execute(s, more) == Some(t) && Inv(t) && t.tether.request == Normal && t.hub.body == s.hub.body
    ensures |more| <= FeedToGo(s)
    decreases FeedToGo(s)
  {
    more, t := [], s;
    if s.tether.request != Normal {
      var a := Feed(s);
      FeedStep(s);
      StepKeeps(s, a);
      OneStep(s, a);
      var u, rest := Do(s, a), [];
      rest, t := FeedsOn(u);
      ExecuteTwice(s, [a], u, rest);
      more := [a] + rest;
    }
  }

  /** The stream is in the map and not over, both ends are there, and of a body that
      ends properly nothing has been dropped. */
  ghost predicate Healthy(s: State) {
    && s.cell.inMap && !s.cell.completed && !s.session.writerGone && !s.session.tetherGone
    && s.hub.body.ok && (s.hub.upload.Sending? || AllSent(s.links.down, s.hub.body))
    && (Unasked(s) || Reads(s.tether))
  }

  lemma HealthyFeeds(s: State)
    requires Inv(s) && UploadInv(s) && Healthy(s)
    ensures Feeding(s)
  {
    assert s.hub.upload == NoUpload ==> NoInput(s.links.down);
  }

  /** As long as the stream is in the map and not over, both ends are there and the
      engine has not stopped reading, the engine can still get all of a body that ends
      properly, and its end. */
  lemma EngineGetsTheBody(id: u16, run: seq<Step>, s: State) returns (more: seq<Step>, t: State)
    requires Reaches(id, run, s) && Healthy(s)
    ensures Execute(s, more) == Some(t) && |more| <= FeedToGo(s)
    ensures t.tether.request == Normal && NonEmpty(t.tether.consumed) == NonEmpty(s.hub.body.chunks)
  {
    ReachableUpload(id, run, s);
    HealthyFeeds(s);
    more, t := FeedsOn(s);
    RequestMeaning(t);
  }
}
