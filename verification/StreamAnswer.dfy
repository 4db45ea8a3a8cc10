/** The engine's answer gets to the caller: as long as nobody ends the stream, the
    rest of a properly ended answer can still be sent, taken, queued and polled to its
    end, however long it is. */
module StreamAnswer {
  import opened Prelude
  import opened Frames
  import opened Stream
  import opened StreamSafety
  import opened StreamSettlement
  import opened StreamRuns
  import opened StreamDebts
  import opened StreamOutcome
  import opened StreamFailure
  import opened StreamInputs

  // ---- One head, then data ---------------------------------------------------------

  ghost predicate HeadIn(log: seq<Frame>) {
    exists i :: 0 <= i < |log| && log[i].RespHead?
  }

  /** Only an END comes before the head, and data only behind it. */
  ghost predicate HeadFirst(up: seq<Frame>, pump: Option<Pump>) {
    && (forall i, j :: 0 <= i < j < |up| && up[j].RespHead? ==> up[i].End?)
    && (forall j :: 0 <= j < |up| && up[j].Data? ==> HeadIn(up[..j]))
    && (pump.None? || pump.value.phase == Connecting ==> forall i :: 0 <= i < |up| ==> up[i].End?)
    && (pump.Some? && pump.value.phase == Relaying ==> HeadIn(up))
  }

  /** What the loop has done away with: the frame in hand is not among it. */
  function Handled(l: Links, loop: Loop): seq<Frame>
    requires l.upSeen <= |l.up|
  {
    if loop.Holding? && l.upSeen > 0 then l.up[..l.upSeen - 1] else l.up[..l.upSeen]
  }

  /** The head of a stream that goes on is there once the loop has handled it, and no
      END has been handled. */
  ghost predicate HeadStored(c: Cell, loop: Loop, l: Links)
    requires l.upSeen <= |l.up|
  {
    c.inMap && !c.completed && (loop.Idle? || loop.Holding?) ==>
      (c.head.Some? <==> HeadIn(Handled(l, loop))) && !EndIn(Handled(l, loop))
  }

  ghost predicate AnswerInv(s: State) {
    && s.links.upSeen <= |s.links.up|
    && HeadFirst(s.links.up, s.tether.pump)
    && HeadStored(s.cell, s.hub.loop, s.links)
  }

  lemma HeadInGrows(log: seq<Frame>, f: Frame)
    ensures HeadIn(log + [f]) <==> HeadIn(log) || f.RespHead?
  {
    assert (log + [f])[|log|] == f;
    if HeadIn(log) {
      var i :| 0 <= i < |log| && log[i].RespHead?;
      assert (log + [f])[i] == log[i];
    }
  }

  lemma EndInGrows(log: seq<Frame>, f: Frame)
    ensures EndIn(log + [f]) <==> EndIn(log) || f.End?
  {
    assert (log + [f])[|log|] == f;
    if EndIn(log) {
      var i :| 0 <= i < |log| && log[i].End?;
      assert (log + [f])[i] == log[i];
    }
  }

  lemma HeadFirstGrows(up: seq<Frame>, pump: Option<Pump>, next: Option<Pump>, f: Frame)
    requires HeadFirst(up, pump)
    requires f.RespHead? ==> pump.Some? && pump.value.phase == Connecting
    requires f.Data? ==> HeadIn(up)
    requires next.None? || next.value.phase == Connecting ==> f.End? && (pump.None? || pump.value.phase == Connecting)
    requires next.Some? && next.value.phase == Relaying ==> HeadIn(up) || f.RespHead?
    ensures HeadFirst(up + [f], next)
  {
    var all := up + [f];
    HeadInGrows(up, f);
    forall j | 0 <= j < |all| && all[j].Data? ensures HeadIn(all[..j]) {
      if j < |up| {
        assert all[..j] == up[..j];
      } else {
        assert all[..j] == up;
      }
    }
  }

  lemma HeadStoredGrows(c: Cell, loop: Loop, l: Links, f: Frame)
    requires l.upSeen <= |l.up| && HeadStored(c, loop, l)
    ensures HeadStored(c, loop, l.(up := l.up + [f]))
  {
    assert (l.up + [f])[..l.upSeen] == l.up[..l.upSeen];
    if l.upSeen > 0 {
      assert (l.up + [f])[..l.upSeen - 1] == l.up[..l.upSeen - 1];
    }
  }

  /** Actors that leave the link alone. */
  lemma AnswerByHub(s: State, a: Step)
    requires AnswerInv(s) && Enabled(s, a) && (a.ByStarter? || a.ByUpload? || a.BySession?)
    requires s.hub.starter == NotStarted ==> s.links.up == [] && s.cell.head == None && s.hub.loop == Idle
    ensures AnswerInv(Do(s, a))
  {
    match a
    case ByUpload(x) => UploadFrame(s, x);
    case BySession(x) => SessionFrame(s, x);
    case _ =>
  }

  lemma AnswerByClient(s: State, a: Step)
    requires AnswerInv(s) && Enabled(s, a) && (a.ByCaller? || a.ByGuard? || a.ByWire?)
    ensures AnswerInv(Do(s, a))
  {
    match a
    case ByCaller(x) => CallerFrame(s, x); CallerKeeps(s, x);
    case ByGuard(x) => GuardFrame(s, x);
    case _ =>
  }

  lemma HandledNext(l: Links)
    requires 0 < l.upSeen <= |l.up|
    ensures l.up[..l.upSeen] == l.up[..l.upSeen - 1] + [l.up[l.upSeen - 1]]
  {
  }

  lemma AnswerByLoop(s: State, a: LoopStep)
    requires AnswerInv(s) && LoopCan(s, a) && LoopTold(s.cell, s.hub.loop) && InHand(s.hub.loop, s.links)
    requires s.hub.loop.Notifying? ==> !s.cell.inMap
    ensures AnswerInv(LoopDoes(s, a))
  {
    LoopFrame(s, a);
    if s.hub.loop.Holding? {
      HandledNext(s.links);
      HeadInGrows(s.links.up[..s.links.upSeen - 1], s.hub.loop.frame);
      EndInGrows(s.links.up[..s.links.upSeen - 1], s.hub.loop.frame);
    }
  }

  lemma AnswerByTether(s: State, a: TetherStep)
    requires AnswerInv(s) && TetherCan(s, a) && (a.TetherOpen? ==> s.tether.pump == None)
    ensures AnswerInv(TetherDoes(s, a))
  {
    var f := End(s.id, REASON);
    HeadStoredGrows(s.cell, s.hub.loop, s.links, f);
    HeadFirstGrows(s.links.up, s.tether.pump, s.tether.pump, f);
  }

  lemma AnswerByPump(s: State, a: PumpStep)
    requires AnswerInv(s) && PumpCan(s, a)
    ensures AnswerInv(PumpDoes(s, a))
  {
    var p, next := s.tether.pump.value, PumpDoes(s, a).tether.pump;
    match a
    case PumpHead =>
      HeadStoredGrows(s.cell, s.hub.loop, s.links, RespHead(s.id, p.answer.head));
      HeadFirstGrows(s.links.up, s.tether.pump, next, RespHead(s.id, p.answer.head));
    case PumpChunk =>
      HeadStoredGrows(s.cell, s.hub.loop, s.links, Data(s.id, p.answer.chunks[p.read]));
      HeadFirstGrows(s.links.up, s.tether.pump, next, Data(s.id, p.answer.chunks[p.read]));
    case PumpEnd =>
      HeadStoredGrows(s.cell, s.hub.loop, s.links, LastFrame(s.id, p.answer));
      HeadFirstGrows(s.links.up, s.tether.pump, next, LastFrame(s.id, p.answer));
    case _ =>
  }

  lemma NotStartedYet(s: State)
    requires Inv(s) && s.hub.starter == NotStarted
    ensures s.links.up == [] && s.cell.head == None && s.hub.loop == Idle
  {
  }

  lemma OpenMeansNoPump(s: State, a: TetherStep)
    requires Inv(s) && TetherCan(s, a) && a.TetherOpen?
    ensures s.tether.pump == None
  {
    assert s.links.downSeen == 0;
  }

  lemma AnswerStep(s: State, a: Step)
    requires Inv(s) && AnswerInv(s) && Enabled(s, a)
    ensures AnswerInv(Do(s, a))
  {
    match a
    case ByLoop(x) => AnswerByLoop(s, x);
    case ByTether(x) =>
      if x.TetherOpen? {
        OpenMeansNoPump(s, x);
      }
      AnswerByTether(s, x);
    case ByPump(x) => AnswerByPump(s, x);
    case ByCaller(_) => AnswerByClient(s, a);
    case ByGuard(_) => AnswerByClient(s, a);
    case ByWire(_) => AnswerByClient(s, a);
    case _ =>
      if s.hub.starter == NotStarted {
        NotStartedYet(s);
      }
      AnswerByHub(s, a);
  }

  lemma {:induction false} AnswerRunKeeps(s: State, run: seq<Step>, t: State)
    requires Inv(s) && AnswerInv(s) && Execute(s, run) == Some(t)
    ensures AnswerInv(t)
    decreases |run|
  {
    if run != [] {
      StepKeeps(s, run[0]);
      AnswerStep(s, run[0]);
      AnswerRunKeeps(Do(s, run[0]), run[1..], t);
    }
  }

  lemma ReachableAnswer(id: u16, run: seq<Step>, s: State)
    requires Reaches(id, run, s)
    ensures Inv(s) && AnswerInv(s)
  {
    ReachableInv(id, [], Fresh(id));
    ReachableInv(id, run, s);
    AnswerRunKeeps(Fresh(id), run, s);
  }

  // ---- What is still to come ----------------------------------------------------------

  /** Do these frames make up the rest of a proper answer: a head if there was none,
      then data, then a clean END? */
  predicate Brings(headed: bool, frames: seq<Frame>)
    decreases |frames|
  {
    frames != [] &&
      match frames[0]
      case RespHead(_, _) => !headed && Brings(true, frames[1..])
      case Data(_, _) => headed && Brings(true, frames[1..])
      case End(_, reason) => headed && reason == []
      case _ => false
  }

  lemma BringsNext(headed: bool, f: Frame, rest: seq<Frame>)
    ensures f.RespHead? ==> Brings(headed, [f] + rest) == (!headed && Brings(true, rest))
    ensures f.Data? ==> Brings(headed, [f] + rest) == (headed && Brings(true, rest))
  {
    assert ([f] + rest)[1..] == rest;
  }

  lemma {:induction false} BringsData(frames: seq<Frame>, rest: seq<Frame>)
    requires forall i :: 0 <= i < |frames| ==> frames[i].Data?
    ensures Brings(true, frames + rest) == Brings(true, rest)
  {
    if frames == [] {
      assert frames + rest == rest;
    } else {
      BringsData(frames[1..], rest);
      assert frames + rest == [frames[0]] + (frames[1..] + rest);
      BringsNext(true, frames[0], frames[1..] + rest);
    }
  }

  lemma {:induction false} DataFramesAreData(id: u16, chunks: seq<Bytes>)
    ensures forall i :: 0 <= i < |DataFrames(id, chunks)| ==> DataFrames(id, chunks)[i].Data?
  {
    if chunks != [] {
      DataFramesAreData(id, chunks[1..]);
    }
  }

  /** A pump that relays a proper answer, or is about to, brings it. */
  lemma PumpBrings(id: u16, p: Pump)
    requires p.answer.headed && p.answer.ok && p.read <= |p.answer.chunks|
    ensures p.phase == Relaying ==> Brings(true, PumpLeft(id, p))
    ensures p.phase == Connecting ==> Brings(false, PumpLeft(id, p))
  {
    var data := DataFrames(id, p.answer.chunks[p.read..]);
    DataFramesAreData(id, p.answer.chunks[p.read..]);
    BringsData(data, [End(id, [])]);
    BringsNext(false, RespHead(id, p.answer.head), data + [End(id, [])]);
  }

  // ---- Getting it to the caller ----------------------------------------------------------

  /** The caller is there and polls a body that has not ended. */
  predicate Polling(s: State) {
    && CallerActive(s) && s.client.at != Ended && s.client.at != NoAnswer
    && s.cell.rx == Receiving && Error !in s.client.trace
  }

  /** The rest of a proper answer is in hand or still to come, or the loop is about to
      complete the stream. */
  predicate Expecting(s: State)
    requires InOrder(s.links)
  {
    && Polling(s)
    && match s.hub.loop
       case Idle => StillOpen(s) && Brings(s.cell.head.Some?, Ahead(s))
       case Holding(f, target) => target && StillOpen(s) && Brings(s.cell.head.Some?, [f] + Ahead(s))
       case Finishing(_, verdict, _) => verdict == Complete && s.cell.head.Some? && s.client.at != HeadMissing
       case Removing(_) => false
       case Notifying => false
  }

  /** In the map and not decided. */
  predicate StillOpen(s: State) {
    s.cell.inMap && !s.cell.completed && s.cell.outcome == Undecided
  }

  /** The next step on the way of the answer. */
  function Aid(s: State): Step
    requires InOrder(s.links) && s.client.at != Ended && s.client.at != NoAnswer
  {
    match s.hub.loop
    case Finishing(_, _, _) => ByLoop(LoopFinish)
    case Holding(f, _) =>
      if f.RespHead? then ByLoop(HandleHead(true))
      else if f.Data? then
        if |s.cell.queue| >= RESPONSE_CAPACITY then ByCaller(NextLook(s.client.at)) else ByLoop(HandleData)
      else if s.client.at == HeadMissing then ByCaller(ReadCompleted)
      else ByLoop(HandleEnd)
    case _ => Fetch(s)
  }

  /** Steps of the answer, at most, and of the caller until it next takes a chunk. */
  function AnswerToGo(s: State): nat
    requires InOrder(s.links)
  {
    8 * PumpToGo(s) + 5 * (|s.links.up| - s.links.upSeen) + (|s.links.up| - s.links.upWritten) + LoopToGo(s.hub.loop)
  }

  function PollsToGo(s: State): nat {
    3 * |s.cell.queue| + match s.client.at
      case HeadMissing => 4
      case Waiting => 3
      case Streaming => 2
      case NotFailed => 1
      case _ => 0
  }

  /** Still to come, and closer. */
  predicate Sooner(s: State, t: State)
    requires InOrder(s.links)
  {
    && InOrder(t.links) && Expecting(t)
    && (AnswerToGo(t) < AnswerToGo(s) || (AnswerToGo(t) == AnswerToGo(s) && PollsToGo(t) < PollsToGo(s)))
  }

  /** Complete, with a caller that will see it. */
  predicate Arrived(s: State) {
    && s.cell.outcome == Complete && s.cell.completed && s.cell.head.Some? && s.client.at != HeadMissing
    && CallerActive(s) && s.client.at != Ended && s.client.at != NoAnswer && Error !in s.client.trace
  }

  predicate Awaits(s: State) {
    InOrder(s.links) && Expecting(s)
  }

  lemma AidFinish(s: State)
    requires Awaits(s) && s.hub.loop.Finishing? && LoopTold(s.cell, s.hub.loop)
    ensures LoopCan(s, LoopFinish)
    ensures var t := LoopDoes(s, LoopFinish); Arrived(t) || Sooner(s, t)
  {
  }

  lemma AidHead(s: State)
    requires Awaits(s) && s.hub.loop.Holding? && s.hub.loop.frame.RespHead?
    ensures LoopCan(s, HandleHead(true)) && Sooner(s, LoopDoes(s, HandleHead(true)))
  {
    AfterHead(s, true);
    BringsNext(s.cell.head.Some?, s.hub.loop.frame, Ahead(s));
  }

  lemma AidData(s: State)
    requires Awaits(s) && s.hub.loop.Holding? && s.hub.loop.frame.Data? && |s.cell.queue| < RESPONSE_CAPACITY
    ensures LoopCan(s, HandleData) && Sooner(s, LoopDoes(s, HandleData))
  {
    AfterData(s);
    BringsNext(s.cell.head.Some?, s.hub.loop.frame, Ahead(s));
  }

  lemma AidEnd(s: State)
    requires Awaits(s) && s.hub.loop.Holding? && s.hub.loop.frame.End? && s.client.at != HeadMissing
    ensures LoopCan(s, HandleEnd) && Sooner(s, LoopDoes(s, HandleEnd))
  {
  }

  /** The caller makes room in the channel, or looks again for the head. */
  lemma AidPoll(s: State)
    requires Awaits(s) && s.hub.loop.Holding? && Aid(s).ByCaller?
    ensures CallerCan(s, Aid(s).caller) && Sooner(s, CallerDoes(s, Aid(s).caller))
  {
    var t := CallerDoes(s, Aid(s).caller);
    CallerFrame(s, Aid(s).caller);
    assert Ahead(t) == Ahead(s);
  }

  lemma AidTake(s: State)
    requires Awaits(s) && s.hub.loop.Idle? && s.links.upSeen < s.links.upWritten
    ensures LoopCan(s, Take) && Sooner(s, LoopDoes(s, Take))
  {
    AheadTakes(s);
  }

  lemma AidWrite(s: State, a: WireStep)
    requires Awaits(s) && s.hub.loop.Idle? && WireCan(s, a) && AnswerToGo(WireDoes(s, a)) < AnswerToGo(s)
    ensures Sooner(s, WireDoes(s, a))
  {
    var t := WireDoes(s, a);
    assert MayOpen(t) == MayOpen(s);
    assert Ahead(t) == Ahead(s);
  }

  /** The loop waits, and everything sent has been taken. */
  predicate Idles(s: State) {
    Awaits(s) && s.hub.loop.Idle? && s.links.upSeen == |s.links.up|
  }

  lemma AidOpen(s: State)
    requires Opening(s) && Idles(s) && s.tether.pump == None && s.links.downWritten > 0
    ensures var a := TetherOpen(Answer(true, [], [], true), false);
      TetherCan(s, a) && Sooner(s, TetherDoes(s, a))
  {
    assert s.links.up[s.links.upSeen..] == [];
    assert MayOpen(s);
    var t := TetherDoes(s, TetherOpen(Answer(true, [], [], true), false));
    assert Coming(t) == [RespHead(s.id, []), End(s.id, [])];
    assert Ahead(t) == Ahead(s);
  }

  lemma AidAsk(s: State)
    requires Opening(s) && Idles(s) && s.tether.pump == None
    ensures Enabled(s, Aid(s)) && Sooner(s, Do(s, Aid(s)))
  {
    assert s.links.up[s.links.upSeen..] == [] && MayOpen(s);
    if s.links.downWritten == 0 {
      AidWrite(s, HubWrites);
    } else {
      AidOpen(s);
    }
  }

  lemma AidSends(s: State, a: PumpStep)
    requires Idles(s) && s.tether.pump.Some? && s.tether.pump.value.read <= |s.tether.pump.value.answer.chunks|
    requires PumpCan(s, a) && (a.PumpHead? || a.PumpChunk? || a.PumpEnd?)
    requires InOrder(PumpDoes(s, a).links) && Ahead(PumpDoes(s, a)) == Ahead(s)
    ensures Sooner(s, PumpDoes(s, a))
  {
  }

  lemma AidPump(s: State)
    requires ResponseInv(s) && Idles(s) && s.tether.pump.Some?
    ensures Enabled(s, Aid(s)) && Sooner(s, Do(s, Aid(s)))
  {
    assert s.links.up[s.links.upSeen..] == [];
    assert Coming(s) != [];
    var p := s.tether.pump.value;
    if p.phase == Connecting {
      assert p.answer.headed;
      AheadHead(s);
      AidSends(s, PumpHead);
    } else if p.read < |p.answer.chunks| {
      AheadChunk(s);
      AidSends(s, PumpChunk);
    } else {
      AheadEnd(s);
      AidSends(s, PumpEnd);
    }
  }

  lemma AidLink(s: State)
    requires Awaits(s) && s.hub.loop.Idle? && s.links.upSeen < |s.links.up|
    ensures Enabled(s, Aid(s)) && Sooner(s, Do(s, Aid(s)))
  {
    if s.links.upSeen < s.links.upWritten {
      AidTake(s);
    } else {
      AidWrite(s, TetherWrites);
    }
  }

  lemma AidIdle(s: State)
    requires ResponseInv(s) && Awaits(s) && s.hub.loop.Idle?
    ensures Enabled(s, Aid(s)) && Sooner(s, Do(s, Aid(s)))
  {
    if s.links.upSeen < |s.links.up| {
      AidLink(s);
    } else if s.tether.pump == None {
      AidAsk(s);
    } else {
      AidPump(s);
    }
  }

  lemma AidHold(s: State)
    requires Awaits(s) && s.hub.loop.Holding?
    ensures Enabled(s, Aid(s)) && Sooner(s, Do(s, Aid(s)))
  {
    if Aid(s).ByCaller? {
      AidPoll(s);
    } else if s.hub.loop.frame.RespHead? {
      AidHead(s);
    } else if s.hub.loop.frame.Data? {
      AidData(s);
    } else {
      AidEnd(s);
    }
  }

  lemma AidStep(s: State)
    requires ResponseInv(s) && Awaits(s) && LoopTold(s.cell, s.hub.loop)
    ensures Enabled(s, Aid(s)) && (Arrived(Do(s, Aid(s))) || Sooner(s, Do(s, Aid(s))))
  {
    match s.hub.loop
    case Finishing(_, _, _) => AidFinish(s);
    case Holding(_, _) => AidHold(s);
    case Idle => AidIdle(s);
    case _ =>
  }

  lemma {:induction false} Arrives(s: State) returns (more: seq<Step>, t: State)
    requires Inv(s) && Awaits(s)
    ensures Execute(s, more) == Some(t) && Inv(t) && Arrived(t)
    decreases AnswerToGo(s), PollsToGo(s)
  {
    var a := Aid(s);
    AidStep(s);
    StepKeeps(s, a);
    OneStep(s, a);
    more, t := [a], Do(s, a);
    if !Arrived(t) {
      var u, rest := t, [];
      rest, t := Arrives(u);
      ExecuteTwice(s, [a], u, rest);
      more := [a] + rest;
    }
  }

  lemma ArrivedLooks(s: State)
    requires Inv(s) && Arrived(s)
    ensures Looking(s)
  {
  }

  /** The caller sees a complete stream through to its end. */
  lemma SeesItThrough(s: State) returns (more: seq<Step>, t: State)
    requires Inv(s) && Arrived(s)
    ensures Execute(s, more) == Some(t) && EndsCleanly(t.client.trace)
  {
    ArrivedLooks(s);
    more, t := LooksOn(s);
    assert t.client.trace[|t.client.trace| - 1] == Eof;
  }

  // ---- A healthy stream -------------------------------------------------------------------

  /** The stream is in the map and not over, the loops are there, the caller polls, and
      the engine answers properly, or has not been asked; nobody has ended the stream. */
  ghost predicate Served(s: State) {
    && CallerActive(s) && s.client.at != Ended && s.client.at != NoAnswer && s.cell.rx == Receiving
    && s.cell.inMap && !s.cell.completed && (s.hub.loop.Idle? || s.hub.loop.Holding?)
    && !s.session.loopGone && !s.session.tetherGone && !EndIn(s.links.up)
    && (Answering(s.tether.pump) || MayOpen(s))
  }

  predicate Answering(pump: Option<Pump>) {
    && pump.Some? && pump.value.answer.headed && pump.value.answer.ok
    && (pump.value.phase == Connecting || pump.value.phase == Relaying)
  }

  /** What is left on the link, with the frame in hand. */
  lemma Unhandled(s: State)
    requires InOrder(s.links) && InHand(s.hub.loop, s.links) && (s.hub.loop.Idle? || s.hub.loop.Holding?)
    requires !s.session.loopGone && !s.session.tetherGone
    ensures var k := |Handled(s.links, s.hub.loop)|;
      && Handled(s.links, s.hub.loop) == s.links.up[..k]
      && (s.hub.loop.Idle? ==> Ahead(s) == s.links.up[k..] + Coming(s))
      && (s.hub.loop.Holding? ==> [s.hub.loop.frame] + Ahead(s) == s.links.up[k..] + Coming(s))
  {
    if s.hub.loop.Holding? {
      var n := s.links.upSeen;
      assert s.links.up[n - 1..] == [s.links.up[n - 1]] + s.links.up[n..];
      Assoc([s.links.up[n - 1]], s.links.up[n..], Coming(s));
    }
  }

  /** Behind the head there is only data. */
  lemma DataBehindHead(up: seq<Frame>, pump: Option<Pump>, k: nat)
    requires HeadFirst(up, pump) && !EndIn(up) && k <= |up| && HeadIn(up[..k])
    requires forall i :: 0 <= i < |up| ==> up[i].End? || up[i].Data? || up[i].RespHead?
    ensures forall i :: 0 <= i < |up[k..]| ==> up[k..][i].Data?
  {
    var h :| 0 <= h < k && up[..k][h].RespHead?;
    forall i | 0 <= i < |up[k..]| ensures up[k..][i].Data? {
      var f := up[k + i];
      assert up[h].RespHead? && !f.End?;
    }
  }

  /** Without an END the head comes first. */
  lemma HeadIsFront(up: seq<Frame>, pump: Option<Pump>)
    requires HeadFirst(up, pump) && !EndIn(up) && HeadIn(up)
    ensures up[0].RespHead?
  {
    EndFound(up, 0);
    var h :| 0 <= h < |up| && up[h].RespHead?;
  }

  lemma EndFound(up: seq<Frame>, i: nat)
    ensures i < |up| && up[i].End? ==> EndIn(up)
  {
  }

  lemma OnlyAnswerFrames(up: seq<Frame>, pump: Option<Pump>)
    requires Emission(up, pump)
    ensures forall i :: 0 <= i < |up| ==> up[i].End? || up[i].Data? || up[i].RespHead?
  {
    if pump.Some? {
      forall i | 0 <= i < |up| ensures up[i].End? || up[i].Data? || up[i].RespHead? {
        assert Fits(up[i], DataOf(up[..i]), pump.value.answer);
      }
    }
  }

  /** The link and the pump together bring the rest of a proper answer. */
  lemma RestBrings(id: u16, up: seq<Frame>, p: Pump, k: nat, headed: bool)
    requires HeadFirst(up, Some(p)) && !EndIn(up) && Emission(up, Some(p)) && Answering(Some(p)) && k <= |up|
    requires headed <==> HeadIn(up[..k])
    ensures Brings(headed, up[k..] + PumpLeft(id, p))
  {
    PumpBrings(id, p);
    OnlyAnswerFrames(up, Some(p));
    if headed {
      DataBehindHead(up, Some(p), k);
      HeadIsThere(up, k);
      BringsData(up[k..], PumpLeft(id, p));
    } else if up == [] {
      assert up[k..] + PumpLeft(id, p) == PumpLeft(id, p);
    } else {
      assert !up[0].End?;
      HeadIsFront(up, Some(p));
      NotBefore(up, k);
      HeadAtFront(up);
      DataBehindHead(up, Some(p), 1);
      BringsData(up[1..], PumpLeft(id, p));
      assert up[k..] + PumpLeft(id, p) == [up[0]] + (up[1..] + PumpLeft(id, p));
      BringsNext(false, up[0], up[1..] + PumpLeft(id, p));
    }
  }

  lemma NotBefore(up: seq<Frame>, k: nat)
    requires k <= |up| && up != [] && up[0].RespHead? && !HeadIn(up[..k])
    ensures k == 0
  {
    if k > 0 {
      HeadAtFront(up[..k]);
    }
  }

  lemma HeadAtFront(up: seq<Frame>)
    ensures up != [] && up[0].RespHead? ==> HeadIn(up) && HeadIn(up[..1])
  {
    assert up != [] ==> up[..1][0] == up[0];
  }

  lemma HeadIsThere(up: seq<Frame>, k: nat)
    requires k <= |up| && HeadIn(up[..k])
    ensures HeadIn(up)
  {
    var h :| 0 <= h < k && up[..k][h].RespHead?;
    assert up[h].RespHead?;
  }

  lemma ServedBrings(s: State)
    requires Inv(s) && AnswerInv(s) && Served(s)
    ensures var k := |Handled(s.links, s.hub.loop)|;
      k <= |s.links.up| && Brings(s.cell.head.Some?, s.links.up[k..] + Coming(s))
  {
    var k := |Handled(s.links, s.hub.loop)|;
    Unhandled(s);
    if s.tether.pump.Some? {
      RestBrings(s.id, s.links.up, s.tether.pump.value, k, s.cell.head.Some?);
    } else {
      EndFound(s.links.up, 0);
      assert s.links.up[k..] + Coming(s) == [RespHead(s.id, [])] + [End(s.id, [])];
      BringsNext(false, RespHead(s.id, []), [End(s.id, [])]);
    }
  }

  lemma ServedAwaits(s: State)
    requires Inv(s) && AnswerInv(s) && Served(s)
    ensures Awaits(s)
  {
    ServedBrings(s);
    Unhandled(s);
  }

  /** As long as the stream is in the map and not over, the loops and the caller are
      there and nobody has ended it, the caller can still get the whole of an answer
      that ends properly, and its end. */
  lemma CallerGetsTheAnswer(id: u16, run: seq<Step>, s: State) returns (more: seq<Step>, t: State)
    requires Reaches(id, run, s) && Served(s)
    ensures Execute(s, more) == Some(t) && EndsCleanly(t.client.trace)
    ensures t.tether.pump.Some? && ChunksOf(t.client.trace) == NonEmpty(t.tether.pump.value.answer.chunks)
    ensures s.tether.pump.Some? ==> t.tether.pump.value.answer == s.tether.pump.value.answer
  {
    ReachableAnswer(id, run, s);
    ServedAwaits(s);
    var first, u := Arrives(s);
    var second;
    second, t := SeesItThrough(u);
    ExecuteTwice(s, first, u, second);
    more := first + second;
    ExecuteTwice(Fresh(id), run, s, more);
    NoFabricatedSuccess(id, run + more, t);
    KeptInRun(s, more, t);
  }
}
