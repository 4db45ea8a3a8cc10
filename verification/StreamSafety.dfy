/** What every step of a stream keeps about its response: nothing is lost,
    invented or cut short without an error. */
module StreamSafety {
  import opened Prelude
  import opened Frames
  import opened Stream

  // ---- Order of the first steps ---------------------------------------------

  /** OPEN is the first frame to the tether and is sent once. */
  ghost predicate OpenFirst(down: seq<Frame>) {
    && (down != [] ==> down[0].Open?)
    && (forall i :: 0 < i < |down| ==> down[i].Data? || down[i].HalfEnd? || down[i].End?)
  }

  predicate Sequenced(h: Hub, k: Client, inMap: bool, nothingSent: bool, writerGone: bool) {
    && (h.starter == NotStarted || h.starter == Admitted ==> nothingSent)
    && (nothingSent ==> h.starter == NotStarted || h.starter == Admitted || writerGone)
    && (h.starter == NotStarted ==> !inMap && h.closer == NoCloser)
    && (h.upload != NoUpload ==> h.starter == Spawned || h.starter == Returned)
    && (h.starter != Returned ==> k.guard == Held && k.at == Waiting)
  }

  predicate Counted(l: Links, t: Tether, loop: Loop) {
    && l.downSeen <= l.downWritten <= |l.down|
    && l.upSeen <= l.upWritten <= |l.up|
    && (t.pump.Some? || t.handle || l.up != [] ==> l.downSeen > 0)
    && (loop != Idle ==> l.upSeen > 0)
  }

  ghost predicate Opening(s: State) {
    && OpenFirst(s.links.down)
    && Sequenced(s.hub, s.client, s.cell.inMap, s.links.down == [], s.session.writerGone)
    && Counted(s.links, s.tether, s.hub.loop)
  }

  // ---- The tether's side of the log -----------------------------------------

  predicate CleanEnd(f: Frame) {
    f.End? && f.reason == []
  }

  /** A frame that an answer may put on the link after the payloads `before`. */
  predicate Fits(f: Frame, before: seq<Bytes>, a: Answer) {
    && (f.End? || f.Data? || f.RespHead?)
    && (f.RespHead? ==> a.headed && f.head == a.head)
    && (CleanEnd(f) ==> a.headed && a.ok && before == NonEmpty(a.chunks))
  }

  ghost predicate AllFit(up: seq<Frame>, a: Answer) {
    forall i :: 0 <= i < |up| ==> Fits(up[i], DataOf(up[..i]), a)
  }

  /** What a pump has relayed, next to END frames of the tether's session loop. */
  ghost predicate Relayed(up: seq<Frame>, p: Pump) {
    && p.read <= |p.answer.chunks|
    && DataOf(up) == NonEmpty(p.answer.chunks[..p.read])
    && AllFit(up, p.answer)
  }

  ghost predicate Emission(up: seq<Frame>, pump: Option<Pump>) {
    match pump
    case None => forall i :: 0 <= i < |up| ==> up[i].End? && up[i].reason != []
    case Some(p) => Relayed(up, p)
  }

  // ---- The hub's side of the log --------------------------------------------

  /** Every byte of a properly ended engine answer entered the channel. */
  ghost predicate AllAccepted(accepted: seq<Bytes>, pump: Option<Pump>) {
    && pump.Some?
    && pump.value.answer.headed && pump.value.answer.ok
    && accepted == NonEmpty(pump.value.answer.chunks)
  }

  ghost predicate Reception(c: Cell, loop: Loop, up: seq<Frame>, upSeen: nat, pump: Option<Pump>)
    requires upSeen <= |up|
  {
    && c.accepted <= DataOf(up[..upSeen])
    && (loop.Idle? && c.inMap ==> c.accepted == DataOf(up[..upSeen]))
    && (loop.Holding? ==>
          && upSeen > 0 && loop.frame == up[upSeen - 1]
          && c.accepted <= DataOf(up[..upSeen - 1])
          && (c.inMap ==> loop.target)
          && (loop.target ==> c.accepted == DataOf(up[..upSeen - 1])))
    && (loop.Notifying? ==> !c.inMap)
    && (loop.Finishing? ==> loop.verdict != Undecided)
    && (loop.Finishing? && loop.verdict == Complete ==> AllAccepted(c.accepted, pump))
    && (c.outcome == Complete ==> AllAccepted(c.accepted, pump))
    && (c.head.Some? ==> pump.Some? && pump.value.answer.headed && c.head.value == pump.value.answer.head)
  }

  // ---- The caller's side ------------------------------------------------------

  /** Chunks, then one error or end, then only ends. */
  predicate WellFormed(trace: seq<Item>) {
    forall i, j :: 0 <= i < j < |trace| && !trace[i].Chunk? ==> trace[j] == Eof
  }

  predicate AllChunks(trace: seq<Item>) {
    forall i :: 0 <= i < |trace| ==> trace[i].Chunk?
  }

  ghost predicate Delivery(c: Cell, k: Client, pump: Option<Pump>) {
    && WellFormed(k.trace)
    && ChunksOf(k.trace) <= c.accepted
    && (c.rx != Dropped ==> ChunksOf(k.trace) + c.queue == c.accepted)
    && (c.rx == Draining ==> AllAccepted(c.accepted, pump))
    && (k.at != Ended ==> AllChunks(k.trace))
    && (k.at == Ended ==> !AllChunks(k.trace) && c.rx == Dropped)
    && (k.at == Ended && Error !in k.trace ==> AllAccepted(ChunksOf(k.trace), pump))
    && (k.guard == Held && k.at != Ended ==> c.rx != Dropped)
    && (k.at == Streaming || k.at == NotFailed || k.at == CompletionRead || k.at == Ended ==> c.head.Some?)
    && (k.trace != [] ==> c.head.Some?)
  }

  ghost predicate ResponseInv(s: State) {
    && Opening(s)
    && Emission(s.links.up, s.tether.pump)
    && Reception(s.cell, s.hub.loop, s.links.up, s.links.upSeen, s.tether.pump)
    && Delivery(s.cell, s.client, s.tether.pump)
  }

  // ---- Growing the log ------------------------------------------------------

  lemma OpenFirstGrows(down: seq<Frame>, f: Frame)
    requires OpenFirst(down)
    requires if down == [] then f.Open? else f.Data? || f.HalfEnd? || f.End?
    ensures OpenFirst(down + [f])
  {
  }

  lemma AllFitGrows(up: seq<Frame>, f: Frame, a: Answer)
    requires AllFit(up, a) && Fits(f, DataOf(up), a)
    ensures AllFit(up + [f], a)
  {
    var all := up + [f];
    forall i | 0 <= i < |all| ensures Fits(all[i], DataOf(all[..i]), a) {
      if i < |up| {
        assert all[..i] == up[..i];
      } else {
        assert all[..i] == up;
      }
    }
  }

  /** The tether's session loop may add an END with a reason at any time. */
  lemma EmissionEnd(up: seq<Frame>, pump: Option<Pump>, f: Frame)
    requires Emission(up, pump) && f.End? && f.reason != []
    ensures Emission(up + [f], pump)
  {
    LogGrows(up, f);
    if pump.Some? {
      AllFitGrows(up, f, pump.value.answer);
    }
  }

  lemma RelayedData(up: seq<Frame>, p: Pump, f: Frame)
    requires Relayed(up, p) && p.read < |p.answer.chunks|
    requires f.Data? && f.bytes == p.answer.chunks[p.read] && f.bytes != []
    ensures Relayed(up + [f], p.(read := p.read + 1))
  {
    LogGrows(up, f);
    NextNonEmpty(p.answer.chunks, p.read);
    AllFitGrows(up, f, p.answer);
  }

  lemma RelayedOther(up: seq<Frame>, p: Pump, phase: Phase, f: Frame)
    requires Relayed(up, p) && (f.RespHead? || f.End?)
    requires f.RespHead? ==> p.answer.headed && f.head == p.answer.head
    requires CleanEnd(f) ==> p.answer.headed && p.answer.ok && p.read == |p.answer.chunks|
    ensures Relayed(up + [f], p.(phase := phase))
  {
    LogGrows(up, f);
    assert p.read == |p.answer.chunks| ==> p.answer.chunks[..p.read] == p.answer.chunks;
    AllFitGrows(up, f, p.answer);
  }

  lemma RelayedSkips(up: seq<Frame>, p: Pump)
    requires Relayed(up, p) && p.read < |p.answer.chunks| && p.answer.chunks[p.read] == []
    ensures Relayed(up, p.(read := p.read + 1))
  {
    NextNonEmpty(p.answer.chunks, p.read);
  }

  /** What the loop has accepted is not touched by frames still to be taken. */
  lemma ReceptionGrows(c: Cell, loop: Loop, up: seq<Frame>, upSeen: nat, pump: Option<Pump>, f: Frame)
    requires upSeen <= |up| && Reception(c, loop, up, upSeen, pump)
    ensures Reception(c, loop, up + [f], upSeen, pump)
  {
    assert (up + [f])[..upSeen] == up[..upSeen];
    if upSeen > 0 {
      assert (up + [f])[..upSeen - 1] == up[..upSeen - 1];
    }
  }

  lemma ReceptionTakes(c: Cell, up: seq<Frame>, upSeen: nat, pump: Option<Pump>)
    requires upSeen < |up| && Reception(c, Idle, up, upSeen, pump)
    ensures Reception(c, Holding(up[upSeen], c.inMap), up, upSeen + 1, pump)
  {
    NextOf(up, upSeen);
  }

  /** Accepting the frame in hand keeps the channel equal to the log taken. */
  lemma ReceptionAccepts(c: Cell, loop: Loop, up: seq<Frame>, upSeen: nat, pump: Option<Pump>)
    requires upSeen <= |up| && Reception(c, loop, up, upSeen, pump) && Emission(up, pump)
    requires loop.Holding? && loop.frame.Data? && loop.target
    ensures var b := loop.frame.bytes;
      Reception(c.(queue := c.queue + [b], accepted := c.accepted + [b]), Idle, up, upSeen, pump)
  {
    NextOf(up, upSeen - 1);
    SeenIsEngine(up, upSeen, pump);
  }

  /** Accepted chunks never exceed what the engine answered. */
  lemma SeenIsEngine(up: seq<Frame>, upSeen: nat, pump: Option<Pump>)
    requires upSeen <= |up| && Emission(up, pump)
    ensures pump.Some? ==> DataOf(up[..upSeen]) <= NonEmpty(pump.value.answer.chunks)
    ensures pump.None? ==> DataOf(up[..upSeen]) == []
  {
    DataPrefix(up, upSeen);
    if pump.Some? {
      NonEmptyPrefix(pump.value.answer.chunks, pump.value.read);
    } else {
      NoData(up);
    }
  }

  lemma {:induction false} NoData(up: seq<Frame>)
    requires forall i :: 0 <= i < |up| ==> up[i].End?
    ensures DataOf(up) == []
  {
    if up != [] {
      NoData(up[..|up| - 1]);
    }
  }

  /** An END in hand decides on the whole answer. */
  lemma ReceptionEnds(c: Cell, loop: Loop, up: seq<Frame>, upSeen: nat, pump: Option<Pump>)
    requires upSeen <= |up| && Reception(c, loop, up, upSeen, pump) && Emission(up, pump)
    requires loop.Holding? && loop.frame.End? && loop.target
    ensures var verdict := if loop.frame.reason == [] then Complete else Failed;
      Reception(c, Finishing(Store, verdict, false), up, upSeen, pump)
  {
    NextOf(up, upSeen - 1);
  }

  lemma ReceptionOther(c: Cell, loop: Loop, up: seq<Frame>, upSeen: nat, pump: Option<Pump>)
    requires upSeen <= |up| && Reception(c, loop, up, upSeen, pump) && loop.Holding?
    ensures Reception(c, Finishing(Store, Failed, true), up, upSeen, pump)
    ensures loop.frame.RespHead? || loop.frame.End? ==> Reception(c.(inMap := false), Idle, up, upSeen, pump)
    ensures loop.frame.RespHead? ==> Reception(c, Idle, up, upSeen, pump)
    ensures !loop.target ==> Reception(c, Idle, up, upSeen, pump) && Reception(c, Removing(true), up, upSeen, pump)
  {
    NextOf(up, upSeen - 1);
  }

  lemma ReceptionFinishes(c: Cell, loop: Loop, up: seq<Frame>, upSeen: nat, pump: Option<Pump>)
    requires upSeen <= |up| && Reception(c, loop, up, upSeen, pump) && loop.Finishing?
    ensures Reception(FinishCell(c, loop.fin, loop.verdict),
      if loop.fin == Publish then Removing(loop.notify)
      else Finishing(NextFin(loop.fin), loop.verdict, loop.notify), up, upSeen, pump)
  {
  }

  // ---- Each actor -----------------------------------------------------------

  lemma OpeningStarter(s: State, a: StarterStep)
    requires Opening(s) && StarterCan(s, a)
    ensures Opening(StarterDoes(s, a))
  {
    if a.SendOpen? {
      OpenFirstGrows(s.links.down, Open(s.id, a.head));
    }
  }

  lemma OpeningUpload(s: State, a: UploadStep)
    requires Opening(s) && UploadCan(s, a)
    ensures Opening(UploadDoes(s, a))
  {
    if s.links.down != [] {
      if s.hub.upload.Sending? && s.hub.upload.sent < |s.hub.body.chunks| {
        OpenFirstGrows(s.links.down, Data(s.id, s.hub.body.chunks[s.hub.upload.sent]));
      }
      OpenFirstGrows(s.links.down, HalfEnd(s.id));
      OpenFirstGrows(s.links.down, End(s.id, REASON));
    }
  }

  lemma OpeningLoop(s: State, a: LoopStep)
    requires Opening(s) && LoopCan(s, a)
    ensures Opening(LoopDoes(s, a))
  {
    if s.hub.loop == Notifying && s.links.down != [] {
      OpenFirstGrows(s.links.down, End(s.id, REASON));
    }
  }

  lemma OpeningSession(s: State, a: SessionStep)
    requires Opening(s) && SessionCan(s, a)
    ensures Opening(SessionDoes(s, a))
  {
  }

  lemma OpeningCaller(s: State, a: CallerStep)
    requires Opening(s) && CallerCan(s, a)
    ensures Opening(CallerDoes(s, a))
  {
  }

  lemma OpeningGuard(s: State, a: GuardStep)
    requires Opening(s) && GuardCan(s, a)
    ensures Opening(GuardDoes(s, a))
  {
    if s.links.down != [] {
      OpenFirstGrows(s.links.down, End(s.id, []));
    }
  }

  lemma OpeningTether(s: State, a: TetherStep)
    requires Opening(s) && TetherCan(s, a)
    ensures Opening(TetherDoes(s, a))
  {
  }

  lemma OpeningPump(s: State, a: PumpStep)
    requires Opening(s) && PumpCan(s, a)
    ensures Opening(PumpDoes(s, a))
  {
  }

  /** The engine's answer is fixed once the pump exists, and OPEN starts only one. */
  lemma EmissionTether(s: State, a: TetherStep)
    requires Opening(s) && Emission(s.links.up, s.tether.pump) && TetherCan(s, a)
    ensures var t := TetherDoes(s, a); Emission(t.links.up, t.tether.pump)
  {
    EmissionEnd(s.links.up, s.tether.pump, End(s.id, REASON));
  }

  lemma EmissionPump(s: State, a: PumpStep)
    requires Emission(s.links.up, s.tether.pump) && PumpCan(s, a)
    ensures var t := PumpDoes(s, a); Emission(t.links.up, t.tether.pump)
  {
    var p := s.tether.pump.value;
    match a
    case PumpHead => RelayedOther(s.links.up, p, Relaying, RespHead(s.id, p.answer.head));
    case PumpChunk =>
      if p.answer.chunks[p.read] == [] {
        RelayedSkips(s.links.up, p);
      } else {
        RelayedData(s.links.up, p, Data(s.id, p.answer.chunks[p.read]));
      }
    case PumpEnd =>
      RelayedOther(s.links.up, p, EndSent, End(s.id, if p.answer.headed && p.answer.ok then [] else REASON));
    case _ =>
  }

  lemma ReceptionLoop(s: State, a: LoopStep)
    requires ResponseInv(s) && LoopCan(s, a)
    ensures var t := LoopDoes(s, a); Reception(t.cell, t.hub.loop, t.links.up, t.links.upSeen, t.tether.pump)
  {
    var c, loop, up, upSeen, pump := s.cell, s.hub.loop, s.links.up, s.links.upSeen, s.tether.pump;
    match a
    case Take => ReceptionTakes(c, up, upSeen, pump);
    case HandleHead(_) => ReceptionOther(c, loop, up, upSeen, pump);
    case HandleData =>
      if loop.target {
        ReceptionAccepts(c, loop, up, upSeen, pump);
      }
      ReceptionOther(c, loop, up, upSeen, pump);
    case HandleEnd =>
      if loop.target {
        ReceptionEnds(c, loop, up, upSeen, pump);
      } else {
        ReceptionOther(c, loop, up, upSeen, pump);
      }
    case LoopFinish => ReceptionFinishes(c, loop, up, upSeen, pump);
    case LoopRemove =>
    case LoopNotify(_) =>
  }

  /** Steps that leave the channel's history, the verdict or the map entry alone,
      or only withdraw them, cannot disturb the reception. */
  lemma ReceptionKept(c: Cell, d: Cell, loop: Loop, up: seq<Frame>, upSeen: nat, pump: Option<Pump>)
    requires upSeen <= |up| && Reception(c, loop, up, upSeen, pump)
    requires d.accepted == c.accepted && d.head == c.head && (d.inMap ==> c.inMap)
    requires d.outcome == c.outcome || d.outcome == Failed
    ensures Reception(d, loop, up, upSeen, pump)
  {
  }

  lemma ReceptionNewPump(c: Cell, loop: Loop, up: seq<Frame>, upSeen: nat, pump: Option<Pump>, next: Pump)
    requires upSeen <= |up| && Reception(c, loop, up, upSeen, pump)
    requires pump.Some? ==> next.answer == pump.value.answer
    ensures Reception(c, loop, up, upSeen, Some(next))
  {
  }

  lemma ReceptionStarter(s: State, a: StarterStep)
    requires ResponseInv(s) && StarterCan(s, a)
    ensures var t := StarterDoes(s, a); Reception(t.cell, t.hub.loop, t.links.up, t.links.upSeen, t.tether.pump)
  {
    if a.Admit? {
      SeenIsEngine(s.links.up, 0, s.tether.pump);
      assert s.links.down == [];
    }
  }

  lemma ReceptionTether(s: State, a: TetherStep)
    requires ResponseInv(s) && TetherCan(s, a)
    ensures var t := TetherDoes(s, a); Reception(t.cell, t.hub.loop, t.links.up, t.links.upSeen, t.tether.pump)
  {
    ReceptionGrows(s.cell, s.hub.loop, s.links.up, s.links.upSeen, s.tether.pump, End(s.id, REASON));
    if a.TetherOpen? {
      ReceptionNewPump(s.cell, s.hub.loop, s.links.up, s.links.upSeen, s.tether.pump, Pump(a.answer, Connecting, 0));
    }
  }

  lemma ReceptionPump(s: State, a: PumpStep)
    requires ResponseInv(s) && PumpCan(s, a)
    ensures var t := PumpDoes(s, a); Reception(t.cell, t.hub.loop, t.links.up, t.links.upSeen, t.tether.pump)
  {
    var t := PumpDoes(s, a);
    var p := s.tether.pump.value;
    ReceptionNewPump(s.cell, s.hub.loop, s.links.up, s.links.upSeen, s.tether.pump, t.tether.pump.value);
    ReceptionGrows(s.cell, s.hub.loop, s.links.up, s.links.upSeen, t.tether.pump, RespHead(s.id, p.answer.head));
    ReceptionGrows(s.cell, s.hub.loop, s.links.up, s.links.upSeen, t.tether.pump,
      End(s.id, if p.answer.headed && p.answer.ok then [] else REASON));
    if a.PumpChunk? {
      var f := Data(s.id, p.answer.chunks[p.read]);
      ReceptionGrows(s.cell, s.hub.loop, s.links.up, s.links.upSeen, t.tether.pump, f);
    }
  }

  lemma DeliveryKept(c: Cell, d: Cell, k: Client, pump: Option<Pump>)
    requires Delivery(c, k, pump)
    requires d.accepted == c.accepted && d.rx == c.rx && d.queue == c.queue && (c.head.Some? ==> d.head == c.head)
    ensures Delivery(d, k, pump)
  {
  }

  lemma DeliveryAccepts(c: Cell, k: Client, pump: Option<Pump>, bytes: Bytes)
    requires Delivery(c, k, pump) && Accepts(c)
    ensures Delivery(c.(queue := c.queue + [bytes], accepted := c.accepted + [bytes]), k, pump)
  {
  }

  predicate LoopAccepts(s: State, a: LoopStep) {
    LoopCan(s, a) && a.HandleData? && s.hub.loop.target && Accepts(s.cell)
  }

  lemma LoopFrame(s: State, a: LoopStep)
    requires LoopCan(s, a)
    ensures var t := LoopDoes(s, a);
      && t.tether == s.tether && t.client == s.client && t.links.up == s.links.up
      && t.links.downSeen == s.links.downSeen && t.hub == s.hub.(loop := t.hub.loop)
      && (t.links.down == s.links.down || t.links.down == s.links.down + [End(s.id, REASON)])
      && (LoopAccepts(s, a) ==>
            var b := s.hub.loop.frame.bytes;
            t.cell == s.cell.(queue := s.cell.queue + [b], accepted := s.cell.accepted + [b]))
      && (!LoopAccepts(s, a) ==>
            && t.cell.accepted == s.cell.accepted && t.cell.rx == s.cell.rx && t.cell.queue == s.cell.queue
            && (s.cell.head.Some? ==> t.cell.head == s.cell.head))
  {
  }

  lemma SessionFrame(s: State, a: SessionStep)
    requires SessionCan(s, a)
    ensures var t := SessionDoes(s, a);
      && t.links == s.links && t.tether == s.tether && t.client == s.client && t.hub.loop == s.hub.loop
      && t.cell.accepted == s.cell.accepted && t.cell.head == s.cell.head && (t.cell.inMap ==> s.cell.inMap)
      && t.cell.rx == s.cell.rx && t.cell.queue == s.cell.queue
      && (t.cell.outcome == s.cell.outcome || t.cell.outcome == Failed)
  {
  }

  lemma CallerFrame(s: State, a: CallerStep)
    requires CallerCan(s, a)
    ensures var t := CallerDoes(s, a);
      && t.links == s.links && t.tether == s.tether && t.hub == s.hub
      && t.cell.accepted == s.cell.accepted && t.cell.head == s.cell.head && t.cell.inMap == s.cell.inMap
      && t.cell.outcome == s.cell.outcome
  {
  }

  lemma GuardFrame(s: State, a: GuardStep)
    requires GuardCan(s, a)
    ensures var t := GuardDoes(s, a);
      && t.links.up == s.links.up && t.links.upSeen == s.links.upSeen
      && t.tether == s.tether && t.hub == s.hub && t.client.trace == s.client.trace && t.client.at == s.client.at
      && t.cell.accepted == s.cell.accepted && t.cell.head == s.cell.head && (t.cell.inMap ==> s.cell.inMap)
      && t.cell.outcome == s.cell.outcome
  {
  }

  lemma DeliveryLoop(s: State, a: LoopStep)
    requires ResponseInv(s) && LoopCan(s, a)
    ensures var t := LoopDoes(s, a); Delivery(t.cell, t.client, t.tether.pump)
  {
    var c, d := s.cell, LoopDoes(s, a).cell;
    LoopFrame(s, a);
    if LoopAccepts(s, a) {
      DeliveryAccepts(c, s.client, s.tether.pump, s.hub.loop.frame.bytes);
    } else {
      DeliveryKept(c, d, s.client, s.tether.pump);
    }
  }

  lemma DeliveryNewPump(c: Cell, k: Client, pump: Option<Pump>, next: Pump)
    requires Delivery(c, k, pump) && (pump.Some? ==> next.answer == pump.value.answer)
    ensures Delivery(c, k, Some(next))
  {
  }

  /** A poll hands out the next chunk, or ends the body. */
  lemma DeliveryYield(c: Cell, k: Client, at: Caller, item: Item, d: Cell, pump: Option<Pump>)
    requires Delivery(c, k, pump) && d.accepted == c.accepted && d.head == c.head && c.head.Some?
    requires item.Chunk? ==>
      && k.at != Ended && at == Streaming && k.guard == Held && d.rx == c.rx
      && c.queue != [] && item.bytes == c.queue[0] && d.queue == c.queue[1..]
    requires item == Error ==> k.at != Ended
    requires !item.Chunk? ==> at == Ended && d.rx == Dropped
    requires item == Eof && k.at != Ended ==> c.rx == Draining && c.queue == []
    ensures Delivery(d, k.(at := at, trace := k.trace + [item]), pump)
  {
    TraceGrows(k.trace, item);
    var trace := k.trace + [item];
    if item.Chunk? {
      assert c.queue == [c.queue[0]] + c.queue[1..];
    } else {
      assert trace[|k.trace|] == item;
    }
  }

  /** Reading a flag moves the caller without touching the channel. */
  lemma DeliveryMoves(c: Cell, k: Client, at: Caller, d: Cell, pump: Option<Pump>)
    requires Delivery(c, k, pump) && k.at != Ended && at != Ended && d == c.(rx := d.rx)
    requires at == Streaming || at == NotFailed || at == CompletionRead ==> c.head.Some?
    requires d.rx == c.rx || (d.rx == Draining && c.rx != Dropped && AllAccepted(c.accepted, pump))
    ensures Delivery(d, k.(at := at), pump)
  {
  }

  /** A look that hands nothing out. */
  lemma DeliveryLooks(s: State, a: CallerStep)
    requires s.links.upSeen <= |s.links.up| && Reception(s.cell, s.hub.loop, s.links.up, s.links.upSeen, s.tether.pump)
    requires Delivery(s.cell, s.client, s.tether.pump) && CallerCan(s, a)
    requires CallerDoes(s, a).client.trace == s.client.trace
    ensures var t := CallerDoes(s, a); Delivery(t.cell, t.client, t.tether.pump)
  {
    var t := CallerDoes(s, a);
    DeliveryMoves(s.cell, s.client, t.client.at, t.cell, s.tether.pump);
  }

  /** A poll that hands out the next chunk or ends the body. */
  lemma DeliveryPolls(s: State, a: CallerStep)
    requires Delivery(s.cell, s.client, s.tether.pump) && CallerCan(s, a)
    requires CallerDoes(s, a).client.trace != s.client.trace
    ensures var t := CallerDoes(s, a); Delivery(t.cell, t.client, t.tether.pump)
  {
    var c, k, pump := s.cell, s.client, s.tether.pump;
    match a
    case PollFailed => DeliveryYield(c, k, Ended, Error, c.(rx := Dropped, queue := []), pump);
    case PollReceive(_) =>
      if c.queue != [] {
        DeliveryYield(c, k, Streaming, Chunk(c.queue[0]), c.(queue := c.queue[1..]), pump);
      } else {
        DeliveryYield(c, k, Ended, Eof, c.(rx := Dropped), pump);
      }
    case PollAgain => DeliveryYield(c, k, Ended, Eof, c, pump);
    case _ =>
  }

  lemma DeliveryCaller(s: State, a: CallerStep)
    requires ResponseInv(s) && CallerCan(s, a)
    ensures var t := CallerDoes(s, a); Delivery(t.cell, t.client, t.tether.pump)
  {
    if CallerDoes(s, a).client.trace == s.client.trace {
      DeliveryLooks(s, a);
    } else {
      DeliveryPolls(s, a);
    }
  }

  lemma ResponseStarter(s: State, a: StarterStep)
    requires ResponseInv(s) && StarterCan(s, a)
    ensures ResponseInv(StarterDoes(s, a))
  {
    OpeningStarter(s, a);
    ReceptionStarter(s, a);
    DeliveryKept(s.cell, StarterDoes(s, a).cell, s.client, s.tether.pump);
  }

  /** What the upload task leaves alone. */
  lemma UploadFrame(s: State, a: UploadStep)
    requires UploadCan(s, a)
    ensures var t := UploadDoes(s, a);
      && t.links.up == s.links.up && t.links.upSeen == s.links.upSeen && t.links.downSeen == s.links.downSeen
      && t.tether == s.tether && t.client == s.client && t.hub.loop == s.hub.loop
      && t.cell.accepted == s.cell.accepted && t.cell.head == s.cell.head && t.cell.inMap == s.cell.inMap
      && t.cell.rx == s.cell.rx && t.cell.queue == s.cell.queue
      && (t.cell.outcome == s.cell.outcome || t.cell.outcome == Failed)
  {
  }

  lemma ResponseUpload(s: State, a: UploadStep)
    requires ResponseInv(s) && UploadCan(s, a)
    ensures ResponseInv(UploadDoes(s, a))
  {
    OpeningUpload(s, a);
    UploadFrame(s, a);
    ReceptionKept(s.cell, UploadDoes(s, a).cell, s.hub.loop, s.links.up, s.links.upSeen, s.tether.pump);
    DeliveryKept(s.cell, UploadDoes(s, a).cell, s.client, s.tether.pump);
  }

  lemma ResponseLoop(s: State, a: LoopStep)
    requires ResponseInv(s) && LoopCan(s, a)
    ensures ResponseInv(LoopDoes(s, a))
  {
    OpeningLoop(s, a);
    LoopFrame(s, a);
    ReceptionLoop(s, a);
    DeliveryLoop(s, a);
  }

  lemma ResponseSession(s: State, a: SessionStep)
    requires ResponseInv(s) && SessionCan(s, a)
    ensures ResponseInv(SessionDoes(s, a))
  {
    OpeningSession(s, a);
    SessionFrame(s, a);
    ReceptionKept(s.cell, SessionDoes(s, a).cell, s.hub.loop, s.links.up, s.links.upSeen, s.tether.pump);
    DeliveryKept(s.cell, SessionDoes(s, a).cell, s.client, s.tether.pump);
  }

  lemma ResponseCaller(s: State, a: CallerStep)
    requires ResponseInv(s) && CallerCan(s, a)
    ensures ResponseInv(CallerDoes(s, a))
  {
    OpeningCaller(s, a);
    CallerFrame(s, a);
    ReceptionKept(s.cell, CallerDoes(s, a).cell, s.hub.loop, s.links.up, s.links.upSeen, s.tether.pump);
    DeliveryCaller(s, a);
  }

  lemma ResponseGuard(s: State, a: GuardStep)
    requires ResponseInv(s) && GuardCan(s, a)
    ensures ResponseInv(GuardDoes(s, a))
  {
    OpeningGuard(s, a);
    GuardFrame(s, a);
    ReceptionKept(s.cell, GuardDoes(s, a).cell, s.hub.loop, s.links.up, s.links.upSeen, s.tether.pump);
  }

  lemma ResponseTether(s: State, a: TetherStep)
    requires ResponseInv(s) && TetherCan(s, a)
    ensures ResponseInv(TetherDoes(s, a))
  {
    OpeningTether(s, a);
    EmissionTether(s, a);
    ReceptionTether(s, a);
    if TetherDoes(s, a).tether.pump.Some? {
      DeliveryNewPump(s.cell, s.client, s.tether.pump, TetherDoes(s, a).tether.pump.value);
    }
  }

  lemma DeliveryPump(s: State, a: PumpStep)
    requires Delivery(s.cell, s.client, s.tether.pump) && PumpCan(s, a)
    ensures var t := PumpDoes(s, a); Delivery(t.cell, t.client, t.tether.pump)
  {
    DeliveryNewPump(s.cell, s.client, s.tether.pump, PumpDoes(s, a).tether.pump.value);
  }

  lemma ResponsePump(s: State, a: PumpStep)
    requires ResponseInv(s) && PumpCan(s, a)
    ensures ResponseInv(PumpDoes(s, a))
  {
    OpeningPump(s, a);
    EmissionPump(s, a);
    ReceptionPump(s, a);
    DeliveryPump(s, a);
  }

  lemma ResponseWire(s: State, a: WireStep)
    requires ResponseInv(s) && WireCan(s, a)
    ensures ResponseInv(WireDoes(s, a))
  {
  }

  lemma ResponseStep(s: State, a: Step)
    requires ResponseInv(s) && Enabled(s, a)
    ensures ResponseInv(Do(s, a))
  {
    match a
    case ByStarter(x) => ResponseStarter(s, x);
    case ByUpload(x) => ResponseUpload(s, x);
    case ByLoop(x) => ResponseLoop(s, x);
    case BySession(x) => ResponseSession(s, x);
    case ByCaller(x) => ResponseCaller(s, x);
    case ByGuard(x) => ResponseGuard(s, x);
    case ByTether(x) => ResponseTether(s, x);
    case ByPump(x) => ResponsePump(s, x);
    case ByWire(x) => ResponseWire(s, x);
  }
}
