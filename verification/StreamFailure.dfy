/** When a failed stream stays failed. A stream that a broken upload has failed is
    still in the map, and may yet become complete: exactly if the frames that are
    still to come can be taken up to a clean END. */
module StreamFailure {
  import opened Prelude
  import opened Frames
  import opened Stream
  import opened StreamSafety
  import opened StreamSettlement
  import opened StreamRuns
  import opened StreamDebts
  import opened StreamOutcome

  // ---- What can still come --------------------------------------------------------

  function DataFrames(id: u16, chunks: seq<Bytes>): seq<Frame> {
    if chunks == [] then []
    else (if chunks[0] == [] then [] else [Data(id, chunks[0])]) + DataFrames(id, chunks[1..])
  }

  function LastFrame(id: u16, a: Answer): Frame {
    End(id, if a.headed && a.ok then [] else REASON)
  }

  /** What the pump has still to send when nothing stops it. */
  function PumpLeft(id: u16, p: Pump): seq<Frame>
  {
    if p.read > |p.answer.chunks| then []
    else
      var body := DataFrames(id, p.answer.chunks[p.read..]) + [LastFrame(id, p.answer)];
      match p.phase
      case Connecting => if p.answer.headed then [RespHead(id, p.answer.head)] + body else [LastFrame(id, p.answer)]
      case Relaying => body
      case _ => []
  }

  /** OPEN has not been taken yet, but still can be: it is on the wire, or its writer
      is still there. */
  predicate MayOpen(s: State) {
    && s.tether.pump == None && s.links.downSeen == 0
    && s.links.down != [] && (s.links.downWritten > 0 || !s.session.writerGone)
  }

  /** The best that may still be put on the link while the tether is there: what the
      pump has left, or of an engine not yet asked, an empty answer. */
  function Coming(s: State): seq<Frame> {
    if s.tether.pump.Some? then PumpLeft(s.id, s.tether.pump.value)
    else if MayOpen(s) then [RespHead(s.id, []), End(s.id, [])]
    else []
  }

  predicate InOrder(l: Links) {
    l.upSeen <= l.upWritten <= |l.up| && l.downSeen <= l.downWritten <= |l.down|
  }

  /** What the frame loop may still get to see: of a tether that has gone only what
      its writer has written. */
  function Ahead(s: State): seq<Frame>
    requires InOrder(s.links)
  {
    if s.session.loopGone then []
    else if s.session.tetherGone then s.links.up[s.links.upSeen..s.links.upWritten]
    else s.links.up[s.links.upSeen..] + Coming(s)
  }

  /** Free places in the response channel, and one more if the caller is in the
      middle of a poll in which it has not noticed the failure. */
  function Places(c: Cell, k: Client, active: bool): nat {
    var more := if active && (k.at == NotFailed || k.at == CompletionRead) then 1 else 0;
    if c.rx != Receiving || |c.queue| >= RESPONSE_CAPACITY + more then 0 else RESPONSE_CAPACITY + more - |c.queue|
  }

  /** Do these frames lead to a clean END: one head first, then no more data than
      there are places for? */
  predicate LeadsToEnd(headed: bool, places: nat, frames: seq<Frame>)
    decreases |frames|
  {
    frames != [] &&
      match frames[0]
      case RespHead(_, _) => !headed && LeadsToEnd(true, places, frames[1..])
      case Data(_, _) => headed && places > 0 && LeadsToEnd(headed, places - 1, frames[1..])
      case End(_, reason) => reason == []
      case _ => false
  }

  predicate Leads(s: State, frames: seq<Frame>) {
    LeadsToEnd(s.cell.head.Some?, Places(s.cell, s.client, CallerActive(s)), frames)
  }

  /** May the stream still be completed? */
  predicate MayComplete(s: State)
    requires InOrder(s.links)
  {
    match s.hub.loop
    case Idle => s.cell.inMap && Leads(s, Ahead(s))
    case Holding(f, target) => target && (CleanEnd(f) || (s.cell.inMap && Leads(s, [f] + Ahead(s))))
    case Finishing(_, verdict, _) => verdict == Complete
    case Removing(_) => false
    case Notifying => false
  }

  // ---- Scanning -----------------------------------------------------------------------

  /** Fewer frames or fewer places never help, and nor does an END with a reason. */
  lemma {:induction false} Worse(headed: bool, places: nat, more: nat, a: seq<Frame>, b: seq<Frame>)
    requires places <= more && LeadsToEnd(headed, places, a)
    ensures LeadsToEnd(headed, more, a + b)
    decreases |a|
  {
    assert (a + b)[0] == a[0] && (a + b)[1..] == a[1..] + b;
    match a[0]
    case RespHead(_, _) => Worse(true, places, more, a[1..], b);
    case Data(_, _) => Worse(headed, places - 1, more - 1, a[1..], b);
    case End(_, _) =>
  }

  lemma WorsePrefix(headed: bool, places: nat, more: nat, a: seq<Frame>, b: seq<Frame>)
    requires places <= more && a <= b
    ensures LeadsToEnd(headed, places, a) ==> LeadsToEnd(headed, more, b)
  {
    if LeadsToEnd(headed, places, a) {
      Worse(headed, places, more, a, b[|a|..]);
      assert a + b[|a|..] == b;
    }
  }

  lemma {:induction false} EndBetween(headed: bool, places: nat, a: seq<Frame>, f: Frame, b: seq<Frame>)
    requires f.End? && f.reason != [] && LeadsToEnd(headed, places, a + [f] + b)
    ensures LeadsToEnd(headed, places, a + b)
    decreases |a|
  {
    var all := a + [f] + b;
    if a != [] {
      assert all[0] == a[0] && all[1..] == a[1..] + [f] + b;
      assert (a + b)[0] == a[0] && (a + b)[1..] == a[1..] + b;
      match a[0]
      case RespHead(_, _) => EndBetween(true, places, a[1..], f, b);
      case Data(_, _) => EndBetween(headed, places - 1, a[1..], f, b);
      case End(_, _) =>
    }
  }

  lemma BadEndFirst(headed: bool, places: nat, a: seq<Frame>)
    requires a != [] && a[0].End? && a[0].reason != []
    ensures !LeadsToEnd(headed, places, a)
  {
  }

  lemma LeadsHead(places: nat, f: Frame, rest: seq<Frame>)
    requires f.RespHead?
    ensures LeadsToEnd(false, places, [f] + rest) == LeadsToEnd(true, places, rest)
  {
    assert ([f] + rest)[1..] == rest;
  }

  lemma LeadsData(places: nat, f: Frame, rest: seq<Frame>)
    requires f.Data?
    ensures LeadsToEnd(true, places, [f] + rest) == (places > 0 && LeadsToEnd(true, places - 1, rest))
  {
    assert ([f] + rest)[1..] == rest;
  }

  // ---- One step of each actor never helps ---------------------------------------------

  /** What `t` may still get to see is no more than what `s` may, and no more of it
      counts. */
  predicate Dimmer(s: State, t: State)
    requires InOrder(s.links)
  {
    && InOrder(t.links) && t.cell.outcome == s.cell.outcome
    && t.hub.loop == s.hub.loop && (t.cell.inMap ==> s.cell.inMap) && t.cell.head == s.cell.head
    && Places(t.cell, t.client, CallerActive(t)) <= Places(s.cell, s.client, CallerActive(s))
    && Ahead(t) <= Ahead(s)
  }

  lemma NoBetter(s: State, t: State)
    requires InOrder(s.links) && Dimmer(s, t)
    ensures MayComplete(t) ==> MayComplete(s)
  {
    var p, q := Places(t.cell, t.client, CallerActive(t)), Places(s.cell, s.client, CallerActive(s));
    match t.hub.loop
    case Idle => WorsePrefix(t.cell.head.Some?, p, q, Ahead(t), Ahead(s));
    case Holding(f, _) => WorsePrefix(t.cell.head.Some?, p, q, [f] + Ahead(t), [f] + Ahead(s));
    case _ =>
  }

  /** With the same pump and the same frames, ends of the session only cut off. */
  lemma AheadLess(s: State, t: State)
    requires InOrder(s.links) && InOrder(t.links)
    requires t.id == s.id && t.tether.pump == s.tether.pump && (MayOpen(t) ==> MayOpen(s))
    requires t.links.up == s.links.up && t.links.upSeen == s.links.upSeen
    requires t.links.upWritten == s.links.upWritten || !t.session.tetherGone
    requires (s.session.loopGone ==> t.session.loopGone) && (s.session.tetherGone ==> t.session.tetherGone)
    ensures Ahead(t) <= Ahead(s)
  {
    assert Coming(t) == Coming(s) || Coming(t) == [];
  }

  lemma DimmerCaller(s: State, a: CallerStep)
    requires InOrder(s.links) && s.cell.outcome == Failed && CallerCan(s, a)
    ensures Dimmer(s, CallerDoes(s, a))
  {
    var t := CallerDoes(s, a);
    CallerFrame(s, a);
    CallerKeeps(s, a);
    PlacesCaller(s, a);
    AheadLess(s, t);
  }

  lemma PlacesCaller(s: State, a: CallerStep)
    requires s.cell.outcome == Failed && CallerCan(s, a)
    ensures var t := CallerDoes(s, a);
      Places(t.cell, t.client, CallerActive(t)) <= Places(s.cell, s.client, CallerActive(s))
  {
  }

  /** More frames on their way to the tether do not matter here. */
  predicate SendsDown(s: State, t: State) {
    && t.links == s.links.(down := t.links.down) && |t.links.down| >= |s.links.down|
    && (s.links.down == [] ==> t.links.down == []) && t.id == s.id && t.tether == s.tether && t.hub.loop == s.hub.loop
    && t.session == s.session.(cancelled := t.session.cancelled)
  }

  lemma AheadSendsDown(s: State, t: State)
    requires InOrder(s.links) && SendsDown(s, t)
    ensures InOrder(t.links) && Ahead(t) <= Ahead(s)
  {
    AheadLess(s, t);
  }

  lemma GuardLinks(s: State, a: GuardStep)
    requires Opening(s) && GuardCan(s, a)
    ensures SendsDown(s, GuardDoes(s, a))
  {
  }

  lemma PlacesGuard(s: State, a: GuardStep)
    requires GuardCan(s, a)
    ensures var t := GuardDoes(s, a);
      Places(t.cell, t.client, CallerActive(t)) <= Places(s.cell, s.client, CallerActive(s))
  {
  }

  lemma DimmerGuard(s: State, a: GuardStep)
    requires Opening(s) && s.cell.outcome == Failed && GuardCan(s, a)
    ensures Dimmer(s, GuardDoes(s, a))
  {
    GuardFrame(s, a);
    GuardLinks(s, a);
    PlacesGuard(s, a);
    AheadSendsDown(s, GuardDoes(s, a));
  }

  lemma UploadLinks(s: State, a: UploadStep)
    requires Opening(s) && UploadCan(s, a)
    ensures SendsDown(s, UploadDoes(s, a)) && UploadDoes(s, a).hub.starter == s.hub.starter
  {
  }

  lemma DimmerUpload(s: State, a: UploadStep)
    requires Opening(s) && s.cell.outcome == Failed && UploadCan(s, a)
    ensures Dimmer(s, UploadDoes(s, a))
  {
    UploadFrame(s, a);
    UploadLinks(s, a);
    AheadSendsDown(s, UploadDoes(s, a));
  }

  lemma DimmerStarter(s: State, a: StarterStep)
    requires Opening(s) && Last(s) && s.cell.outcome == Failed && StarterCan(s, a) && !a.SendOpen?
    ensures Dimmer(s, StarterDoes(s, a))
  {
    AheadLess(s, StarterDoes(s, a));
  }

  /** A stream that fails before it is opened is out of the map already. */
  lemma OpenedTooLate(s: State, head: Bytes)
    requires Opening(s) && Last(s) && s.cell.outcome == Failed && StarterCan(s, SendOpen(head))
    ensures var t := StarterDoes(s, SendOpen(head));
      InOrder(t.links) && t.cell.outcome == Failed && t.hub.loop == Idle && !t.cell.inMap
  {
  }

  lemma DimmerSession(s: State, a: SessionStep)
    requires Opening(s) && s.cell.outcome == Failed && SessionCan(s, a)
    ensures Dimmer(s, SessionDoes(s, a))
  {
    SessionFrame(s, a);
    AheadLess(s, SessionDoes(s, a));
  }

  /** The pump sends what it had left to send, or stops. */
  lemma PumpSends(id: u16, p: Pump)
    requires p.phase == Relaying && p.read < |p.answer.chunks|
    ensures var c := p.answer.chunks[p.read];
      PumpLeft(id, p) == (if c == [] then [] else [Data(id, c)]) + PumpLeft(id, p.(read := p.read + 1))
  {
    var rest := p.answer.chunks[p.read..];
    assert rest[1..] == p.answer.chunks[p.read + 1..];
  }

  /** A frame that moves from what is to come onto the link is as far ahead. */
  lemma Moved(s: State, t: State, f: Frame)
    requires InOrder(s.links) && t.session == s.session && !s.session.tetherGone
    requires t.links == s.links.(up := s.links.up + [f]) && Coming(s) == [f] + Coming(t)
    ensures InOrder(t.links) && Ahead(t) == Ahead(s)
  {
    var rest := s.links.up[s.links.upSeen..];
    assert t.links.up[t.links.upSeen..] == rest + [f];
    Assoc(rest, [f], Coming(t));
  }

  lemma AheadHead(s: State)
    requires ResponseInv(s) && PumpCan(s, PumpHead)
    ensures Ahead(PumpDoes(s, PumpHead)) == Ahead(s)
  {
    Moved(s, PumpDoes(s, PumpHead), RespHead(s.id, s.tether.pump.value.answer.head));
  }

  /** The pump does something other than send. */
  lemma AheadOther(s: State, a: PumpStep)
    requires InOrder(s.links) && PumpCan(s, a) && !a.PumpHead? && !a.PumpChunk? && !a.PumpEnd?
    ensures var t := PumpDoes(s, a); t.links == s.links && Ahead(t) <= Ahead(s)
  {
    var t := PumpDoes(s, a);
    assert Coming(t) == Coming(s) || Coming(t) == [];
  }

  lemma AheadChunk(s: State)
    requires ResponseInv(s) && PumpCan(s, PumpChunk)
    ensures Ahead(PumpDoes(s, PumpChunk)) == Ahead(s)
  {
    var p, t := s.tether.pump.value, PumpDoes(s, PumpChunk);
    PumpSends(s.id, p);
    if p.answer.chunks[p.read] != [] {
      Moved(s, t, Data(s.id, p.answer.chunks[p.read]));
    }
  }

  lemma AheadEnd(s: State)
    requires ResponseInv(s) && PumpCan(s, PumpEnd)
    ensures Ahead(PumpDoes(s, PumpEnd)) == Ahead(s)
  {
    var p := s.tether.pump.value;
    assert p.answer.chunks[|p.answer.chunks|..] == [];
    Moved(s, PumpDoes(s, PumpEnd), LastFrame(s.id, p.answer));
  }

  lemma AheadPump(s: State, a: PumpStep)
    requires ResponseInv(s) && PumpCan(s, a)
    ensures var t := PumpDoes(s, a);
      InOrder(t.links) && t.links.upSeen == s.links.upSeen && Ahead(t) <= Ahead(s)
  {
    match a
    case PumpHead => AheadHead(s);
    case PumpChunk => AheadChunk(s);
    case PumpEnd => AheadEnd(s);
    case _ => AheadOther(s, a);
  }

  lemma DimmerPump(s: State, a: PumpStep)
    requires ResponseInv(s) && PumpCan(s, a)
    ensures Dimmer(s, PumpDoes(s, a))
  {
    AheadPump(s, a);
    PumpKeeps(s, a);
  }

  lemma PumpKeeps(s: State, a: PumpStep)
    requires PumpCan(s, a)
    ensures var t := PumpDoes(s, a); t.cell == s.cell && t.client == s.client && t.hub == s.hub
  {
  }

  /** Before the engine is asked the tether can only have ended the stream. */
  lemma NothingYet(s: State)
    requires ResponseInv(s) && s.tether.pump == None
    ensures s.cell.head == None
    ensures forall i :: 0 <= i < |s.links.up| ==> s.links.up[i].End? && s.links.up[i].reason != []
    ensures s.hub.loop.Holding? ==> s.hub.loop.frame.End? && s.hub.loop.frame.reason != []
  {
  }

  lemma NoBetterOpen(s: State, answer: Answer, overloaded: bool)
    requires ResponseInv(s) && s.cell.outcome == Failed && TetherCan(s, TetherOpen(answer, overloaded))
    ensures var t := TetherDoes(s, TetherOpen(answer, overloaded));
      && InOrder(t.links) && t.cell.outcome == Failed
      && (MayComplete(t) ==> MayComplete(s))
  {
    assert s.links.downSeen == 0 && s.tether.pump == None && MayOpen(s);
    NothingYet(s);
    var t := TetherDoes(s, TetherOpen(answer, overloaded));
    if MayComplete(t) && t.hub.loop.Idle? {
      if Ahead(t)[0].End? && Ahead(t)[0].reason != [] {
        BadEndFirst(t.cell.head.Some?, Places(t.cell, t.client, CallerActive(t)), Ahead(t));
      }
      assert s.links.up[s.links.upSeen..] == [];
      assert Ahead(s) == [RespHead(s.id, []), End(s.id, [])];
      assert Ahead(s)[1..] == [End(s.id, [])];
    }
  }

  lemma DimmerTether(s: State, a: TetherStep)
    requires ResponseInv(s) && s.cell.outcome == Failed && TetherCan(s, a) && !a.TetherOpen?
    requires TetherDoes(s, a).links.up == s.links.up
    ensures Dimmer(s, TetherDoes(s, a))
  {
    AheadLess(s, TetherDoes(s, a));
  }

  /** An END with a reason behind the frame in hand. */
  lemma EndBehind(headed: bool, places: nat, g: Frame, a: seq<Frame>, f: Frame, b: seq<Frame>)
    requires f.End? && f.reason != [] && LeadsToEnd(headed, places, [g] + (a + [f] + b))
    ensures LeadsToEnd(headed, places, [g] + (a + b))
  {
    assert [g] + (a + [f] + b) == ([g] + a) + [f] + b;
    EndBetween(headed, places, [g] + a, f, b);
    Assoc([g], a, b);
  }

  /** The tether gives an overloaded stream up. */
  lemma NoBetterOverload(s: State, t: State)
    requires InOrder(s.links) && !s.session.tetherGone && t.links.upSeen == s.links.upSeen && InOrder(t.links)
    requires t.links.up == s.links.up + [End(s.id, REASON)] && Coming(t) == Coming(s)
    requires t.hub == s.hub && t.cell == s.cell && t.client == s.client && t.session == s.session
    ensures MayComplete(t) ==> MayComplete(s)
  {
    var f := End(s.id, REASON);
    var a, b := s.links.up[s.links.upSeen..], Coming(s);
    assert t.links.up[s.links.upSeen..] == a + [f];
    if MayComplete(t) && !s.session.loopGone {
      var headed, places := s.cell.head.Some?, Places(s.cell, s.client, CallerActive(s));
      match t.hub.loop
      case Idle => EndBetween(headed, places, a, f, b);
      case Holding(g, _) =>
        if !CleanEnd(g) {
          EndBehind(headed, places, g, a, f, b);
        }
      case Finishing(_, _, _) =>
    }
  }

  lemma OverloadKeeps(s: State, full: bool)
    requires Opening(s) && TetherCan(s, TetherInput(full))
    ensures var t := TetherDoes(s, TetherInput(full));
      && t.hub == s.hub && t.cell == s.cell && t.client == s.client && t.session == s.session
      && InOrder(t.links) && t.links.upSeen == s.links.upSeen && Coming(t) == Coming(s)
      && (t.links.up == s.links.up || t.links.up == s.links.up + [End(s.id, REASON)])
  {
    assert !MayOpen(s);
  }

  // ---- The frame loop ------------------------------------------------------------------

  lemma NoBetterTake(s: State)
    requires InOrder(s.links) && LoopCan(s, Take)
    ensures var t := LoopDoes(s, Take);
      InOrder(t.links) && t.cell == s.cell && (MayComplete(t) ==> MayComplete(s))
  {
    AheadTakes(s);
  }

  lemma AheadTakes(s: State)
    requires InOrder(s.links) && LoopCan(s, Take)
    ensures InOrder(LoopDoes(s, Take).links)
    ensures Ahead(s) == [s.links.up[s.links.upSeen]] + Ahead(LoopDoes(s, Take))
  {
    var f, l, n := s.links.up[s.links.upSeen], s.links, s.links.upSeen;
    if s.session.tetherGone {
      assert l.up[n..l.upWritten] == [f] + l.up[n + 1..l.upWritten];
    } else {
      assert l.up[n..] == [f] + l.up[n + 1..];
      Assoc([f], l.up[n + 1..], Coming(s));
    }
  }

  /** What the loop leaves behind after a head, if it goes on with the stream. */
  lemma AfterHead(s: State, valid: bool)
    requires InOrder(s.links) && LoopCan(s, HandleHead(valid))
    ensures var t := LoopDoes(s, HandleHead(valid));
      && t.links == s.links && t.cell.outcome == s.cell.outcome && t.cell.inMap == s.cell.inMap
      && Ahead(t) == Ahead(s)
      && Places(t.cell, t.client, CallerActive(t)) == Places(s.cell, s.client, CallerActive(s))
      && (t.hub.loop == Idle && s.hub.loop.target ==> s.cell.head == None && t.cell.head.Some?)
      && (t.hub.loop != Idle ==> t.hub.loop == Finishing(Store, Failed, true))
  {
  }

  lemma NoBetterHead(s: State, valid: bool)
    requires InOrder(s.links) && LoopCan(s, HandleHead(valid)) && s.hub.loop.target && !MayComplete(s)
    ensures !MayComplete(LoopDoes(s, HandleHead(valid)))
  {
    AfterHead(s, valid);
    LeadsHead(Places(s.cell, s.client, CallerActive(s)), s.hub.loop.frame, Ahead(s));
  }

  lemma AfterData(s: State)
    requires InOrder(s.links) && LoopCan(s, HandleData)
    ensures var t := LoopDoes(s, HandleData);
      && t.links == s.links && t.cell.outcome == s.cell.outcome && t.cell.inMap == s.cell.inMap
      && t.cell.head == s.cell.head && Ahead(t) == Ahead(s)
      && (t.hub.loop == Idle ==>
            && s.hub.loop.target && s.cell.head.Some?
            && Places(t.cell, t.client, CallerActive(t)) + 1 == Places(s.cell, s.client, CallerActive(s)))
      && (t.hub.loop != Idle ==> t.hub.loop == Finishing(Store, Failed, true) || t.hub.loop == Removing(true))
  {
  }

  lemma NoBetterData(s: State)
    requires InOrder(s.links) && LoopCan(s, HandleData) && !MayComplete(s)
    ensures !MayComplete(LoopDoes(s, HandleData))
  {
    AfterData(s);
    LeadsData(Places(s.cell, s.client, CallerActive(s)), s.hub.loop.frame, Ahead(s));
  }

  lemma NoBetterLoop(s: State, a: LoopStep)
    requires ResponseInv(s) && LoopTold(s.cell, s.hub.loop) && LoopCan(s, a)
    requires s.cell.outcome == Failed && !MayComplete(s)
    ensures var t := LoopDoes(s, a);
      InOrder(t.links) && t.cell.outcome == Failed && !MayComplete(t)
  {
    match a
    case Take => NoBetterTake(s);
    case HandleHead(valid) =>
      AfterHead(s, valid);
      if s.hub.loop.target {
        NoBetterHead(s, valid);
      }
    case HandleData =>
      AfterData(s);
      NoBetterData(s);
    case _ =>
  }

  lemma DimmerWire(s: State, a: WireStep)
    requires InOrder(s.links) && WireCan(s, a)
    ensures Dimmer(s, WireDoes(s, a))
  {
    AheadLess(s, WireDoes(s, a));
  }

  /** All steps that neither open the stream nor give it up as overloaded, and are not
      the frame loop's. */
  lemma DimmerStep(s: State, a: Step)
    requires Inv(s) && Last(s) && s.cell.outcome == Failed && Enabled(s, a)
    requires !a.ByLoop? && !(a.ByStarter? && a.starter.SendOpen?)
    requires a.ByTether? ==> !a.tether.TetherOpen? && TetherDoes(s, a.tether).links.up == s.links.up
    ensures Dimmer(s, Do(s, a))
  {
    match a
    case ByStarter(x) => DimmerStarter(s, x);
    case BySession(x) => DimmerSession(s, x);
    case ByUpload(x) => DimmerUpload(s, x);
    case ByCaller(x) => DimmerCaller(s, x);
    case ByGuard(x) => DimmerGuard(s, x);
    case ByTether(x) => DimmerTether(s, x);
    case ByPump(x) => DimmerPump(s, x);
    case ByWire(x) => DimmerWire(s, x);
  }

  lemma NoBetterStep(s: State, a: Step)
    requires Inv(s) && Last(s) && s.cell.outcome == Failed && Enabled(s, a) && !MayComplete(s)
    ensures var t := Do(s, a);
      InOrder(t.links) && t.cell.outcome == Failed && !MayComplete(t)
  {
    if a.ByLoop? {
      NoBetterLoop(s, a.loop);
    } else if a.ByStarter? && a.starter.SendOpen? {
      OpenedTooLate(s, a.starter.head);
    } else if a.ByTether? && a.tether.TetherOpen? {
      NoBetterOpen(s, a.tether.answer, a.tether.overloaded);
    } else if a.ByTether? && TetherDoes(s, a.tether).links.up != s.links.up {
      OverloadKeeps(s, a.tether.full);
      NoBetterOverload(s, TetherDoes(s, a.tether));
    } else {
      DimmerStep(s, a);
      NoBetter(s, Do(s, a));
    }
  }

  lemma {:induction false} FailedForEver(s: State, run: seq<Step>, t: State)
    requires Inv(s) && Last(s) && s.cell.outcome == Failed && !MayComplete(s) && Execute(s, run) == Some(t)
    ensures t.cell.outcome == Failed
    decreases |run|
  {
    if run != [] {
      NoBetterStep(s, run[0]);
      StepKeeps(s, run[0]);
      LastStep(s, run[0]);
      FailedForEver(Do(s, run[0]), run[1..], t);
    }
  }

  // ---- It can be done ---------------------------------------------------------------------

  /** How far the pump is from its END. */
  function PumpToGo(s: State): nat {
    match s.tether.pump
    case None => if s.links.downWritten == 0 then 4 else 3
    case Some(p) =>
      if p.read > |p.answer.chunks| then 0
      else match p.phase
      case Connecting => |p.answer.chunks| - p.read + 2
      case Relaying => |p.answer.chunks| - p.read + 1
      case _ => 0
  }

  function LoopToGo(l: Loop): nat {
    match l
    case Holding(_, _) => 4
    case Finishing(fin, _, _) => FinLeft(fin)
    case _ => 0
  }

  function PollToGo(at: Caller): nat {
    if at == NotFailed then 2 else if at == CompletionRead then 1 else 0
  }

  /** Steps to a clean END at most. */
  function ToGo(s: State): nat
    requires InOrder(s.links)
  {
    8 * PumpToGo(s) + 5 * (|s.links.up| - s.links.upSeen) + (|s.links.up| - s.links.upWritten)
    + LoopToGo(s.hub.loop) + PollToGo(s.client.at)
  }

  /** How the frame loop gets its next frame: it is taken, or written, or sent by the
      pump, or the engine is asked. */
  function Fetch(s: State): Step
    requires InOrder(s.links)
  {
    if s.links.upSeen < s.links.upWritten then ByLoop(Take)
    else if s.links.upWritten < |s.links.up| then ByWire(TetherWrites)
    else match s.tether.pump
      case None =>
        if s.links.downWritten == 0 then ByWire(HubWrites)
        else ByTether(TetherOpen(Answer(true, [], [], true), false))
      case Some(p) =>
        ByPump(if p.phase == Connecting then PumpHead else if p.read < |p.answer.chunks| then PumpChunk else PumpEnd)
  }

  /** What to do next for the stream to be completed. */
  function Helpful(s: State): Step
    requires InOrder(s.links)
  {
    match s.hub.loop
    case Finishing(_, _, _) => ByLoop(LoopFinish)
    case Holding(f, _) =>
      if f.RespHead? then ByLoop(HandleHead(true))
      else if f.Data? && |s.cell.queue| >= RESPONSE_CAPACITY then
        ByCaller(if s.client.at == NotFailed then PollComplete else PollReceive(false))
      else if f.Data? then ByLoop(HandleData)
      else ByLoop(HandleEnd)
    case _ => Fetch(s)
  }

  /** Still failed, still completable, and closer to it. */
  predicate Nearer(s: State, t: State)
    requires InOrder(s.links)
  {
    InOrder(t.links) && t.cell.outcome == Failed && MayComplete(t) && ToGo(t) < ToGo(s)
  }

  predicate Hopeful(s: State) {
    InOrder(s.links) && s.cell.outcome == Failed && MayComplete(s)
  }

  lemma HelpfulFinish(s: State)
    requires Hopeful(s) && s.hub.loop.Finishing?
    ensures LoopCan(s, LoopFinish)
    ensures var t := LoopDoes(s, LoopFinish); t.cell.outcome == Complete || Nearer(s, t)
  {
  }

  lemma HelpfulEnd(s: State)
    requires Hopeful(s) && s.hub.loop.Holding? && s.hub.loop.frame.End?
    ensures LoopCan(s, HandleEnd) && Nearer(s, LoopDoes(s, HandleEnd))
  {
  }

  lemma HelpfulHead(s: State)
    requires Hopeful(s) && s.hub.loop.Holding? && s.hub.loop.frame.RespHead?
    ensures LoopCan(s, HandleHead(true)) && Nearer(s, LoopDoes(s, HandleHead(true)))
  {
    AfterHead(s, true);
    LeadsHead(Places(s.cell, s.client, CallerActive(s)), s.hub.loop.frame, Ahead(s));
  }

  lemma HelpfulData(s: State)
    requires Hopeful(s) && s.hub.loop.Holding? && s.hub.loop.frame.Data? && |s.cell.queue| < RESPONSE_CAPACITY
    ensures LoopCan(s, HandleData) && Nearer(s, LoopDoes(s, HandleData))
  {
    AfterData(s);
    LeadsData(Places(s.cell, s.client, CallerActive(s)), s.hub.loop.frame, Ahead(s));
  }

  /** A full queue leaves a place only if the caller is in the middle of a poll. */
  lemma MidPoll(s: State)
    requires Hopeful(s) && s.hub.loop.Holding? && s.hub.loop.frame.Data? && |s.cell.queue| >= RESPONSE_CAPACITY
    ensures CallerActive(s) && s.cell.rx == Receiving && |s.cell.queue| == RESPONSE_CAPACITY
    ensures s.client.at == NotFailed || s.client.at == CompletionRead
  {
  }

  /** The loop has the same prospects after a step of the caller that keeps the
      places free. */
  lemma SamePlaces(s: State, t: State)
    requires Hopeful(s) && t.id == s.id && t.hub == s.hub && t.links == s.links
    requires t.tether == s.tether && t.session == s.session
    requires t.cell.inMap == s.cell.inMap && t.cell.head == s.cell.head && t.cell.outcome == s.cell.outcome
    requires Places(t.cell, t.client, CallerActive(t)) == Places(s.cell, s.client, CallerActive(s))
    requires PollToGo(t.client.at) < PollToGo(s.client.at)
    ensures Nearer(s, t)
  {
    assert MayOpen(t) == MayOpen(s) && Ahead(t) == Ahead(s);
  }

  lemma HelpfulPoll(s: State)
    requires Hopeful(s) && s.hub.loop.Holding? && s.hub.loop.frame.Data? && |s.cell.queue| >= RESPONSE_CAPACITY
    ensures var a := if s.client.at == NotFailed then PollComplete else PollReceive(false);
      CallerCan(s, a) && Nearer(s, CallerDoes(s, a))
  {
    MidPoll(s);
    var a := if s.client.at == NotFailed then PollComplete else PollReceive(false);
    var t := CallerDoes(s, a);
    CallerFrame(s, a);
    CallerKeeps(s, a);
    SamePlaces(s, t);
  }

  lemma HelpfulTake(s: State)
    requires Hopeful(s) && s.hub.loop.Idle? && s.links.upSeen < s.links.upWritten
    ensures LoopCan(s, Take) && Nearer(s, LoopDoes(s, Take))
  {
    AheadTakes(s);
  }

  lemma HelpfulWrite(s: State, a: WireStep)
    requires Hopeful(s) && WireCan(s, a) && ToGo(WireDoes(s, a)) < ToGo(s)
    ensures Nearer(s, WireDoes(s, a))
  {
    var t := WireDoes(s, a);
    assert MayOpen(t) == MayOpen(s);
    assert Ahead(t) == Ahead(s);
  }

  /** The loop waits, and everything sent has been taken. */
  predicate Waits(s: State) {
    Hopeful(s) && s.hub.loop.Idle? && s.links.upSeen == |s.links.up|
  }

  lemma HelpfulOpen(s: State)
    requires Opening(s) && Waits(s) && s.tether.pump == None && s.links.downWritten > 0
    ensures var a := TetherOpen(Answer(true, [], [], true), false);
      TetherCan(s, a) && Nearer(s, TetherDoes(s, a))
  {
    assert s.links.up[s.links.upSeen..] == [];
    assert MayOpen(s);
    var t := TetherDoes(s, TetherOpen(Answer(true, [], [], true), false));
    assert Coming(t) == [RespHead(s.id, []), End(s.id, [])];
    assert Ahead(t) == Ahead(s);
  }

  /** The loop waits for the pump, which has something left to send. */
  predicate WaitsForPump(s: State) {
    Waits(s) && s.tether.pump.Some? && s.tether.pump.value.read <= |s.tether.pump.value.answer.chunks|
  }

  lemma PumpIsNear(s: State, a: PumpStep)
    requires WaitsForPump(s) && PumpCan(s, a) && (a.PumpHead? || a.PumpChunk? || a.PumpEnd?)
    requires InOrder(PumpDoes(s, a).links) && Ahead(PumpDoes(s, a)) == Ahead(s)
    ensures Nearer(s, PumpDoes(s, a))
  {
  }

  lemma PumpIsReady(s: State)
    requires WaitsForPump(s)
    ensures Helpful(s).ByPump? && PumpCan(s, Helpful(s).pump)
  {
    assert s.links.up[s.links.upSeen..] == [];
    assert Coming(s) != [];
    assert s.tether.pump.value.phase == Connecting ==> s.tether.pump.value.answer.headed;
  }

  lemma HelpfulPump(s: State)
    requires ResponseInv(s) && WaitsForPump(s)
    ensures Enabled(s, Helpful(s)) && Nearer(s, Do(s, Helpful(s)))
  {
    PumpIsReady(s);
    var a := Helpful(s).pump;
    var p := s.tether.pump.value;
    if p.phase == Connecting {
      AheadHead(s);
    } else if p.read < |p.answer.chunks| {
      AheadChunk(s);
    } else {
      AheadEnd(s);
    }
    PumpIsNear(s, a);
  }

  lemma HelpfulAsk(s: State)
    requires Opening(s) && Waits(s) && s.tether.pump == None
    ensures Enabled(s, Helpful(s)) && Nearer(s, Do(s, Helpful(s)))
  {
    assert s.links.up[s.links.upSeen..] == [] && MayOpen(s);
    if s.links.downWritten == 0 {
      HelpfulWrite(s, HubWrites);
    } else {
      HelpfulOpen(s);
    }
  }

  lemma HelpfulHold(s: State)
    requires Hopeful(s) && s.hub.loop.Holding?
    ensures Enabled(s, Helpful(s)) && Nearer(s, Do(s, Helpful(s)))
  {
    var f := s.hub.loop.frame;
    if f.RespHead? {
      HelpfulHead(s);
    } else if f.Data? {
      if |s.cell.queue| >= RESPONSE_CAPACITY {
        HelpfulPoll(s);
      } else {
        HelpfulData(s);
      }
    } else {
      HelpfulEnd(s);
    }
  }

  lemma HelpfulLink(s: State)
    requires Hopeful(s) && s.hub.loop.Idle? && s.links.upSeen < |s.links.up|
    ensures Enabled(s, Helpful(s)) && Nearer(s, Do(s, Helpful(s)))
  {
    if s.links.upSeen < s.links.upWritten {
      HelpfulTake(s);
    } else {
      HelpfulWrite(s, TetherWrites);
    }
  }

  lemma HelpfulIdle(s: State)
    requires ResponseInv(s) && Hopeful(s) && s.hub.loop.Idle?
    ensures Enabled(s, Helpful(s)) && Nearer(s, Do(s, Helpful(s)))
  {
    if s.links.upSeen < |s.links.up| {
      HelpfulLink(s);
    } else if s.tether.pump == None {
      HelpfulAsk(s);
    } else {
      HelpfulPump(s);
    }
  }

  lemma HelpfulStep(s: State)
    requires ResponseInv(s) && Hopeful(s)
    ensures Enabled(s, Helpful(s))
    ensures Do(s, Helpful(s)).cell.outcome == Complete || Nearer(s, Do(s, Helpful(s)))
  {
    match s.hub.loop
    case Finishing(_, _, _) => HelpfulFinish(s);
    case Holding(_, _) => HelpfulHold(s);
    case Removing(_) =>
    case Notifying =>
    case Idle => HelpfulIdle(s);
  }

  lemma {:induction false} CanBeCompleted(s: State) returns (more: seq<Step>, t: State)
    requires Inv(s) && s.cell.outcome == Failed && MayComplete(s)
    ensures Execute(s, more) == Some(t) && t.cell.outcome == Complete
    decreases ToGo(s)
  {
    var a := Helpful(s);
    HelpfulStep(s);
    t := Do(s, a);
    OneStep(s, a);
    more := [a];
    if t.cell.outcome != Complete {
      StepKeeps(s, a);
      var rest;
      var u := t;
      rest, t := CanBeCompleted(u);
      ExecuteTwice(s, [a], u, rest);
      more := [a] + rest;
    }
  }

  /** A failed stream stays failed in every continuation exactly if it may not be
      completed any more: the loop is not completing it already, and what it holds
      and what is still to come for a stream in the map does not lead to a clean
      END through one head and no more data than there are places for. */
  lemma FailedIsFinal(id: u16, run: seq<Step>, s: State)
    requires Reaches(id, run, s) && s.cell.outcome == Failed
    ensures InOrder(s.links)
    ensures (forall more, t :: Execute(s, more) == Some(t) ==> t.cell.outcome == Failed) <==> !MayComplete(s)
  {
    ReachableLast(id, run, s);
    if MayComplete(s) {
      var more, t := CanBeCompleted(s);
      assert Execute(s, more) == Some(t);
    } else {
      forall more, t | Execute(s, more) == Some(t) ensures t.cell.outcome == Failed {
        FailedForEver(s, more, t);
      }
    }
  }

  /** Out of the map it stays failed in every continuation exactly if the loop is
      neither completing it nor holding a clean END it looked up before. */
  lemma RemovedIsFinal(id: u16, run: seq<Step>, s: State)
    requires Reaches(id, run, s) && s.cell.outcome == Failed && !s.cell.inMap
    ensures (forall more, t :: Execute(s, more) == Some(t) ==> t.cell.outcome == Failed) <==>
      && !(s.hub.loop.Finishing? && s.hub.loop.verdict == Complete)
      && !(s.hub.loop.Holding? && s.hub.loop.target && CleanEnd(s.hub.loop.frame))
  {
    FailedIsFinal(id, run, s);
  }
}
