/** Who still has to be told: the tether about a stream the hub has dropped, the
    caller about one that cannot finish, the upload about one that is over. */
module StreamSettlement {
  import opened Prelude
  import opened Frames
  import opened Stream
  import opened StreamSafety

  ghost predicate EndIn(log: seq<Frame>) {
    exists i :: 0 <= i < |log| && log[i].End?
  }

  ghost predicate CleanEndIn(log: seq<Frame>) {
    exists i :: 0 <= i < |log| && CleanEnd(log[i])
  }

  // ---- The tether is told ---------------------------------------------------

  /** The tether ended the stream itself, or an END for it is on its way, or the
      whole session is ending. */
  ghost predicate Settled(l: Links, n: Session) {
    EndIn(l.up) || EndIn(l.down) || n.closed || n.cancelled || n.writerGone
  }

  /** An actor that has not finished its step sequence will still send an END. */
  predicate HubOwes(h: Hub) {
    || (h.loop.Finishing? && h.loop.notify) || (h.loop.Removing? && h.loop.notify) || h.loop.Notifying?
    || h.upload.Failing? || h.upload.Reporting?
  }

  predicate GuardOwes(k: Client) {
    k.guard == Removed || k.guard == MustNotify
  }

  predicate Owed(h: Hub, k: Client) {
    HubOwes(h) || GuardOwes(k)
  }

  ghost predicate Accounted(c: Cell, h: Hub, k: Client, l: Links, n: Session) {
    && (c.completed ==> Settled(l, n) || HubOwes(h))
    && (h.starter != NotStarted && !c.inMap ==> Settled(l, n) || HubOwes(h) || GuardOwes(k))
    && ((h.loop.Finishing? && !h.loop.notify) || (h.loop.Removing? && !h.loop.notify) ==> EndIn(l.up))
  }

  /** An END the tether has taken removed its handle, which aborts the pump; a
      pump with a handle has not been aborted. */
  ghost predicate Withdrawn(l: Links, t: Tether)
    requires l.downSeen <= |l.down|
  {
    && (EndIn(l.down[..l.downSeen]) ==> !t.handle)
    && (t.handle ==> t.pump.Some? && t.pump.value.phase != Dead)
  }

  // ---- The caller and the upload are told -----------------------------------

  /** `finish_upload` is between its store and its abort in some actor. */
  predicate AbortPending(h: Hub) {
    (h.loop.Finishing? && h.loop.fin == Abort) || h.closer == CloserAt(Abort) || h.upload == Failing(Abort)
  }

  predicate Terminal(c: Cell) {
    c.completed && c.outcome != Undecided
  }

  /** A stream out of the map is decided, unless its closer is at it or its caller
      has gone. */
  predicate OutTold(c: Cell, h: Hub, k: Client) {
    h.starter != NotStarted && !c.inMap ==>
      Terminal(c) || h.closer.CloserAt? || k.guard == Removed || k.guard == MustNotify || k.guard == Released
  }

  predicate LoopTold(c: Cell, loop: Loop) {
    && (loop.Holding? && !loop.target ==> !c.inMap)
    && (loop.Removing? ==> !c.inMap || Terminal(c))
    && (loop.Finishing? ==> loop.verdict != Undecided && (loop.fin != Store ==> c.completed))
  }

  predicate CloserTold(c: Cell, closer: Closer, closed: bool) {
    && (closed ==> !c.inMap)
    && (closer.CloserAt? ==> !c.inMap && (closer.fin != Store ==> c.completed))
    && (closer == CloserDone ==> Terminal(c))
    && (closer != NoCloser ==> closed)
  }

  predicate Told(c: Cell, h: Hub, k: Client, closed: bool) {
    && OutTold(c, h, k) && LoopTold(c, h.loop) && CloserTold(c, h.closer, closed)
    && (c.outcome != Undecided ==> c.completed)
    && (h.upload.Failing? && h.upload.fin != Store ==> c.completed)
    && (k.at == NoAnswer ==> c.completed)
  }

  predicate UploadTold(c: Cell, h: Hub, k: Client) {
    && (c.slot && c.completed ==> AbortPending(h))
    && (h.starter == Returned ==> c.slot || c.uploadAborted)
    && (k.guard != Held && k.guard != BodyDropped ==> c.uploadAborted)
  }

  // ---- A clean end was sent by the pump -------------------------------------

  ghost predicate Concluded(c: Cell, loop: Loop, k: Client, taken: seq<Frame>) {
    && (loop.Finishing? && loop.verdict == Complete ==> CleanEndIn(taken))
    && (c.outcome == Complete ==> CleanEndIn(taken))
    && (c.rx == Draining ==> CleanEndIn(taken))
    && (k.at == Ended && Error !in k.trace ==> CleanEndIn(taken))
  }

  predicate InHand(loop: Loop, l: Links)
    requires l.upSeen <= |l.up|
  {
    loop.Holding? ==> l.upSeen > 0 && loop.frame == l.up[l.upSeen - 1]
  }

  /** An error is the last thing a caller is handed before the ends. */
  predicate ErrorEnds(k: Client) {
    k.at != Ended ==> Error !in k.trace
  }

  /** Everybody's account with the tether. */
  ghost predicate Accounts(s: State) {
    && s.links.upSeen <= |s.links.up| && s.links.downSeen <= |s.links.down|
    && Accounted(s.cell, s.hub, s.client, s.links, s.session)
    && Withdrawn(s.links, s.tether)
    && InHand(s.hub.loop, s.links)
  }

  /** What the caller and the upload are told. */
  ghost predicate Tells(s: State) {
    && s.links.upSeen <= |s.links.up|
    && Told(s.cell, s.hub, s.client, s.session.closed)
    && UploadTold(s.cell, s.hub, s.client)
    && Concluded(s.cell, s.hub.loop, s.client, s.links.up[..s.links.upSeen])
    && ErrorEnds(s.client)
  }

  ghost predicate SettlementInv(s: State) {
    Opening(s) && Accounts(s) && Tells(s)
  }

  /** Logs only grow and sessions only end, so what is settled stays so. */
  lemma StaysSettled(s: State, t: State)
    requires s.links.up <= t.links.up && s.links.down <= t.links.down
    requires s.session.closed ==> t.session.closed
    requires s.session.cancelled ==> t.session.cancelled
    requires s.session.writerGone ==> t.session.writerGone
    ensures Settled(s.links, s.session) ==> Settled(t.links, t.session)
    ensures EndIn(s.links.up) ==> EndIn(t.links.up)
    ensures |t.links.down| > 0 && t.links.down[|t.links.down| - 1].End? ==> Settled(t.links, t.session)
  {
    if EndIn(s.links.up) {
      var i :| 0 <= i < |s.links.up| && s.links.up[i].End?;
      assert t.links.up[i].End?;
    }
    if EndIn(s.links.down) {
      var i :| 0 <= i < |s.links.down| && s.links.down[i].End?;
      assert t.links.down[i].End?;
    }
  }

  lemma CleanEndStays(log: seq<Frame>, more: seq<Frame>)
    requires log <= more
    ensures CleanEndIn(log) ==> CleanEndIn(more)
    ensures |more| > 0 && CleanEnd(more[|more| - 1]) ==> CleanEndIn(more)
  {
    if CleanEndIn(log) {
      var i :| 0 <= i < |log| && CleanEnd(log[i]);
      assert CleanEnd(more[i]);
    }
  }

  // ---- Each actor -----------------------------------------------------------

  lemma AccountsStarter(s: State, a: StarterStep)
    requires Opening(s) && Accounts(s) && StarterCan(s, a)
    ensures Accounts(StarterDoes(s, a))
  {
    OpeningStarter(s, a);
    StaysSettled(s, StarterDoes(s, a));
  }

  lemma ToldStarter(s: State, a: StarterStep)
    requires Opening(s) && Told(s.cell, s.hub, s.client, s.session.closed) && StarterCan(s, a)
    ensures var t := StarterDoes(s, a); Told(t.cell, t.hub, t.client, t.session.closed)
  {
  }

  lemma UploadToldStarter(s: State, a: StarterStep)
    requires Opening(s) && Told(s.cell, s.hub, s.client, s.session.closed)
    requires UploadTold(s.cell, s.hub, s.client) && StarterCan(s, a)
    ensures var t := StarterDoes(s, a); UploadTold(t.cell, t.hub, t.client)
  {
  }

  lemma ConcludedStarter(s: State, a: StarterStep)
    requires Opening(s) && Tells(s) && InHand(s.hub.loop, s.links) && StarterCan(s, a)
    ensures var t := StarterDoes(s, a);
      && t.links.upSeen <= |t.links.up|
      && Concluded(t.cell, t.hub.loop, t.client, t.links.up[..t.links.upSeen]) && ErrorEnds(t.client)
  {
    var t := StarterDoes(s, a);
    CleanEndStays(s.links.up[..s.links.upSeen], t.links.up[..t.links.upSeen]);
  }

  lemma SettlementStarter(s: State, a: StarterStep)
    requires SettlementInv(s) && StarterCan(s, a)
    ensures SettlementInv(StarterDoes(s, a))
  {
    OpeningStarter(s, a);
    AccountsStarter(s, a);
    ToldStarter(s, a);
    UploadToldStarter(s, a);
    ConcludedStarter(s, a);
  }

  lemma AccountsUploadNext(s: State)
    requires Opening(s) && Accounts(s) && UploadCan(s, UploadNext)
    ensures Accounts(UploadDoes(s, UploadNext))
  {
    OpeningUpload(s, UploadNext);
    StaysSettled(s, UploadDoes(s, UploadNext));
  }

  lemma AccountsUploadEnds(s: State, a: UploadStep)
    requires Opening(s) && Accounts(s) && UploadCan(s, a) && (a.UploadEnd? || a.UploadStops?)
    ensures Accounts(UploadDoes(s, a))
  {
    OpeningUpload(s, a);
    StaysSettled(s, UploadDoes(s, a));
  }

  lemma AccountsUploadFails(s: State, a: UploadStep)
    requires Opening(s) && Accounts(s) && UploadCan(s, a)
    requires !(a.UploadNext? || a.UploadEnd? || a.UploadStops?)
    ensures Accounts(UploadDoes(s, a))
  {
    OpeningUpload(s, a);
    StaysSettled(s, UploadDoes(s, a));
  }

  lemma ToldUploadSends(s: State, a: UploadStep)
    requires Opening(s) && Told(s.cell, s.hub, s.client, s.session.closed) && UploadCan(s, a)
    requires a.UploadNext? || a.UploadEnd? || a.UploadStops?
    ensures var t := UploadDoes(s, a); Told(t.cell, t.hub, t.client, t.session.closed)
  {
  }

  lemma ToldUploadFails(s: State, a: UploadStep)
    requires Opening(s) && Told(s.cell, s.hub, s.client, s.session.closed) && UploadCan(s, a)
    requires !(a.UploadNext? || a.UploadEnd? || a.UploadStops?)
    ensures var t := UploadDoes(s, a); Told(t.cell, t.hub, t.client, t.session.closed)
  {
  }

  lemma UploadToldUpload(s: State, a: UploadStep)
    requires Opening(s) && Told(s.cell, s.hub, s.client, s.session.closed)
    requires UploadTold(s.cell, s.hub, s.client) && UploadCan(s, a)
    ensures var t := UploadDoes(s, a); UploadTold(t.cell, t.hub, t.client)
  {
  }

  lemma ConcludedUpload(s: State, a: UploadStep)
    requires Opening(s) && Tells(s) && InHand(s.hub.loop, s.links) && UploadCan(s, a)
    ensures var t := UploadDoes(s, a);
      && t.links.upSeen <= |t.links.up|
      && Concluded(t.cell, t.hub.loop, t.client, t.links.up[..t.links.upSeen]) && ErrorEnds(t.client)
  {
    var t := UploadDoes(s, a);
    CleanEndStays(s.links.up[..s.links.upSeen], t.links.up[..t.links.upSeen]);
  }

  lemma SettlementUpload(s: State, a: UploadStep)
    requires SettlementInv(s) && UploadCan(s, a)
    ensures SettlementInv(UploadDoes(s, a))
  {
    OpeningUpload(s, a);
    if a.UploadNext? {
      AccountsUploadNext(s);
      ToldUploadSends(s, a);
    } else if a.UploadEnd? || a.UploadStops? {
      AccountsUploadEnds(s, a);
      ToldUploadSends(s, a);
    } else {
      AccountsUploadFails(s, a);
      ToldUploadFails(s, a);
    }
    UploadToldUpload(s, a);
    ConcludedUpload(s, a);
  }

  /** With the same stream and the same logs, only who still owes an END matters. */
  lemma AccountedSame(c: Cell, d: Cell, h: Hub, g: Hub, k: Client, l: Links, m: Links, n: Session)
    requires Accounted(c, h, k, l, n)
    requires d.inMap == c.inMap && d.completed == c.completed && g.starter == h.starter
    requires m.up == l.up && m.down == l.down
    requires HubOwes(h) ==> HubOwes(g)
    requires g.loop.Finishing? && !g.loop.notify ==> EndIn(m.up)
    requires g.loop.Removing? ==> g.loop.notify
    ensures Accounted(d, g, k, m, n)
  {
  }

  lemma LoopKeeps(s: State, a: LoopStep)
    requires LoopCan(s, a) && (a.Take? || a.HandleHead? || a.HandleData? || a.HandleEnd?)
    requires LoopTold(s.cell, s.hub.loop)
    ensures var t := LoopDoes(s, a);
      && t.hub == s.hub.(loop := t.hub.loop) && t.session == s.session && t.client == s.client
      && t.cell.inMap == s.cell.inMap && t.cell.completed == s.cell.completed && t.cell.outcome == s.cell.outcome
      && LoopTold(t.cell, t.hub.loop)
  {
  }

  lemma LoopHolds(s: State, a: LoopStep)
    requires LoopCan(s, a) && (a.Take? || a.HandleHead? || a.HandleData? || a.HandleEnd?)
    requires s.links.upSeen <= |s.links.up| && InHand(s.hub.loop, s.links)
    ensures var t := LoopDoes(s, a);
      && t.links.up == s.links.up && t.links.down == s.links.down && t.links.downSeen == s.links.downSeen
      && t.links.upSeen <= |t.links.up| && t.tether == s.tether
      && InHand(t.hub.loop, t.links)
      && (t.hub.loop.Finishing? && !t.hub.loop.notify ==> EndIn(t.links.up))
      && (t.hub.loop.Removing? ==> t.hub.loop.notify)
  {
  }

  lemma AccountsLoopHandles(s: State, a: LoopStep)
    requires Accounts(s) && LoopTold(s.cell, s.hub.loop) && LoopCan(s, a)
    requires a.Take? || a.HandleHead? || a.HandleData? || a.HandleEnd?
    ensures Accounts(LoopDoes(s, a))
  {
    var t := LoopDoes(s, a);
    LoopKeeps(s, a);
    LoopHolds(s, a);
    AccountedSame(s.cell, t.cell, s.hub, t.hub, s.client, s.links, t.links, s.session);
  }

  lemma AccountsLoopFinishes(s: State, a: LoopStep)
    requires Opening(s) && Accounts(s) && LoopCan(s, a)
    requires !(a.Take? || a.HandleHead? || a.HandleData? || a.HandleEnd?)
    ensures Accounts(LoopDoes(s, a))
  {
    OpeningLoop(s, a);
    StaysSettled(s, LoopDoes(s, a));
  }

  lemma ToldLoopHandles(s: State, a: LoopStep)
    requires Told(s.cell, s.hub, s.client, s.session.closed) && LoopCan(s, a)
    requires a.Take? || a.HandleHead? || a.HandleData? || a.HandleEnd?
    ensures var t := LoopDoes(s, a); Told(t.cell, t.hub, t.client, t.session.closed)
  {
    var t := LoopDoes(s, a);
    LoopKeeps(s, a);
    ToldSame(s.cell, t.cell, s.hub, t.hub, s.client, t.client, s.session.closed);
  }

  lemma ToldLoopFinishes(s: State, a: LoopStep)
    requires Opening(s) && Told(s.cell, s.hub, s.client, s.session.closed) && LoopCan(s, a) && a.LoopFinish?
    ensures var t := LoopDoes(s, a); Told(t.cell, t.hub, t.client, t.session.closed)
  {
  }

  lemma ToldLoopLeaves(s: State, a: LoopStep)
    requires Opening(s) && Told(s.cell, s.hub, s.client, s.session.closed) && LoopCan(s, a)
    requires a.LoopRemove? || a.LoopNotify?
    ensures var t := LoopDoes(s, a); Told(t.cell, t.hub, t.client, t.session.closed)
  {
  }

  lemma UploadToldLoop(s: State, a: LoopStep)
    requires Opening(s) && Told(s.cell, s.hub, s.client, s.session.closed)
    requires UploadTold(s.cell, s.hub, s.client) && LoopCan(s, a)
    ensures var t := LoopDoes(s, a); UploadTold(t.cell, t.hub, t.client)
  {
  }

  lemma ConcludedLoop(s: State, a: LoopStep)
    requires Opening(s) && Tells(s) && InHand(s.hub.loop, s.links) && LoopCan(s, a)
    ensures var t := LoopDoes(s, a);
      && t.links.upSeen <= |t.links.up|
      && Concluded(t.cell, t.hub.loop, t.client, t.links.up[..t.links.upSeen]) && ErrorEnds(t.client)
  {
    var t := LoopDoes(s, a);
    CleanEndStays(s.links.up[..s.links.upSeen], t.links.up[..t.links.upSeen]);
  }

  lemma SettlementLoop(s: State, a: LoopStep)
    requires SettlementInv(s) && LoopCan(s, a)
    ensures SettlementInv(LoopDoes(s, a))
  {
    OpeningLoop(s, a);
    if a.Take? || a.HandleHead? || a.HandleData? || a.HandleEnd? {
      AccountsLoopHandles(s, a);
      ToldLoopHandles(s, a);
    } else {
      AccountsLoopFinishes(s, a);
      if a.LoopFinish? {
        ToldLoopFinishes(s, a);
      } else {
        ToldLoopLeaves(s, a);
      }
    }
    UploadToldLoop(s, a);
    ConcludedLoop(s, a);
  }

  lemma AccountsSession(s: State, a: SessionStep)
    requires SettlementInv(s) && SessionCan(s, a)
    ensures Accounts(SessionDoes(s, a))
  {
    OpeningSession(s, a);
    StaysSettled(s, SessionDoes(s, a));
  }

  lemma ToldSession(s: State, a: SessionStep)
    requires Opening(s) && Told(s.cell, s.hub, s.client, s.session.closed) && SessionCan(s, a)
    ensures var t := SessionDoes(s, a); Told(t.cell, t.hub, t.client, t.session.closed)
  {
  }

  lemma UploadToldSession(s: State, a: SessionStep)
    requires Opening(s) && Told(s.cell, s.hub, s.client, s.session.closed)
    requires UploadTold(s.cell, s.hub, s.client) && SessionCan(s, a)
    ensures var t := SessionDoes(s, a); UploadTold(t.cell, t.hub, t.client)
  {
  }

  lemma ConcludedSession(s: State, a: SessionStep)
    requires Opening(s) && Tells(s) && InHand(s.hub.loop, s.links) && SessionCan(s, a)
    ensures var t := SessionDoes(s, a);
      && t.links.upSeen <= |t.links.up|
      && Concluded(t.cell, t.hub.loop, t.client, t.links.up[..t.links.upSeen]) && ErrorEnds(t.client)
  {
    var t := SessionDoes(s, a);
    CleanEndStays(s.links.up[..s.links.upSeen], t.links.up[..t.links.upSeen]);
  }

  lemma SettlementSession(s: State, a: SessionStep)
    requires SettlementInv(s) && SessionCan(s, a)
    ensures SettlementInv(SessionDoes(s, a))
  {
    OpeningSession(s, a);
    AccountsSession(s, a);
    ToldSession(s, a);
    UploadToldSession(s, a);
    ConcludedSession(s, a);
  }

  lemma AccountsCaller(s: State, a: CallerStep)
    requires Opening(s) && Accounts(s) && CallerCan(s, a)
    ensures Accounts(CallerDoes(s, a))
  {
    CallerKeeps(s, a);
    CallerFrame(s, a);
  }

  /** Only the verdict on a stream, its place and who is about to decide matter. */
  lemma ToldSame(c: Cell, d: Cell, h: Hub, g: Hub, k: Client, l: Client, closed: bool)
    requires Told(c, h, k, closed)
    requires d.inMap == c.inMap && d.completed == c.completed && d.outcome == c.outcome
    requires g.starter == h.starter && g.closer == h.closer && (g.upload.Failing? ==> g.upload == h.upload)
    requires l.guard == k.guard && (l.at == NoAnswer ==> d.completed)
    requires LoopTold(d, g.loop)
    ensures Told(d, g, l, closed)
  {
  }

  lemma CallerKeeps(s: State, a: CallerStep)
    requires CallerCan(s, a)
    ensures var t := CallerDoes(s, a);
      && t.hub == s.hub && t.session == s.session && t.client.guard == s.client.guard
      && t.cell.inMap == s.cell.inMap && t.cell.completed == s.cell.completed && t.cell.outcome == s.cell.outcome
      && (t.client.at == NoAnswer ==> a.ReadCompleted? && s.cell.completed)
  {
  }

  lemma ToldCaller(s: State, a: CallerStep)
    requires Told(s.cell, s.hub, s.client, s.session.closed) && CallerCan(s, a)
    ensures var t := CallerDoes(s, a); Told(t.cell, t.hub, t.client, t.session.closed)
  {
    var t := CallerDoes(s, a);
    CallerKeeps(s, a);
    ToldSame(s.cell, t.cell, s.hub, t.hub, s.client, t.client, s.session.closed);
  }

  lemma UploadToldCaller(s: State, a: CallerStep)
    requires Opening(s) && Told(s.cell, s.hub, s.client, s.session.closed)
    requires UploadTold(s.cell, s.hub, s.client) && CallerCan(s, a)
    ensures var t := CallerDoes(s, a); UploadTold(t.cell, t.hub, t.client)
  {
  }

  lemma ConcludedCaller(s: State, a: CallerStep)
    requires Opening(s) && Tells(s) && InHand(s.hub.loop, s.links) && CallerCan(s, a)
    ensures var t := CallerDoes(s, a);
      && t.links.upSeen <= |t.links.up|
      && Concluded(t.cell, t.hub.loop, t.client, t.links.up[..t.links.upSeen]) && ErrorEnds(t.client)
  {
    var t := CallerDoes(s, a);
    CleanEndStays(s.links.up[..s.links.upSeen], t.links.up[..t.links.upSeen]);
  }

  lemma SettlementCaller(s: State, a: CallerStep)
    requires SettlementInv(s) && CallerCan(s, a)
    ensures SettlementInv(CallerDoes(s, a))
  {
    OpeningCaller(s, a);
    AccountsCaller(s, a);
    ToldCaller(s, a);
    UploadToldCaller(s, a);
    ConcludedCaller(s, a);
  }

  lemma AccountsGuard(s: State, a: GuardStep)
    requires Opening(s) && Accounts(s) && GuardCan(s, a)
    ensures Accounts(GuardDoes(s, a))
  {
    OpeningGuard(s, a);
    StaysSettled(s, GuardDoes(s, a));
  }

  lemma ToldGuard(s: State, a: GuardStep)
    requires Opening(s) && Told(s.cell, s.hub, s.client, s.session.closed) && GuardCan(s, a)
    ensures var t := GuardDoes(s, a); Told(t.cell, t.hub, t.client, t.session.closed)
  {
  }

  lemma UploadToldGuard(s: State, a: GuardStep)
    requires Opening(s) && Told(s.cell, s.hub, s.client, s.session.closed)
    requires UploadTold(s.cell, s.hub, s.client) && GuardCan(s, a)
    ensures var t := GuardDoes(s, a); UploadTold(t.cell, t.hub, t.client)
  {
  }

  lemma ConcludedGuard(s: State, a: GuardStep)
    requires Opening(s) && Tells(s) && InHand(s.hub.loop, s.links) && GuardCan(s, a)
    ensures var t := GuardDoes(s, a);
      && t.links.upSeen <= |t.links.up|
      && Concluded(t.cell, t.hub.loop, t.client, t.links.up[..t.links.upSeen]) && ErrorEnds(t.client)
  {
    var t := GuardDoes(s, a);
    CleanEndStays(s.links.up[..s.links.upSeen], t.links.up[..t.links.upSeen]);
  }

  lemma SettlementGuard(s: State, a: GuardStep)
    requires SettlementInv(s) && GuardCan(s, a)
    ensures SettlementInv(GuardDoes(s, a))
  {
    OpeningGuard(s, a);
    AccountsGuard(s, a);
    ToldGuard(s, a);
    UploadToldGuard(s, a);
    ConcludedGuard(s, a);
  }

  lemma AccountsTether(s: State, a: TetherStep)
    requires Opening(s) && Accounts(s) && TetherCan(s, a)
    ensures Accounts(TetherDoes(s, a))
  {
    OpeningTether(s, a);
    StaysSettled(s, TetherDoes(s, a));
  }

  lemma ToldTether(s: State, a: TetherStep)
    requires Opening(s) && Told(s.cell, s.hub, s.client, s.session.closed) && TetherCan(s, a)
    ensures var t := TetherDoes(s, a); Told(t.cell, t.hub, t.client, t.session.closed)
  {
  }

  lemma UploadToldTether(s: State, a: TetherStep)
    requires Opening(s) && Told(s.cell, s.hub, s.client, s.session.closed)
    requires UploadTold(s.cell, s.hub, s.client) && TetherCan(s, a)
    ensures var t := TetherDoes(s, a); UploadTold(t.cell, t.hub, t.client)
  {
  }

  lemma ConcludedTether(s: State, a: TetherStep)
    requires Opening(s) && Tells(s) && InHand(s.hub.loop, s.links) && TetherCan(s, a)
    ensures var t := TetherDoes(s, a);
      && t.links.upSeen <= |t.links.up|
      && Concluded(t.cell, t.hub.loop, t.client, t.links.up[..t.links.upSeen]) && ErrorEnds(t.client)
  {
    var t := TetherDoes(s, a);
    CleanEndStays(s.links.up[..s.links.upSeen], t.links.up[..t.links.upSeen]);
  }

  lemma SettlementTether(s: State, a: TetherStep)
    requires SettlementInv(s) && TetherCan(s, a)
    ensures SettlementInv(TetherDoes(s, a))
  {
    OpeningTether(s, a);
    AccountsTether(s, a);
    ToldTether(s, a);
    UploadToldTether(s, a);
    ConcludedTether(s, a);
  }

  lemma AccountsPump(s: State, a: PumpStep)
    requires Opening(s) && Accounts(s) && PumpCan(s, a)
    ensures Accounts(PumpDoes(s, a))
  {
    OpeningPump(s, a);
    StaysSettled(s, PumpDoes(s, a));
  }

  lemma ToldPump(s: State, a: PumpStep)
    requires Opening(s) && Told(s.cell, s.hub, s.client, s.session.closed) && PumpCan(s, a)
    ensures var t := PumpDoes(s, a); Told(t.cell, t.hub, t.client, t.session.closed)
  {
  }

  lemma UploadToldPump(s: State, a: PumpStep)
    requires Opening(s) && Told(s.cell, s.hub, s.client, s.session.closed)
    requires UploadTold(s.cell, s.hub, s.client) && PumpCan(s, a)
    ensures var t := PumpDoes(s, a); UploadTold(t.cell, t.hub, t.client)
  {
  }

  lemma ConcludedPump(s: State, a: PumpStep)
    requires Opening(s) && Tells(s) && InHand(s.hub.loop, s.links) && PumpCan(s, a)
    ensures var t := PumpDoes(s, a);
      && t.links.upSeen <= |t.links.up|
      && Concluded(t.cell, t.hub.loop, t.client, t.links.up[..t.links.upSeen]) && ErrorEnds(t.client)
  {
    var t := PumpDoes(s, a);
    CleanEndStays(s.links.up[..s.links.upSeen], t.links.up[..t.links.upSeen]);
  }

  lemma SettlementPump(s: State, a: PumpStep)
    requires SettlementInv(s) && PumpCan(s, a)
    ensures SettlementInv(PumpDoes(s, a))
  {
    OpeningPump(s, a);
    AccountsPump(s, a);
    ToldPump(s, a);
    UploadToldPump(s, a);
    ConcludedPump(s, a);
  }

  lemma SettlementWire(s: State, a: WireStep)
    requires SettlementInv(s) && WireCan(s, a)
    ensures SettlementInv(WireDoes(s, a))
  {
  }

  lemma SettlementStep(s: State, a: Step)
    requires SettlementInv(s) && Enabled(s, a)
    ensures SettlementInv(Do(s, a))
  {
    match a
    case ByStarter(x) => SettlementStarter(s, x);
    case ByUpload(x) => SettlementUpload(s, x);
    case ByLoop(x) => SettlementLoop(s, x);
    case BySession(x) => SettlementSession(s, x);
    case ByCaller(x) => SettlementCaller(s, x);
    case ByGuard(x) => SettlementGuard(s, x);
    case ByTether(x) => SettlementTether(s, x);
    case ByPump(x) => SettlementPump(s, x);
    case ByWire(x) => SettlementWire(s, x);
  }
}
