/** What `TunnelCompletion.SessionFailedIsFinal` asks of the session is needed: a frame
    that ends the hub's loop bars the way for all streams behind it. */
module TunnelBarred {
  import opened Prelude
  import opened Frames
  import opened Stream
  import opened StreamSafety
  import opened StreamSettlement
  import opened StreamRuns
  import opened StreamDebts
  import opened StreamFailure
  import opened Tunnel
  import opened TunnelProjection
  import opened TunnelRuns
  import opened TunnelDebts
  import opened TunnelOutcome

  /** The loop has ended, or the next frame ends it: a GOAWAY, or a PING that cannot be
      answered. */
  predicate Barred(m: Multi) {
    && m.loop == Idle
    && (m.session.loopGone
        || (m.upSeen < |m.up|
            && (m.up[m.upSeen].GoAway? || (m.up[m.upSeen] == Ping && m.session.writerGone))))
  }

  /** Without the loop no step of a stream completes it. */
  lemma OthersFail(s: State, a: Step)
    requires Enabled(s, a) && !a.ByLoop?
    ensures s.cell.outcome == Failed ==> Do(s, a).cell.outcome == Failed
  {
    match a
    case ByCaller(x) => CallerKeeps(s, x);
    case ByGuard(x) => GuardFrame(s, x);
    case _ =>
  }

  lemma BarredAct(m: Multi, id: u16, a: Step, j: u16)
    requires Barred(m) && Able(m, Act(id, a))
    ensures Barred(Lift(m, id, a))
    ensures PartOf(m, j).cell.outcome == Failed ==> PartOf(Lift(m, id, a), j).cell.outcome == Failed
  {
    assert !a.ByLoop?;
    Effects(View(m, id), a);
    OthersFail(View(m, id), a);
  }

  lemma BarredStep(m: Multi, a: MultiStep, j: u16)
    requires Barred(m) && Able(m, a)
    ensures Barred(Perform(m, a))
    ensures PartOf(m, j).cell.outcome == Failed ==> PartOf(Perform(m, a), j).cell.outcome == Failed
  {
    if a.Act? {
      BarredAct(m, a.id, a.step, j);
    }
  }

  lemma {:induction false} BarredForEver(m: Multi, more: seq<MultiStep>, n: Multi, j: u16)
    requires Barred(m) && PartOf(m, j).cell.outcome == Failed && Play(m, more) == Some(n)
    ensures PartOf(n, j).cell.outcome == Failed
    decreases |more|
  {
    if more != [] {
      BarredStep(m, more[0], j);
      BarredForEver(Perform(m, more[0]), more[1..], n, j);
    }
  }

  lemma Goes(m: Multi, a: MultiStep) returns (n: Multi)
    requires Attained(m) && Able(m, a)
    ensures n == Perform(m, a) && Attained(n)
  {
    n := Perform(m, a);
    PlayOne(m, a);
    GoesOn(m, [a], n);
  }

  lemma FirstNumbered() returns (m: Multi)
    ensures Attained(m) && Indexed(m) && m.session == Session(false, false, false, false, false)
    ensures m.router == Numbered(1) && m.loop == Idle && m.parts == map[] && m.permits == 1
    ensures m.up == m.down == [] && m.upSeen == m.upWritten == m.downSeen == m.downWritten == 0
  {
    m := Start();
    assert Play(Start(), []) == Some(m);
    assert Attains([], m);
    assert InMap(m) == {};
    m := Goes(m, Reserve);
    m := Goes(m, Number);
  }

  lemma FirstAdmitted() returns (m: Multi)
    ensures Attained(m) && Indexed(m) && m.session == Session(false, false, false, false, false)
    ensures m.router == Starting(1) && m.loop == Idle && m.permits == 1
    ensures m.up == m.down == [] && m.upSeen == m.upWritten == m.downSeen == m.downWritten == 0
    ensures View(m, 1) == Do(Fresh(1), ByStarter(Admit))
  {
    m := FirstNumbered();
    assert InMap(m) == {};
    assert View(m, 1) == Fresh(1);
    ViewSelf(m, 1, ByStarter(Admit));
    m := Goes(m, Act(1, ByStarter(Admit)));
  }

  /** Stream 1 is admitted and its OPEN queued. */
  lemma FirstQueued() returns (m: Multi)
    ensures Attained(m) && Indexed(m) && m.session == Session(false, false, false, false, false)
    ensures m.router == Starting(1) && m.loop == Idle && m.permits == 0
    ensures m.up == [] && m.down == [Open(1, [])] && m.upSeen == m.upWritten == m.downSeen == m.downWritten == 0
    ensures View(m, 1) == Do(Do(Fresh(1), ByStarter(Admit)), ByStarter(SendOpen([])))
  {
    m := FirstAdmitted();
    ViewSelf(m, 1, ByStarter(SendOpen([])));
    m := Goes(m, Act(1, ByStarter(SendOpen([]))));
  }

  /** A stream of which nothing but its OPEN has been written. */
  predicate OpenOnly(s: State) {
    && s.links == Links([], 0, 0, [Open(1, [])], 1, 0) && s.tether.pump == None
    && s.hub.starter == Opened && s.cell == Fresh(1).cell.(inMap := true) && s.client == Fresh(1).client
  }

  /** Its OPEN has been written. */
  lemma FirstOpened() returns (m: Multi)
    ensures Attained(m) && Indexed(m) && m.session == Session(false, false, false, false, false)
    ensures m.router == Starting(1) && m.loop == Idle && m.up == [] && m.upSeen == m.upWritten == 0 && Room(m)
    ensures OpenOnly(View(m, 1))
  {
    m := FirstQueued();
    ViewHubWrites(m, 1);
    m := Goes(m, Write);
  }

  /** The tether puts `f` on the link. */
  lemma FirstSent(f: Frame) returns (m: Multi)
    requires f == Ping || f.GoAway?
    ensures Attained(m) && Indexed(m) && m.session == Session(false, false, false, false, false)
    ensures m.router == Starting(1) && m.loop == Idle && m.up == [f] && m.upSeen == 0 && Room(m)
    ensures OpenOnly(View(m, 1))
  {
    m := FirstOpened();
    ViewTetherSent(m, f, 1);
    m := Goes(m, TetherControl(f));
  }

  /** With PING the hub's writer goes. */
  lemma FirstBarred(f: Frame) returns (m: Multi)
    requires f == Ping || f.GoAway?
    ensures Attained(m) && Indexed(m) && Barred(m) && (Room(m) || m.session.writerGone)
    ensures m.session == Session(false, false, f == Ping, false, false)
    ensures m.router == Starting(1) && m.loop == Idle && m.up == [f] && m.upSeen == 0
    ensures OpenOnly(View(m, 1))
  {
    m := FirstSent(f);
    if f == Ping {
      ViewWhole(m, Flag(WriterGone), 1);
      m := Goes(m, Flag(WriterGone));
    }
  }

  /** Nothing but the cell and the hub's side of stream 1 moved. */
  predicate OnlyMoved(m: Multi, n: Multi)
    requires Indexed(m)
  {
    && Indexed(n) && Barred(n) && n.session == m.session && n.up == m.up && n.upSeen == m.upSeen
    && (Room(m) ==> Room(n))
    && View(n, 1) == View(m, 1).(cell := PartOf(n, 1).cell, hub := View(n, 1).hub)
  }

  lemma GoesBarred(m: Multi, a: Step) returns (n: Multi)
    requires Attained(m) && Indexed(m) && Barred(m) && Able(m, Act(1, a))
    requires a.ByUpload? || (a.ByStarter? && a.starter.Spawn?)
    requires Do(View(m, 1), a).session == m.session && Do(View(m, 1), a).links == View(m, 1).links
    ensures n == Lift(m, 1, a) && Attained(n) && OnlyMoved(m, n) && View(n, 1) == Do(View(m, 1), a)
  {
    ViewSelf(m, 1, a);
    BarredStep(m, Act(1, a), 1);
    n := Goes(m, Act(1, a));
  }

  /** The caller's body breaks off at once. */
  lemma BarredBreaks(m: Multi) returns (n: Multi)
    requires Attained(m) && Indexed(m) && Barred(m) && (Room(m) || m.session.writerGone)
    requires m.router == Starting(1) && View(m, 1).hub.starter == Opened && !View(m, 1).cell.completed
    ensures Attained(n) && OnlyMoved(m, n)
    ensures View(n, 1).hub.upload == Failing(Store) && View(n, 1).hub.loop == Idle
    ensures View(n, 1).cell == View(m, 1).cell
  {
    n := GoesBarred(m, ByStarter(Spawn(Body([], false))));
    n := GoesBarred(n, ByUpload(UploadEnd));
    n := GoesBarred(n, ByUpload(UploadCheck));
  }

  lemma BarredFails(m: Multi) returns (n: Multi)
    requires Attained(m) && Indexed(m) && Barred(m) && View(m, 1).hub.upload == Failing(Store)
    requires View(m, 1).hub.loop == Idle
    ensures Attained(n) && OnlyMoved(m, n) && View(n, 1).hub.loop == Idle
    ensures View(n, 1).cell.outcome == Failed
    ensures View(n, 1).cell.inMap == View(m, 1).cell.inMap && View(n, 1).cell.head == View(m, 1).cell.head
  {
    n := GoesBarred(m, ByUpload(UploadFail));
    n := GoesBarred(n, ByUpload(UploadFail));
    n := GoesBarred(n, ByUpload(UploadFail));
  }

  lemma AsksForNothing(s: State)
    requires s.links == Links([], 0, 0, [Open(1, [])], 1, 0) && s.tether.pump == None
    requires s.cell.inMap && s.cell.head == None && s.hub.loop == Idle && s.id == 1
    requires !s.session.loopGone && !s.session.tetherGone
    ensures MayComplete(s)
  {
    assert Ahead(s) == [RespHead(1, []), End(1, [])];
    assert Ahead(s)[1..] == [End(1, [])];
  }

  /** What `SessionFailedIsFinal` asks for is needed: with a GOAWAY on its way, or a
      PING and no writer to answer it, a failed stream that might be completed if it
      were alone stays failed. */
  lemma BarredStaysFailed(f: Frame) returns (m: Multi)
    requires f == Ping || f.GoAway?
    ensures Attained(m) && Indexed(m) && m.up == [f] && m.upSeen == 0 && m.session.writerGone == (f == Ping)
    ensures InOrder(View(m, 1).links) && MayComplete(View(m, 1)) && AlwaysHas(m, 1, Failed)
  {
    m := FirstBarred(f);
    m := BarredBreaks(m);
    m := BarredFails(m);
    AsksForNothing(View(m, 1));
    forall more, n | Play(m, more) == Some(n) ensures PartOf(n, 1).cell.outcome == Failed {
      BarredForEver(m, more, n, 1);
    }
  }
}
