/** What is owed is paid: under any interleaving, the actors that have still to tell
    the tether, or to decide a stream for its caller, need a bounded number of their
    own turns, and each of these turns is always possible. */
module StreamDebts {
  import opened Prelude
  import opened Frames
  import opened Stream
  import opened StreamSafety
  import opened StreamSettlement
  import opened StreamRuns

  datatype Actor = TheLoop | TheUpload | TheGuard | TheCloser

  function ActorOf(a: Step): Option<Actor> {
    match a
    case ByLoop(_) => Some(TheLoop)
    case ByUpload(_) => Some(TheUpload)
    case ByGuard(_) => Some(TheGuard)
    case BySession(x) => if x == CloseFail then Some(TheCloser) else None
    case _ => None
  }

  function FinLeft(fin: Fin): nat {
    match fin
    case Store => 3
    case Abort => 2
    case Publish => 1
  }

  /** How many of its own turns an actor needs at most before it owes nothing. */
  function Debt(s: State, w: Actor): nat {
    match w
    case TheLoop => (
      match s.hub.loop
      case Finishing(fin, _, notify) => if notify then FinLeft(fin) + 2 else 0
      case Removing(notify) => if notify then 2 else 0
      case Notifying => 1
      case _ => 0
    )
    case TheUpload => (
      match s.hub.upload
      case Failing(fin) => FinLeft(fin) + 1
      case Reporting => 1
      case _ => 0
    )
    case TheGuard => if s.client.guard == Removed then 2 else if s.client.guard == MustNotify then 1 else 0
    case TheCloser => if s.hub.closer.CloserAt? then FinLeft(s.hub.closer.fin) else 0
  }

  /** The next turn of an actor that owes something; `full` is how it finds the
      command queue. */
  function Turn(s: State, w: Actor, full: bool): Step
    requires Debt(s, w) > 0
  {
    match w
    case TheLoop =>
      ByLoop(if s.hub.loop.Finishing? then LoopFinish
             else if s.hub.loop.Removing? then LoopRemove else LoopNotify(full))
    case TheUpload => ByUpload(if s.hub.upload.Failing? then UploadFail else UploadReport(full))
    case TheGuard => ByGuard(if s.client.guard == Removed then DropCheck else DropNotify(full))
    case TheCloser => BySession(CloseFail)
  }

  lemma TurnIsPossible(s: State, w: Actor, full: bool)
    requires Debt(s, w) > 0
    ensures Enabled(s, Turn(s, w, full)) && ActorOf(Turn(s, w, full)) == Some(w)
  {
  }

  /** Owing is having a debt. */
  lemma OwedIsDebt(s: State)
    ensures HubOwes(s.hub) <==> Debt(s, TheLoop) > 0 || Debt(s, TheUpload) > 0
    ensures GuardOwes(s.client) <==> Debt(s, TheGuard) > 0
  {
  }

  /** What has come about once an actor's debt is paid: the stream is settled with
      the tether, or is over and the hub accounts for it, or is decided. */
  ghost predicate Paid(s: State, w: Actor) {
    match w
    case TheLoop => Settled(s.links, s.session)
    case TheUpload => Settled(s.links, s.session)
    case TheGuard => Settled(s.links, s.session) || s.cell.completed
    case TheCloser => Terminal(s.cell)
  }

  // ---- One step -----------------------------------------------------------------

  /** Nothing is taken back: logs only grow, the session only ends, and a verdict is
      replaced only by a verdict. */
  predicate Advances(s: State, t: State) {
    && s.links.up <= t.links.up && s.links.down <= t.links.down
    && (s.session.closed ==> t.session.closed)
    && (s.session.cancelled ==> t.session.cancelled)
    && (s.session.writerGone ==> t.session.writerGone)
    && (s.cell.completed ==> t.cell.completed)
    && (s.cell.outcome != Undecided ==> t.cell.outcome != Undecided)
  }

  lemma LoopAdvances(s: State, a: LoopStep)
    requires LoopCan(s, a) && (s.hub.loop.Finishing? ==> s.hub.loop.verdict != Undecided)
    ensures Advances(s, LoopDoes(s, a))
  {
  }

  lemma UploadAdvances(s: State, a: UploadStep)
    requires UploadCan(s, a)
    ensures Advances(s, UploadDoes(s, a))
  {
  }

  lemma HubAdvances(s: State, a: Step)
    requires Enabled(s, a) && (a.ByStarter? || a.BySession?)
    ensures Advances(s, Do(s, a))
  {
  }

  lemma TetherAdvances(s: State, a: Step)
    requires Enabled(s, a) && (a.ByTether? || a.ByPump?)
    ensures Advances(s, Do(s, a))
  {
  }

  lemma ClientAdvances(s: State, a: Step)
    requires Enabled(s, a) && (a.ByCaller? || a.ByGuard?)
    ensures Advances(s, Do(s, a))
  {
    if a.ByCaller? {
      CallerKeeps(s, a.caller);
    }
  }

  lemma StepAdvances(s: State, a: Step)
    requires Enabled(s, a) && (s.hub.loop.Finishing? ==> s.hub.loop.verdict != Undecided)
    ensures Advances(s, Do(s, a))
  {
    match a
    case ByUpload(x) => UploadAdvances(s, x);
    case ByLoop(x) => LoopAdvances(s, x);
    case ByStarter(_) => HubAdvances(s, a);
    case BySession(_) => HubAdvances(s, a);
    case ByCaller(_) => ClientAdvances(s, a);
    case ByGuard(_) => ClientAdvances(s, a);
    case ByTether(_) => TetherAdvances(s, a);
    case ByPump(_) => TetherAdvances(s, a);
    case ByWire(_) =>
  }

  lemma PaidStays(s: State, t: State, w: Actor)
    requires Paid(s, w) && Advances(s, t)
    ensures Paid(t, w)
  {
    StaysSettled(s, t);
  }

  /** Its own turn brings an actor nearer, nobody else's moves it, and its last turn
      pays. */
  lemma DebtTurn(s: State, a: Step, w: Actor)
    requires Inv(s) && Enabled(s, a) && Debt(s, w) > 0
    ensures var t := Do(s, a);
      if ActorOf(a) == Some(w) then Debt(t, w) < Debt(s, w) && (Debt(t, w) == 0 ==> Paid(t, w))
      else Debt(t, w) == Debt(s, w)
  {
    match w
    case TheLoop => LoopTurn(s, a);
    case TheUpload => UploadTurn(s, a);
    case TheGuard => GuardTurn(s, a);
    case TheCloser => CloserTurn(s, a);
  }

  lemma LoopTurn(s: State, a: Step)
    requires Enabled(s, a) && Debt(s, TheLoop) > 0
    ensures var t := Do(s, a);
      if a.ByLoop? then
        Debt(t, TheLoop) == Debt(s, TheLoop) - 1 && (Debt(t, TheLoop) == 0 ==> Settled(t.links, t.session))
      else Debt(t, TheLoop) == Debt(s, TheLoop)
  {
    match a
    case ByLoop(x) => StaysSettled(s, Do(s, a));
    case ByCaller(x) => CallerKeeps(s, x);
    case ByGuard(x) => GuardFrame(s, x);
    case _ =>
  }

  lemma UploadTurn(s: State, a: Step)
    requires Enabled(s, a) && Debt(s, TheUpload) > 0 && s.hub.starter != Opened
    ensures var t := Do(s, a);
      if a.ByUpload? then
        Debt(t, TheUpload) == Debt(s, TheUpload) - 1 && (Debt(t, TheUpload) == 0 ==> Settled(t.links, t.session))
      else Debt(t, TheUpload) == Debt(s, TheUpload)
  {
    match a
    case ByUpload(x) => StaysSettled(s, Do(s, a));
    case ByCaller(x) => CallerKeeps(s, x);
    case ByLoop(x) => LoopFrame(s, x);
    case ByGuard(x) => GuardFrame(s, x);
    case _ =>
  }

  lemma GuardTurn(s: State, a: Step)
    requires Enabled(s, a) && Debt(s, TheGuard) > 0
    ensures var t := Do(s, a);
      if a.ByGuard? then
        Debt(t, TheGuard) < Debt(s, TheGuard) &&
        (Debt(t, TheGuard) == 0 ==> Settled(t.links, t.session) || t.cell.completed)
      else Debt(t, TheGuard) == Debt(s, TheGuard)
  {
    match a
    case ByGuard(x) => StaysSettled(s, Do(s, a));
    case ByCaller(x) => CallerKeeps(s, x);
    case ByLoop(x) => LoopFrame(s, x);
    case _ =>
  }

  lemma CloserTurn(s: State, a: Step)
    requires Enabled(s, a) && Debt(s, TheCloser) > 0 && CloserTold(s.cell, s.hub.closer, s.session.closed)
    ensures var t := Do(s, a);
      if a == BySession(CloseFail) then
        Debt(t, TheCloser) == Debt(s, TheCloser) - 1 && (Debt(t, TheCloser) == 0 ==> Terminal(t.cell))
      else Debt(t, TheCloser) == Debt(s, TheCloser)
  {
    match a
    case ByCaller(x) => CallerKeeps(s, x);
    case ByLoop(x) => LoopFrame(s, x);
    case _ =>
  }

  // ---- Every run ------------------------------------------------------------------

  function Turns(run: seq<Step>, w: Actor): nat {
    if run == [] then 0 else (if ActorOf(run[0]) == Some(w) then 1 else 0) + Turns(run[1..], w)
  }

  lemma {:induction false} PaidForEver(s: State, run: seq<Step>, t: State, w: Actor)
    requires Inv(s) && Paid(s, w) && Execute(s, run) == Some(t)
    ensures Paid(t, w)
    decreases |run|
  {
    if run != [] {
      var u := Do(s, run[0]);
      StepAdvances(s, run[0]);
      PaidStays(s, u, w);
      StepKeeps(s, run[0]);
      PaidForEver(u, run[1..], t, w);
    }
  }

  lemma {:induction false} DebtRuns(s: State, run: seq<Step>, t: State, w: Actor)
    requires Inv(s) && Debt(s, w) > 0 && Execute(s, run) == Some(t)
    ensures Paid(t, w) || (Debt(t, w) > 0 && Debt(t, w) + Turns(run, w) <= Debt(s, w))
    decreases |run|
  {
    if run != [] {
      var u := Do(s, run[0]);
      DebtTurn(s, run[0], w);
      StepKeeps(s, run[0]);
      if Debt(u, w) == 0 {
        PaidForEver(u, run[1..], t, w);
      } else {
        DebtRuns(u, run[1..], t, w);
      }
    }
  }

  /** However the others interleave, an actor that owes something has paid once it
      has had as many turns as its debt, at most five; and until then its next turn
      is possible, whether or not the queue is full. */
  lemma DebtsArePaid(id: u16, run: seq<Step>, s: State, more: seq<Step>, t: State, w: Actor)
    requires Reaches(id, run, s) && Debt(s, w) > 0 && Execute(s, more) == Some(t)
    ensures Debt(s, w) <= 5
    ensures Turns(more, w) >= Debt(s, w) ==> Paid(t, w)
    ensures !Paid(t, w) ==> Debt(t, w) > 0 && forall full :: Enabled(t, Turn(t, w, full))
  {
    ReachableInv(id, run, s);
    DebtRuns(s, more, t, w);
    if Debt(t, w) > 0 {
      forall full ensures Enabled(t, Turn(t, w, full)) {
        TurnIsPossible(t, w, full);
      }
    }
  }

  /** A guard that has paid has settled the stream, or the hub's own debt will. */
  lemma GuardHasPaid(id: u16, run: seq<Step>, s: State)
    requires Reaches(id, run, s) && Paid(s, TheGuard)
    ensures Settled(s.links, s.session) || HubOwes(s.hub)
  {
    ReachableInv(id, run, s);
    GuardLeaves(s);
  }

  // ---- Left to themselves -----------------------------------------------------------

  lemma OwnTurn(s: State, w: Actor, full: bool) returns (a: Step, t: State)
    requires Inv(s) && Debt(s, w) > 0
    ensures Execute(s, [a]) == Some(t) && Inv(t) && ActorOf(a) == Some(w)
    ensures Debt(t, w) < Debt(s, w) && (Debt(t, w) == 0 ==> Paid(t, w))
  {
    a := Turn(s, w, full);
    TurnIsPossible(s, w, full);
    t := Do(s, a);
    DebtTurn(s, a, w);
    StepKeeps(s, a);
    OneStep(s, a);
  }

  /** The run of one actor's own turns until it has paid. */
  lemma {:induction false} PaysAlone(s: State, w: Actor, full: bool) returns (own: seq<Step>, t: State)
    requires Inv(s) && Debt(s, w) > 0
    ensures Execute(s, own) == Some(t) && Inv(t) && Paid(t, w) && |own| <= Debt(s, w)
    ensures forall i :: 0 <= i < |own| ==> ActorOf(own[i]) == Some(w)
    decreases Debt(s, w)
  {
    var a, u := OwnTurn(s, w, full);
    own, t := [a], u;
    if Debt(u, w) > 0 {
      var rest;
      rest, t := PaysAlone(u, w, full);
      ExecuteTwice(s, [a], u, rest);
      own := [a] + rest;
    }
  }

  lemma DebtIsSmall(s: State)
    ensures Debt(s, TheLoop) <= 5 && Debt(s, TheUpload) <= 4 && Debt(s, TheGuard) <= 2
  {
  }

  /** Settled, or the hub owes it. */
  lemma GuardLeaves(s: State)
    requires Inv(s) && Paid(s, TheGuard)
    ensures Settled(s.links, s.session) || HubOwes(s.hub)
  {
  }

  /** From every state in which somebody owes the tether an END, the turns of those
      who owe it, at most seven, settle the stream. */
  lemma OwedIsSettled(id: u16, run: seq<Step>, s: State, full: bool) returns (own: seq<Step>, t: State)
    requires Reaches(id, run, s) && Owed(s.hub, s.client)
    ensures Execute(s, own) == Some(t) && Settled(t.links, t.session) && |own| <= 7
    ensures forall i :: 0 <= i < |own| ==> ActorOf(own[i]).Some? && ActorOf(own[i]) != Some(TheCloser)
  {
    ReachableInv(id, run, s);
    OwedIsDebt(s);
    DebtIsSmall(s);
    if HubOwes(s.hub) {
      own, t := HubPays(s, full);
    } else {
      own, t := PaysAlone(s, TheGuard, full);
      GuardLeaves(t);
      if !Settled(t.links, t.session) {
        var first := own;
        var u := t;
        own, t := HubPays(u, full);
        ExecuteTwice(s, first, u, own);
        own := first + own;
      }
    }
  }

  lemma HubPays(s: State, full: bool) returns (own: seq<Step>, t: State)
    requires Inv(s) && HubOwes(s.hub)
    ensures Execute(s, own) == Some(t) && Settled(t.links, t.session) && |own| <= 5
    ensures forall i :: 0 <= i < |own| ==> ActorOf(own[i]) == Some(TheLoop) || ActorOf(own[i]) == Some(TheUpload)
  {
    OwedIsDebt(s);
    DebtIsSmall(s);
    if Debt(s, TheLoop) > 0 {
      own, t := PaysAlone(s, TheLoop, full);
    } else {
      own, t := PaysAlone(s, TheUpload, full);
    }
  }

  // ---- The caller is answered ---------------------------------------------------------

  /** The next step of a caller that is still waiting or reading. */
  function NextLook(at: Caller): CallerStep
    requires at != Ended && at != NoAnswer
  {
    match at
    case Waiting => ReadHead
    case HeadMissing => ReadCompleted
    case Streaming => PollFailed
    case NotFailed => PollComplete
    case CompletionRead => PollReceive(false)
  }

  /** How many looks a decided stream's caller needs at most. */
  function Looks(c: Cell, at: Caller): nat {
    var q := 3 * |c.queue|;
    match at
    case Waiting => q + 6
    case HeadMissing => 1
    case Streaming => if c.outcome == Failed then 1 else q + 4
    case NotFailed => if c.outcome == Failed then 3 else q + 3
    case CompletionRead => if c.outcome == Failed then 2 else q + if c.rx == Draining then 2 else 5
    case _ => 0
  }

  /** The last thing a caller is handed. */
  predicate Answers(k: Client, c: Cell) {
    && k.at == Ended && k.trace != []
    && var last := k.trace[|k.trace| - 1];
       && (c.outcome == Complete ==> last == Eof)
       && (c.outcome == Failed && c.rx == Receiving ==> last == Error)
       && !last.Chunk?
  }

  /** The whole of what was queued is handed out by the end. */
  predicate HandsOut(s: State, k: Client) {
    ChunksOf(k.trace) == ChunksOf(s.client.trace) + s.cell.queue
  }

  predicate Looking(s: State) {
    && Terminal(s.cell) && CallerActive(s) && s.cell.rx != Dropped
    && s.client.at != Ended && s.client.at != NoAnswer
  }

  lemma OneLook(s: State)
    requires Looking(s)
    ensures CallerCan(s, NextLook(s.client.at))
    ensures var t := CallerDoes(s, NextLook(s.client.at));
      || t.client.at == NoAnswer
      || Answers(t.client, s.cell)
      || (Looking(t) && Looks(t.cell, t.client.at) < Looks(s.cell, s.client.at)
          && t.cell.outcome == s.cell.outcome && (s.cell.outcome == Failed ==> t.cell.rx == s.cell.rx))
  {
  }

  lemma ChunkHandsOut(trace: seq<Item>, queue: seq<Bytes>)
    requires queue != []
    ensures ChunksOf(trace + [Chunk(queue[0])]) + queue[1..] == ChunksOf(trace) + queue
  {
    TraceGrows(trace, Chunk(queue[0]));
    assert queue == [queue[0]] + queue[1..];
    Assoc(ChunksOf(trace), [queue[0]], queue[1..]);
  }

  /** A look at a complete stream hands out the next chunk, or leaves them queued. */
  lemma LookHandsOut(s: State)
    requires Looking(s) && s.cell.outcome == Complete
    ensures CallerCan(s, NextLook(s.client.at))
    ensures var t := CallerDoes(s, NextLook(s.client.at));
      && ChunksOf(t.client.trace) + t.cell.queue == ChunksOf(s.client.trace) + s.cell.queue
      && (t.client.at == Ended ==> HandsOut(s, t.client))
  {
    match s.client.at
    case CompletionRead =>
      if s.cell.queue != [] {
        ChunkHandsOut(s.client.trace, s.cell.queue);
      } else {
        TraceGrows(s.client.trace, Eof);
      }
    case _ =>
  }

  /** A head that is there is seen, and a complete stream is no error. */
  lemma LookSees(s: State)
    requires Looking(s)
    ensures CallerCan(s, NextLook(s.client.at))
    ensures var t := CallerDoes(s, NextLook(s.client.at));
      && t.cell.head == s.cell.head
      && (s.cell.head.Some? && s.client.at != HeadMissing ==> t.client.at != HeadMissing && t.client.at != NoAnswer)
      && (s.cell.outcome == Complete && Error !in s.client.trace ==> Error !in t.client.trace)
  {
  }

  lemma {:induction false} LooksOn(s: State) returns (own: seq<Step>, t: State)
    requires Looking(s)
    ensures Execute(s, own) == Some(t) && |own| <= Looks(s.cell, s.client.at) && forall i :: 0 <= i < |own| ==>
      own[i].ByCaller?
    ensures t.client.at == NoAnswer || Answers(t.client, s.cell)
    ensures t.client.at != NoAnswer && s.cell.outcome == Complete ==> HandsOut(s, t.client)
    ensures s.cell.head.Some? && s.client.at != HeadMissing ==> t.client.at != NoAnswer
    ensures s.cell.outcome == Complete && Error !in s.client.trace ==> Error !in t.client.trace
    decreases Looks(s.cell, s.client.at)
  {
    var a := ByCaller(NextLook(s.client.at));
    OneLook(s);
    t := Do(s, a);
    OneStep(s, a);
    own := [a];
    LookSees(s);
    if s.cell.outcome == Complete {
      LookHandsOut(s);
    }
    if t.client.at != NoAnswer && !Answers(t.client, s.cell) {
      var u, rest := t, [];
      rest, t := LooksOn(u);
      ExecuteTwice(s, [a], u, rest);
      own := [a] + rest;
    }
  }

  /** Once its stream is decided, as it is when the session's closer has had its
      three turns, a caller that is still there is answered by a bounded number of
      looks of its own: it is told that there is no answer, or its body ends, with
      an error if the stream failed before it was seen complete, and after all that
      is queued and without an error if it is complete. */
  lemma DecidedIsAnswered(id: u16, run: seq<Step>, s: State) returns (own: seq<Step>, t: State)
    requires Reaches(id, run, s) && Terminal(s.cell) && CallerActive(s)
    requires s.client.at != Ended && s.client.at != NoAnswer
    ensures Execute(s, own) == Some(t) && |own| <= 3 * |s.cell.queue| + 6 && forall i :: 0 <= i < |own| ==>
      own[i].ByCaller?
    ensures t.client.at == NoAnswer || Answers(t.client, s.cell)
    ensures t.client.at != NoAnswer && s.cell.outcome == Complete ==>
      ChunksOf(t.client.trace) == ChunksOf(s.client.trace) + s.cell.queue
  {
    ReachableInv(id, run, s);
    own, t := LooksOn(s);
  }
}
