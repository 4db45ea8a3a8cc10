/** What a session's streams owe is paid in the session too: there the turns share
    the command queue and the frame loop, and are still always possible. */
module TunnelDebts {
  import opened Prelude
  import opened Frames
  import opened Stream
  import opened StreamSafety
  import opened StreamSettlement
  import opened StreamRuns
  import opened StreamDebts
  import opened StreamOutcome
  import opened Tunnel
  import opened TunnelProjection
  import opened TunnelRuns

  // ---- Going on from a session --------------------------------------------------------

  lemma {:induction false} PlayTwice(m: Multi, first: seq<MultiStep>, n: Multi, second: seq<MultiStep>)
    requires Play(m, first) == Some(n)
    ensures Play(m, first + second) == Play(n, second)
    decreases |first|
  {
    if first == [] {
      assert first + second == second;
    } else {
      PlayTwice(Perform(m, first[0]), first[1..], n, second);
      assert (first + second)[1..] == first[1..] + second;
    }
  }

  lemma PlayOne(m: Multi, a: MultiStep)
    requires Able(m, a)
    ensures Play(m, [a]) == Some(Perform(m, a))
  {
    assert [a][1..] == [];
  }

  /** Some run leads from the start to `m`. */
  ghost predicate Attained(m: Multi) {
    exists run :: Attains(run, m)
  }

  lemma GoesOn(m: Multi, more: seq<MultiStep>, n: Multi)
    requires Attained(m) && Play(m, more) == Some(n)
    ensures Attained(n)
  {
    var run :| Attains(run, m);
    PlayTwice(Start(), run, m, more);
    assert Attains(run + more, n);
  }

  /** What holds of every stream of such a session. */
  lemma AttainedFacts(m: Multi, j: u16)
    requires Attained(m)
    ensures Admission(m) && Inv(View(m, j)) && Last(View(m, j))
  {
    var run :| Attains(run, m);
    AttainsAdmission(run, m);
    AttainsReaches(run, m, j);
    ReachableLast(j, OwnRun(Start(), run, j), View(m, j));
  }

  lemma AttainedIsIndexed(m: Multi)
    requires Attained(m)
    ensures Indexed(m)
  {
    var run :| Attains(run, m);
    AttainsReaches(run, m, 0);
  }

  lemma ActGoesOn(m: Multi, j: u16, a: Step)
    requires Attained(m) && Able(m, Act(j, a))
    ensures var n := Perform(m, Act(j, a));
      && Play(m, [Act(j, a)]) == Some(n) && Attained(n)
      && Indexed(n) && View(n, j) == Do(View(m, j), a)
  {
    PlayOne(m, Act(j, a));
    GoesOn(m, [Act(j, a)], Perform(m, Act(j, a)));
    ViewSelf(m, j, a);
  }

  // ---- Debts -----------------------------------------------------------------------------

  /** The turn of an actor that owes something is possible in the session, with the
      command queue as it is. */
  lemma TurnIsAble(m: Multi, j: u16, w: Actor)
    requires Indexed(m) && Debt(View(m, j), w) > 0
    ensures Able(m, Act(j, Turn(View(m, j), w, !Room(m))))
  {
  }

  /** Each of these steps is a turn of an actor of stream `j` that owes something. */
  predicate OwnTurns(more: seq<MultiStep>, j: u16) {
    forall i :: 0 <= i < |more| ==> more[i].Act? && more[i].id == j && ActorOf(more[i].step).Some?
  }

  /** What a turn does to the debt, whatever else holds of the stream. */
  lemma TurnPays(m: Multi, j: u16, w: Actor, full: bool)
    requires Attained(m) && Indexed(m) && Debt(View(m, j), w) > 0
    ensures Enabled(View(m, j), Turn(View(m, j), w, full))
    ensures var t := Do(View(m, j), Turn(View(m, j), w, full));
      Debt(t, w) < Debt(View(m, j), w) && (Debt(t, w) == 0 ==> Paid(t, w))
  {
    AttainedFacts(m, j);
    TurnIsPossible(View(m, j), w, full);
    DebtTurn(View(m, j), Turn(View(m, j), w, full), w);
  }

  lemma OwnTurnInSession(m: Multi, j: u16, w: Actor) returns (a: MultiStep, n: Multi)
    requires Attained(m) && Indexed(m) && Debt(View(m, j), w) > 0
    ensures Play(m, [a]) == Some(n) && Attained(n) && Indexed(n) && OwnTurns([a], j)
    ensures Debt(View(n, j), w) < Debt(View(m, j), w) && (Debt(View(n, j), w) == 0 ==> Paid(View(n, j), w))
  {
    var step := Turn(View(m, j), w, !Room(m));
    TurnIsAble(m, j, w);
    TurnIsPossible(View(m, j), w, !Room(m));
    TurnPays(m, j, w, !Room(m));
    a, n := Act(j, step), Perform(m, Act(j, step));
    ActGoesOn(m, j, step);
  }

  lemma {:induction false} PaysInSession(m: Multi, j: u16, w: Actor) returns (more: seq<MultiStep>, n: Multi)
    requires Attained(m) && Indexed(m) && Debt(View(m, j), w) > 0
    ensures Play(m, more) == Some(n) && Attained(n) && Indexed(n) && Paid(View(n, j), w)
    ensures |more| <= Debt(View(m, j), w) && OwnTurns(more, j)
    decreases Debt(View(m, j), w)
  {
    var a, next := OwnTurnInSession(m, j, w);
    more, n := [a], next;
    if Debt(View(next, j), w) > 0 {
      var rest;
      rest, n := PaysInSession(next, j, w);
      PlayTwice(m, [a], next, rest);
      more := [a] + rest;
    }
  }

  lemma GuardHasPaidInSession(m: Multi, j: u16)
    requires Attained(m) && Indexed(m) && Paid(View(m, j), TheGuard)
    ensures Settled(View(m, j).links, View(m, j).session) || HubOwes(View(m, j).hub)
  {
    AttainedFacts(m, j);
    GuardLeaves(View(m, j));
  }

  lemma HubPaysInSession(m: Multi, j: u16) returns (more: seq<MultiStep>, n: Multi)
    requires Attained(m) && Indexed(m) && HubOwes(View(m, j).hub)
    ensures Play(m, more) == Some(n) && Attained(n) && Indexed(n) && Settled(View(n, j).links, View(n, j).session)
    ensures |more| <= 5 && OwnTurns(more, j)
  {
    OwedIsDebt(View(m, j));
    DebtIsSmall(View(m, j));
    if Debt(View(m, j), TheLoop) > 0 {
      more, n := PaysInSession(m, j, TheLoop);
    } else {
      more, n := PaysInSession(m, j, TheUpload);
    }
  }

  /** From every state of a session in which a stream's END is owed, at most seven
      turns of those who owe it settle the stream. */
  lemma SessionOwedIsSettled(m: Multi, j: u16) returns (more: seq<MultiStep>, n: Multi)
    requires Attained(m) && Indexed(m) && Owed(View(m, j).hub, View(m, j).client)
    ensures Play(m, more) == Some(n) && Indexed(n) && Settled(View(n, j).links, View(n, j).session)
    ensures |more| <= 7 && OwnTurns(more, j)
  {
    OwedIsDebt(View(m, j));
    DebtIsSmall(View(m, j));
    if HubOwes(View(m, j).hub) {
      more, n := HubPaysInSession(m, j);
    } else {
      more, n := PaysInSession(m, j, TheGuard);
      GuardHasPaidInSession(n, j);
      if !Settled(View(n, j).links, View(n, j).session) {
        var next, rest := n, [];
        rest, n := HubPaysInSession(next, j);
        PlayTwice(m, more, next, rest);
        more := more + rest;
      }
    }
  }

  // ---- The caller ----------------------------------------------------------------------

  /** A caller's looks are never in anybody's way. */
  lemma {:induction false} LooksInSession(m: Multi, j: u16, own: seq<Step>, t: State)
    returns (more: seq<MultiStep>, n: Multi)
    requires Attained(m) && Indexed(m) && Execute(View(m, j), own) == Some(t)
    requires forall i :: 0 <= i < |own| ==> own[i].ByCaller?
    ensures Play(m, more) == Some(n) && Attained(n) && Indexed(n) && View(n, j) == t && |more| == |own|
    decreases |own|
  {
    more, n := [], m;
    if own != [] {
      assert own[0].ByCaller?;
      ActGoesOn(m, j, own[0]);
      var next, rest := Perform(m, Act(j, own[0])), [];
      rest, n := LooksInSession(next, j, own[1..], t);
      more := [Act(j, own[0])];
      PlayTwice(m, more, next, rest);
      more := more + rest;
    }
  }

  lemma StillLooking(s: State)
    requires Inv(s) && Terminal(s.cell) && CallerActive(s) && s.client.at != Ended && s.client.at != NoAnswer
    ensures Looking(s) && Looks(s.cell, s.client.at) <= 3 * |s.cell.queue| + 6
  {
  }

  /** In a session too a caller that is still there is answered by a bounded number
      of looks of its own once its stream is decided. */
  lemma SessionDecidedIsAnswered(m: Multi, j: u16) returns (more: seq<MultiStep>, n: Multi)
    requires Attained(m) && Indexed(m)
    requires var s := View(m, j);
      Terminal(s.cell) && CallerActive(s) && s.client.at != Ended && s.client.at != NoAnswer
    ensures Play(m, more) == Some(n) && Indexed(n) && |more| <= 3 * |View(m, j).cell.queue| + 6
    ensures View(n, j).client.at == NoAnswer || Answers(View(n, j).client, View(m, j).cell)
    ensures View(n, j).client.at != NoAnswer && View(m, j).cell.outcome == Complete ==>
      HandsOut(View(m, j), View(n, j).client)
  {
    AttainedFacts(m, j);
    StillLooking(View(m, j));
    var own, t := LooksOn(View(m, j));
    more, n := LooksInSession(m, j, own, t);
  }

  // ---- Teardown ---------------------------------------------------------------------------

  /** The streams whose closer is still at work. */
  function Closing(m: Multi): set<u16> {
    set j | j in m.parts && m.parts[j].closer.CloserAt?
  }

  lemma ClosingActs(m: Multi, j: u16)
    requires Indexed(m) && j in m.parts && m.parts[j].closer.CloserAt?
    ensures Able(m, Act(j, BySession(CloseFail)))
    ensures var p, n := m.parts[j], Perform(m, Act(j, BySession(CloseFail)));
      && n.parts.Keys == m.parts.Keys && n.session == m.session
      && (n.parts[j].closer.CloserAt? ==> FinLeft(n.parts[j].closer.fin) < FinLeft(p.closer.fin))
      && forall i :: i in m.parts && i != j ==> n.parts[i] == m.parts[i]
  {
  }

  /** Only the closer's stream `j` differs, and that is none of its work any more. */
  predicate ClosedOne(m: Multi, n: Multi, j: u16) {
    && n.session == m.session && n.parts.Keys == m.parts.Keys && j in n.parts && !n.parts[j].closer.CloserAt?
    && forall i :: i in m.parts && i != j ==> n.parts[i] == m.parts[i]
  }

  /** The closer of one stream has its turns. */
  lemma {:induction false} ClosesOne(m: Multi, j: u16) returns (more: seq<MultiStep>, n: Multi)
    requires Attained(m) && Indexed(m) && j in m.parts && m.parts[j].closer.CloserAt?
    ensures Play(m, more) == Some(n) && Attained(n) && Indexed(n) && ClosedOne(m, n, j)
    ensures |more| <= FinLeft(m.parts[j].closer.fin)
    decreases FinLeft(m.parts[j].closer.fin)
  {
    var a := Act(j, BySession(CloseFail));
    ClosingActs(m, j);
    ActGoesOn(m, j, a.step);
    var next := Perform(m, a);
    more, n := [a], next;
    if next.parts[j].closer.CloserAt? {
      var rest;
      rest, n := ClosesOne(next, j);
      PlayTwice(m, [a], next, rest);
      more := [a] + rest;
    }
  }

  lemma {:induction false} ClosesAll(m: Multi) returns (more: seq<MultiStep>, n: Multi)
    requires Attained(m) && Indexed(m)
    ensures Play(m, more) == Some(n) && Attained(n) && Indexed(n) && |more| <= 3 * |Closing(m)|
    ensures n.session == m.session && n.parts.Keys == m.parts.Keys && Closing(n) == {}
    decreases |Closing(m)|
  {
    more, n := [], m;
    if Closing(m) != {} {
      var j :| j in Closing(m);
      var next, rest;
      more, next := ClosesOne(m, j);
      assert Closing(next) == Closing(m) - {j};
      rest, n := ClosesAll(next);
      PlayTwice(m, more, next, rest);
      more := more + rest;
    }
  }

  lemma LoopGoes(m: Multi) returns (n: Multi)
    requires Attained(m)
    ensures Play(m, [Flag(LoopGone)]) == Some(n) && Attained(n) && n.session.loopGone && n.parts == m.parts
  {
    AttainedIsIndexed(m);
    n := Perform(m, Flag(LoopGone));
    PlayOne(m, Flag(LoopGone));
    GoesOn(m, [Flag(LoopGone)], n);
  }

  lemma ClosesMap(m: Multi) returns (n: Multi)
    requires Attained(m)
    ensures Play(m, [Close]) == Some(n) && Attained(n) && Indexed(n)
    ensures n.session == m.session.(closed := true) && n.parts.Keys == m.parts.Keys
  {
    AttainedIsIndexed(m);
    n := Perform(m, Close);
    PlayOne(m, Close);
    GoesOn(m, [Close], n);
  }

  /** Closed, and all closers through. */
  lemma TornDown(m: Multi)
    requires Attained(m) && m.session.closed && Closing(m) == {}
    ensures InMap(m) == {}
    ensures forall j :: j in m.parts && m.parts[j].starter != NotStarted && m.parts[j].client.guard == Held ==>
      Terminal(m.parts[j].cell)
  {
    var run :| Attains(run, m);
    SessionNoStrandedCaller(run, m);
    assert forall j :: j in m.parts ==> j !in Closing(m);
  }

  /** From every state of a session its loop can end and tear it down in a bounded
      number of steps: then no stream is in the map, and every caller that is still
      there is decided. This is what a cancelled session still owes. */
  lemma TeardownDecides(m: Multi) returns (more: seq<MultiStep>, n: Multi)
    requires Attained(m)
    ensures Play(m, more) == Some(n) && |more| <= 2 + 3 * |m.parts|
    ensures n.session.closed && n.session.loopGone && InMap(n) == {} && n.parts.Keys == m.parts.Keys
    ensures forall j :: j in n.parts && n.parts[j].starter != NotStarted && n.parts[j].client.guard == Held ==>
      Terminal(n.parts[j].cell)
  {
    var gone := LoopGoes(m);
    var closed := ClosesMap(gone);
    PlayTwice(m, [Flag(LoopGone)], gone, [Close]);
    var rest;
    rest, n := ClosesAll(closed);
    PlayTwice(m, [Flag(LoopGone)] + [Close], closed, rest);
    more := [Flag(LoopGone)] + [Close] + rest;
    SubsetSize(Closing(closed), closed.parts.Keys);
    TornDown(n);
  }
}
