/** The engine's answer gets to the caller in a session too, past the frames of the
    other streams on the way. */
module TunnelAnswer {
  import opened Prelude
  import opened Frames
  import opened Stream
  import opened StreamSafety
  import opened StreamSettlement
  import opened StreamRuns
  import opened StreamDebts
  import opened StreamFailure
  import opened StreamInputs
  import opened StreamAnswer
  import opened Tunnel
  import opened TunnelProjection
  import opened TunnelRuns
  import opened TunnelDebts
  import opened TunnelCompletion

  lemma AttainedAnswer(m: Multi, j: u16)
    requires Attained(m)
    ensures Indexed(m) && Inv(View(m, j)) && AnswerInv(View(m, j))
  {
    var run :| Attains(run, m);
    AttainsReaches(run, m, j);
    ReachableAnswer(j, OwnRun(Start(), run, j), View(m, j));
  }

  lemma AidIn(m: Multi, j: u16)
    requires Attained(m) && Indexed(m) && Awaits(View(m, j))
    ensures Enabled(View(m, j), Aid(View(m, j)))
    ensures var t := Do(View(m, j), Aid(View(m, j))); Arrived(t) || Sooner(View(m, j), t)
  {
    AttainedAnswer(m, j);
    AidStep(View(m, j));
  }

  lemma AlikeAids(s: State, t: State)
    requires Awaits(s) && Alike(s, t) && InOrder(t.links) && !s.session.writerGone && !Aid(s).ByWire?
    ensures Awaits(t) && AnswerToGo(t) <= AnswerToGo(s) && PollsToGo(t) == PollsToGo(s) && Aid(t) == Aid(s)
  {
    assert MayOpen(t) == MayOpen(s);
    assert Ahead(t) == Ahead(s);
  }

  /** Arrived, or still to come and closer. */
  ghost predicate Aided(m: Multi, n: Multi, j: u16)
    requires Indexed(m) && InOrder(View(m, j).links)
  {
    Going(n) && (Arrived(View(n, j)) || Sooner(View(m, j), View(n, j)))
  }

  /** Once the way is clear the stream takes its step. */
  lemma Aids(m: Multi, before: seq<MultiStep>, r: Multi, j: u16) returns (more: seq<MultiStep>, n: Multi)
    requires Clears(m, before, r, j) && Awaits(View(m, j)) && !m.session.writerGone
    requires !Aid(View(m, j)).ByWire? && Able(r, Act(j, Aid(View(m, j))))
    ensures Play(m, more) == Some(n) && Aided(m, n, j)
  {
    var a := Aid(View(m, j));
    ViewInOrder(r, j);
    AlikeAids(View(m, j), View(r, j));
    AidIn(r, j);
    ActGoesOn(r, j, a);
    StayingLifted(r, j, a);
    n := Lift(r, j, a);
    PlayTwice(m, before, r, [Act(j, a)]);
    more := before + [Act(j, a)];
  }

  lemma AidsTake(m: Multi, j: u16) returns (more: seq<MultiStep>, n: Multi)
    requires Going(m) && Awaits(View(m, j)) && Aid(View(m, j)) == ByLoop(Take)
    ensures Play(m, more) == Some(n) && Aided(m, n, j)
  {
    AidIn(m, j);
    var before, r := NextUp(m, j);
    more, n := Aids(m, before, r, j);
  }

  lemma AidsWrite(m: Multi, j: u16) returns (more: seq<MultiStep>, n: Multi)
    requires Going(m) && Awaits(View(m, j)) && Aid(View(m, j)).ByWire?
    ensures Play(m, more) == Some(n) && Aided(m, n, j)
  {
    AidIn(m, j);
    if Aid(View(m, j)).wire == HubWrites {
      more, n := WritesDown(m, j);
    } else {
      more, n := WritesUp(m, j);
    }
  }

  lemma AidOpens(s: State)
    requires ResponseInv(s) && Awaits(s) && Aid(s).ByTether? && Enabled(s, Aid(s))
    ensures Aid(s) == ByTether(TetherOpen(Answer(true, [], [], true), false))
    ensures NextDown(s) && s.links.down[s.links.downSeen].Open? && !s.tether.handle
  {
  }

  lemma AidsOpen(m: Multi, j: u16) returns (more: seq<MultiStep>, n: Multi)
    requires Going(m) && Awaits(View(m, j)) && Aid(View(m, j)).ByTether?
    ensures Play(m, more) == Some(n) && Aided(m, n, j)
  {
    AidIn(m, j);
    AttainedAnswer(m, j);
    AidOpens(View(m, j));
    var before, r := ClearsOpen(m, j);
    more, n := Aids(m, before, r, j);
  }

  lemma AidSendsNow(s: State)
    requires Awaits(s) && Aid(s).ByPump? && Enabled(s, Aid(s))
    ensures PumpCan(s, Aid(s).pump) && !s.session.tetherGone
  {
  }

  lemma AidsPump(m: Multi, j: u16) returns (more: seq<MultiStep>, n: Multi)
    requires Going(m) && Awaits(View(m, j)) && Aid(View(m, j)).ByPump?
    ensures Play(m, more) == Some(n) && Aided(m, n, j)
  {
    AidIn(m, j);
    AidSendsNow(View(m, j));
    var before, r := MakeTetherRoom(m, j);
    PumpIsAble(m, r, j, Aid(View(m, j)).pump);
    more, n := Aids(m, before, r, j);
  }

  lemma AidsOther(m: Multi, j: u16) returns (more: seq<MultiStep>, n: Multi)
    requires Going(m) && Awaits(View(m, j))
    requires var a := Aid(View(m, j)); (a.ByLoop? && a != ByLoop(Take)) || a.ByCaller?
    ensures Play(m, more) == Some(n) && Aided(m, n, j)
  {
    AidIn(m, j);
    more, n := Aids(m, [], m, j);
  }

  lemma AidsOnce(m: Multi, j: u16) returns (more: seq<MultiStep>, n: Multi)
    requires Going(m) && Awaits(View(m, j))
    ensures Play(m, more) == Some(n) && Aided(m, n, j)
  {
    match Aid(View(m, j))
    case ByWire(_) => more, n := AidsWrite(m, j);
    case ByTether(_) => more, n := AidsOpen(m, j);
    case ByPump(_) => more, n := AidsPump(m, j);
    case ByLoop(x) =>
      if x == Take {
        more, n := AidsTake(m, j);
      } else {
        more, n := AidsOther(m, j);
      }
    case ByCaller(_) => more, n := AidsOther(m, j);
  }

  lemma {:induction false} ArrivesInSession(m: Multi, j: u16) returns (more: seq<MultiStep>, n: Multi)
    requires Going(m) && Awaits(View(m, j))
    ensures Play(m, more) == Some(n) && Going(n) && Arrived(View(n, j))
    decreases AnswerToGo(View(m, j)), PollsToGo(View(m, j))
  {
    more, n := AidsOnce(m, j);
    if !Arrived(View(n, j)) {
      var next, rest := n, [];
      rest, n := ArrivesInSession(next, j);
      PlayTwice(m, more, next, rest);
      more := more + rest;
    }
  }

  lemma SeesItInSession(m: Multi, j: u16) returns (more: seq<MultiStep>, n: Multi)
    requires Going(m) && Arrived(View(m, j))
    ensures Play(m, more) == Some(n) && Attained(n) && Indexed(n) && EndsCleanly(PartOf(n, j).client.trace)
  {
    AttainedAnswer(m, j);
    ArrivedLooks(View(m, j));
    var own, t := LooksOn(View(m, j));
    assert t.client.trace[|t.client.trace| - 1] == Eof;
    more, n := LooksInSession(m, j, own, t);
  }

  /** In a session too the caller of a healthy stream can still get the whole of an
      answer that ends properly, and its end, whatever the other streams have on the
      links, in the loop and in the tether's places. */
  lemma SessionCallerGetsTheAnswer(m: Multi, j: u16) returns (more: seq<MultiStep>, n: Multi)
    requires Attained(m) && Indexed(m) && Staying(m) && Served(View(m, j))
    ensures Play(m, more) == Some(n)
    ensures var p := PartOf(n, j);
      && EndsCleanly(p.client.trace)
      && p.tether.pump.Some? && ChunksOf(p.client.trace) == NonEmpty(p.tether.pump.value.answer.chunks)
    ensures PartOf(m, j).tether.pump.Some? ==>
      PartOf(n, j).tether.pump.value.answer == PartOf(m, j).tether.pump.value.answer
  {
    AttainedAnswer(m, j);
    ServedAwaits(View(m, j));
    var first, r := ArrivesInSession(m, j);
    var second;
    second, n := SeesItInSession(r, j);
    PlayTwice(m, first, r, second);
    more := first + second;
    var run :| Attains(run, n);
    SessionNoFabricatedSuccess(run, n, j);
    Projection(m, more, j);
    KeptInRun(View(m, j), OwnRun(m, more, j), View(n, j));
  }
}
