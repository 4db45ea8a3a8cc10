/** A caller's request gets to the engine in a session too, past the frames of the
    other streams on the way. */
module TunnelUpload {
  import opened Prelude
  import opened Frames
  import opened Stream
  import opened StreamSafety
  import opened StreamSettlement
  import opened StreamRequest
  import opened StreamRuns
  import opened StreamUpload
  import opened Tunnel
  import opened TunnelProjection
  import opened TunnelRuns
  import opened TunnelDebts
  import opened TunnelCompletion

  lemma AttainedUpload(m: Multi, j: u16)
    requires Attained(m)
    ensures Indexed(m) && Inv(View(m, j)) && UploadInv(View(m, j))
  {
    var run :| Attains(run, m);
    AttainsReaches(run, m, j);
    ReachableUpload(j, OwnRun(Start(), run, j), View(m, j));
  }

  /** What an upload that is done has put on the link, in every session. */
  lemma SessionBodyIsSent(m: Multi, j: u16)
    requires Attained(m)
    requires var p := PartOf(m, j); p.upload == UploadDone && !p.cell.completed && !p.cell.uploadAborted
    ensures PartOf(m, j).body.ok && AllSent(Of(m.down, j), PartOf(m, j).body)
  {
    AttainedUpload(m, j);
    SentIsAll(View(m, j));
  }

  // ---- Getting on ---------------------------------------------------------------------

  lemma AlikeFeeds(s: State, t: State)
    requires Feeding(s) && Alike(s, t) && !Feed(s).ByWire?
    ensures Feeding(t) && FeedToGo(t) <= FeedToGo(s) && Feed(t) == Feed(s)
  {
  }

  lemma FeedStepIn(m: Multi, j: u16)
    requires Attained(m) && Indexed(m) && Feeding(View(m, j)) && View(m, j).tether.request != Normal
    ensures Enabled(View(m, j), Feed(View(m, j))) && Fuller(View(m, j), Do(View(m, j), Feed(View(m, j))))
  {
    AttainedUpload(m, j);
    FeedStep(View(m, j));
  }

  /** Once the way is clear the stream takes its step. */
  lemma FeedsAct(m: Multi, before: seq<MultiStep>, r: Multi, j: u16) returns (more: seq<MultiStep>, n: Multi)
    requires Clears(m, before, r, j) && Feeding(View(m, j)) && View(m, j).tether.request != Normal
    requires !Feed(View(m, j)).ByWire? && Able(r, Act(j, Feed(View(m, j))))
    ensures Play(m, more) == Some(n) && Going(n) && Fuller(View(m, j), View(n, j))
  {
    var a := Feed(View(m, j));
    AlikeFeeds(View(m, j), View(r, j));
    FeedStepIn(r, j);
    ActGoesOn(r, j, a);
    StayingLifted(r, j, a);
    n := Lift(r, j, a);
    PlayTwice(m, before, r, [Act(j, a)]);
    more := before + [Act(j, a)];
  }

  lemma FeedsUpload(m: Multi, j: u16) returns (more: seq<MultiStep>, n: Multi)
    requires Going(m) && Feeding(View(m, j)) && View(m, j).tether.request != Normal && Feed(View(m, j)).ByUpload?
    ensures Play(m, more) == Some(n) && Going(n) && Fuller(View(m, j), View(n, j))
  {
    var before, r := MakeRoom(m, j);
    AlikeFeeds(View(m, j), View(r, j));
    FeedStepIn(r, j);
    more, n := FeedsAct(m, before, r, j);
  }

  lemma FeedsWrite(m: Multi, j: u16) returns (more: seq<MultiStep>, n: Multi)
    requires Going(m) && Feeding(View(m, j)) && View(m, j).tether.request != Normal && Feed(View(m, j)).ByWire?
    ensures Play(m, more) == Some(n) && Going(n) && Fuller(View(m, j), View(n, j))
  {
    FeedStepIn(m, j);
    more, n := WritesDown(m, j);
  }

  lemma OpenIsNext(s: State)
    requires Opening(s) && Feeding(s) && Feed(s).ByTether? && Feed(s).tether.TetherOpen? && Enabled(s, Feed(s))
    ensures NextDown(s) && s.links.down[s.links.downSeen].Open? && !s.tether.handle
    ensures Feed(s) == ByTether(TetherOpen(Answer(true, [], [], true), false))
  {
  }

  lemma FeedsOpen(m: Multi, j: u16) returns (more: seq<MultiStep>, n: Multi)
    requires Going(m) && Feeding(View(m, j)) && View(m, j).tether.request != Normal
    requires Feed(View(m, j)).ByTether? && Feed(View(m, j)).tether.TetherOpen?
    ensures Play(m, more) == Some(n) && Going(n) && Fuller(View(m, j), View(n, j))
  {
    FeedStepIn(m, j);
    AttainedUpload(m, j);
    OpenIsNext(View(m, j));
    var before, r := ClearsOpen(m, j);
    more, n := FeedsAct(m, before, r, j);
  }

  lemma InputIsNext(m: Multi, r: Multi, j: u16)
    requires Indexed(m) && Indexed(r) && Alike(View(m, j), View(r, j)) && NextToTether(r, j)
    requires TetherCan(View(m, j), TetherInput(false)) && View(m, j).tether.input == []
    ensures Able(r, Act(j, ByTether(TetherInput(false))))
  {
    FrontOfDown(r, j);
  }

  lemma FeedsInput(m: Multi, j: u16) returns (more: seq<MultiStep>, n: Multi)
    requires Going(m) && Feeding(View(m, j)) && View(m, j).tether.request != Normal
    requires Feed(View(m, j)) == ByTether(TetherInput(false))
    ensures Play(m, more) == Some(n) && Going(n) && Fuller(View(m, j), View(n, j))
  {
    FeedStepIn(m, j);
    var before, r := NextAtTether(m, j);
    InputIsNext(m, r, j);
    more, n := FeedsAct(m, before, r, j);
  }

  lemma FeedsReceive(m: Multi, j: u16) returns (more: seq<MultiStep>, n: Multi)
    requires Going(m) && Feeding(View(m, j)) && View(m, j).tether.request != Normal && Feed(View(m, j)).ByPump?
    ensures Play(m, more) == Some(n) && Going(n) && Fuller(View(m, j), View(n, j))
  {
    FeedStepIn(m, j);
    more, n := FeedsAct(m, [], m, j);
  }

  lemma FeedsOnce(m: Multi, j: u16) returns (more: seq<MultiStep>, n: Multi)
    requires Going(m) && Feeding(View(m, j)) && View(m, j).tether.request != Normal
    ensures Play(m, more) == Some(n) && Going(n) && Fuller(View(m, j), View(n, j))
  {
    var a := Feed(View(m, j));
    if a.ByUpload? {
      more, n := FeedsUpload(m, j);
    } else if a.ByWire? {
      more, n := FeedsWrite(m, j);
    } else if a.ByPump? {
      more, n := FeedsReceive(m, j);
    } else if a.tether.TetherOpen? {
      more, n := FeedsOpen(m, j);
    } else {
      more, n := FeedsInput(m, j);
    }
  }

  lemma {:induction false} FeedsInSession(m: Multi, j: u16) returns (more: seq<MultiStep>, n: Multi)
    requires Going(m) && Feeding(View(m, j))
    ensures Play(m, more) == Some(n) && Going(n)
    ensures PartOf(n, j).tether.request == Normal && PartOf(n, j).body == PartOf(m, j).body
    decreases FeedToGo(View(m, j))
  {
    more, n := [], m;
    if PartOf(m, j).tether.request != Normal {
      var next, rest;
      more, next := FeedsOnce(m, j);
      rest, n := FeedsInSession(next, j);
      PlayTwice(m, more, next, rest);
      more := more + rest;
    }
  }

  /** In a session too the engine of a healthy stream can still get all of a body that
      ends properly, and its end, whatever the other streams have on the link. */
  lemma SessionEngineGetsTheBody(m: Multi, j: u16) returns (more: seq<MultiStep>, n: Multi)
    requires Attained(m) && Indexed(m) && Staying(m) && Healthy(View(m, j))
    ensures Play(m, more) == Some(n)
    ensures var p := PartOf(n, j);
      p.tether.request == Normal && NonEmpty(p.tether.consumed) == NonEmpty(PartOf(m, j).body.chunks)
  {
    AttainedUpload(m, j);
    HealthyFeeds(View(m, j));
    more, n := FeedsInSession(m, j);
    AttainedUpload(n, j);
    RequestMeaning(View(n, j));
  }
}
