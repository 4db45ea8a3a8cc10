/** When an outcome is final in a session. That a verdict stays is a statement about
    every run, and carries over from the single stream; that it can still be replaced
    is not, since in a session other streams are in the way. Here they are cleared
    out of it: as long as the hub's writer is there and nothing on its way to the hub
    tells it to end the session, a stream's own prospects decide. */
module TunnelOutcome {
  import opened Prelude
  import opened Frames
  import opened Stream
  import opened StreamSafety
  import opened StreamSettlement
  import opened StreamRuns
  import opened StreamDebts
  import opened StreamOutcome
  import opened StreamFailure
  import opened Tunnel
  import opened TunnelProjection
  import opened TunnelRuns
  import opened TunnelDebts

  // ---- What is final stays so --------------------------------------------------------

  /** In every continuation of the session stream `j` has this outcome. */
  ghost predicate AlwaysHas(m: Multi, j: u16, verdict: Outcome) {
    forall more, n :: Play(m, more) == Some(n) ==> PartOf(n, j).cell.outcome == verdict
  }

  lemma FailedStays(m: Multi, j: u16)
    requires Attained(m) && Indexed(m)
    requires PartOf(m, j).cell.outcome == Failed && InOrder(View(m, j).links) && !MayComplete(View(m, j))
    ensures AlwaysHas(m, j, Failed)
  {
    AttainedFacts(m, j);
    forall more, n | Play(m, more) == Some(n) ensures PartOf(n, j).cell.outcome == Failed {
      Projection(m, more, j);
      FailedForEver(View(m, j), OwnRun(m, more, j), View(n, j));
    }
  }

  lemma DecidedStays(m: Multi, j: u16)
    requires Indexed(m) && Decided(View(m, j))
    ensures AlwaysHas(m, j, PartOf(m, j).cell.outcome)
  {
    forall more, n | Play(m, more) == Some(n) ensures PartOf(n, j).cell.outcome == PartOf(m, j).cell.outcome {
      Projection(m, more, j);
      DecidedForEver(View(m, j), OwnRun(m, more, j), View(n, j));
    }
  }

  // ---- A complete stream -----------------------------------------------------------------

  lemma {:induction false} SessionCloserFails(m: Multi, j: u16) returns (more: seq<MultiStep>, n: Multi)
    requires Attained(m) && Indexed(m) && View(m, j).hub.closer.CloserAt?
    ensures Play(m, more) == Some(n) && PartOf(n, j).cell.outcome == Failed
    decreases FinLeft(View(m, j).hub.closer.fin)
  {
    var a := BySession(CloseFail);
    ActGoesOn(m, j, a);
    more, n := [Act(j, a)], Perform(m, Act(j, a));
    if View(m, j).hub.closer.fin != Publish {
      var next, rest := n, [];
      rest, n := SessionCloserFails(next, j);
      PlayTwice(m, [Act(j, a)], next, rest);
      more := [Act(j, a)] + rest;
    }
  }

  lemma {:induction false} SessionUploadFails(m: Multi, j: u16) returns (more: seq<MultiStep>, n: Multi)
    requires Attained(m) && Indexed(m) && View(m, j).hub.upload.Failing?
    ensures Play(m, more) == Some(n) && PartOf(n, j).cell.outcome == Failed
    decreases FinLeft(View(m, j).hub.upload.fin)
  {
    var a := ByUpload(UploadFail);
    ActGoesOn(m, j, a);
    more, n := [Act(j, a)], Perform(m, Act(j, a));
    if View(m, j).hub.upload.fin != Publish {
      var next, rest := n, [];
      rest, n := SessionUploadFails(next, j);
      PlayTwice(m, [Act(j, a)], next, rest);
      more := [Act(j, a)] + rest;
    }
  }

  lemma SessionCloses(m: Multi, j: u16) returns (n: Multi)
    requires Attained(m) && Indexed(m) && View(m, j).cell.inMap
    ensures Play(m, [Close]) == Some(n) && Attained(n) && Indexed(n) && View(n, j).hub.closer.CloserAt?
  {
    n := ClosesMap(m);
    ViewWhole(m, Close, j);
    PlayOne(m, Close);
  }

  lemma SessionUndoes(m: Multi, j: u16) returns (more: seq<MultiStep>, n: Multi)
    requires Attained(m) && Indexed(m)
    requires View(m, j).cell.inMap || View(m, j).hub.closer.CloserAt? || View(m, j).hub.upload.Failing?
    ensures Play(m, more) == Some(n) && PartOf(n, j).cell.outcome == Failed
  {
    if View(m, j).hub.closer.CloserAt? {
      more, n := SessionCloserFails(m, j);
    } else if View(m, j).hub.upload.Failing? {
      more, n := SessionUploadFails(m, j);
    } else {
      var closed := SessionCloses(m, j);
      more, n := SessionCloserFails(closed, j);
      PlayTwice(m, [Close], closed, more);
      more := [Close] + more;
    }
  }

  /** Of a session too: a complete stream stays complete in every continuation exactly
      if it is out of the map and neither its closer nor its upload is in the middle of
      failing it. */
  lemma SessionCompleteIsFinal(m: Multi, j: u16)
    requires Attained(m) && Indexed(m) && PartOf(m, j).cell.outcome == Complete
    ensures AlwaysHas(m, j, Complete) <==>
      !PartOf(m, j).cell.inMap && !PartOf(m, j).closer.CloserAt? && !PartOf(m, j).upload.Failing?
  {
    var p := PartOf(m, j);
    if p.cell.inMap || p.closer.CloserAt? || p.upload.Failing? {
      var more, n := SessionUndoes(m, j);
      assert Play(m, more) == Some(n);
    } else {
      AttainedFacts(m, j);
      DecidedStays(m, j);
    }
  }
}
