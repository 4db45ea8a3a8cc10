/** The caller's side: the response body and the status line
    (cargo/src/frontend.rs). */
module Frontend {
  import opened Prelude
  import opened Sessions
  import Machine = Stream

  datatype Poll = Pending | Ready(item: Machine.Item)

  // ---- The three sections of a poll ---------------------------------------------

  /** Anything may happen to the stream between two of these, so each is a step of
      its own in the machine. */
  function AfterFailureCheck(c: Machine.Cell): Machine.Cell {
    if c.outcome == Machine.Failed then c.(rx := Machine.Dropped, queue := []) else c
  }

  function AfterCompletionCheck(c: Machine.Cell): Machine.Cell {
    if c.outcome == Machine.Complete then c.(rx := Machine.Draining) else c
  }

  /** The channel may answer Pending although something is queued. */
  function Received(c: Machine.Cell, pending: bool): (Machine.Cell, Poll) {
    if pending then (c, Pending)
    else if c.queue != [] then (c.(queue := c.queue[1..]), Ready(Machine.Chunk(c.queue[0])))
    else if c.rx == Machine.Draining then (c.(rx := Machine.Dropped), Ready(Machine.Eof))
    else (c, Pending)
  }

  /** A poll that nothing interrupts; `held` says whether the body still has its
      receiver. */
  function Polled(c: Machine.Cell, held: bool, pending: bool): (Machine.Cell, Poll) {
    if !held then (c, Ready(Machine.Eof))
    else if c.outcome == Machine.Failed then (AfterFailureCheck(c), Ready(Machine.Error))
    else Received(AfterCompletionCheck(c), pending)
  }

  predicate Ends(p: Poll) {
    p.Ready? && !p.item.Chunk?
  }

  /** The sections are the machine's steps. */
  lemma SectionsAreTheMachines(s: Machine.State, pending: bool)
    requires Machine.CallerActive(s)
    ensures s.client.at == Machine.Streaming ==>
      var t := Machine.CallerDoes(s, Machine.PollFailed);
      && t.cell == AfterFailureCheck(s.cell)
      && t == (if s.cell.outcome == Machine.Failed then Machine.Yield(s, Machine.Ended, Machine.Error)
               else Machine.WithCaller(s, Machine.NotFailed)).(cell := t.cell)
    ensures s.client.at == Machine.NotFailed ==>
      Machine.CallerDoes(s, Machine.PollComplete) ==
        Machine.WithCaller(s, Machine.CompletionRead).(cell := AfterCompletionCheck(s.cell))
    ensures s.client.at == Machine.CompletionRead ==>
      var (c, p) := Received(s.cell, pending);
      Machine.CallerDoes(s, Machine.PollReceive(pending)) ==
        (if p == Pending then Machine.WithCaller(s, Machine.Streaming)
         else Machine.Yield(s, if Ends(p) then Machine.Ended else Machine.Streaming, p.item)).(cell := c)
    ensures s.client.at == Machine.Ended ==>
      Machine.CallerDoes(s, Machine.PollAgain) == Machine.Yield(s, Machine.Ended, Polled(s.cell, false, pending).1.item)
  {
  }

  // ---- The body ---------------------------------------------------------------------

  class TunnelBody {
    /** A body known up front has no stream. */
    const stream: StreamState?
    var buffer: Bytes
    /** Whether the slot holds the receiver. */
    var held: bool

    constructor Fixed(text: Bytes)
      ensures stream == null && buffer == text && !held
    {
      stream, buffer, held := null, text, false;
    }

    constructor FromForwarded(forwarded: Forwarded)
      ensures stream == forwarded.state && buffer == [] && held
    {
      stream, buffer, held := forwarded.state, [], true;
    }

    /** The receiver is taken out for the poll and put back unless the body is
        over. */
    method PollNext(pending: bool) returns (p: Poll)
      modifies this, stream
      ensures stream == null ==>
        && p == Ready(if old(buffer) == [] then Machine.Eof else Machine.Chunk(old(buffer)))
        && buffer == [] && held == old(held)
      ensures stream != null ==>
        && buffer == old(buffer)
        && (forall m :: (stream.Cell(m), p) == Polled(old(stream.Cell(m)), old(held), pending))
        && held == (old(held) && !Ends(p))
    {
      if stream == null {
        if buffer == [] {
          return Ready(Machine.Eof);
        }
        p := Ready(Machine.Chunk(buffer));
        buffer := [];
        return;
      }
      if !held {
        return Ready(Machine.Eof);
      }
      held := false;
      if stream.outcome == Machine.Failed {
        stream.rx, stream.queue := Machine.Dropped, [];
        return Ready(Machine.Error);
      }
      if stream.outcome == Machine.Complete {
        stream.rx := Machine.Draining;
      }
      p := Receive(stream, pending);
      if !Ends(p) {
        held := true;
      }
    }
  }

  /** `poll_recv`: end only once the channel is closed and empty. */
  method Receive(stream: StreamState, pending: bool) returns (p: Poll)
    modifies stream
    ensures forall m :: (stream.Cell(m), p) == Received(old(stream.Cell(m)), pending)
  {
    if pending {
      return Pending;
    }
    if stream.queue != [] {
      p := Ready(Machine.Chunk(stream.queue[0]));
      stream.queue := stream.queue[1..];
    } else if stream.rx == Machine.Draining {
      stream.rx := Machine.Dropped;
      p := Ready(Machine.Eof);
    } else {
      p := Pending;
    }
  }

  // ---- Draining -----------------------------------------------------------------------

  /** What a caller gets that polls as `pendings` says, with nothing else happening. */
  function Polls(c: Machine.Cell, held: bool, pendings: seq<bool>): seq<Machine.Item>
    decreases |pendings|
  {
    if pendings == [] then []
    else
      var (d, p) := Polled(c, held, pendings[0]);
      (if p.Ready? then [p.item] else []) + Polls(d, held && !Ends(p), pendings[1..])
  }

  function Chunks(queue: seq<Bytes>): (r: seq<Machine.Item>)
    ensures |r| == |queue|
  {
    if queue == [] then [] else [Machine.Chunk(queue[0])] + Chunks(queue[1..])
  }

  function Eofs(n: nat): (r: seq<Machine.Item>)
    ensures |r| == n
  {
    if n == 0 then [] else [Machine.Eof] + Eofs(n - 1)
  }

  function Attempts(pendings: seq<bool>): nat {
    if pendings == [] then 0 else (if pendings[0] then 0 else 1) + Attempts(pendings[1..])
  }

  lemma {:induction false} EndedStaysEnded(c: Machine.Cell, pendings: seq<bool>)
    ensures Polls(c, false, pendings) == Eofs(|pendings|)
  {
    if pendings != [] {
      EndedStaysEnded(c, pendings[1..]);
    }
  }

  lemma {:induction false} AttemptsBound(pendings: seq<bool>)
    ensures Attempts(pendings) <= |pendings|
  {
    if pendings != [] {
      AttemptsBound(pendings[1..]);
    }
  }

  lemma {:induction false} EofsGrow(n: nat)
    ensures Eofs(n) <= Eofs(n + 1)
  {
    if n > 0 {
      EofsGrow(n - 1);
    }
  }

  lemma PrefixWithin<T>(p: seq<T>, a: seq<T>, b: seq<T>, c: seq<T>)
    requires p <= a + b && b <= c
    ensures p <= a + c
  {
  }

  lemma PrefixBehind<T>(x: T, p: seq<T>, a: seq<T>, b: seq<T>)
    requires p <= a + b
    ensures [x] + p <= [x] + a + b
  {
    Assoc([x], a, b);
  }

  /** A completed body hands over everything queued, in order, and only then ends;
      every attempt that the channel does not put off makes progress. */
  lemma {:induction false} CompletedBodyDrains(c: Machine.Cell, pendings: seq<bool>)
    requires c.outcome == Machine.Complete && c.rx != Machine.Dropped
    ensures Polls(c, true, pendings) <= Chunks(c.queue) + Eofs(|pendings|)
    ensures |Polls(c, true, pendings)| >= Attempts(pendings)
    decreases |pendings|
  {
    if pendings != [] {
      var (d, p) := Polled(c, true, pendings[0]);
      var rest := pendings[1..];
      EofsGrow(|rest|);
      if !pendings[0] && c.queue == [] {
        EndedStaysEnded(d, rest);
        AttemptsBound(rest);
      } else {
        CompletedBodyDrains(d, rest);
        PrefixWithin(Polls(d, true, rest), Chunks(d.queue), Eofs(|rest|), Eofs(|pendings|));
        if !pendings[0] {
          PrefixBehind(Machine.Chunk(c.queue[0]), Polls(d, true, rest), Chunks(d.queue), Eofs(|pendings|));
        }
      }
    }
  }

  /** A failed body errs once and then ends, whatever was queued. */
  lemma FailedBodyErrs(c: Machine.Cell, pendings: seq<bool>)
    requires c.outcome == Machine.Failed && pendings != []
    ensures Polls(c, true, pendings) == [Machine.Error] + Eofs(|pendings| - 1)
  {
    EndedStaysEnded(Polled(c, true, pendings[0]).0, pendings[1..]);
  }

  /** An undecided body hands over what is queued and never ends. */
  lemma {:induction false} UndecidedBodyWaits(c: Machine.Cell, pendings: seq<bool>)
    requires c.outcome == Machine.Undecided && c.rx == Machine.Receiving
    ensures Polls(c, true, pendings) <= Chunks(c.queue)
    decreases |pendings|
  {
    if pendings != [] {
      UndecidedBodyWaits(Polled(c, true, pendings[0]).0, pendings[1..]);
    }
  }

  // ---- The status line ------------------------------------------------------------------

  const BAD_REQUEST: nat := 400
  const UNAUTHORIZED: nat := 401
  const TOO_MANY_REQUESTS: nat := 429
  const INTERNAL_SERVER_ERROR: nat := 500
  const BAD_GATEWAY: nat := 502
  const SERVICE_UNAVAILABLE: nat := 503

  /** The engine's own status, or a bad gateway when there is none to report. */
  function CallerStatusFor(head: Option<nat>): nat {
    if head.Some? && 100 <= head.value <= 999 then head.value else BAD_GATEWAY
  }

  function StatusOf(e: ForwardError): nat {
    match e
    case NoTether => BAD_GATEWAY
    case TetherGone => BAD_GATEWAY
    case Revoked => SERVICE_UNAVAILABLE
    case TetherBusy => SERVICE_UNAVAILABLE
    case Idhausted => TOO_MANY_REQUESTS
  }

  /** The answer to a proxied request: `route` is how forwarding went, `head` what
      waiting for the response head gave, `headersOk` whether hyper accepts the
      engine's headers. */
  function Answered(authorized: bool, route: Result<()>, head: Option<nat>, headersOk: bool): nat {
    if !authorized then UNAUTHORIZED
    else match route
    case Err(e) => StatusOf(e)
    case Ok(_) => if head.Some? && !headersOk then INTERNAL_SERVER_ERROR else CallerStatusFor(head)
  }

  /** A refusal has its own status, an engine's answer the engine's, whatever it is. */
  lemma StatusIs(authorized: bool, route: Result<()>, head: Option<nat>, headersOk: bool)
    ensures var status := Answered(authorized, route, head, headersOk);
      && (!authorized ==> status == 401)
      && (authorized && (route == Err(NoTether) || route == Err(TetherGone)) ==> status == 502)
      && (authorized && (route == Err(Revoked) || route == Err(TetherBusy)) ==> status == 503)
      && (authorized && route == Err(Idhausted) ==> status == 429)
      && (authorized && route.Ok? && head.None? ==> status == 502)
      && (authorized && route.Ok? && head.Some? && headersOk && 100 <= head.value <= 999 ==> status == head.value)
      && (authorized && route.Ok? && head.Some? && !headersOk ==> status == 500)
  {
  }

  /** A status below 400 is always one the engine sent: nothing is fabricated. */
  lemma SuccessIsTheEngines(authorized: bool, route: Result<()>, head: Option<nat>, headersOk: bool)
    ensures Answered(authorized, route, head, headersOk) < BAD_REQUEST ==>
      authorized && route.Ok? && head == Some(Answered(authorized, route, head, headersOk))
    ensures head.None? ==> Answered(authorized, route, head, headersOk) >= BAD_REQUEST
  {
  }
}
