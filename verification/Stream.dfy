/** One forwarded request, seen from both ends of the tunnel (cargo/src/hub.rs,
    cargo/src/tunnel.rs, cargo/src/frontend.rs).

    Every actor that touches the stream takes its own small steps, one per lock
    or atomic access: the thread in `start_forward`, the upload task, the hub's
    frame loop, whoever closes the session, the caller polling the body, the
    dropped guard, the tether's session loop and its engine pump, and the writers at
    both ends. A link is the log of frames handed to its writer, how many the writer
    has written and how many of these the other end has taken. What its writer has
    not written when it goes is lost, and a link that is cut is one from which no
    more are taken. */
module Stream {
  import opened Prelude
  import opened Frames

  /** Capacity of the response channel. */
  const RESPONSE_CAPACITY: nat := 64
  /** Any non-empty END reason; its text plays no role. */
  const REASON: Bytes := [0x21]

  /** `StreamFailure.outcome`. */
  datatype Outcome = Undecided | Complete | Failed

  /** The next access `complete` or `fail` makes: store `completed`, take and abort
      the upload slot, publish the outcome. */
  datatype Fin = Store | Abort | Publish

  /** The response receiver: usable, closed after completion, or dropped. */
  datatype Receiver = Receiving | Draining | Dropped

  /** `StreamState`, its response channel, and whether it is in the session's map.
      `accepted` is the history of every chunk that entered the channel. */
  datatype Cell = Cell(
    inMap: bool, head: Option<Bytes>, completed: bool, outcome: Outcome,
    slot: bool, uploadAborted: bool,
    rx: Receiver, queue: seq<Bytes>, accepted: seq<Bytes>)

  datatype Starter = NotStarted | Admitted | Opened | Spawned | Returned

  datatype Upload = NoUpload | Sending(sent: nat) | Checking | Failing(fin: Fin) | Reporting | UploadDone

  datatype Loop =
    | Idle
    | Holding(frame: Frame, target: bool)
    | Finishing(fin: Fin, verdict: Outcome, notify: bool)
    | Removing(notify: bool)
    | Notifying

  datatype Closer = NoCloser | CloserAt(fin: Fin) | CloserDone

  datatype Caller = Waiting | HeadMissing | Streaming | NotFailed | CompletionRead | Ended | NoAnswer

  datatype Guard = Held | BodyDropped | UploadStopped | Removed | MustNotify | Released

  /** One result of polling the caller's body. */
  datatype Item = Chunk(bytes: Bytes) | Error | Eof

  /** What the caller will send, and whether its body ends properly. */
  datatype Body = Body(chunks: seq<Bytes>, ok: bool)

  /** What the engine will answer: nothing usable, or a head and a body. */
  datatype Answer = Answer(headed: bool, head: Bytes, chunks: seq<Bytes>, ok: bool)

  datatype Phase = Connecting | Relaying | EndSent | Reported | Dead

  datatype Pump = Pump(answer: Answer, phase: Phase, read: nat)

  datatype RequestEnd = Unfinished | Normal | Broken

  /** The tether's half: the handle in its map, the request channel, the pump.
      `consumed` is the history of every message the pump received. */
  datatype Tether = Tether(
    handle: bool, input: seq<Bytes>, reading: bool, consumed: seq<Bytes>, request: RequestEnd,
    pump: Option<Pump>)

  /** What the stream shares with its session: the `closed` flag, a requested
      cancellation, a command channel without its receiver, and ended loops. */
  datatype Session = Session(closed: bool, cancelled: bool, writerGone: bool, loopGone: bool, tetherGone: bool)

  datatype Hub = Hub(starter: Starter, body: Body, upload: Upload, loop: Loop, closer: Closer)

  datatype Client = Client(at: Caller, guard: Guard, trace: seq<Item>)

  datatype Links = Links(
    up: seq<Frame>, upWritten: nat, upSeen: nat, down: seq<Frame>, downWritten: nat, downSeen: nat)

  datatype State = State(
    id: u16, session: Session, cell: Cell, hub: Hub, client: Client, links: Links, tether: Tether)

  /** The thread in `start_forward`. */
  datatype StarterStep = Admit | SendOpen(head: Bytes) | Spawn(body: Body) | Install

  /** The upload task. */
  datatype UploadStep = UploadNext | UploadEnd | UploadCheck | UploadFail | UploadReport(full: bool) | UploadStops

  /** The hub's frame loop. */
  datatype LoopStep =
    | Take | HandleHead(valid: bool) | HandleData | HandleEnd
    | LoopFinish | LoopRemove | LoopNotify(full: bool)

  /** Whoever closes or cancels the session, and the ends of its tasks. */
  datatype SessionStep = CloseDrain | CloseFail | Cancel | WriterGone | LoopGone

  /** The caller awaiting the head and polling the body. */
  datatype CallerStep =
    | ReadHead | ReadCompleted
    | PollFailed | PollComplete | PollReceive(pending: bool) | PollAgain

  /** The dropped body, and with it the stream guard. */
  datatype GuardStep = Drop | DropUpload | DropRemove | DropCheck | DropNotify(full: bool)

  /** The tether's session loop. */
  datatype TetherStep = TetherOpen(answer: Answer, overloaded: bool) | TetherInput(full: bool) | TetherEnd
    | TetherReap | TetherGone

  /** The engine pump: response side, then request side. */
  datatype PumpStep =
    | PumpHead | PumpChunk | PumpEnd | PumpReport | PumpStops
    | PumpReceive | PumpStarves | PumpIgnores

  /** The writer tasks of the hub and of the tether. */
  datatype WireStep = HubWrites | TetherWrites

  datatype Step =
    | ByStarter(starter: StarterStep)
    | ByUpload(upload: UploadStep)
    | ByLoop(loop: LoopStep)
    | BySession(session: SessionStep)
    | ByCaller(caller: CallerStep)
    | ByGuard(guard: GuardStep)
    | ByTether(tether: TetherStep)
    | ByPump(pump: PumpStep)
    | ByWire(wire: WireStep)

  // ---- The steps ----------------------------------------------------------

  function FinishCell(c: Cell, fin: Fin, verdict: Outcome): Cell {
    match fin
    case Store => c.(completed := true)
    case Abort => c.(slot := false, uploadAborted := c.uploadAborted || c.slot)
    case Publish => c.(outcome := verdict)
  }

  function NextFin(fin: Fin): Fin {
    if fin == Store then Abort else Publish
  }

  function SendDown(s: State, f: Frame): State {
    s.(links := s.links.(down := s.links.down + [f]))
  }

  function SendUp(s: State, f: Frame): State {
    s.(links := s.links.(up := s.links.up + [f]))
  }

  function Cancelled(s: State): State {
    s.(session := s.session.(cancelled := true))
  }

  /** `try_send` of an END to the tether, cancelling the session when it is full. */
  function TryEnd(s: State, reason: Bytes, full: bool): State {
    if s.session.writerGone then s
    else if full then Cancelled(s)
    else SendDown(s, End(s.id, reason))
  }

  predicate StarterCan(s: State, a: StarterStep) {
    match a
    case Admit => s.hub.starter == NotStarted && !s.session.closed
    case SendOpen(_) => s.hub.starter == Admitted
    case Spawn(_) => s.hub.starter == Opened
    case Install => s.hub.starter == Spawned
  }

  function StarterDoes(s: State, a: StarterStep): State
    requires StarterCan(s, a)
  {
    match a
    case Admit => s.(hub := s.hub.(starter := Admitted), cell := s.cell.(inMap := true))
    case SendOpen(head) => (
      var t := s.(hub := s.hub.(starter := Opened));
      if s.session.writerGone then t else SendDown(t, Open(s.id, head))
    )
    case Spawn(body) => s.(hub := s.hub.(starter := Spawned, body := body, upload := Sending(0)))
    case Install =>
      s.(hub := s.hub.(starter := Returned),
         cell := if s.cell.completed then s.cell.(uploadAborted := true) else s.cell.(slot := true))
  }

  function WithUpload(s: State, u: Upload): State {
    s.(hub := s.hub.(upload := u))
  }

  predicate UploadCan(s: State, a: UploadStep) {
    match a
    case UploadNext => s.hub.upload.Sending? && s.hub.upload.sent < |s.hub.body.chunks|
    case UploadEnd => s.hub.upload.Sending? && s.hub.upload.sent == |s.hub.body.chunks|
    case UploadCheck => s.hub.upload == Checking
    case UploadFail => s.hub.upload.Failing?
    case UploadReport(_) => s.hub.upload == Reporting
    case UploadStops => s.hub.upload.Sending? && s.cell.uploadAborted
  }

  function UploadDoes(s: State, a: UploadStep): State
    requires UploadCan(s, a)
  {
    match a
    case UploadNext => (
      var chunk := s.hub.body.chunks[s.hub.upload.sent];
      var next := WithUpload(s, Sending(s.hub.upload.sent + 1));
      // DATA must never look like the empty HALF_END message.
      if chunk == [] then next
      else if s.session.writerGone then WithUpload(s, Checking)
      else SendDown(next, Data(s.id, chunk))
    )
    case UploadEnd =>
      if !s.hub.body.ok || s.session.writerGone then WithUpload(s, Checking)
      else SendDown(WithUpload(s, UploadDone), HalfEnd(s.id))
    case UploadCheck => WithUpload(s, if s.cell.completed then UploadDone else Failing(Store))
    case UploadFail =>
      WithUpload(s, if s.hub.upload.fin == Publish then Reporting else Failing(NextFin(s.hub.upload.fin)))
        .(cell := FinishCell(s.cell, s.hub.upload.fin, Failed))
    case UploadReport(full) => TryEnd(WithUpload(s, UploadDone), REASON, full)
    case UploadStops => WithUpload(s, UploadDone)
  }

  function WithLoop(s: State, l: Loop): State {
    s.(hub := s.hub.(loop := l))
  }

  predicate LoopCan(s: State, a: LoopStep) {
    match a
    case Take => s.hub.loop == Idle && !s.session.loopGone && s.links.upSeen < s.links.upWritten <= |s.links.up|
    case HandleHead(_) => s.hub.loop.Holding? && s.hub.loop.frame.RespHead?
    case HandleData => s.hub.loop.Holding? && s.hub.loop.frame.Data?
    case HandleEnd => s.hub.loop.Holding? && s.hub.loop.frame.End?
    case LoopFinish => s.hub.loop.Finishing?
    case LoopRemove => s.hub.loop.Removing?
    case LoopNotify(_) => s.hub.loop == Notifying
  }

  predicate Accepts(c: Cell) {
    c.head.Some? && c.rx == Receiving && |c.queue| < RESPONSE_CAPACITY
  }

  function LoopDoes(s: State, a: LoopStep): State
    requires LoopCan(s, a)
  {
    match a
    case Take =>
      WithLoop(s, Holding(s.links.up[s.links.upSeen], s.cell.inMap)).(links := s.links.(upSeen := s.links.upSeen + 1))
    case HandleHead(valid) =>
      if !s.hub.loop.target then WithLoop(s, Idle)
      else if valid && s.cell.head == None then
        WithLoop(s, Idle).(cell := s.cell.(head := Some(s.hub.loop.frame.head)))
      else WithLoop(s, Finishing(Store, Failed, true))
    case HandleData => (
      var bytes := s.hub.loop.frame.bytes;
      if !s.hub.loop.target then WithLoop(s, Removing(true))
      else if Accepts(s.cell) then
        WithLoop(s, Idle).(cell := s.cell.(queue := s.cell.queue + [bytes], accepted := s.cell.accepted + [bytes]))
      else WithLoop(s, Finishing(Store, Failed, true))
    )
    case HandleEnd =>
      if !s.hub.loop.target then WithLoop(s, Idle)
      else WithLoop(s, Finishing(Store, if s.hub.loop.frame.reason == [] then Complete else Failed, false))
    case LoopFinish => (
      var l := s.hub.loop;
      WithLoop(s, if l.fin == Publish then Removing(l.notify) else Finishing(NextFin(l.fin), l.verdict, l.notify))
        .(cell := FinishCell(s.cell, l.fin, l.verdict))
    )
    case LoopRemove =>
      WithLoop(s, if s.hub.loop.notify then Notifying else Idle).(cell := s.cell.(inMap := false))
    case LoopNotify(full) =>
      // An END that cannot be queued ends the session loop.
      if s.session.writerGone || full then
        WithLoop(s, Idle).(session := s.session.(loopGone := true, cancelled := true))
      else SendDown(WithLoop(s, Idle), End(s.id, REASON))
  }

  function WithCloser(s: State, c: Closer): State {
    s.(hub := s.hub.(closer := c))
  }

  predicate SessionCan(s: State, a: SessionStep) {
    match a
    case CloseDrain => true
    case CloseFail => s.hub.closer.CloserAt?
    case Cancel => true
    case WriterGone => true
    case LoopGone => true
  }

  function SessionDoes(s: State, a: SessionStep): State
    requires SessionCan(s, a)
  {
    match a
    case CloseDrain => (
      var t := s.(session := s.session.(closed := true));
      if s.cell.inMap then WithCloser(t, CloserAt(Store)).(cell := s.cell.(inMap := false)) else t
    )
    case CloseFail =>
      WithCloser(s, if s.hub.closer.fin == Publish then CloserDone else CloserAt(NextFin(s.hub.closer.fin)))
        .(cell := FinishCell(s.cell, s.hub.closer.fin, Failed))
    case Cancel => Cancelled(s)
    case WriterGone => s.(session := s.session.(writerGone := true))
    case LoopGone => s.(session := s.session.(loopGone := true))
  }

  function WithCaller(s: State, c: Caller): State {
    s.(client := s.client.(at := c))
  }

  /** The caller at `c`, having been handed `item`. */
  function Yield(s: State, c: Caller, item: Item): State {
    s.(client := s.client.(at := c, trace := s.client.trace + [item]))
  }

  predicate CallerActive(s: State) {
    s.hub.starter == Returned && s.client.guard == Held
  }

  predicate CallerCan(s: State, a: CallerStep) {
    && CallerActive(s)
    && match a
       case ReadHead => s.client.at == Waiting
       case ReadCompleted => s.client.at == HeadMissing
       case PollFailed => s.client.at == Streaming
       case PollComplete => s.client.at == NotFailed
       case PollReceive(_) => s.client.at == CompletionRead
       case PollAgain => s.client.at == Ended
  }

  function CallerDoes(s: State, a: CallerStep): State
    requires CallerCan(s, a)
  {
    match a
    case ReadHead => WithCaller(s, if s.cell.head.Some? then Streaming else HeadMissing)
    case ReadCompleted => WithCaller(s, if s.cell.completed then NoAnswer else Waiting)
    case PollFailed =>
      if s.cell.outcome == Failed then
        Yield(s, Ended, Error).(cell := s.cell.(rx := Dropped, queue := []))
      else WithCaller(s, NotFailed)
    case PollComplete =>
      WithCaller(s, CompletionRead)
        .(cell := if s.cell.outcome == Complete then s.cell.(rx := Draining) else s.cell)
    case PollReceive(pending) =>
      // The channel may answer Pending although something is queued.
      if pending then WithCaller(s, Streaming)
      else if s.cell.queue != [] then
        Yield(s, Streaming, Chunk(s.cell.queue[0])).(cell := s.cell.(queue := s.cell.queue[1..]))
      else if s.cell.rx == Draining then
        Yield(s, Ended, Eof).(cell := s.cell.(rx := Dropped))
      else WithCaller(s, Streaming)
    case PollAgain => Yield(s, Ended, Eof)
  }

  function WithGuard(s: State, g: Guard): State {
    s.(client := s.client.(guard := g))
  }

  predicate GuardCan(s: State, a: GuardStep) {
    match a
    case Drop =>
      CallerActive(s) && s.client.at != HeadMissing && s.client.at != NotFailed && s.client.at != CompletionRead
    case DropUpload => s.client.guard == BodyDropped
    case DropRemove => s.client.guard == UploadStopped
    case DropCheck => s.client.guard == Removed
    case DropNotify(_) => s.client.guard == MustNotify
  }

  function GuardDoes(s: State, a: GuardStep): State
    requires GuardCan(s, a)
  {
    match a
    case Drop =>
      // The receiver goes first, then the guard's own drop runs.
      WithGuard(s, BodyDropped)
        .(cell := if s.client.at == Streaming then s.cell.(rx := Dropped, queue := []) else s.cell)
    case DropUpload => WithGuard(s, UploadStopped).(cell := s.cell.(uploadAborted := true))
    case DropRemove => WithGuard(s, Removed).(cell := s.cell.(inMap := false))
    case DropCheck => WithGuard(s, if s.cell.completed then Released else MustNotify)
    case DropNotify(full) => TryEnd(WithGuard(s, Released), [], full)
  }

  predicate NextDown(s: State) {
    !s.session.tetherGone && s.links.downSeen < s.links.downWritten <= |s.links.down|
  }

  predicate TetherCan(s: State, a: TetherStep) {
    match a
    case TetherOpen(_, _) => NextDown(s) && s.links.down[s.links.downSeen].Open?
    case TetherInput(_) =>
      NextDown(s) && (s.links.down[s.links.downSeen].Data? || s.links.down[s.links.downSeen].HalfEnd?)
    case TetherEnd => NextDown(s) && s.links.down[s.links.downSeen].End?
    case TetherReap => s.tether.pump.Some? && s.tether.pump.value.phase == Reported
    case TetherGone => true
  }

  function Taken(s: State): State {
    s.(links := s.links.(downSeen := s.links.downSeen + 1))
  }

  function DropHandle(s: State): State {
    s.(tether := s.tether.(handle := false))
  }

  function TetherDoes(s: State, a: TetherStep): State
    requires TetherCan(s, a)
  {
    match a
    case TetherOpen(answer, overloaded) =>
      if overloaded then SendUp(Taken(s), End(s.id, REASON))
      else Taken(s).(tether := Tether(true, [], true, [], Unfinished, Some(Pump(answer, Connecting, 0))))
    case TetherInput(full) => (
      var f := s.links.down[s.links.downSeen];
      var message := if f.Data? then f.bytes else [];
      if !s.tether.handle || !s.tether.reading then Taken(s)
      else if full then SendUp(DropHandle(Taken(s)), End(s.id, REASON))
      else Taken(s).(tether := s.tether.(input := s.tether.input + [message]))
    )
    case TetherEnd => DropHandle(Taken(s))
    case TetherReap => DropHandle(s)
    case TetherGone => DropHandle(s).(session := s.session.(tetherGone := true))
  }

  function WithPump(s: State, p: Pump): State {
    s.(tether := s.tether.(pump := Some(p)))
  }

  predicate PumpCan(s: State, a: PumpStep) {
    && s.tether.pump.Some?
    && var p := s.tether.pump.value;
       match a
       // Sending fails once the tether's writer has gone with its session.
       case PumpHead => !s.session.tetherGone && p.phase == Connecting && p.answer.headed
       case PumpChunk => !s.session.tetherGone && p.phase == Relaying && p.read < |p.answer.chunks|
       case PumpEnd =>
         && !s.session.tetherGone
         && ((p.phase == Connecting && !p.answer.headed) || (p.phase == Relaying && p.read == |p.answer.chunks|))
       case PumpReport => p.phase == EndSent
       case PumpStops => !s.tether.handle && p.phase != Reported
       case PumpReceive => (p.phase == Connecting || p.phase == Relaying) && s.tether.reading && s.tether.input != []
       case PumpStarves =>
         (p.phase == Connecting || p.phase == Relaying) && s.tether.reading && s.tether.input == [] && !s.tether.handle
       case PumpIgnores => s.tether.reading
  }

  function PumpDoes(s: State, a: PumpStep): State
    requires PumpCan(s, a)
  {
    var p := s.tether.pump.value;
    match a
    case PumpHead => SendUp(WithPump(s, p.(phase := Relaying)), RespHead(s.id, p.answer.head))
    case PumpChunk => (
      var t := WithPump(s, p.(read := p.read + 1));
      var chunk := p.answer.chunks[p.read];
      if chunk == [] then t else SendUp(t, Data(s.id, chunk))
    )
    case PumpEnd =>
      SendUp(s.(tether := s.tether.(reading := false, pump := Some(p.(phase := EndSent)))),
             End(s.id, if p.answer.headed && p.answer.ok then [] else REASON))
    case PumpReport => WithPump(s, p.(phase := Reported))
    case PumpStops => s.(tether := s.tether.(reading := false, pump := Some(p.(phase := Dead))))
    case PumpReceive => (
      var message := s.tether.input[0];
      var u := s.tether.(input := s.tether.input[1..], consumed := s.tether.consumed + [message]);
      s.(tether := if message == [] then u.(request := Normal, reading := false) else u)
    )
    case PumpStarves => s.(tether := s.tether.(request := Broken, reading := false))
    case PumpIgnores => s.(tether := s.tether.(reading := false))
  }

  predicate WireCan(s: State, a: WireStep) {
    match a
    case HubWrites => !s.session.writerGone && s.links.downWritten < |s.links.down|
    case TetherWrites => !s.session.tetherGone && s.links.upWritten < |s.links.up|
  }

  function WireDoes(s: State, a: WireStep): State
    requires WireCan(s, a)
  {
    match a
    case HubWrites => s.(links := s.links.(downWritten := s.links.downWritten + 1))
    case TetherWrites => s.(links := s.links.(upWritten := s.links.upWritten + 1))
  }

  predicate Enabled(s: State, a: Step) {
    match a
    case ByStarter(x) => StarterCan(s, x)
    case ByUpload(x) => UploadCan(s, x)
    case ByLoop(x) => LoopCan(s, x)
    case BySession(x) => SessionCan(s, x)
    case ByCaller(x) => CallerCan(s, x)
    case ByGuard(x) => GuardCan(s, x)
    case ByTether(x) => TetherCan(s, x)
    case ByPump(x) => PumpCan(s, x)
    case ByWire(x) => WireCan(s, x)
  }

  function Do(s: State, a: Step): State
    requires Enabled(s, a)
  {
    match a
    case ByStarter(x) => StarterDoes(s, x)
    case ByUpload(x) => UploadDoes(s, x)
    case ByLoop(x) => LoopDoes(s, x)
    case BySession(x) => SessionDoes(s, x)
    case ByCaller(x) => CallerDoes(s, x)
    case ByGuard(x) => GuardDoes(s, x)
    case ByTether(x) => TetherDoes(s, x)
    case ByPump(x) => PumpDoes(s, x)
    case ByWire(x) => WireDoes(s, x)
  }

  function Fresh(id: u16): State {
    State(id, Session(false, false, false, false, false),
          Cell(false, None, false, Undecided, false, false, Receiving, [], []),
          Hub(NotStarted, Body([], true), NoUpload, Idle, NoCloser),
          Client(Waiting, Held, []), Links([], 0, 0, [], 0, 0),
          Tether(false, [], false, [], Unfinished, None))
  }

  /** The state after a run, or None when some step was not possible. */
  function Execute(s: State, run: seq<Step>): Option<State>
    decreases |run|
  {
    if run == [] then Some(s)
    else if Enabled(s, run[0]) then Execute(Do(s, run[0]), run[1..])
    else None
  }

  lemma OneStep(s: State, a: Step)
    requires Enabled(s, a)
    ensures Execute(s, [a]) == Some(Do(s, a))
  {
  }

  lemma {:induction false} ExecuteTwice(s: State, first: seq<Step>, t: State, second: seq<Step>)
    requires Execute(s, first) == Some(t)
    ensures Execute(s, first + second) == Execute(t, second)
    decreases |first|
  {
    if first == [] {
      assert first + second == second;
    } else {
      ExecuteTwice(Do(s, first[0]), first[1..], t, second);
      assert (first + second)[1..] == first[1..] + second;
    }
  }

  // ---- Reading the logs ---------------------------------------------------

  /** Payloads of the DATA frames of a log. */
  function DataOf(log: seq<Frame>): seq<Bytes> {
    if log == [] then []
    else DataOf(log[..|log| - 1]) + if log[|log| - 1].Data? then [log[|log| - 1].bytes] else []
  }

  /** What the tether passes on: DATA payloads, and an empty one for HALF_END. */
  function MessagesOf(log: seq<Frame>): seq<Bytes> {
    if log == [] then []
    else
      var f := log[|log| - 1];
      MessagesOf(log[..|log| - 1]) + if f.Data? then [f.bytes] else if f.HalfEnd? then [[]] else []
  }

  function NonEmpty(chunks: seq<Bytes>): seq<Bytes> {
    if chunks == [] then []
    else NonEmpty(chunks[..|chunks| - 1]) + if chunks[|chunks| - 1] == [] then [] else [chunks[|chunks| - 1]]
  }

  function ChunksOf(trace: seq<Item>): seq<Bytes> {
    if trace == [] then []
    else
      var item := trace[|trace| - 1];
      ChunksOf(trace[..|trace| - 1]) + if item.Chunk? then [item.bytes] else []
  }

  lemma LogGrows(log: seq<Frame>, f: Frame)
    ensures DataOf(log + [f]) == DataOf(log) + if f.Data? then [f.bytes] else []
    ensures MessagesOf(log + [f]) == MessagesOf(log) + if f.Data? then [f.bytes] else if f.HalfEnd? then [[]] else []
  {
    assert (log + [f])[..|log|] == log;
  }

  lemma NextOf(log: seq<Frame>, i: nat)
    requires i < |log|
    ensures DataOf(log[..i + 1]) == DataOf(log[..i]) + if log[i].Data? then [log[i].bytes] else []
    ensures MessagesOf(log[..i + 1]) ==
      MessagesOf(log[..i]) + if log[i].Data? then [log[i].bytes] else if log[i].HalfEnd? then [[]] else []
  {
    assert log[..i + 1] == log[..i] + [log[i]];
    LogGrows(log[..i], log[i]);
  }

  lemma NextNonEmpty(chunks: seq<Bytes>, i: nat)
    requires i < |chunks|
    ensures NonEmpty(chunks[..i + 1]) == NonEmpty(chunks[..i]) + if chunks[i] == [] then [] else [chunks[i]]
  {
    assert chunks[..i + 1][..i] == chunks[..i];
  }

  lemma TraceGrows(trace: seq<Item>, item: Item)
    ensures ChunksOf(trace + [item]) == ChunksOf(trace) + if item.Chunk? then [item.bytes] else []
  {
    assert (trace + [item])[..|trace|] == trace;
  }

  lemma {:induction false} DataPrefix(log: seq<Frame>, i: nat)
    requires i <= |log|
    ensures DataOf(log[..i]) <= DataOf(log)
    decreases |log|
  {
    if i < |log| {
      DataPrefix(log[..|log| - 1], i);
      assert log[..|log| - 1][..i] == log[..i];
    } else {
      assert log[..i] == log;
    }
  }

  lemma {:induction false} NonEmptyPrefix(chunks: seq<Bytes>, i: nat)
    requires i <= |chunks|
    ensures NonEmpty(chunks[..i]) <= NonEmpty(chunks)
    decreases |chunks|
  {
    if i < |chunks| {
      NonEmptyPrefix(chunks[..|chunks| - 1], i);
      assert chunks[..|chunks| - 1][..i] == chunks[..i];
    } else {
      assert chunks[..i] == chunks;
    }
  }
}
