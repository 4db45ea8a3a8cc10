/** One session: many streams over one command queue, two links and one frame
    loop at each end (cargo/src/hub.rs, cargo/src/tunnel.rs). Each stream takes
    the steps of Stream; here they share what the source shares. */
module Tunnel {
  import opened Prelude
  import opened Frames
  import opened Stream

  const MAX_CONCURRENT_STREAMS: nat := 64
  const STREAM_INPUT_CAPACITY: nat := 64
  const COMMAND_CHANNEL_CAPACITY: nat := 256
  const WS_WRITER_CAPACITY: nat := 256
  const MAX_ID: nat := 0xFFFF

  /** What a stream has to itself. */
  datatype Part = Part(
    cell: Cell, starter: Starter, body: Body, upload: Upload, closer: Closer, client: Client, tether: Tether)

  /** The thread that holds the routing lock, from choosing this session on. */
  datatype Router = Free | Reserved | Numbered(id: u16) | Starting(id: u16)

  datatype Refusal = OutOfIds | SessionClosed | SessionBusy

  /** `down[downWritten..]` waits in the command queue, `down[downSeen..downWritten]`
      is on the wire; so it is with `up` and the tether's writer. */
  datatype Multi = Multi(
    session: Session, nextId: nat, router: Router, permits: nat, refusals: seq<Refusal>,
    parts: map<u16, Part>, loopAt: u16, loop: Loop,
    up: seq<Frame>, upWritten: nat, upSeen: nat, down: seq<Frame>, downWritten: nat, downSeen: nat)

  datatype MultiStep =
    | Reserve                            // reserve_route picks this session
    | Number                             // start_forward draws an id
    | Refuse                             // admission fails
    | Act(id: u16, step: Step)           // a step of one stream
    | Close                              // LiveSession::close, its first half
    | Flag(flag: SessionStep)            // cancellation, or the end of a task
    | TetherEnds                         // the tether's session loop returns
    | Write                              // the hub's writer task sends one frame
    | TetherWrite                        // so does the tether's
    | HubPings                           // the hub's tick
    | TetherControl(frame: Frame)        // the tether's tick, or GOAWAY before it ends
    | HubTakesControl | TetherTakesControl

  // ---- One stream's view of the session --------------------------------------

  function IdOf(f: Frame): Option<u16> {
    if f.IsControl() then None else Some(f.stream)
  }

  /** The frames of one stream. */
  function Of(log: seq<Frame>, id: u16): seq<Frame> {
    if log == [] then []
    else Of(log[..|log| - 1], id) + if IdOf(log[|log| - 1]) == Some(id) then [log[|log| - 1]] else []
  }

  function FreshPart(): Part {
    var s := Fresh(0);
    Part(s.cell, s.hub.starter, s.hub.body, s.hub.upload, s.hub.closer, s.client, s.tether)
  }

  function PartOf(m: Multi, id: u16): Part {
    if id in m.parts then m.parts[id] else FreshPart()
  }

  predicate Indexed(m: Multi) {
    m.upSeen <= m.upWritten <= |m.up| && m.downSeen <= m.downWritten <= |m.down|
  }

  function LinksOf(m: Multi, id: u16): Links
    requires Indexed(m)
  {
    Links(Of(m.up, id), |Of(m.up[..m.upWritten], id)|, |Of(m.up[..m.upSeen], id)|,
          Of(m.down, id), |Of(m.down[..m.downWritten], id)|, |Of(m.down[..m.downSeen], id)|)
  }

  function View(m: Multi, id: u16): State
    requires Indexed(m)
  {
    var p := PartOf(m, id);
    var loop := if m.loopAt == id then m.loop else Idle;
    State(id, m.session, p.cell, Hub(p.starter, p.body, p.upload, loop, p.closer), p.client, LinksOf(m, id), p.tether)
  }

  // ---- Steps -------------------------------------------------------------------

  function InMap(m: Multi): set<u16> {
    set id | id in m.parts && m.parts[id].cell.inMap
  }

  function Handles(m: Multi): set<u16> {
    set id | id in m.parts && m.parts[id].tether.handle
  }

  function Occupied(m: Multi): int {
    |m.down| - m.downWritten + m.permits
  }

  predicate Room(m: Multi) {
    Occupied(m) < COMMAND_CHANNEL_CAPACITY
  }

  /** Room in the queue of the tether's writer. */
  predicate TetherRoom(m: Multi) {
    |m.up| - m.upWritten < WS_WRITER_CAPACITY
  }

  /** An empty chunk of the engine is not sent. */
  predicate SkipsChunk(t: Tether) {
    && t.pump.Some?
    && var p := t.pump.value;
       p.read < |p.answer.chunks| && p.answer.chunks[p.read] == []
  }

  /** What the shared resources allow a stream to do now. An END the tether's loop
      cannot queue ends the tether's session instead. */
  predicate Shared(m: Multi, id: u16, a: Step)
    requires Indexed(m)
  {
    match a
    case ByStarter(x) => (
      match x
      case Admit => m.router == Numbered(id) && |InMap(m)| < MAX_CONCURRENT_STREAMS
      case _ => m.router == Starting(id)
    )
    case ByUpload(x) => (
      match x
      case UploadNext => Room(m) || m.session.writerGone
      case UploadEnd => Room(m) || m.session.writerGone
      case UploadReport(full) => full == !Room(m)
      case _ => true
    )
    case ByLoop(x) => (
      match x
      case Take => m.loop == Idle && m.upSeen < m.upWritten <= |m.up| && IdOf(m.up[m.upSeen]) == Some(id)
      case LoopNotify(full) => m.loopAt == id && full == !Room(m)
      case _ => m.loopAt == id
    )
    case BySession(x) => x == CloseFail
    case ByCaller(_) => true
    case ByGuard(x) => (
      match x
      case DropNotify(full) => full == !Room(m)
      case _ => true
    )
    case ByTether(x) => (
      match x
      case TetherOpen(_, overloaded) =>
        && NextToTether(m, id) && overloaded == (|Handles(m)| >= MAX_CONCURRENT_STREAMS)
        && (overloaded ==> TetherRoom(m))
      case TetherInput(full) =>
        && NextToTether(m, id) && full == (|PartOf(m, id).tether.input| >= STREAM_INPUT_CAPACITY)
        && (full && PartOf(m, id).tether.handle && PartOf(m, id).tether.reading ==> TetherRoom(m))
      case TetherEnd => NextToTether(m, id)
      case TetherReap => true
      case TetherGone => false
    )
    case ByPump(x) => (
      match x
      case PumpHead => TetherRoom(m)
      case PumpChunk => TetherRoom(m) || SkipsChunk(PartOf(m, id).tether)
      case PumpEnd => TetherRoom(m)
      case _ => true
    )
    case ByWire(_) => false
  }

  predicate NextToTether(m: Multi, id: u16) {
    m.downSeen < m.downWritten <= |m.down| && IdOf(m.down[m.downSeen]) == Some(id)
  }

  /** A stream's step, written back into the session. */
  function Lift(m: Multi, id: u16, a: Step): Multi
    requires Indexed(m) && Enabled(View(m, id), a)
  {
    var v, w := View(m, id), Do(View(m, id), a);
    m.(session := w.session,
       parts := m.parts[id := Part(w.cell, w.hub.starter, w.hub.body, w.hub.upload, w.hub.closer, w.client, w.tether)],
       loopAt := if a.ByLoop? then id else m.loopAt,
       loop := if a.ByLoop? then w.hub.loop else m.loop,
       up := if |w.links.up| > |v.links.up| then m.up + [w.links.up[|v.links.up|]] else m.up,
       down := if |w.links.down| > |v.links.down| then m.down + [w.links.down[|v.links.down|]] else m.down,
       upSeen := if w.links.upSeen > v.links.upSeen then m.upSeen + 1 else m.upSeen,
       downSeen := if w.links.downSeen > v.links.downSeen then m.downSeen + 1 else m.downSeen,
       permits := if a.ByStarter? && a.starter.SendOpen? then Less(m.permits) else m.permits,
       router := if a == ByStarter(Admit) then Starting(id) else if a == ByStarter(Install) then Free else m.router)
  }

  /** `close` under the streams lock: no stream stays in the map. */
  function ClosePart(p: Part): Part {
    if p.cell.inMap then p.(cell := p.cell.(inMap := false), closer := CloserAt(Store)) else p
  }

  function CloseAll(m: Multi): Multi {
    m.(session := m.session.(closed := true), parts := map id | id in m.parts :: ClosePart(m.parts[id]))
  }

  function DropHandles(m: Multi): Multi {
    m.(session := m.session.(tetherGone := true),
       parts := map id | id in m.parts :: m.parts[id].(tether := m.parts[id].tether.(handle := false)))
  }

  /** The frame loop answers PING, ignores PONG, and ends on anything else, or if the
      answer cannot be queued. */
  function HubAnswers(m: Multi, f: Frame): Multi {
    if f == Pong then m
    else if f == Ping && Room(m) && !m.session.writerGone then m.(down := m.down + [Pong])
    else m.(session := m.session.(loopGone := true))
  }

  function TetherAnswers(m: Multi, f: Frame): Multi {
    if f == Ping then m.(up := m.up + [Pong]) else m
  }

  predicate Able(m: Multi, a: MultiStep) {
    && Indexed(m)
    && match a
       case Reserve =>
         && m.router == Free && !m.session.closed && !m.session.writerGone && Room(m)
         && |InMap(m)| < MAX_CONCURRENT_STREAMS && m.nextId <= MAX_ID
       case Number => m.router == Reserved
       case Refuse => m.router.Numbered? && (m.session.closed || |InMap(m)| >= MAX_CONCURRENT_STREAMS)
       case Act(id, step) => Shared(m, id, step) && Enabled(View(m, id), step)
       case Close => true
       case Flag(flag) => flag != CloseDrain && flag != CloseFail
       case TetherEnds => true
       case Write => m.downWritten < |m.down| && !m.session.writerGone
       case HubPings => Room(m) && !m.session.writerGone
       case TetherWrite => m.upWritten < |m.up| && !m.session.tetherGone
       case HubTakesControl =>
         m.loop == Idle && !m.session.loopGone && m.upSeen < m.upWritten && IdOf(m.up[m.upSeen]) == None
       case TetherTakesControl =>
         && !m.session.tetherGone && m.downSeen < m.downWritten && IdOf(m.down[m.downSeen]) == None
         && (m.down[m.downSeen] == Ping ==> TetherRoom(m))
       case TetherControl(f) => (f == Ping || f.GoAway?) && !m.session.tetherGone && TetherRoom(m)
  }

  function Perform(m: Multi, a: MultiStep): Multi
    requires Able(m, a)
  {
    match a
    case Reserve => m.(router := Reserved, permits := m.permits + 1)
    case Number =>
      if m.nextId > MAX_ID then m.(router := Free, permits := Less(m.permits), refusals := m.refusals + [OutOfIds])
      else m.(router := Numbered(Low16(m.nextId)), nextId := m.nextId + 1)
    case Refuse =>
      m.(router := Free, permits := Less(m.permits),
         refusals := m.refusals + [if m.session.closed then SessionClosed else SessionBusy])
    case Act(id, step) => Lift(m, id, step)
    case Close => CloseAll(m)
    case Flag(flag) => m.(session := WithFlag(m.session, flag))
    case TetherEnds => DropHandles(m)
    case Write => m.(downWritten := m.downWritten + 1)
    case HubPings => m.(down := m.down + [Ping])
    case TetherWrite => m.(upWritten := m.upWritten + 1)
    case HubTakesControl => HubAnswers(m.(upSeen := m.upSeen + 1), m.up[m.upSeen])
    case TetherTakesControl => TetherAnswers(m.(downSeen := m.downSeen + 1), m.down[m.downSeen])
    case TetherControl(f) => m.(up := m.up + [f])
  }

  function Less(n: nat): nat { if n > 0 then n - 1 else 0 }

  /** `*next as u16`. */
  function Low16(n: nat): u16 { (n % 0x1_0000) as u16 }

  function WithFlag(n: Session, flag: SessionStep): Session {
    match flag
    case Cancel => n.(cancelled := true)
    case WriterGone => n.(writerGone := true)
    case LoopGone => n.(loopGone := true)
    case _ => n
  }

  function Start(): Multi {
    Multi(Session(false, false, false, false, false), 1, Free, 0, [], map[], 0, Idle, [], 0, 0, [], 0, 0)
  }

  function Play(m: Multi, run: seq<MultiStep>): Option<Multi>
    decreases |run|
  {
    if run == [] then Some(m)
    else if Able(m, run[0]) then Play(Perform(m, run[0]), run[1..])
    else None
  }
}
