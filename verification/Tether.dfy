/** The tether's session loop: its table of engine pumps and what each frame from
    the hub does to it (cargo/src/tunnel.rs). */
module TetherLoop {
  import opened Prelude
  import opened Frames
  import Machine = Stream
  import Tunnel

  datatype StreamInputResult = Queued | Missing | Overloaded

  /** Does the loop go on, return, or fail? */
  datatype Verdict = Continues | Returns | Fails

  /** Owns one engine pump: dropping the handle aborts it. */
  class StreamHandle {
    var input: seq<Bytes>
    /** The request side of the pump still receives. */
    var reading: bool
    var aborted: bool

    constructor ()
      ensures input == [] && reading && !aborted
    {
      input, reading, aborted := [], true, false;
    }
  }

  /** What one message does to a stream's half at the tether. */
  function Delivered(t: Machine.Tether, message: Bytes): (Machine.Tether, StreamInputResult) {
    if !t.handle then (t, Missing)
    else if !t.reading then (t, Queued)
    else if |t.input| >= Tunnel.STREAM_INPUT_CAPACITY then (t.(handle := false), Overloaded)
    else (t.(input := t.input + [message]), Queued)
  }

  /** It is the machine's step for DATA and HALF_END; an overloaded stream, and no
      other, is answered with END. */
  lemma DeliveredIsTheMachines(s: Machine.State, message: Bytes)
    requires Machine.NextDown(s)
    requires s.links.down[s.links.downSeen] == if message == [] then HalfEnd(s.id) else Data(s.id, message)
    ensures var full := |s.tether.input| >= Tunnel.STREAM_INPUT_CAPACITY;
      var t := Machine.TetherDoes(s, Machine.TetherInput(full));
      var (tether, result) := Delivered(s.tether, message);
      && t.tether == tether
      && t.links.up == s.links.up + (if result == Overloaded then [End(s.id, Machine.REASON)] else [])
      && t.links.downSeen == s.links.downSeen + 1
  {
  }

  class TetherSession {
    var streams: map<u16, StreamHandle>
    /** Frames handed to the writer. */
    var sent: seq<Frame>

    constructor ()
      ensures streams == map[] && sent == []
    {
      streams, sent := map[], [];
    }

    /** `t` shows what this session holds of stream `id`. */
    ghost predicate Shows(id: u16, t: Machine.Tether)
      reads this`streams, Handle(id)
    {
      && t.handle == (id in streams)
      && (id in streams ==> t.input == streams[id].input && t.reading == streams[id].reading)
    }

    /** Stream `id`'s half, as far as the session holds it. */
    ghost function Half(id: u16): Machine.Tether
      reads this`streams, Handle(id)
    {
      if id in streams then Machine.Tether(true, streams[id].input, streams[id].reading, [], Machine.Unfinished, None)
      else Machine.Tether(false, [], false, [], Machine.Unfinished, None)
    }

    function Handle(id: u16): set<StreamHandle>
      reads this`streams
    {
      if id in streams then {streams[id]} else {}
    }

    /** Each stream has a handle to itself. */
    ghost predicate Valid()
      reads this`streams
    {
      forall i, j :: i in streams && j in streams && streams[i] == streams[j] ==> i == j
    }

    method Remove(id: u16)
      requires Valid()
      modifies this`streams, Handle(id)
      ensures Valid() && streams == old(streams) - {id}
      ensures forall h :: h in old(Handle(id)) ==> h.aborted && h.input == old(h.input) && h.reading == old(h.reading)
    {
      if id in streams {
        streams[id].aborted := true;
        streams := streams - {id};
      }
    }

    /** A full stream loses its pump and nobody else is affected; one that reads no
        more swallows its input. */
    method EnqueueStreamInput(id: u16, bytes: Bytes) returns (r: StreamInputResult)
      requires Valid()
      modifies this`streams, Handle(id)
      ensures Valid()
      ensures var (t, result) := Delivered(old(Half(id)), bytes); r == result && Shows(id, t)
      ensures streams == if r == Overloaded then old(streams) - {id} else old(streams)
      ensures r == Overloaded ==> forall h :: h in old(Handle(id)) ==> h.aborted
    {
      if id !in streams {
        return Missing;
      }
      var stream := streams[id];
      if !stream.reading {
        return Queued;
      }
      if |stream.input| >= Tunnel.STREAM_INPUT_CAPACITY {
        Remove(id);
        return Overloaded;
      }
      stream.input := stream.input + [bytes];
      return Queued;
    }

    /** `try_send` to the writer. */
    method Send(f: Frame, room: bool) returns (v: Verdict)
      modifies this`sent
      ensures sent == old(sent) + if room then [f] else []
      ensures v == if room then Continues else Fails
    {
      if room {
        sent := sent + [f];
        return Continues;
      }
      return Fails;
    }

    /** OPEN starts a pump, or is answered with END when there are too many. */
    method HandleOpen(id: u16, room: bool) returns (v: Verdict)
      requires Valid()
      modifies this, Handle(id)
      ensures Valid()
      ensures old(|streams|) >= Tunnel.MAX_CONCURRENT_STREAMS ==>
        && streams == old(streams) && sent == old(sent) + (if room then [End(id, Machine.REASON)] else [])
        && v == if room then Continues else Fails
      ensures old(|streams|) < Tunnel.MAX_CONCURRENT_STREAMS ==>
        && v == Continues && sent == old(sent)
        && id in streams && fresh(streams[id]) && streams == old(streams)[id := streams[id]]
        && streams[id].input == [] && streams[id].reading && !streams[id].aborted
        && forall h :: h in old(Handle(id)) ==> h.aborted
    {
      if |streams| >= Tunnel.MAX_CONCURRENT_STREAMS {
        v := Send(End(id, Machine.REASON), room);
        return;
      }
      var handle := new StreamHandle();
      if id in streams {
        streams[id].aborted := true;
      }
      streams := streams[id := handle];
      return Continues;
    }

    /** DATA, and HALF_END as an empty message. */
    method HandleInput(id: u16, message: Bytes, room: bool) returns (v: Verdict)
      requires Valid()
      modifies this, Handle(id)
      ensures Valid()
      ensures var (t, r) := Delivered(old(Half(id)), message);
        && Shows(id, t)
        && streams == (if r == Overloaded then old(streams) - {id} else old(streams))
        && sent == old(sent) + (if r == Overloaded && room then [End(id, Machine.REASON)] else [])
        && v == if r == Overloaded && !room then Fails else Continues
    {
      var r := EnqueueStreamInput(id, message);
      v := Continues;
      if r == Overloaded {
        v := Send(End(id, Machine.REASON), room);
      }
    }

    /** The loop handles one frame; `room` is whether the writer has room. Only the
        hub may open, feed and end streams; what only a tether sends ends the
        session. */
    method HandleFrame(f: Frame, room: bool) returns (v: Verdict)
      requires Valid()
      modifies this, if f.IsControl() then {} else Handle(f.stream)
      ensures Valid()
      ensures f.Data? || f.HalfEnd? ==>
        var (t, r) := Delivered(old(Half(f.stream)), if f.Data? then f.bytes else []);
        && Shows(f.stream, t)
        && streams == (if r == Overloaded then old(streams) - {f.stream} else old(streams))
        && sent == old(sent) + (if r == Overloaded && room then [End(f.stream, Machine.REASON)] else [])
        && v == if r == Overloaded && !room then Fails else Continues
      ensures f.End? ==> streams == old(streams) - {f.stream} && sent == old(sent) && v == Continues
      ensures f.End? ==> forall h :: h in old(Handle(f.stream)) ==> h.aborted
      ensures f.Open? && old(|streams|) >= Tunnel.MAX_CONCURRENT_STREAMS ==>
        && streams == old(streams) && sent == old(sent) + (if room then [End(f.stream, Machine.REASON)] else [])
        && v == if room then Continues else Fails
      ensures f.Open? && old(|streams|) < Tunnel.MAX_CONCURRENT_STREAMS ==>
        && v == Continues && sent == old(sent)
        && f.stream in streams && fresh(streams[f.stream]) && streams == old(streams)[f.stream := streams[f.stream]]
        && streams[f.stream].input == [] && streams[f.stream].reading && !streams[f.stream].aborted
        && forall h :: h in old(Handle(f.stream)) ==> h.aborted
      ensures f.Ping? ==> sent == old(sent) + (if room then [Pong] else []) && v == (if room then Continues else Fails)
      ensures f.IsControl() || f.RespHead? ==> streams == old(streams)
      ensures (f.IsControl() && !f.Ping?) || f.RespHead? ==> sent == old(sent)
      ensures f.RespHead? || f.Hello? || f.Welcome? ==> v == Fails
      ensures f.Pong? ==> v == Continues
      ensures f.GoAway? <==> v == Returns
    {
      match f
      case Ping => v := Send(Pong, room);
      case Pong => v := Continues;
      case GoAway(_) => v := Returns;
      case RespHead(_, _) => v := Fails;
      case Hello(_) => v := Fails;
      case Welcome(_) => v := Fails;
      case Open(id, _) => v := HandleOpen(id, room);
      case Data(id, bytes) => v := HandleInput(id, bytes, room);
      case HalfEnd(id) => v := HandleInput(id, [], room);
      case End(id, _) =>
        Remove(id);
        v := Continues;
    }
  }
}
