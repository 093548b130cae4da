/** The native-messaging frame codec and the relay loops that re-emit frames. */
module Frames {
  import opened Bytes

  const MAX_FRAME_BYTES := 1024 * 1024
  const U32_MAX := 0xFFFF_FFFF

  datatype FrameError = FrameLengthRead | FrameOversize(len: nat) | FrameBodyRead | Io

  // ---------------------------------------------------------------------
  // The wire form
  // ---------------------------------------------------------------------

  /** `u32::to_le_bytes`. */
  function LeBytes(n: nat): (b: Bytes)
    requires n <= U32_MAX
    ensures |b| == 4
  {
    [n % 256, n / 256 % 256, n / 65536 % 256, n / 16777216]
  }

  /** `u32::from_le_bytes`. */
  function LeValue(b: Bytes): (n: nat)
    requires |b| == 4
    ensures n <= U32_MAX
  {
    var b0: int, b1: int, b2: int, b3: int := b[0], b[1], b[2], b[3];
    b0 + 256 * b1 + 65536 * b2 + 16777216 * b3
  }

  lemma {:induction false} LeInverse(n: nat, b: Bytes)
    requires n <= U32_MAX && |b| == 4
    ensures LeValue(LeBytes(n)) == n
    ensures LeBytes(LeValue(b)) == b
  {
    var v := LeValue(b);
    var b1: int, b2: int, b3: int := b[1], b[2], b[3];
    assert v / 256 == b1 + 256 * b2 + 65536 * b3;
    assert v / 65536 == b2 + 256 * b3;
    assert v / 16777216 == b3;
    assert n / 65536 == n / 256 / 256 && n / 16777216 == n / 256 / 256 / 256;
  }

  predicate ValidBody(body: Bytes) {
    |body| <= MAX_FRAME_BYTES
  }

  /** A body that fits a frame. */
  type Body = b: Bytes | ValidBody(b)

  function Frame(body: Body): Bytes {
    LeBytes(|body|) + body
  }

  function FramesOf(bodies: seq<Body>): Bytes {
    if bodies == [] then [] else Frame(bodies[0]) + FramesOf(bodies[1..])
  }

  datatype Parsed = Complete(body: Body, rest: Bytes) | Broken(error: FrameError)

  /** What one read does on a stream holding `s`. */
  function ParseFrame(s: Bytes): (p: Parsed)
    ensures p.Complete? ==> |p.rest| < |s|
  {
    if |s| < 4 then Broken(FrameLengthRead)
    else
      var len := LeValue(s[..4]);
      if len > MAX_FRAME_BYTES then Broken(FrameOversize(len))
      else if |s| < 4 + len then Broken(FrameBodyRead)
      else Complete(s[4..4 + len], s[4 + len..])
  }

  /** The bodies read from `s` until a read fails. */
  function Bodies(s: Bytes): seq<Body>
    decreases |s|
  {
    match ParseFrame(s)
    case Complete(body, rest) => [body] + Bodies(rest)
    case Broken(_) => []
  }

  /** How the reading of `s` ends. */
  function Ending(s: Bytes): FrameError
    decreases |s|
  {
    match ParseFrame(s)
    case Complete(_, rest) => Ending(rest)
    case Broken(e) => e
  }

  /** A written frame is read back as its body, whatever follows it. */
  lemma {:induction false} WrittenIsRead(body: Body, rest: Bytes)
    ensures ParseFrame(Frame(body) + rest) == Complete(body, rest)
  {
    var t := Frame(body) + rest;
    LeInverse(|body|, [0, 0, 0, 0]);
    assert t[..4] == LeBytes(|body|);
    assert t[4..4 + |body|] == body && t[4 + |body|..] == rest;
  }

  /** A frame that was read is the front of the stream. */
  lemma {:induction false} ReadIsWritten(s: Bytes)
    requires ParseFrame(s).Complete?
    ensures s == Frame(ParseFrame(s).body) + ParseFrame(s).rest
  {
    LeInverse(0, s[..4]);
    assert s == s[..4] + ParseFrame(s).body + ParseFrame(s).rest;
  }

  /** Reading back any list of written frames returns the list, and then a clean end. */
  lemma {:induction false} StreamRoundTrip(bodies: seq<Body>)
    ensures Bodies(FramesOf(bodies)) == bodies && Ending(FramesOf(bodies)) == FrameLengthRead
  {
    if bodies != [] {
      var rest := FramesOf(bodies[1..]);
      WrittenIsRead(bodies[0], rest);
      StreamRoundTrip(bodies[1..]);
      assert Bodies(Frame(bodies[0]) + rest) == [bodies[0]] + Bodies(rest);
    }
  }

  /** The bytes a relay re-emits are a prefix of what it read. */
  lemma {:induction false} RelayedIsPrefix(s: Bytes)
    ensures FramesOf(Bodies(s)) <= s
    decreases |s|
  {
    var p := ParseFrame(s);
    if p.Complete? {
      ReadIsWritten(s);
      RelayedIsPrefix(p.rest);
      assert Bodies(s)[1..] == Bodies(p.rest);
    }
  }

  /** No longer prefix is made of whole valid frames. */
  lemma {:induction false} RelayedIsLongest(s: Bytes, bodies: seq<Body>)
    requires FramesOf(bodies) <= s
    ensures bodies <= Bodies(s) && FramesOf(bodies) <= FramesOf(Bodies(s))
    decreases |bodies|
  {
    if bodies != [] {
      var rest := FramesOf(bodies[1..]);
      var tail := rest + s[|FramesOf(bodies)|..];
      assert s == Frame(bodies[0]) + tail;
      WrittenIsRead(bodies[0], tail);
      RelayedIsLongest(tail, bodies[1..]);
      assert Bodies(s)[1..] == Bodies(tail);
      assert bodies == [bodies[0]] + bodies[1..];
    }
  }

  /**
   What a read answers, byte by byte: a stream of less than four bytes has no length; the length is the
   first four bytes, least significant first; a length above 1 MiB is refused unread; the body is the
   next so many bytes, if there are as many.
   */
  lemma {:induction false} ParseAnswers(s: Bytes)
    ensures var b: seq<int> := s;
            if |s| < 4 then ParseFrame(s) == Broken(FrameLengthRead)
            else
              var len := b[0] + 256 * b[1] + 256 * 256 * b[2] + 256 * 256 * 256 * b[3];
              if len > 1_048_576 then ParseFrame(s) == Broken(FrameOversize(len))
              else if |s| - 4 < len then ParseFrame(s) == Broken(FrameBodyRead)
              else ParseFrame(s) == Complete(s[4..4 + len], s[4 + len..])
  {
  }

  lemma {:induction false} FirstOfBodies(s: Bytes)
    requires ParseFrame(s).Complete?
    ensures FramesOf(Bodies(s)) == Frame(ParseFrame(s).body) + FramesOf(Bodies(ParseFrame(s).rest))
    ensures Ending(s) == Ending(ParseFrame(s).rest)
  {
    var p := ParseFrame(s);
    assert Bodies(s) == [p.body] + Bodies(p.rest);
    assert Bodies(s)[1..] == Bodies(p.rest);
  }

  /** What follows the frames that were read is what broke the reading. */
  lemma {:induction false} FramesThenBroken(s: Bytes) returns (rest: Bytes)
    ensures s == FramesOf(Bodies(s)) + rest && ParseFrame(rest) == Broken(Ending(s))
    decreases |s|
  {
    var p := ParseFrame(s);
    if p.Complete? {
      ReadIsWritten(s);
      FirstOfBodies(s);
      rest := FramesThenBroken(p.rest);
      JoinFrames(Frame(p.body), FramesOf(Bodies(p.rest)), rest);
    } else {
      rest := s;
    }
  }

  lemma {:induction false} JoinFrames(a: Bytes, b: Bytes, c: Bytes)
    ensures a + (b + c) == (a + b) + c
  {
  }

  // ---------------------------------------------------------------------
  // Streams
  // ---------------------------------------------------------------------

  /** A byte stream being read: what is left of it. */
  class Reader {
    var rest: Bytes

    constructor (data: Bytes)
      ensures rest == data
    {
      rest := data;
    }

    /** `read_exact`: all `n` bytes, or a failure that leaves nothing to read. */
    method ReadExact(n: nat) returns (r: Option<Bytes>)
      modifies this
      ensures n <= |old(rest)| ==> r == Some(old(rest)[..n]) && rest == old(rest)[n..]
      ensures n > |old(rest)| ==> r == None && rest == []
    {
      if n <= |rest| {
        r := Some(rest[..n]);
        rest := rest[n..];
      } else {
        r := None;
        rest := [];
      }
    }
  }

  /** A byte stream being written, which takes `room` bytes more and then fails. */
  class Writer {
    var written: Bytes
    var room: nat

    constructor (room: nat)
      ensures written == [] && this.room == room
    {
      written := [];
      this.room := room;
    }

    /** `write_all`: all bytes, or a failure after as many as the stream took. */
    method WriteAll(b: Bytes) returns (ok: bool)
      modifies this
      ensures ok <==> |b| <= old(room)
      ensures written == old(written) + b[..Min(|b|, old(room))]
      ensures room == old(room) - Min(|b|, old(room))
    {
      ok := |b| <= room;
      var n := Min(|b|, room);
      written := written + b[..n];
      room := room - n;
    }
  }

  method ReadFrame(reader: Reader) returns (r: Result<Body, FrameError>)
    modifies reader
    ensures match ParseFrame(old(reader.rest))
            case Complete(body, rest) => r == Ok(body) && reader.rest == rest
            case Broken(e) => r == Err(e)
    ensures |reader.rest| <= |old(reader.rest)|
  {
    var prefix := reader.ReadExact(4);
    if prefix.None? {
      return Err(FrameLengthRead);
    }
    var len := LeValue(prefix.value);
    if len > MAX_FRAME_BYTES {
      return Err(FrameOversize(len));
    }
    var body := reader.ReadExact(len);
    if body.None? {
      return Err(FrameBodyRead);
    }
    ghost var s := old(reader.rest);
    assert s[4..][..len] == s[4..4 + len] && s[4..][len..] == s[4 + len..];
    return Ok(body.value);
  }

  method WriteFrame(writer: Writer, body: Bytes) returns (r: Result<(), FrameError>)
    modifies writer
    ensures !ValidBody(body) ==>
              && r == Err(FrameOversize(Min(|body|, U32_MAX)))
              && writer.written == old(writer.written) && writer.room == old(writer.room)
    ensures ValidBody(body) ==>
              var n := Min(|Frame(body)|, old(writer.room));
              && r == (if n == |Frame(body)| then Ok(()) else Err(Io))
              && writer.written == old(writer.written) + Frame(body)[..n] && writer.room == old(writer.room) - n
  {
    if |body| > U32_MAX {
      return Err(FrameOversize(U32_MAX));
    }
    if |body| > MAX_FRAME_BYTES {
      return Err(FrameOversize(|body|));
    }
    var prefix := writer.WriteAll(LeBytes(|body|));
    if !prefix {
      return Err(Io);
    }
    var whole := writer.WriteAll(body);
    return if whole then Ok(()) else Err(Io);
  }

  // ---------------------------------------------------------------------
  // Relays
  // ---------------------------------------------------------------------

  /** The result of a relay task: a stream that ends before or inside a length prefix ends it cleanly. */
  function Ended(e: FrameError): Result<(), FrameError> {
    if e == FrameLengthRead then Ok(()) else Err(e)
  }

  /** What a relay task of the stream `s` returns when its output takes `room` bytes. */
  function TaskResult(s: Bytes, room: nat): Result<(), FrameError> {
    if room < |FramesOf(Bodies(s))| then Err(Io) else Ended(Ending(s))
  }

  /** What an output stream with `room` takes of `b`. */
  function Taken(b: Bytes, room: nat): (t: Bytes)
    ensures |t| <= room
  {
    b[..Min(|b|, room)]
  }

  /** What it has put out by then. */
  function TaskOutput(s: Bytes, room: nat): Bytes {
    Taken(FramesOf(Bodies(s)), room)
  }

  /** A relay task ends cleanly exactly when its output takes all frames and less than a length prefix is left over. */
  lemma {:induction false} CleanEnd(s: Bytes, room: nat)
    ensures TaskResult(s, room).Ok? <==> |FramesOf(Bodies(s))| <= room && |s| - |FramesOf(Bodies(s))| < 4
  {
    var rest := FramesThenBroken(s);
    ParseAnswers(rest);
  }

  /** One frame of a relay task. */
  lemma {:induction false} TaskStep(s: Bytes, room: nat, body: Body, rest: Bytes)
    requires ParseFrame(s) == Complete(body, rest)
    ensures room < |Frame(body)| ==> TaskOutput(s, room) == Frame(body)[..room] && TaskResult(s, room) == Err(Io)
    ensures room >= |Frame(body)| ==>
              && TaskOutput(s, room) == Frame(body) + TaskOutput(rest, room - |Frame(body)|)
              && TaskResult(s, room) == TaskResult(rest, room - |Frame(body)|)
  {
  }

  lemma {:induction false} TaskAtItsEnd(s: Bytes, room: nat)
    requires ParseFrame(s).Broken?
    ensures TaskOutput(s, room) == [] && TaskResult(s, room) == Ended(ParseFrame(s).error)
  {
  }

  /** One pass of a relay loop; Some when the relay ends. */
  method RelayFrame(reader: Reader, writer: Writer) returns (r: Option<Result<(), FrameError>>)
    modifies reader, writer
    ensures old(writer.written) <= writer.written
    ensures r.Some? ==>
              && r.value == TaskResult(old(reader.rest), old(writer.room))
              && writer.written == old(writer.written) + TaskOutput(old(reader.rest), old(writer.room))
    ensures r.None? ==>
              && |reader.rest| < |old(reader.rest)|
              && TaskResult(reader.rest, writer.room) == TaskResult(old(reader.rest), old(writer.room))
              && writer.written + TaskOutput(reader.rest, writer.room)
                 == old(writer.written) + TaskOutput(old(reader.rest), old(writer.room))
  {
    ghost var s, room, before := reader.rest, writer.room, writer.written;
    var read := ReadFrame(reader);
    if read.Err? {
      TaskAtItsEnd(s, room);
      assert before + [] == before;
      return Some(if read.error == FrameLengthRead then Ok(()) else Err(read.error));
    }
    ghost var frame := Frame(read.value);
    TaskStep(s, room, read.value, reader.rest);
    var written := WriteFrame(writer, read.value);
    if written.Err? {
      return Some(Err(written.error));
    }
    assert frame[..|frame|] == frame;
    JoinFrames(before, frame, TaskOutput(reader.rest, writer.room));
    return None;
  }

  /** One relay task run to its end. */
  method Relay(reader: Reader, writer: Writer) returns (r: Result<(), FrameError>)
    modifies reader, writer
    ensures writer.written == old(writer.written) + TaskOutput(old(reader.rest), old(writer.room))
    ensures r == TaskResult(old(reader.rest), old(writer.room))
  {
    while true
      invariant writer.written + TaskOutput(reader.rest, writer.room)
             == old(writer.written) + TaskOutput(old(reader.rest), old(writer.room))
      invariant TaskResult(reader.rest, writer.room) == TaskResult(old(reader.rest), old(writer.room))
      decreases |reader.rest|
    {
      var ended := RelayFrame(reader, writer);
      if ended.Some? {
        return ended.value;
      }
    }
  }

  /** The task that is dropped may have got part of its next frame out. */
  method DropTask(reader: Reader, writer: Writer, cut: nat)
    modifies writer
    ensures old(writer.written) <= writer.written
            <= old(writer.written) + TaskOutput(old(reader.rest), old(writer.room))
  {
    var next := ParseFrame(reader.rest);
    if next.Complete? {
      TaskStep(reader.rest, writer.room, next.body, next.rest);
      var _ := writer.WriteAll(Frame(next.body)[..Min(cut, |Frame(next.body)|)]);
    }
  }

  /**
   Both relay tasks until the first one ends, which drops the other: `turns` says which of them is
   served when, `cut` how far the dropped one has got. The task that ended has put out all it could,
   and the other a prefix of what it would have.
   */
  method RelayBoth(a: Reader, aOut: Writer, b: Reader, bOut: Writer, turns: nat -> bool, cut: nat)
    returns (r: Result<(), FrameError>, firstEnded: bool)
    requires a != b && aOut != bOut
    modifies a, aOut, b, bOut
    ensures r == if firstEnded then TaskResult(old(a.rest), old(aOut.room)) else TaskResult(old(b.rest), old(bOut.room))
    ensures old(aOut.written) <= aOut.written <= old(aOut.written) + TaskOutput(old(a.rest), old(aOut.room))
    ensures old(bOut.written) <= bOut.written <= old(bOut.written) + TaskOutput(old(b.rest), old(bOut.room))
    ensures firstEnded ==> aOut.written == old(aOut.written) + TaskOutput(old(a.rest), old(aOut.room))
    ensures !firstEnded ==> bOut.written == old(bOut.written) + TaskOutput(old(b.rest), old(bOut.room))
  {
    var turn: nat := 0;
    while true
      invariant old(aOut.written) <= aOut.written && old(bOut.written) <= bOut.written
      invariant aOut.written + TaskOutput(a.rest, aOut.room)
             == old(aOut.written) + TaskOutput(old(a.rest), old(aOut.room))
      invariant bOut.written + TaskOutput(b.rest, bOut.room)
             == old(bOut.written) + TaskOutput(old(b.rest), old(bOut.room))
      invariant TaskResult(a.rest, aOut.room) == TaskResult(old(a.rest), old(aOut.room))
      invariant TaskResult(b.rest, bOut.room) == TaskResult(old(b.rest), old(bOut.room))
      decreases |a.rest| + |b.rest|
    {
      if turns(turn) {
        var ended := RelayFrame(a, aOut);
        if ended.Some? {
          DropTask(b, bOut, cut);
          return ended.value, true;
        }
      } else {
        var ended := RelayFrame(b, bOut);
        if ended.Some? {
          DropTask(a, aOut, cut);
          return ended.value, false;
        }
      }
      turn := turn + 1;
    }
  }

  // ---------------------------------------------------------------------
  // The host
  // ---------------------------------------------------------------------

  /**
   What the host decides outside the frame codec: the answer to the handshake request (the response
   body, or the error body of a refused one), the error body for a failed frame, and whether the
   desktop's channel opens.
   */
  datatype Host = Host(answer: Bytes -> Result<Bytes, Body>, errorBody: FrameError -> Body, connect: Result<(), Body>)

  /** What the handshake puts on an output with `room`, and the error body if it fails. */
  datatype Handshake = Handshake(out: Bytes, refusal: Option<Body>)

  function Shake(host: Host, first: Parsed, room: nat): (h: Handshake)
    ensures |h.out| <= room
  {
    match first
    case Broken(e) => Handshake([], Some(host.errorBody(e)))
    case Complete(body, _) =>
      match host.answer(body)
      case Err(refusal) => Handshake([], Some(refusal))
      case Ok(reply) =>
        if !ValidBody(reply) then Handshake([], Some(host.errorBody(FrameOversize(Min(|reply|, U32_MAX)))))
        else if room < |Frame(reply)| then Handshake(Taken(Frame(reply), room), Some(host.errorBody(Io)))
        else Handshake(Frame(reply), None)
  }

  /** The first frame is answered, not relayed. */
  method DoHandshake(stdin: Reader, stdout: Writer, host: Host) returns (r: Result<(), Body>)
    modifies stdin, stdout
    ensures var h := Shake(host, ParseFrame(old(stdin.rest)), old(stdout.room));
            && stdout.written == old(stdout.written) + h.out && stdout.room == old(stdout.room) - |h.out|
            && r == (if h.refusal.Some? then Err(h.refusal.value) else Ok(()))
            && (r.Ok? ==> stdin.rest == ParseFrame(old(stdin.rest)).rest)
  {
    var first := ReadFrame(stdin);
    if first.Err? {
      return Err(host.errorBody(first.error));
    }
    var reply := host.answer(first.value);
    if reply.Err? {
      return Err(reply.error);
    }
    var written := WriteFrame(stdout, reply.value);
    return if written.Ok? then Ok(()) else Err(host.errorBody(written.error));
  }

  /**
   The host. Nothing reaches the desktop before the handshake has succeeded, and then, however the two
   relay tasks are interleaved, a prefix of the frames behind the first one does, and the browser
   gets the reply and a prefix of the desktop's frames; the one that ends has passed on
   all it could, and decides the exit code.
   */
  method RunHost(stdin: Reader, stdout: Writer, desktop: Reader, ipc: Writer, host: Host, turns: nat -> bool, cut: nat)
    returns (exitCode: int, stdinEnded: bool)
    requires stdin != desktop && stdout != ipc
    modifies stdin, stdout, desktop, ipc
    ensures var first := ParseFrame(old(stdin.rest));
            var h := Shake(host, first, old(stdout.room));
            var room, shown := old(stdout.room) - |h.out|, old(stdout.written) + h.out;
            if h.refusal.Some? || host.connect.Err? then
              var error := if h.refusal.Some? then h.refusal.value else host.connect.error;
              && ipc.written == old(ipc.written) && exitCode == 1
              && stdout.written == shown + Taken(Frame(error), room)
            else
              var toDesktop, toBrowser := TaskOutput(first.rest, old(ipc.room)), TaskOutput(old(desktop.rest), room);
              && old(ipc.written) <= ipc.written <= old(ipc.written) + toDesktop
              && shown <= stdout.written <= shown + toBrowser
              && (if stdinEnded then ipc.written == old(ipc.written) + toDesktop
                  else stdout.written == shown + toBrowser)
              && (exitCode == 0 <==>
                    if stdinEnded then TaskResult(first.rest, old(ipc.room)).Ok?
                    else TaskResult(old(desktop.rest), room).Ok?)
    ensures var room, before := old(stdout.room), old(stdout.written);
            match ParseFrame(old(stdin.rest))
            case Broken(e) =>
              && ipc.written == old(ipc.written) && exitCode == 1
              && stdout.written == before + Taken(Frame(host.errorBody(e)), room)
            case Complete(body, rest) =>
              match host.answer(body)
              case Err(refusal) =>
                && ipc.written == old(ipc.written) && exitCode == 1
                && stdout.written == before + Taken(Frame(refusal), room)
              case Ok(reply) =>
                if !ValidBody(reply) then
                  && ipc.written == old(ipc.written) && exitCode == 1
                  && stdout.written
                     == before + Taken(Frame(host.errorBody(FrameOversize(Min(|reply|, U32_MAX)))), room)
                else if room < |Frame(reply)| then
                  ipc.written == old(ipc.written) && exitCode == 1 && stdout.written == before + Frame(reply)[..room]
                else
                  && before + Frame(reply) <= stdout.written
                  && (host.connect.Err? ==>
                        && ipc.written == old(ipc.written) && exitCode == 1
                        && stdout.written
                           == before + Frame(reply) + Taken(Frame(host.connect.error), room - |Frame(reply)|))
                  && (host.connect.Ok? && stdinEnded ==>
                        ipc.written == old(ipc.written) + Taken(FramesOf(Bodies(rest)), old(ipc.room)))
  {
    var shaken := DoHandshake(stdin, stdout, host);
    if shaken.Err? {
      var _ := WriteFrame(stdout, shaken.error);
      return 1, true;
    }
    if host.connect.Err? {
      var _ := WriteFrame(stdout, host.connect.error);
      return 1, true;
    }
    var relayed;
    relayed, stdinEnded := RelayBoth(stdin, ipc, desktop, stdout, turns, cut);
    exitCode := if relayed.Ok? then 0 else 1;
  }
}
