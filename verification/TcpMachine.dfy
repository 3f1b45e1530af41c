/** One plain TCP transport of the RLoop as a state machine over values (src/tcp.rs, non-TLS arms).
    The kernel is an oracle of outcomes. The protocol is arbitrary: every callback may call back into
    its transport, so a callback's reaction is a list of calls, each carrying the reactions to the
    callbacks it may cause in turn. */
module TcpMachine {
  import opened Prelude
  import opened Callbacks
  import opened Interests

  /** One answer of `read`; an empty one is end of file. */
  datatype ReadResult = Got(data: Bytes) | ReadInterrupted | ReadStopped

  datatype Call =
    | Write(data: Bytes, kernel: WriteResult, inPause: seq<Call>, inLost: seq<Call>)
    | WriteEof
    | GetWriteBufferSize
    | IsTls
    | PauseReading
    | ResumeReading
    | SetLimits(high: Option<nat>, low: Option<nat>, inPause: seq<Call>)
    | Close(inLost: seq<Call>)
    | Abort(inLost: seq<Call>)

  /** The flags and watermarks of `TCPTransport`. */
  datatype Control = Control(closing: bool, paused: bool, weof: bool, protoPaused: bool, hi: nat, lo: nat)

  /** `write_buf` and `write_buf_dsize`, with the histories of bytes accepted by `write`, handed to the
      kernel, and thrown away after a failed write. */
  datatype Buffer = Buffer(queue: seq<Bytes>, dsize: int, accepted: Bytes, sent: Bytes, dropped: Bytes)

  /** Where the loop stands: the transport is in `tcp_transports`; its state cell is mutably borrowed by a
      write that is calling out; the write handle is between emptying the queue and its last interest update. */
  datatype Stage = Stage(attached: bool, cellHeld: bool, draining: bool)

  /** What has been done to the outside. */
  datatype Trace = Trace(log: History, lost: nat, shut: bool, eofSeen: bool)

  /** What the protocol did that it should not have done: `abort` after connection_lost, a failing direct
      write after it, connection_lost made inside resume_writing with nothing queued, a write after it that was
      queued on an empty queue (until an `abort`), and eof_received resuming reading on a transport that it lets
      close (until the next end of file). */
  datatype Misuse = Misuse(lateAborts: nat, lateFailures: nat, lossesInResume: nat, strayWrite: bool, eofResumed: bool)

  /** `crashed` is a Rust panic: the release profile aborts the process. */
  datatype Conn = Conn(ctl: Control, buf: Buffer, slot: Slot, stage: Stage, trace: Trace, misuse: Misuse, crashed: bool)

  /** The state right after `_tcp_conn` or `handle_io_tcpl` attached the transport. */
  const FRESH := Conn(
    Control(false, false, false, false, 65536, 16384),
    Buffer([], 0, [], [], []),
    Slot(Some(TCPStream(READABLE)), Some(READABLE)),
    Stage(true, false, false),
    Trace(Start, 0, false, false),
    Misuse(0, 0, 0, false, false),
    false)

  function Log(s: Conn, cb: Callback): Conn {
    s.(trace := s.trace.(log := Then(s.trace.log, cb)))
  }

  // ----- the fd table, seen from this transport -----

  function AddInterest(s: Conn, i: Interest): Conn {
    match Add(Tcp, s.slot, i)
    case Done(slot) => s.(slot := slot)
    case Panic => s.(crashed := true)
  }

  function RemInterest(s: Conn, i: Interest): Conn {
    match Rem(Tcp, s.slot, i)
    case Done(slot) => s.(slot := slot)
    case Panic => s.(crashed := true)
  }

  /** Set `closing` unless it is set, and then stop polling for reads. */
  function StopReading(s: Conn): Conn {
    if s.ctl.closing then s else RemInterest(s.(ctl := s.ctl.(closing := true)), READABLE)
  }

  // ----- calls made by the application -----

  function ExecAll(s: Conn, cs: seq<Call>): Conn
    decreases cs, 0
  {
    if cs == [] || s.crashed then s else ExecAll(Exec(s, cs[0]), cs[1..])
  }

  /** The state in which `connection_lost` runs. */
  function Losing(s: Conn): Conn {
    s.(trace := s.trace.(log := Then(s.trace.log, ConnectionLost), lost := s.trace.lost + 1))
  }

  /** `tcp_stream_close` */
  function Detach(s: Conn): Conn {
    if s.crashed then s else s.(stage := s.stage.(attached := false))
  }

  /** `call_conn_lost` */
  function Lose(s: Conn, inLost: seq<Call>): Conn
    decreases inLost, 1
  {
    Detach(ExecAll(Losing(s), inLost))
  }

  /** The state in which `pause_writing` runs. A write still holds the state cell there. */
  function Pausing(s: Conn, held: bool): Conn {
    Log(s.(ctl := s.ctl.(protoPaused := true), stage := s.stage.(cellHeld := held)), PauseWriting)
  }

  function MaybePause(s: Conn, held: bool, inPause: seq<Call>): Conn
    decreases inPause, 1
  {
    if s.buf.dsize > s.ctl.hi && !s.ctl.protoPaused then
      var r := ExecAll(Pausing(s, held), inPause);
      if r.crashed then r else r.(stage := r.stage.(cellHeld := false))
    else s
  }

  /** Account for a write of which `n` bytes went out at once; queue the rest. */
  function Push(b: Buffer, data: Bytes, n: nat): Buffer
    requires n <= |data|
  {
    var b1 := b.(accepted := b.accepted + data, sent := b.sent + data[..n]);
    if n == |data| then b1 else b1.(queue := b.queue + [data[n..]], dsize := b.dsize + |data| - n)
  }

  function Enqueue(s: Conn, data: Bytes, n: nat): Conn
    requires n <= |data|
  {
    var s1 := s.(buf := Push(s.buf, data, n));
    if n == |data| || s.buf.dsize > 0 then s1
    else
      AddInterest(s1, WRITABLE).(misuse := s.misuse.(strayWrite := s.trace.lost > 0))
  }

  /** The state in which a failed direct write calls connection_lost. */
  function Failing(s: Conn): Conn {
    var s1 := StopReading(s);
    s1.(stage := s1.stage.(cellHeld := true),
        misuse := s1.misuse.(lateFailures := s1.misuse.lateFailures + (if s1.trace.lost > 0 then 1 else 0)))
  }

  /** A direct write that fails for good. `tcp_stream_close` then looks into the state cell that the
      write still holds, which panics if the transport was attached. */
  function FailWrite(s: Conn, inLost: seq<Call>): Conn
    decreases inLost, 1
  {
    var r := ExecAll(Losing(Failing(s)), inLost);
    if r.crashed then r else r.(stage := r.stage.(cellHeld := false), crashed := r.stage.attached)
  }

  /** `set_write_buffer_limits`: the pair (high, low), or None for ValueError. */
  function Limits(high: Option<nat>, low: Option<nat>): (r: Option<(nat, nat)>)
    ensures r.Some? ==> r.value.1 <= r.value.0
    ensures high.Some? && low.Some? ==> (r.None? <==> high.value < low.value)
    ensures r.Some? && high.Some? ==> r.value.0 == high.value
    ensures r.Some? && low.Some? ==> r.value.1 == low.value
    ensures high.None? && low.None? ==> r == Some((65536, 16384))
    ensures high.Some? && low.None? ==> r.Some? && r.value.1 == high.value / 4
    ensures high.None? && low.Some? && low.value < WORD / 4 ==> r.Some? && r.value.0 == 4 * low.value
  {
    var wh := if high.Some? then high.value else if low.Some? then (low.value * 4) % WORD else 65536;
    var wl := if low.Some? then low.value else wh / 4;
    if wh < wl then None else Some((wh, wl))
  }

  /** `abort` stops polling for writes if bytes are pending. */
  function StopWriting(s: Conn): Conn {
    if s.buf.dsize > 0 then RemInterest(s, WRITABLE).(misuse := s.misuse.(strayWrite := false)) else s
  }

  /** The state in which `abort` calls connection_lost. */
  function Aborting(s: Conn): Conn {
    var s1 := StopWriting(s);
    var s2 := StopReading(s1);
    s2.(misuse := s2.misuse.(lateAborts := s2.misuse.lateAborts + (if s2.trace.lost > 0 then 1 else 0)))
  }

  function Exec(s: Conn, c: Call): Conn
    decreases c, 3
  {
    if s.crashed then s else
    match c
    case Write(data, kernel, inPause, inLost) =>
      if s.ctl.weof || data == [] then s
      else if s.stage.cellHeld then s.(crashed := true)
      else if s.buf.dsize == 0 && kernel.Failed? then FailWrite(s, inLost)
      else MaybePause(Enqueue(s, data, if s.buf.dsize == 0 then Taken(kernel, |data|) else 0), true, inPause)
    case GetWriteBufferSize => if s.stage.cellHeld then s.(crashed := true) else s
    case IsTls => if s.stage.cellHeld then s.(crashed := true) else s
    case WriteEof =>
      if s.ctl.closing || s.ctl.weof then s
      else if s.stage.cellHeld then s.(crashed := true)
      else s.(ctl := s.ctl.(weof := true), trace := s.trace.(shut := s.trace.shut || s.buf.dsize == 0))
    case PauseReading =>
      if s.ctl.closing || s.ctl.paused then s else RemInterest(s.(ctl := s.ctl.(paused := true)), READABLE)
    case ResumeReading =>
      if s.ctl.closing || !s.ctl.paused then s else AddInterest(s.(ctl := s.ctl.(paused := false)), READABLE)
    case SetLimits(high, low, inPause) =>
      (match Limits(high, low)
       case None => s
       case Some((wh, wl)) =>
         if s.stage.cellHeld then s.(crashed := true)
         else MaybePause(s.(ctl := s.ctl.(hi := wh, lo := wl)), false, inPause))
    case Close(inLost) =>
      if s.ctl.closing then s
      else if s.stage.cellHeld then s.(crashed := true)
      else
        var s1 := StopReading(s);
        if s1.buf.dsize > 0 then s1 else Lose(RemInterest(s1, WRITABLE), inLost)
    case Abort(inLost) =>
      if s.stage.cellHeld then s.(crashed := true) else Lose(Aborting(s), inLost)
  }

  // ----- the write handle -----

  datatype Drained = Drained(queue: seq<Bytes>, sent: Bytes, dropped: Bytes, failed: bool)

  /** `TCPWriteHandle::write`: the kernel answers one write per chunk; with no answer left it blocks. */
  function Drain(queue: seq<Bytes>, kernel: seq<WriteResult>): Drained
    decreases |kernel|
  {
    if queue == [] || kernel == [] then Drained(queue, [], [], false)
    else
      match kernel[0]
      case Wrote(n) =>
        var k := Min(n, |queue[0]|);
        if k < |queue[0]| then Drained([queue[0][k..]] + queue[1..], queue[0][..k], [], false)
        else
          var r := Drain(queue[1..], kernel[1..]);
          r.(sent := queue[0] + r.sent)
      case Interrupted => Drain(queue, kernel[1..])
      case WouldBlock => Drained(queue, [], [], false)
      case Failed => Drained([], [], Flat(queue), true)
  }

  function AfterDrain(s: Conn, d: Drained): Conn {
    s.(buf := Buffer(d.queue, if d.failed then 0 else s.buf.dsize - |d.sent|, s.buf.accepted,
                     s.buf.sent + d.sent, s.buf.dropped + d.dropped),
       stage := s.stage.(draining := true))
  }

  /** The state in which `resume_writing` runs. */
  function Resuming(s: Conn): Conn {
    Log(s.(ctl := s.ctl.(protoPaused := false)), ResumeWriting)
  }

  /** `write_buf_size_decr` */
  function MaybeResume(s: Conn, inResume: seq<Call>): Conn {
    if s.buf.dsize <= s.ctl.lo && s.ctl.protoPaused then ExecAll(Resuming(s), inResume) else s
  }

  /** The state in which the write handle calls connection_lost. */
  function LosingDrained(s: Conn): Conn {
    Losing(s.(misuse := s.misuse.(lossesInResume := s.misuse.lossesInResume + (if s.trace.lost > 0 then 1 else 0))))
  }

  /** The interest update and `tcp_stream_close` after that callback. */
  function AfterLoss(s: Conn): Conn {
    if s.crashed then s
    else
      var r := if s.buf.queue == [] then RemInterest(s, WRITABLE) else s;
      r.(stage := Stage(false, s.stage.cellHeld, false))
  }

  /** The end of `TCPWriteHandle::run`: `close_from_write_handle`, then the interest, then the outcome. */
  function FinishDrain(s: Conn, inLost: seq<Call>): Conn {
    if s.crashed then s
    else if s.buf.queue != [] then s.(stage := s.stage.(draining := false))
    else if s.ctl.closing then AfterLoss(ExecAll(LosingDrained(s), inLost))
    else
      var r := RemInterest(s, WRITABLE);
      r.(trace := s.trace.(shut := s.trace.shut || s.ctl.weof), stage := s.stage.(draining := false))
  }

  function WriteReady(s: Conn, kernel: seq<WriteResult>, inResume: seq<Call>, inLost: seq<Call>): Conn {
    if !s.stage.attached then s
    else
      var d := Drain(s.buf.queue, kernel);
      var s1 := AfterDrain(s, d);
      FinishDrain(if d.sent != [] && !d.failed then MaybeResume(s1, inResume) else s1, inLost)
  }

  // ----- the read handle -----

  /** `read_into`: fill at most `room` bytes; true if the peer closed. */
  function ReadInto(room: nat, kernel: seq<ReadResult>): (r: (Bytes, bool))
    decreases |kernel|
  {
    if room == 0 || kernel == [] then ([], false)
    else
      match kernel[0]
      case Got(data) =>
        var k := Min(|data|, room);
        if k == 0 then ([], true)
        else
          var r := ReadInto(room - k, kernel[1..]);
          (data[..k] + r.0, r.1)
      case ReadInterrupted => ReadInto(room, kernel[1..])
      case ReadStopped => ([], false)
  }

  /** One turn of the read loop: what a buffered protocol does in get_buffer, the room there is and the kernel's answers,
      and what the protocol does with the data. */
  datatype Round = Round(inBuffer: seq<Call>, room: nat, kernel: seq<ReadResult>, inData: seq<Call>)

  /** The transport once the data of a round, if any, has been delivered. */
  function Given(s: Conn, round: Round): Conn {
    var s1 := ExecAll(s, round.inBuffer);
    var data := ReadInto(round.room, round.kernel).0;
    if s1.crashed || data == [] then s1 else ExecAll(Log(s1, DataReceived(data)), round.inData)
  }

  /** The flags `close_from_read_handle` sets. */
  function ClosingAtEof(s: Conn): Conn {
    s.(ctl := s.ctl.(closing := true),
       misuse := s.misuse.(eofResumed := Recorded(s.slot).readable))
  }

  /** `close_from_read_handle`, with the `tcp_stream_close` that follows it */
  function CloseFromRead(s: Conn, inLost: seq<Call>): Conn {
    if s.ctl.closing then s
    else if s.buf.queue != [] then ClosingAtEof(s)
    else Lose(RemInterest(ClosingAtEof(s), WRITABLE), inLost)
  }

  /** The state in which `eof_received` runs. */
  function AtEof(s: Conn): Conn {
    var s1 := Log(RemInterest(s, READABLE), EofReceived);
    s1.(trace := s1.trace.(eofSeen := true), misuse := s.misuse.(eofResumed := false))
  }

  function RecvEof(s: Conn, inEof: seq<Call>, keepOpen: bool, inLost: seq<Call>): Conn {
    var s1 := ExecAll(AtEof(s), inEof);
    if keepOpen || s1.crashed then s1 else CloseFromRead(s1, inLost)
  }

  /** One turn of the loop in `TCPReadHandle::run`, and whether there may be more to read. */
  function ReadRound(s: Conn, round: Round, inEof: seq<Call>, keepOpen: bool, inLost: seq<Call>): (Conn, bool) {
    var (data, eof) := ReadInto(round.room, round.kernel);
    var s1 := Given(s, round);
    if s1.crashed then (s1, false)
    else if eof then (RecvEof(s1, inEof, keepOpen, inLost), false)
    else (s1, data != [])
  }

  /** `TCPReadHandle::run` after its lookup; with no round left there is nothing to read. */
  function ReadRounds(s: Conn, rounds: seq<Round>, inEof: seq<Call>, keepOpen: bool, inLost: seq<Call>): Conn
    decreases |rounds|
  {
    if rounds == [] then s
    else
      var (t, more) := ReadRound(s, rounds[0], inEof, keepOpen, inLost);
      if more then ReadRounds(t, rounds[1..], inEof, keepOpen, inLost) else t
  }

  // ----- runs -----

  datatype Event =
    | App(call: Call)
    | Readable(rounds: seq<Round>, inEof: seq<Call>, keepOpen: bool, inLost: seq<Call>)
    | Writable(kernel: seq<WriteResult>, inResume: seq<Call>, inLost: seq<Call>)

  function Next(s: Conn, e: Event): Conn {
    if s.crashed then s else
    match e
    case App(call) => Exec(s, call)
    case Readable(rounds, inEof, keepOpen, inLost) =>
      if s.stage.attached then ReadRounds(s, rounds, inEof, keepOpen, inLost) else s
    case Writable(kernel, inResume, inLost) => WriteReady(s, kernel, inResume, inLost)
  }

  function Run(events: seq<Event>): Conn {
    if events == [] then FRESH else Next(Run(events[..|events|-1]), events[|events|-1])
  }
}
