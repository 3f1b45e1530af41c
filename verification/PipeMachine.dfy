/** The write end of a subprocess pipe (rloop/subprocess.py, `_PipeWriteTransport`, and its flow control in
    rloop/transports.py) as a state machine over values, from the point where `connection_made` has returned and the
    reader is registered. The kernel is an oracle; a callback's reaction is a list of calls, as for TCP. The loop may
    run a handle whose registration is already gone, if both came out of one poll. */
module PipeMachine {
  import opened Prelude
  import opened Callbacks

  datatype Call =
    | Write(data: Bytes, kernel: WriteResult, inPause: seq<Call>)
    | WriteEof
    | Close
    | Abort
    | SetLimits(high: Option<int>, low: Option<int>, inPause: seq<Call>)

  datatype Control = Control(closing: bool, connLost: nat, protoPaused: bool, hi: int, lo: int)

  /** `_buffer`, with the histories of bytes accepted by `write`, taken by the kernel and thrown away. */
  datatype Book = Book(buffer: Bytes, accepted: Bytes, sent: Bytes, dropped: Bytes)

  /** The loop's side: `_pipe` is not None; the registrations; calls of `_call_connection_lost` that are scheduled;
      the write handler is between clearing the buffer and its check of `_closing`. */
  datatype Wires = Wires(open: bool, writer: bool, reader: bool, scheduled: nat, draining: bool)

  /** `broken`: an error, an abort or a hang-up closed the transport. `stranded`: it was closed with bytes in the buffer.
      `errors` counts exceptions raised to the caller or the loop. */
  datatype Trace = Trace(log: History, lost: nat, errors: nat, broken: bool, stranded: bool)

  datatype Pipe = Pipe(ctl: Control, book: Book, wires: Wires, trace: Trace)

  const FRESH := Pipe(Control(false, 0, false, 65536, 16384), Book([], [], [], []),
                      Wires(true, false, true, 0, false), Trace(Start, 0, 0, false, false))

  function Raise(s: Pipe): Pipe {
    s.(trace := s.trace.(errors := s.trace.errors + 1))
  }

  function Log(s: Pipe, cb: Callback): Pipe {
    s.(trace := s.trace.(log := Then(s.trace.log, cb)))
  }

  /** `_set_write_buffer_limits`: the pair (high, low), or None for ValueError. */
  function Limits(high: Option<int>, low: Option<int>): (r: Option<(int, int)>)
    ensures r.Some? ==> 0 <= r.value.1 <= r.value.0
    ensures high.Some? && low.Some? ==> (r.None? <==> !(high.value >= low.value >= 0))
    ensures high.Some? && low.None? ==> (r.None? <==> high.value < 0)
    ensures high.None? && low.Some? ==> (r.None? <==> low.value < 0)
    ensures high.None? && low.None? ==> r == Some((65536, 16384))
    ensures r.Some? && high.Some? ==> r.value.0 == high.value
    ensures r.Some? && low.Some? ==> r.value.1 == low.value && (high.None? ==> r.value.0 == 4 * low.value)
  {
    var h := if high.Some? then high.value else if low.Some? then 4 * low.value else 64 * 1024;
    var l := if low.Some? then low.value else h / 4;
    if h >= l >= 0 then Some((h, l)) else None
  }

  function ExecAll(s: Pipe, cs: seq<Call>): Pipe
    decreases cs, 0
  {
    if cs == [] then s else ExecAll(Exec(s, cs[0]), cs[1..])
  }

  /** The state in which `pause_writing` runs, or fails to for want of a protocol. */
  function Pausing(s: Pipe): Pipe {
    var s1 := s.(ctl := s.ctl.(protoPaused := true));
    if s.wires.open then Log(s1, PauseWriting) else Raise(s1)
  }

  /** `_maybe_pause_protocol` */
  function MaybePause(s: Pipe, inPause: seq<Call>): Pipe
    decreases inPause, 1
  {
    if |s.book.buffer| > s.ctl.hi && !s.ctl.protoPaused then
      if s.wires.open then ExecAll(Pausing(s), inPause) else Pausing(s)
    else s
  }

  /** `_close` */
  function Shut(s: Pipe): Pipe {
    var s1 := s.(ctl := s.ctl.(closing := true));
    if !s.wires.open then Raise(s1)
    else
      s1.(book := s.book.(buffer := [], dropped := s.book.dropped + s.book.buffer),
          wires := s.wires.(writer := s.wires.writer && s.book.buffer == [], reader := false, scheduled := s.wires.scheduled + 1),
          trace := s.trace.(broken := true))
  }

  /** A direct write that fails for good. */
  function FailWrite(s: Pipe, data: Bytes): Pipe {
    Shut(s.(ctl := s.ctl.(connLost := s.ctl.connLost + 1),
            book := s.book.(accepted := s.book.accepted + data, dropped := s.book.dropped + data)))
  }

  /** Account for a write of which `n` bytes went out at once; buffer the rest. */
  function Enqueue(s: Pipe, data: Bytes, n: nat): Pipe
    requires n <= |data|
  {
    s.(book := s.book.(buffer := s.book.buffer + data[n..], accepted := s.book.accepted + data, sent := s.book.sent + data[..n]),
       wires := s.wires.(writer := s.wires.writer || (s.book.buffer == [] && n < |data|)))
  }

  function EndOfInput(s: Pipe): Pipe {
    if s.ctl.closing then s
    else
      var s1 := s.(ctl := s.ctl.(closing := true));
      if s.book.buffer != [] then s1
      else s1.(wires := s.wires.(reader := false, scheduled := s.wires.scheduled + 1))
  }

  function Exec(s: Pipe, c: Call): Pipe
    decreases c, 2
  {
    match c
    case Write(data, kernel, inPause) =>
      if data == [] then s
      else if s.ctl.connLost > 0 || s.ctl.closing then s.(ctl := s.ctl.(connLost := s.ctl.connLost + 1))
      else if s.book.buffer == [] && kernel.Failed? then FailWrite(s, data)
      else
        var n := if s.book.buffer == [] then Taken(kernel, |data|) else 0;
        var s1 := Enqueue(s, data, n);
        if n == |data| then s1 else MaybePause(s1, inPause)
    case WriteEof => EndOfInput(s)
    case Close => if s.wires.open then EndOfInput(s) else s
    case Abort => Shut(s)
    case SetLimits(high, low, inPause) =>
      (match Limits(high, low)
       case None => Raise(s)
       case Some((h, l)) => MaybePause(s.(ctl := s.ctl.(hi := h, lo := l)), inPause))
  }

  // ----- the loop's handles -----

  /** The state in which `connection_lost` runs. */
  function Losing(s: Pipe): Pipe {
    Log(s.(trace := s.trace.(lost := s.trace.lost + 1)), ConnectionLost)
  }

  /** The `finally` of `_call_connection_lost`. */
  function Released(s: Pipe): Pipe {
    s.(wires := s.wires.(open := false, draining := false), trace := s.trace.(stranded := s.book.buffer != []))
  }

  /** `_call_connection_lost` */
  function Lose(s: Pipe, inLost: seq<Call>): Pipe {
    if s.wires.open then Released(ExecAll(Losing(s), inLost)) else Raise(s)
  }

  /** A failed write in the write handler. */
  function FailDrain(s: Pipe): Pipe {
    var s1 := s.(ctl := s.ctl.(connLost := s.ctl.connLost + 1), book := s.book.(buffer := [], dropped := s.book.dropped + s.book.buffer));
    if s.wires.open then Shut(s1.(wires := s.wires.(writer := false))) else Raise(s1)
  }

  /** The write handler once the kernel has taken the whole buffer. */
  function Drained(s: Pipe): Pipe {
    s.(book := s.book.(buffer := [], sent := s.book.sent + s.book.buffer), wires := s.wires.(writer := false, draining := true))
  }

  /** The state in which `resume_writing` runs. */
  function Resuming(s: Pipe): Pipe {
    Log(s.(ctl := s.ctl.(protoPaused := false)), ResumeWriting)
  }

  /** `_maybe_resume_protocol` */
  function MaybeResume(s: Pipe, inResume: seq<Call>): Pipe {
    if s.ctl.protoPaused && |s.book.buffer| <= s.ctl.lo then ExecAll(Resuming(s), inResume) else s
  }

  function AfterResume(s: Pipe, inLost: seq<Call>): Pipe {
    if s.ctl.closing then Lose(s.(wires := s.wires.(reader := false)), inLost)
    else s.(wires := s.wires.(draining := false))
  }

  /** On a transport that was closed with bytes in the buffer, the bytes go to whatever has the file descriptor now. */
  function Astray(s: Pipe, n: nat): Pipe
    requires n <= |s.book.buffer|
  {
    s.(book := s.book.(buffer := s.book.buffer[n..], dropped := s.book.dropped + s.book.buffer[..n]))
  }

  function PartlySent(s: Pipe, n: nat): Pipe
    requires n <= |s.book.buffer|
  {
    s.(book := s.book.(buffer := s.book.buffer[n..], sent := s.book.sent + s.book.buffer[..n]))
  }

  /** `_write_ready` */
  function WriteReady(s: Pipe, kernel: WriteResult, inResume: seq<Call>, inLost: seq<Call>): Pipe {
    var n := Taken(kernel, |s.book.buffer|);
    if s.book.buffer == [] then Raise(s)
    else if kernel.Failed? then FailDrain(s)
    else if !s.wires.open then (if n == |s.book.buffer| then Raise(Astray(s, n)) else Astray(s, n))
    else if n < |s.book.buffer| then PartlySent(s, n)
    else AfterResume(MaybeResume(Drained(s), inResume), inLost)
  }

  datatype Event =
    | App(call: Call)
    | ReadReady
    | WritePoll(kernel: WriteResult, inResume: seq<Call>, inLost: seq<Call>)
    | LossDue(inLost: seq<Call>)

  function Next(s: Pipe, e: Event): Pipe {
    match e
    case App(call) => Exec(s, call)
    case ReadReady => Shut(s)
    case WritePoll(kernel, inResume, inLost) => WriteReady(s, kernel, inResume, inLost)
    case LossDue(inLost) =>
      if s.wires.scheduled == 0 then s
      else Lose(s.(wires := s.wires.(scheduled := s.wires.scheduled - 1)), inLost)
  }

  function Run(events: seq<Event>): Pipe {
    if events == [] then FRESH else Next(Run(events[..|events|-1]), events[|events|-1])
  }
}
