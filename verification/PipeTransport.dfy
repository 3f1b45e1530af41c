/** `_PipeWriteTransport` as a program (rloop/subprocess.py, rloop/transports.py). Each method takes the machine of
    PipeMachine one step, and keeps the invariant of PipeInvariant. */
module PipeTransport {
  import opened Prelude
  import opened Callbacks
  import opened PipeMachine
  import opened PipeInvariant

  class PipeWriteTransport {
    var buffer: Bytes
    var connLost: nat
    var closing: bool
    var protocolPaused: bool
    var highWater: int
    var lowWater: int
    var pipe: bool                 // `_pipe` is not None
    // what the loop holds for this fd
    var writerOn: bool
    var readerOn: bool
    var lossesDue: nat
    ghost var draining: bool
    ghost var accepted: Bytes
    ghost var sent: Bytes
    ghost var dropped: Bytes
    ghost var trace: Trace

    constructor ()
      ensures View() == FRESH
    {
      buffer, connLost, closing, protocolPaused := [], 0, false, false;
      highWater, lowWater := 65536, 16384;
      pipe, writerOn, readerOn, lossesDue, draining := true, false, true, 0, false;
      accepted, sent, dropped, trace := [], [], [], FRESH.trace;
    }

    ghost function View(): Pipe
      reads this
    {
      Pipe(Control(closing, connLost, protocolPaused, highWater, lowWater), Book(buffer, accepted, sent, dropped),
           Wires(pipe, writerOn, readerOn, lossesDue, draining), trace)
    }

    ghost method Record(cb: Callback)
      modifies this`trace
      ensures trace == old(trace).(log := Then(old(trace).log, cb))
    {
      trace := trace.(log := Then(trace.log, cb));
    }

    /** An exception goes to the caller. */
    ghost method Raise()
      modifies this`trace
      ensures trace == old(trace).(errors := old(trace).errors + 1)
    {
      trace := trace.(errors := trace.errors + 1);
    }

    /** `_maybe_pause_protocol` */
    method MaybePauseProtocol(inPause: seq<Call>)
      requires Owing(View())
      modifies this
      ensures View() == MaybePause(old(View()), inPause) && Keeps(old(View()), View())
      decreases inPause, 1
    {
      MaybePauseKeeps(View(), inPause);
      if |buffer| <= highWater {
        return;
      }
      if !protocolPaused {
        PausingKeeps(View());
        protocolPaused := true;
        if pipe {
          Record(PauseWriting);
          assert View() == Pausing(old(View()));
          PerformAll(inPause);
        } else {
          Raise();
        }
      }
    }

    /** `set_write_buffer_limits` */
    method SetWriteBufferLimits(high: Option<int>, low: Option<int>, inPause: seq<Call>)
      requires Sound(View())
      modifies this
      ensures View() == Exec(old(View()), SetLimits(high, low, inPause)) && Keeps(old(View()), View())
      decreases SetLimits(high, low, inPause), 1
    {
      ExecKeeps(View(), SetLimits(high, low, inPause));
      var limits := Limits(high, low);
      if limits.None? {
        Raise();
        return;
      }
      highWater, lowWater := limits.value.0, limits.value.1;
      MaybePauseProtocol(inPause);
    }

    /** `_close` */
    method Shut()
      modifies this
      ensures View() == PipeMachine.Shut(old(View()))
    {
      closing := true;
      if !pipe {
        Raise();
        return;
      }
      if buffer != [] {
        writerOn := false;
      }
      dropped := dropped + buffer;
      buffer := [];
      readerOn := false;
      lossesDue := lossesDue + 1;
      trace := trace.(broken := true);
    }

    /** The attempt to write at once. */
    method WriteNow(data: Bytes, kernel: WriteResult) returns (failed: bool, n: nat)
      requires Sound(View()) && pipe && !closing && data != []
      modifies this
      ensures failed == (old(buffer) == [] && kernel.Failed?)
      ensures failed ==> View() == FailWrite(old(View()), data)
      ensures !failed ==> n == (if old(buffer) == [] then Taken(kernel, |data|) else 0)
                          && View() == Enqueue(old(View()), data, n)
    {
      n, failed := 0, false;
      if buffer == [] {
        if kernel.Failed? {
          accepted, dropped := accepted + data, dropped + data;
          connLost := connLost + 1;
          Shut();
          failed := true;
          return;
        }
        n := Taken(kernel, |data|);
        if n < |data| {
          writerOn := true;
        }
      }
      accepted, sent := accepted + data, sent + data[..n];
      buffer := buffer + data[n..];
    }

    method Write(data: Bytes, kernel: WriteResult, inPause: seq<Call>)
      requires Sound(View())
      modifies this
      ensures View() == Exec(old(View()), Call.Write(data, kernel, inPause)) && Keeps(old(View()), View())
      decreases Call.Write(data, kernel, inPause), 1
    {
      ExecKeeps(View(), Call.Write(data, kernel, inPause));
      if data == [] {
        return;
      }
      if connLost > 0 || closing {
        connLost := connLost + 1;
        return;
      }
      EnqueueKeeps(View(), data, if buffer == [] then Taken(kernel, |data|) else 0);
      var failed, n := WriteNow(data, kernel);
      if !failed && n < |data| {
        MaybePauseProtocol(inPause);
      }
    }

    method WriteEof()
      requires Sound(View())
      modifies this
      ensures View() == EndOfInput(old(View())) && Keeps(old(View()), View())
    {
      EndOfInputKeeps(View());
      if closing {
        return;
      }
      assert pipe;
      closing := true;
      if buffer == [] {
        readerOn := false;
        lossesDue := lossesDue + 1;
      }
    }

    method Close()
      requires Sound(View())
      modifies this
      ensures View() == Exec(old(View()), Call.Close) && Keeps(old(View()), View())
    {
      if pipe && !closing {
        WriteEof();
      }
    }

    method Abort()
      requires Sound(View())
      modifies this
      ensures View() == Exec(old(View()), Call.Abort) && Keeps(old(View()), View())
    {
      ShutKeeps(View());
      Shut();
    }

    /** What a callback does to its transport. */
    method PerformAll(calls: seq<Call>)
      requires Sound(View())
      modifies this
      ensures View() == ExecAll(old(View()), calls) && Keeps(old(View()), View())
      decreases calls, 0
    {
      if calls != [] {
        Perform(calls[0]);
        PerformAll(calls[1..]);
      }
    }

    method Perform(call: Call)
      requires Sound(View())
      modifies this
      ensures View() == Exec(old(View()), call) && Keeps(old(View()), View())
      decreases call, 2
    {
      match call {
        case Write(data, kernel, inPause) => Write(data, kernel, inPause);
        case WriteEof => WriteEof();
        case Close => Close();
        case Abort => Abort();
        case SetLimits(high, low, inPause) => SetWriteBufferLimits(high, low, inPause);
      }
    }

    /** `_call_connection_lost` */
    method CallConnectionLost(inLost: seq<Call>)
      requires pipe ==> Sound(Losing(View()))
      modifies this
      ensures View() == Lose(old(View()), inLost)
    {
      if !pipe {
        Raise();
        return;
      }
      trace := trace.(log := Then(trace.log, ConnectionLost), lost := trace.lost + 1);
      assert View() == Losing(old(View()));
      PerformAll(inLost);
      pipe, draining := false, false;
      trace := trace.(stranded := buffer != []);
    }

    /** `_read_ready`: the peer closed the pipe. */
    method ReadReady()
      requires AtRest(View())
      modifies this
      ensures View() == Next(old(View()), Event.ReadReady) && AtRest(View())
    {
      ShutKeeps(View());
      Shut();
    }

    /** A scheduled `_call_connection_lost` runs. */
    method RunScheduledLoss(inLost: seq<Call>)
      requires AtRest(View())
      modifies this
      ensures View() == Next(old(View()), LossDue(inLost)) && AtRest(View())
    {
      NextKeeps(View(), LossDue(inLost));
      if lossesDue > 0 {
        if pipe {
          LosingKeeps(View());
        }
        lossesDue := lossesDue - 1;
        CallConnectionLost(inLost);
      }
    }

    /** `_maybe_resume_protocol` */
    method MaybeResumeProtocol(inResume: seq<Call>)
      requires protocolPaused && |buffer| <= lowWater ==> Sound(Resuming(View()))
      modifies this
      ensures View() == MaybeResume(old(View()), inResume)
    {
      if protocolPaused && |buffer| <= lowWater {
        protocolPaused := false;
        Record(ResumeWriting);
        assert View() == Resuming(old(View()));
        PerformAll(inResume);
      }
    }

    method FailedDrain()
      requires AtRest(View()) && buffer != []
      modifies this
      ensures View() == FailDrain(old(View()))
    {
      dropped := dropped + buffer;
      buffer := [];
      connLost := connLost + 1;
      if pipe {
        writerOn := false;
        Shut();
      } else {
        Raise();
      }
    }

    /** The write handler once the kernel has taken the whole buffer. */
    method FullDrain(inResume: seq<Call>, inLost: seq<Call>)
      requires AtRest(View()) && pipe && buffer != []
      modifies this
      ensures View() == AfterResume(MaybeResume(Drained(old(View())), inResume), inLost)
    {
      ResumingKeeps(View());
      MaybeResumeKeeps(View(), inResume);
      sent := sent + buffer;
      buffer, writerOn, draining := [], false, true;
      assert View() == Drained(old(View()));
      MaybeResumeProtocol(inResume);
      if closing {
        LosingKeeps(View());
        readerOn := false;
        CallConnectionLost(inLost);
      } else {
        draining := false;
      }
    }

    /** `_write_ready` */
    method WriteReady(kernel: WriteResult, inResume: seq<Call>, inLost: seq<Call>)
      requires AtRest(View())
      modifies this
      ensures View() == Next(old(View()), WritePoll(kernel, inResume, inLost)) && AtRest(View())
    {
      NextKeeps(View(), WritePoll(kernel, inResume, inLost));
      if buffer == [] {
        Raise();
        return;
      }
      var n := Taken(kernel, |buffer|);
      if kernel.Failed? {
        FailedDrain();
      } else if pipe && n == |buffer| {
        FullDrain(inResume, inLost);
      } else {
        if pipe {
          sent := sent + buffer[..n];
        } else {
          dropped := dropped + buffer[..n];
        }
        buffer := buffer[n..];
        if !pipe && buffer == [] {
          Raise();
        }
      }
    }
  }
}
