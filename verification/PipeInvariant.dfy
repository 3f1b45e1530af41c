/** What every run of a pipe's write transport keeps. */
module PipeInvariant {
  import opened Prelude
  import opened Callbacks
  import opened PipeMachine

  /** What the kernel took, what is buffered and what was thrown away is what was accepted, in that order while
      nothing was thrown away; what the kernel took is always a prefix. */
  predicate Books(s: Pipe) {
    var b := s.book;
    && b.sent <= b.accepted
    && |b.sent| + |b.buffer| + |b.dropped| == |b.accepted|
    && (b.dropped == [] ==> b.sent + b.buffer == b.accepted)
    && (b.dropped != [] ==> s.ctl.closing && (s.trace.broken || s.trace.stranded))
    && (b.dropped != [] && s.wires.open ==> b.buffer == [])
    && (s.trace.stranded ==> b.buffer != [] || b.dropped != [])
  }

  /** The loop's registrations. */
  predicate Wiring(s: Pipe) {
    var w := s.wires;
    && (w.open ==> (w.writer <==> s.book.buffer != []))
    && (!w.open ==> s.ctl.closing && !w.reader && !w.draining && (w.writer <==> s.trace.stranded))
    && (!w.open && !s.trace.stranded ==> s.book.buffer == [])
    && (!s.ctl.closing ==> w.reader && w.scheduled == 0 && s.ctl.connLost == 0)
    && (s.trace.broken ==> s.ctl.closing)
  }

  /** A transport that is closing and has not told the protocol so still has that to come. */
  predicate Life(s: Pipe) {
    && s.trace.lost == LostCount(s.trace.log) <= 1
    && (s.trace.lost == 1 ==> s.ctl.closing)
    && (!s.wires.open ==> s.trace.lost == 1)
    && (s.trace.stranded ==> !s.wires.open)
    && (s.ctl.closing && s.trace.lost == 0 && !s.wires.draining ==> s.wires.scheduled > 0 || s.book.buffer != [])
    && (s.wires.open && s.wires.scheduled > 0 ==> s.book.buffer == [])
    && (s.wires.open && s.wires.reader && s.ctl.closing ==> s.book.buffer != [] || s.wires.draining)
  }

  predicate Flow(s: Pipe) {
    && 0 <= s.ctl.lo <= s.ctl.hi
    && Alternates(s.trace.log)
    && (s.wires.open ==> s.ctl.protoPaused == ToldToPause(s.trace.log))
    && (s.wires.open && |s.book.buffer| > s.ctl.hi ==> s.ctl.protoPaused)
    && (s.ctl.protoPaused && !s.ctl.closing ==> s.book.buffer != [])
  }

  /** The invariant at every callback. */
  predicate Sound(s: Pipe) {
    Books(s) && Wiring(s) && Life(s) && Flow(s)
  }

  /** Between handles. A loss that has been delivered has closed the pipe. */
  predicate AtRest(s: Pipe) {
    Sound(s) && !s.wires.draining && (s.trace.lost == 1 ==> !s.wires.open)
  }

  /** What calls from a callback leave as they found it. */
  predicate Keeps(s: Pipe, t: Pipe) {
    && Sound(t) && t.wires.open == s.wires.open && t.wires.draining == s.wires.draining && t.trace.lost == s.trace.lost
    && (s.ctl.closing ==> t.ctl.closing)
    && (!s.wires.reader ==> !t.wires.reader)
    && t.trace.stranded == s.trace.stranded
  }

  lemma {:induction false} ShutKeeps(s: Pipe)
    requires Sound(s)
    ensures Keeps(s, Shut(s))
  {
  }

  lemma {:induction false} EndOfInputKeeps(s: Pipe)
    requires Sound(s)
    ensures Keeps(s, EndOfInput(s))
  {
  }

  lemma {:induction false} FailWriteKeeps(s: Pipe, data: Bytes)
    requires Sound(s) && s.wires.open && s.book.buffer == [] && !s.ctl.closing
    ensures Keeps(s, FailWrite(s, data))
  {
    assert s.book.sent <= s.book.accepted + data;
  }

  lemma {:induction false} BufferKeepsOrder(sent: Bytes, buffer: Bytes, data: Bytes, n: nat)
    requires n <= |data| && (n > 0 ==> buffer == [])
    ensures (sent + data[..n]) + (buffer + data[n..]) == (sent + buffer) + data
  {
    assert data[..n] + data[n..] == data;
    if n == 0 {
      assert data[..0] == [] && data[0..] == data;
      assert sent + [] == sent;
    } else {
      assert buffer + data[n..] == data[n..] && sent + buffer == sent;
    }
  }

  /** After a write has been buffered, only the pause may be owed. */
  lemma {:induction false} EnqueueBooks(s: Pipe, data: Bytes, n: nat)
    requires Books(s) && s.book.dropped == [] && n <= |data| && (n > 0 ==> s.book.buffer == [])
    ensures Books(Enqueue(s, data, n))
  {
    BufferKeepsOrder(s.book.sent, s.book.buffer, data, n);
  }

  /** Sound but for a pause that may be owed. */
  predicate Owing(s: Pipe) {
    && Books(s) && Wiring(s) && Life(s)
    && 0 <= s.ctl.lo <= s.ctl.hi && Alternates(s.trace.log)
    && (s.wires.open ==> s.ctl.protoPaused == ToldToPause(s.trace.log))
    && (s.ctl.protoPaused && !s.ctl.closing ==> s.book.buffer != [])
  }

  lemma {:induction false} EnqueueKeeps(s: Pipe, data: Bytes, n: nat)
    requires Sound(s) && s.wires.open && !s.ctl.closing && n <= |data| && (n > 0 ==> s.book.buffer == []) && data != []
    ensures var t := Enqueue(s, data, n);
            Owing(t) && (n == |data| ==> Sound(t)) && t.ctl == s.ctl && t.wires == s.wires.(writer := t.wires.writer) && t.trace == s.trace
  {
    EnqueueBooks(s, data, n);
  }

  lemma {:induction false} PausingKeeps(s: Pipe)
    requires Owing(s) && |s.book.buffer| > s.ctl.hi && !s.ctl.protoPaused
    ensures Keeps(s, Pausing(s))
  {
  }

  lemma {:induction false} ExecAllKeeps(s: Pipe, cs: seq<Call>)
    requires Sound(s)
    ensures Keeps(s, ExecAll(s, cs))
    decreases cs, 0
  {
    if cs != [] {
      ExecKeeps(s, cs[0]);
      ExecAllKeeps(Exec(s, cs[0]), cs[1..]);
    }
  }

  lemma {:induction false} MaybePauseKeeps(s: Pipe, inPause: seq<Call>)
    requires Owing(s)
    ensures Keeps(s, MaybePause(s, inPause))
    decreases inPause, 1
  {
    if |s.book.buffer| > s.ctl.hi && !s.ctl.protoPaused {
      PausingKeeps(s);
      if s.wires.open {
        ExecAllKeeps(Pausing(s), inPause);
      }
    }
  }

  lemma {:induction false} WriteKeeps(s: Pipe, data: Bytes, kernel: WriteResult, inPause: seq<Call>)
    requires Sound(s)
    ensures Keeps(s, Exec(s, Write(data, kernel, inPause)))
    decreases Write(data, kernel, inPause), 1
  {
    if data != [] && !s.ctl.closing {
      if s.book.buffer == [] && kernel.Failed? {
        FailWriteKeeps(s, data);
      } else {
        var n := if s.book.buffer == [] then Taken(kernel, |data|) else 0;
        EnqueueKeeps(s, data, n);
        if n < |data| {
          MaybePauseKeeps(Enqueue(s, data, n), inPause);
        }
      }
    }
  }

  lemma {:induction false} ExecKeeps(s: Pipe, c: Call)
    requires Sound(s)
    ensures Keeps(s, Exec(s, c))
    decreases c, 2
  {
    match c
    case Write(data, kernel, inPause) => WriteKeeps(s, data, kernel, inPause);
    case SetLimits(high, low, inPause) =>
      if Limits(high, low).Some? {
        var (h, l) := Limits(high, low).value;
        MaybePauseKeeps(s.(ctl := s.ctl.(hi := h, lo := l)), inPause);
      }
    case Abort => ShutKeeps(s);
    case _ => EndOfInputKeeps(s);
  }

  // ----- handles -----

  lemma {:induction false} LosingKeeps(s: Pipe)
    requires Sound(s) && s.wires.open && s.ctl.closing && s.trace.lost == 0
    ensures Sound(Losing(s.(wires := s.wires.(reader := false))))
    ensures s.wires.scheduled > 0 ==> Sound(Losing(s.(wires := s.wires.(scheduled := s.wires.scheduled - 1))))
  {
  }

  lemma {:induction false} ReleasedKeeps(s: Pipe)
    requires Sound(s) && s.wires.open && s.ctl.closing && s.trace.lost == 1 && !s.wires.reader
    ensures AtRest(Released(s))
  {
  }

  lemma {:induction false} DrainedKeeps(s: Pipe)
    requires AtRest(s) && s.wires.open && s.book.buffer != []
    ensures var t := Drained(s);
            && Books(t) && Wiring(t) && Life(t) && t.ctl == s.ctl && t.wires.open && t.trace == s.trace && t.book.buffer == []
  {
    assert s.book.sent + s.book.buffer + [] == s.book.sent + s.book.buffer;
  }

  lemma {:induction false} LoseKeeps(s: Pipe, inLost: seq<Call>)
    requires if s.wires.open then Sound(Losing(s)) && !s.wires.reader else AtRest(s)
    ensures AtRest(Lose(s, inLost))
  {
    if s.wires.open {
      ExecAllKeeps(Losing(s), inLost);
      ReleasedKeeps(ExecAll(Losing(s), inLost));
    }
  }

  lemma {:induction false} FailDrainKeeps(s: Pipe)
    requires AtRest(s) && s.book.buffer != []
    ensures AtRest(FailDrain(s))
  {
  }

  lemma {:induction false} AstrayKeeps(s: Pipe, n: nat)
    requires AtRest(s) && !s.wires.open && s.book.buffer != [] && n <= |s.book.buffer|
    ensures AtRest(Astray(s, n))
  {
  }

  lemma {:induction false} PartlySentKeeps(s: Pipe, n: nat)
    requires AtRest(s) && s.wires.open && n < |s.book.buffer|
    ensures AtRest(PartlySent(s, n))
  {
    var b := s.book;
    assert b.buffer == b.buffer[..n] + b.buffer[n..];
    assert b.sent + b.buffer[..n] + b.buffer[n..] == b.sent + b.buffer;
  }

  lemma {:induction false} ResumingKeeps(s: Pipe)
    requires AtRest(s) && s.wires.open && s.book.buffer != []
    ensures var t := Drained(s);
            if t.ctl.protoPaused then Sound(Resuming(t)) else Sound(t)
  {
    DrainedKeeps(s);
  }

  lemma {:induction false} MaybeResumeKeeps(s: Pipe, inResume: seq<Call>)
    requires AtRest(s) && s.wires.open && s.book.buffer != []
    ensures Keeps(Drained(s), MaybeResume(Drained(s), inResume))
  {
    ResumingKeeps(s);
    var t := Drained(s);
    if t.ctl.protoPaused {
      ExecAllKeeps(Resuming(t), inResume);
    }
  }

  lemma {:induction false} AfterResumeKeeps(s: Pipe, inLost: seq<Call>)
    requires Sound(s) && s.wires.open && s.wires.draining && s.trace.lost == 0
    ensures AtRest(AfterResume(s, inLost))
  {
    if s.ctl.closing {
      LosingKeeps(s);
      LoseKeeps(s.(wires := s.wires.(reader := false)), inLost);
    }
  }

  lemma {:induction false} NextKeeps(s: Pipe, e: Event)
    requires AtRest(s)
    ensures AtRest(Next(s, e))
  {
    match e
    case App(call) => ExecKeeps(s, call);
    case ReadReady => ShutKeeps(s);
    case WritePoll(kernel, inResume, inLost) =>
      var n := Taken(kernel, |s.book.buffer|);
      if s.book.buffer != [] {
        if kernel.Failed? {
          FailDrainKeeps(s);
        } else if !s.wires.open {
          AstrayKeeps(s, n);
        } else if n < |s.book.buffer| {
          PartlySentKeeps(s, n);
        } else {
          MaybeResumeKeeps(s, inResume);
          AfterResumeKeeps(MaybeResume(Drained(s), inResume), inLost);
        }
      }
    case LossDue(inLost) =>
      if s.wires.scheduled > 0 {
        if s.wires.open {
          LosingKeeps(s);
        }
        LoseKeeps(s.(wires := s.wires.(scheduled := s.wires.scheduled - 1)), inLost);
      }
  }

  /** In every run, whatever the kernel answers, whenever the loop calls and whatever callbacks call back. */
  lemma {:induction false} RunIsSound(events: seq<Event>)
    ensures AtRest(Run(events))
  {
    if events != [] {
      RunIsSound(events[..|events|-1]);
      NextKeeps(Run(events[..|events|-1]), events[|events|-1]);
    }
  }
}
