/** What a protocol does in the course of a run, told from its calls alone. A watch is switched on by certain calls made
    in certain states, at any depth of reactions, and off by others; the invariant then says what of the transport's
    state each watch reads. */
module TcpWatch {
  import opened Prelude
  import opened Callbacks
  import opened Interests
  import opened TcpMachine
  import opened TcpInvariant

  datatype Watch = LateAbort | LateFailure | StrayWrite | Panics | Resumed

  /** The call borrows the state cell. */
  predicate Borrows(s: Conn, c: Call) {
    match c
    case Write(data, _, _, _) => !s.ctl.weof && data != []
    case WriteEof => !s.ctl.closing && !s.ctl.weof
    case GetWriteBufferSize => true
    case IsTls => true
    case SetLimits(high, low, _) => Limits(high, low).Some?
    case Close(_) => !s.ctl.closing
    case Abort(_) => true
    case _ => false
  }

  /** A write that goes to the kernel at once. */
  predicate DirectWrite(s: Conn, c: Call) {
    c.Write? && Borrows(s, c) && !s.stage.cellHeld && s.buf.dsize == 0
  }

  /** What switches a watch on: `abort` after connection_lost; a direct write that fails after it; a direct write after
      it that is not taken whole; a borrow of the cell that a write holds; a resume_reading that has effect. */
  predicate Sets(w: Watch, s: Conn, c: Call) {
    match w
    case LateAbort => c.Abort? && !s.stage.cellHeld && s.trace.lost > 0
    case LateFailure => DirectWrite(s, c) && c.kernel.Failed? && s.trace.lost > 0
    case StrayWrite => DirectWrite(s, c) && !c.kernel.Failed? && Taken(c.kernel, |c.data|) < |c.data| && s.trace.lost > 0
    case Panics => s.stage.cellHeld && Borrows(s, c)
    case Resumed => c.ResumeReading? && s.ctl.paused && !s.ctl.closing
  }

  /** What switches it off: for a stray write, an `abort` with bytes pending; for a resume, a pause_reading that has
      effect. */
  predicate Clears(w: Watch, s: Conn, c: Call) {
    match w
    case StrayWrite => c.Abort? && !s.stage.cellHeld && s.buf.dsize > 0
    case Resumed => c.PauseReading? && !s.ctl.paused && !s.ctl.closing
    case _ => false
  }

  // ----- the watch over a call and its reactions -----

  function LatchAll(w: Watch, s: Conn, cs: seq<Call>, on: bool): bool
    decreases cs, 0
  {
    if cs == [] || s.crashed then on else LatchAll(w, Exec(s, cs[0]), cs[1..], Latch(w, s, cs[0], on))
  }

  function LatchPause(w: Watch, s: Conn, held: bool, inPause: seq<Call>, on: bool): bool
    decreases inPause, 1
  {
    if s.buf.dsize > s.ctl.hi && !s.ctl.protoPaused then LatchAll(w, Pausing(s, held), inPause, on) else on
  }

  /** The watch after the call `c` in the state `s`. A failed direct write on an attached transport panics whatever its
      reaction does. */
  function Latch(w: Watch, s: Conn, c: Call, on: bool): bool
    decreases c, 3
  {
    if s.crashed then on
    else
      var on1 := if Sets(w, s, c) then true else if Clears(w, s, c) then false else on;
      if s.stage.cellHeld || !Borrows(s, c) then on1
      else
        match c
        case Write(data, kernel, inPause, inLost) =>
          if DirectWrite(s, c) && kernel.Failed? then
            (w == Panics && s.stage.attached) || LatchAll(w, Losing(Failing(s)), inLost, on1)
          else LatchPause(w, Enqueue(s, data, if s.buf.dsize == 0 then Taken(kernel, |data|) else 0), true, inPause, on1)
        case SetLimits(high, low, inPause) =>
          (match Limits(high, low)
           case None => on1
           case Some((wh, wl)) => LatchPause(w, s.(ctl := s.ctl.(hi := wh, lo := wl)), false, inPause, on1))
        case Close(inLost) =>
          if StopReading(s).buf.dsize > 0 then on1
          else LatchAll(w, Losing(RemInterest(StopReading(s), WRITABLE)), inLost, on1)
        case Abort(inLost) => LatchAll(w, Losing(Aborting(s)), inLost, on1)
        case _ => on1
  }

  // ----- over events and runs -----

  function LatchEof(w: Watch, s: Conn, inEof: seq<Call>, keepOpen: bool, inLost: seq<Call>, on: bool): bool {
    var on1 := LatchAll(w, AtEof(s), inEof, on);
    var t := ExecAll(AtEof(s), inEof);
    if keepOpen || t.crashed || t.ctl.closing || t.buf.queue != [] then on1
    else LatchAll(w, Losing(RemInterest(ClosingAtEof(t), WRITABLE)), inLost, on1)
  }

  function LatchGiven(w: Watch, s: Conn, round: Round, on: bool): bool {
    var s1 := ExecAll(s, round.inBuffer);
    var data := ReadInto(round.room, round.kernel).0;
    var on1 := LatchAll(w, s, round.inBuffer, on);
    if s1.crashed || data == [] then on1 else LatchAll(w, Log(s1, DataReceived(data)), round.inData, on1)
  }

  function LatchRound(w: Watch, s: Conn, round: Round, inEof: seq<Call>, keepOpen: bool, inLost: seq<Call>, on: bool): bool {
    var (data, eof) := ReadInto(round.room, round.kernel);
    var s1 := Given(s, round);
    var on1 := LatchGiven(w, s, round, on);
    if !s1.crashed && eof then LatchEof(w, s1, inEof, keepOpen, inLost, on1) else on1
  }

  function LatchRounds(w: Watch, s: Conn, rounds: seq<Round>, inEof: seq<Call>, keepOpen: bool, inLost: seq<Call>, on: bool): bool
    decreases |rounds|
  {
    if rounds == [] then on
    else
      var on1 := LatchRound(w, s, rounds[0], inEof, keepOpen, inLost, on);
      var (t, more) := ReadRound(s, rounds[0], inEof, keepOpen, inLost);
      if more then LatchRounds(w, t, rounds[1..], inEof, keepOpen, inLost, on1) else on1
  }

  /** The write handle resumes the protocol. */
  predicate Resumes(s: Conn, kernel: seq<WriteResult>) {
    var d := Drain(s.buf.queue, kernel);
    var s1 := AfterDrain(s, d);
    d.sent != [] && !d.failed && s1.buf.dsize <= s1.ctl.lo && s1.ctl.protoPaused
  }

  /** The write handle once resume_writing, if called, has returned. */
  function AfterResume(s: Conn, kernel: seq<WriteResult>, inResume: seq<Call>): Conn {
    var s1 := AfterDrain(s, Drain(s.buf.queue, kernel));
    if Resumes(s, kernel) then ExecAll(Resuming(s1), inResume) else s1
  }

  function LatchDrain(w: Watch, s: Conn, kernel: seq<WriteResult>, inResume: seq<Call>, inLost: seq<Call>, on: bool): bool {
    var s1 := AfterDrain(s, Drain(s.buf.queue, kernel));
    var on1 := if Resumes(s, kernel) then LatchAll(w, Resuming(s1), inResume, on) else on;
    var t := AfterResume(s, kernel, inResume);
    if !t.crashed && t.buf.queue == [] && t.ctl.closing then LatchAll(w, LosingDrained(t), inLost, on1) else on1
  }

  function LatchEvent(w: Watch, s: Conn, e: Event, on: bool): bool {
    if s.crashed then on
    else
      match e
      case App(call) => Latch(w, s, call, on)
      case Readable(rounds, inEof, keepOpen, inLost) =>
        if s.stage.attached then LatchRounds(w, s, rounds, inEof, keepOpen, inLost, on) else on
      case Writable(kernel, inResume, inLost) =>
        if s.stage.attached then LatchDrain(w, s, kernel, inResume, inLost, on) else on
  }

  /** The watch at the end of a run that starts with it off. */
  predicate Watched(w: Watch, events: seq<Event>) {
    events != [] && LatchEvent(w, Run(events[..|events|-1]), events[|events|-1], Watched(w, events[..|events|-1]))
  }

  // ----- what the watches read -----

  /** The part of the state that a watch over a run stands for. */
  predicate Reads(w: Watch, s: Conn) {
    match w
    case LateAbort => s.misuse.lateAborts > 0
    case LateFailure => s.misuse.lateFailures > 0
    case StrayWrite => s.misuse.strayWrite
    case Panics => s.crashed
    case Resumed => false
  }

  lemma {:induction false} LatchAllReads(w: Watch, s: Conn, cs: seq<Call>)
    requires w != Resumed && (s.crashed || Sound(s))
    ensures LatchAll(w, s, cs, Reads(w, s)) == Reads(w, ExecAll(s, cs))
    decreases cs, 0
  {
    if cs != [] && !s.crashed {
      LatchReads(w, s, cs[0]);
      ExecKeeps(s, cs[0]);
      LatchAllReads(w, Exec(s, cs[0]), cs[1..]);
    }
  }

  lemma {:induction false} LatchPauseReads(w: Watch, s: Conn, held: bool, inPause: seq<Call>)
    requires w != Resumed && !s.crashed && PausesSoundly(s, held)
    ensures LatchPause(w, s, held, inPause, Reads(w, s)) == Reads(w, MaybePause(s, held, inPause))
    decreases inPause, 1
  {
    if s.buf.dsize > s.ctl.hi && !s.ctl.protoPaused {
      LatchAllReads(w, Pausing(s, held), inPause);
    }
  }

  lemma {:induction false} LatchFailureReads(w: Watch, s: Conn, inLost: seq<Call>)
    requires w != Resumed && !s.crashed && Sound(s) && s.buf.dsize == 0 && !s.stage.cellHeld
    ensures ((w == Panics && s.stage.attached) || LatchAll(w, Losing(Failing(s)), inLost, Reads(w, Failing(s))))
         == Reads(w, FailWrite(s, inLost))
    decreases inLost, 1
  {
    FailingKeeps(s);
    LatchAllReads(w, Losing(Failing(s)), inLost);
    ExecAllKeeps(Losing(Failing(s)), inLost);
  }

  lemma {:induction false} LatchWriteReads(w: Watch, s: Conn, data: Bytes, kernel: WriteResult, inPause: seq<Call>, inLost: seq<Call>)
    requires w != Resumed && !s.crashed && Sound(s)
    ensures Latch(w, s, Write(data, kernel, inPause, inLost), Reads(w, s)) == Reads(w, Exec(s, Write(data, kernel, inPause, inLost)))
    decreases Write(data, kernel, inPause, inLost), 2
  {
    var c := Write(data, kernel, inPause, inLost);
    SoundCallsOutSoundly(s, c);
    if Borrows(s, c) && !s.stage.cellHeld {
      if DirectWrite(s, c) && kernel.Failed? {
        LatchFailureReads(w, s, inLost);
      } else {
        var n := if s.buf.dsize == 0 then Taken(kernel, |data|) else 0;
        EnqueueReads(w, s, c);
        LatchPauseReads(w, Enqueue(s, data, n), true, inPause);
      }
    }
  }

  lemma {:induction false} EnqueueReads(w: Watch, s: Conn, c: Call)
    requires w != Resumed && !s.crashed && Sound(s) && !s.stage.cellHeld
    requires c.Write? && Borrows(s, c) && !(DirectWrite(s, c) && c.kernel.Failed?)
    ensures var t := Enqueue(s, c.data, if s.buf.dsize == 0 then Taken(c.kernel, |c.data|) else 0);
            !t.crashed && Reads(w, t) == if Sets(w, s, c) then true else if Clears(w, s, c) then false else Reads(w, s)
  {
    EnqueueKeeps(s, c.data, if s.buf.dsize == 0 then Taken(c.kernel, |c.data|) else 0);
  }

  lemma {:induction false} LatchLoseReads(w: Watch, s: Conn, inLost: seq<Call>)
    requires w != Resumed && !s.crashed && Sound(Losing(s))
    ensures LatchAll(w, Losing(s), inLost, Reads(w, s)) == Reads(w, Lose(s, inLost))
    decreases inLost, 1
  {
    LatchAllReads(w, Losing(s), inLost);
  }

  lemma {:induction false} LatchCloseReads(w: Watch, s: Conn, inLost: seq<Call>)
    requires w != Resumed && !s.crashed && Sound(s)
    ensures Latch(w, s, Close(inLost), Reads(w, s)) == Reads(w, Exec(s, Close(inLost)))
    decreases Close(inLost), 2
  {
    if !s.ctl.closing && !s.stage.cellHeld {
      ClosingKeeps(s);
      if s.buf.dsize == 0 {
        LatchLoseReads(w, RemInterest(StopReading(s), WRITABLE), inLost);
      }
    }
  }

  lemma {:induction false} LatchAbortReads(w: Watch, s: Conn, inLost: seq<Call>)
    requires w != Resumed && !s.crashed && Sound(s)
    ensures Latch(w, s, Abort(inLost), Reads(w, s)) == Reads(w, Exec(s, Abort(inLost)))
    decreases Abort(inLost), 2
  {
    if !s.stage.cellHeld {
      AbortingKeeps(s);
      LatchLoseReads(w, Aborting(s), inLost);
    }
  }

  lemma {:induction false} LatchLimitsReads(w: Watch, s: Conn, high: Option<nat>, low: Option<nat>, inPause: seq<Call>)
    requires w != Resumed && !s.crashed && Sound(s)
    ensures Latch(w, s, SetLimits(high, low, inPause), Reads(w, s)) == Reads(w, Exec(s, SetLimits(high, low, inPause)))
    decreases SetLimits(high, low, inPause), 2
  {
    SoundCallsOutSoundly(s, SetLimits(high, low, inPause));
    if Limits(high, low).Some? && !s.stage.cellHeld {
      var (wh, wl) := Limits(high, low).value;
      LatchPauseReads(w, s.(ctl := s.ctl.(hi := wh, lo := wl)), false, inPause);
    }
  }

  /** Every watch reads the state it stands for, after every call with all its reactions. */
  lemma {:induction false} LatchReads(w: Watch, s: Conn, c: Call)
    requires w != Resumed && !s.crashed && Sound(s)
    ensures Latch(w, s, c, Reads(w, s)) == Reads(w, Exec(s, c))
    decreases c, 3
  {
    match c
    case Write(data, kernel, inPause, inLost) => LatchWriteReads(w, s, data, kernel, inPause, inLost);
    case SetLimits(high, low, inPause) => LatchLimitsReads(w, s, high, low, inPause);
    case Close(inLost) => LatchCloseReads(w, s, inLost);
    case Abort(inLost) => LatchAbortReads(w, s, inLost);
    case _ =>
  }

  lemma {:induction false} LatchEofReads(w: Watch, s: Conn, inEof: seq<Call>, keepOpen: bool, inLost: seq<Call>)
    requires w != Resumed && !s.crashed && AtRest(s)
    ensures LatchEof(w, s, inEof, keepOpen, inLost, Reads(w, s)) == Reads(w, RecvEof(s, inEof, keepOpen, inLost))
  {
    AtEofKeeps(s);
    LatchAllReads(w, AtEof(s), inEof);
    ExecAllKeeps(AtEof(s), inEof);
    var t := ExecAll(AtEof(s), inEof);
    if !keepOpen && !t.crashed && !t.ctl.closing {
      ClosingAtEofKeeps(t);
      if t.buf.queue == [] {
        LatchLoseReads(w, RemInterest(ClosingAtEof(t), WRITABLE), inLost);
      }
    }
  }

  lemma {:induction false} LatchGivenReads(w: Watch, s: Conn, round: Round)
    requires w != Resumed && !s.crashed && AtRest(s)
    ensures LatchGiven(w, s, round, Reads(w, s)) == Reads(w, Given(s, round))
  {
    LatchAllReads(w, s, round.inBuffer);
    ExecAllKeeps(s, round.inBuffer);
    var s1 := ExecAll(s, round.inBuffer);
    var data := ReadInto(round.room, round.kernel).0;
    if !s1.crashed && data != [] {
      LatchAllReads(w, Log(s1, DataReceived(data)), round.inData);
    }
  }

  lemma {:induction false} LatchRoundReads(w: Watch, s: Conn, round: Round, inEof: seq<Call>, keepOpen: bool, inLost: seq<Call>)
    requires w != Resumed && !s.crashed && AtRest(s)
    ensures LatchRound(w, s, round, inEof, keepOpen, inLost, Reads(w, s)) == Reads(w, ReadRound(s, round, inEof, keepOpen, inLost).0)
  {
    LatchGivenReads(w, s, round);
    GivenKeeps(s, round);
    if !Given(s, round).crashed {
      LatchEofReads(w, Given(s, round), inEof, keepOpen, inLost);
    }
  }

  lemma {:induction false} LatchRoundsReads(w: Watch, s: Conn, rounds: seq<Round>, inEof: seq<Call>, keepOpen: bool, inLost: seq<Call>)
    requires w != Resumed && !s.crashed && AtRest(s)
    ensures LatchRounds(w, s, rounds, inEof, keepOpen, inLost, Reads(w, s)) == Reads(w, ReadRounds(s, rounds, inEof, keepOpen, inLost))
    decreases |rounds|
  {
    if rounds != [] {
      LatchRoundReads(w, s, rounds[0], inEof, keepOpen, inLost);
      ReadRoundKeeps(s, rounds[0], inEof, keepOpen, inLost);
      var (t, more) := ReadRound(s, rounds[0], inEof, keepOpen, inLost);
      if more {
        LatchRoundsReads(w, t, rounds[1..], inEof, keepOpen, inLost);
      }
    }
  }

  /** What is left of the write handle, seen from the state in which resume_writing has returned. */
  lemma {:induction false} WriteReadyResumes(s: Conn, kernel: seq<WriteResult>, inResume: seq<Call>, inLost: seq<Call>)
    requires s.stage.attached
    ensures WriteReady(s, kernel, inResume, inLost) == FinishDrain(AfterResume(s, kernel, inResume), inLost)
  {
    var d := Drain(s.buf.queue, kernel);
    var s1 := AfterDrain(s, d);
    assert MaybeResume(s1, inResume) == if s1.buf.dsize <= s1.ctl.lo && s1.ctl.protoPaused then ExecAll(Resuming(s1), inResume) else s1;
  }

  lemma {:induction false} AfterResumeKeeps(s: Conn, kernel: seq<WriteResult>, inResume: seq<Call>)
    requires !s.crashed && AtRest(s) && s.stage.attached
    ensures var t := AfterResume(s, kernel, inResume);
            t.crashed || (Sound(t) && t.stage.draining && !t.stage.cellHeld && Settled(t))
  {
    ResumeKeeps(s, kernel, inResume);
  }

  lemma {:induction false} LatchFinishReads(w: Watch, s: Conn, inLost: seq<Call>)
    requires w != Resumed && !s.crashed && Sound(s) && s.stage.draining && !s.stage.cellHeld && Settled(s)
    ensures (if s.buf.queue == [] && s.ctl.closing then LatchAll(w, LosingDrained(s), inLost, Reads(w, s)) else Reads(w, s))
         == Reads(w, FinishDrain(s, inLost))
  {
    if s.buf.queue == [] && s.ctl.closing {
      LosingDrainedKeeps(s);
      LatchAllReads(w, LosingDrained(s), inLost);
      ExecAllKeeps(LosingDrained(s), inLost);
      var r := ExecAll(LosingDrained(s), inLost);
      if !r.crashed {
        AfterLossKeeps(r);
      }
    }
  }

  lemma {:induction false} LatchResumeReads(w: Watch, s: Conn, kernel: seq<WriteResult>, inResume: seq<Call>)
    requires w != Resumed && !s.crashed && AtRest(s) && s.stage.attached
    ensures var s1 := AfterDrain(s, Drain(s.buf.queue, kernel));
            (if Resumes(s, kernel) then LatchAll(w, Resuming(s1), inResume, Reads(w, s)) else Reads(w, s))
            == Reads(w, AfterResume(s, kernel, inResume))
  {
    AfterDrainKeeps(s, kernel);
    if Resumes(s, kernel) {
      LatchAllReads(w, Resuming(AfterDrain(s, Drain(s.buf.queue, kernel))), inResume);
    }
  }

  lemma {:induction false} LatchDrainReads(w: Watch, s: Conn, kernel: seq<WriteResult>, inResume: seq<Call>, inLost: seq<Call>)
    requires w != Resumed && !s.crashed && AtRest(s) && s.stage.attached
    ensures LatchDrain(w, s, kernel, inResume, inLost, Reads(w, s)) == Reads(w, WriteReady(s, kernel, inResume, inLost))
  {
    LatchResumeReads(w, s, kernel, inResume);
    AfterResumeKeeps(s, kernel, inResume);
    WriteReadyResumes(s, kernel, inResume, inLost);
    var t := AfterResume(s, kernel, inResume);
    if !t.crashed {
      LatchFinishReads(w, t, inLost);
    }
  }

  lemma {:induction false} LatchEventReads(w: Watch, s: Conn, e: Event)
    requires w != Resumed && (s.crashed || AtRest(s))
    ensures LatchEvent(w, s, e, Reads(w, s)) == Reads(w, Next(s, e))
  {
    if !s.crashed {
      match e
      case App(call) => LatchReads(w, s, call);
      case Readable(rounds, inEof, keepOpen, inLost) => LatchRoundsReads(w, s, rounds, inEof, keepOpen, inLost);
      case Writable(kernel, inResume, inLost) =>
        if s.stage.attached {
          LatchDrainReads(w, s, kernel, inResume, inLost);
        }
    }
  }

  /** Over whole runs every watch reads the state it stands for. */
  lemma {:induction false} WatchedReads(w: Watch, events: seq<Event>)
    requires w != Resumed
    ensures Watched(w, events) == Reads(w, Run(events))
  {
    if events != [] {
      var init, e := events[..|events|-1], events[|events|-1];
      WatchedReads(w, init);
      RunIsSound(init);
      LatchEventReads(w, Run(init), e);
    }
  }

  // ----- the two watches that matter in one place -----

  /** The process panics in exactly these runs: a call borrows the cell that a write holds while it calls out, in
      pause_writing or in the connection_lost of a failed direct write, or a direct write fails on an attached transport. */
  lemma {:induction false} PanicsExactly(events: seq<Event>)
    ensures Run(events).crashed <==> Watched(Panics, events)
  {
    WatchedReads(Panics, events);
  }

  /** While a write holds the cell, calls panic exactly if one of them borrows it. */
  lemma {:induction false} HeldPanicsExactly(s: Conn, cs: seq<Call>)
    requires !s.crashed && Sound(s) && s.stage.cellHeld
    ensures ExecAll(s, cs).crashed <==> exists i :: 0 <= i < |cs| && Borrows(s, cs[i])
    decreases |cs|
  {
    if cs != [] {
      ExecKeeps(s, cs[0]);
      if !Borrows(s, cs[0]) {
        var t := Exec(s, cs[0]);
        HeldPanicsExactly(t, cs[1..]);
        assert forall c :: Borrows(t, c) == Borrows(s, c);
      }
    }
  }
}
