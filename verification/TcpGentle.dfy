/** A condition on the reactions alone under which a TCP protocol never makes the process panic. TcpWatch has the exact
    condition. */
module TcpGentle {
  import opened Prelude
  import opened Callbacks
  import opened Interests
  import opened TcpMachine
  import opened TcpInvariant
  import opened TcpWatch

  /** Calls that do not look into the transport's state cell. */
  predicate HandsOff(cs: seq<Call>) {
    forall i :: 0 <= i < |cs| ==> cs[i].PauseReading? || cs[i].ResumeReading? || (cs[i].Write? && cs[i].data == [])
  }

  /** No direct write fails, and the pause_writing of a write stays off the state cell. */
  predicate Gentle(c: Call)
    decreases c, 1
  {
    match c
    case Write(data, kernel, inPause, inLost) => !kernel.Failed? && HandsOff(inPause)
    case SetLimits(high, low, inPause) => GentleAll(inPause)
    case Close(inLost) => GentleAll(inLost)
    case Abort(inLost) => GentleAll(inLost)
    case _ => true
  }

  predicate GentleAll(cs: seq<Call>)
    decreases cs, 0
  {
    cs == [] || (Gentle(cs[0]) && GentleAll(cs[1..]))
  }

  predicate GentleRounds(rounds: seq<Round>) {
    forall i :: 0 <= i < |rounds| ==> GentleAll(rounds[i].inBuffer) && GentleAll(rounds[i].inData)
  }

  predicate GentleEvent(e: Event) {
    match e
    case App(call) => Gentle(call)
    case Readable(rounds, inEof, keepOpen, inLost) => GentleRounds(rounds) && GentleAll(inEof) && GentleAll(inLost)
    case Writable(kernel, inResume, inLost) => GentleAll(inResume) && GentleAll(inLost)
  }

  lemma {:induction false} GentleAllSurvives(s: Conn, cs: seq<Call>)
    requires !s.crashed && Sound(s) && !s.stage.cellHeld && GentleAll(cs)
    ensures !ExecAll(s, cs).crashed
    decreases cs, 0
  {
    if cs != [] {
      GentleSurvives(s, cs[0]);
      ExecKeeps(s, cs[0]);
      GentleAllSurvives(Exec(s, cs[0]), cs[1..]);
    }
  }

  lemma {:induction false} GentleSurvives(s: Conn, c: Call)
    requires !s.crashed && Sound(s) && !s.stage.cellHeld && Gentle(c)
    ensures !Exec(s, c).crashed
    decreases c, 1
  {
    match c
    case Write(data, kernel, inPause, inLost) =>
      if !s.ctl.weof && data != [] {
        var n := if s.buf.dsize == 0 then Taken(kernel, |data|) else 0;
        EnqueueKeeps(s, data, n);
        var t := Enqueue(s, data, n);
        if t.buf.dsize > t.ctl.hi && !t.ctl.protoPaused {
          PausingKeeps(t, true);
          HeldPanicsExactly(Pausing(t, true), inPause);
        }
      }
    case SetLimits(high, low, inPause) =>
      if Limits(high, low).Some? {
        var (wh, wl) := Limits(high, low).value;
        var t := s.(ctl := s.ctl.(hi := wh, lo := wl));
        if t.buf.dsize > t.ctl.hi && !t.ctl.protoPaused {
          PausingKeeps(t, false);
          GentleAllSurvives(Pausing(t, false), inPause);
        }
      }
    case Close(inLost) =>
      if !s.ctl.closing {
        ClosingKeeps(s);
        var t := StopReading(s);
        if t.buf.dsize == 0 {
          GentleAllSurvives(Losing(RemInterest(t, WRITABLE)), inLost);
        }
      }
    case Abort(inLost) =>
      AbortingKeeps(s);
      GentleAllSurvives(Losing(Aborting(s)), inLost);
    case _ =>
      PlainKeeps(s, c);
  }

  lemma {:induction false} GentleCloseSurvives(s: Conn, inLost: seq<Call>)
    requires !s.crashed && AtRest(s) && GentleAll(inLost)
    ensures !CloseFromRead(s, inLost).crashed
  {
    if !s.ctl.closing {
      ClosingAtEofKeeps(s);
      if s.buf.queue == [] {
        GentleAllSurvives(Losing(RemInterest(ClosingAtEof(s), WRITABLE)), inLost);
      }
    }
  }

  lemma {:induction false} GentleEofSurvives(s: Conn, inEof: seq<Call>, keepOpen: bool, inLost: seq<Call>)
    requires !s.crashed && AtRest(s) && GentleAll(inEof) && GentleAll(inLost)
    ensures !RecvEof(s, inEof, keepOpen, inLost).crashed
  {
    AtEofKeeps(s);
    GentleAllSurvives(AtEof(s), inEof);
    ExecAllKeeps(AtEof(s), inEof);
    GentleCloseSurvives(ExecAll(AtEof(s), inEof), inLost);
  }

  lemma {:induction false} GentleDataSurvives(s: Conn, round: Round)
    requires !s.crashed && AtRest(s) && GentleAll(round.inBuffer) && GentleAll(round.inData)
    ensures !Given(s, round).crashed && AtRest(Given(s, round))
  {
    GentleAllSurvives(s, round.inBuffer);
    ExecAllKeeps(s, round.inBuffer);
    var s1 := ExecAll(s, round.inBuffer);
    GentleAllSurvives(Log(s1, DataReceived(ReadInto(round.room, round.kernel).0)), round.inData);
    GivenKeeps(s, round);
  }

  lemma {:induction false} GentleRoundSurvives(s: Conn, round: Round, inEof: seq<Call>, keepOpen: bool, inLost: seq<Call>)
    requires !s.crashed && AtRest(s) && GentleAll(round.inBuffer) && GentleAll(round.inData) && GentleAll(inEof) && GentleAll(inLost)
    ensures !ReadRound(s, round, inEof, keepOpen, inLost).0.crashed
  {
    GentleDataSurvives(s, round);
    GentleEofSurvives(Given(s, round), inEof, keepOpen, inLost);
  }

  lemma {:induction false} GentleRoundsSurvive(s: Conn, rounds: seq<Round>, inEof: seq<Call>, keepOpen: bool, inLost: seq<Call>)
    requires !s.crashed && AtRest(s) && GentleRounds(rounds) && GentleAll(inEof) && GentleAll(inLost)
    ensures !ReadRounds(s, rounds, inEof, keepOpen, inLost).crashed
    decreases |rounds|
  {
    if rounds != [] {
      GentleRoundSurvives(s, rounds[0], inEof, keepOpen, inLost);
      ReadRoundKeeps(s, rounds[0], inEof, keepOpen, inLost);
      var (t, more) := ReadRound(s, rounds[0], inEof, keepOpen, inLost);
      if more {
        GentleRoundsSurvive(t, rounds[1..], inEof, keepOpen, inLost);
      }
    }
  }

  lemma {:induction false} GentleResumeSurvives(s: Conn, kernel: seq<WriteResult>, inResume: seq<Call>)
    requires !s.crashed && AtRest(s) && s.stage.attached && GentleAll(inResume)
    ensures !AfterResume(s, kernel, inResume).crashed
  {
    AfterDrainKeeps(s, kernel);
    if Resumes(s, kernel) {
      GentleAllSurvives(Resuming(AfterDrain(s, Drain(s.buf.queue, kernel))), inResume);
    }
  }

  lemma {:induction false} GentleFinishSurvives(s: Conn, inLost: seq<Call>)
    requires !s.crashed && Sound(s) && s.stage.draining && !s.stage.cellHeld && Settled(s) && GentleAll(inLost)
    ensures !FinishDrain(s, inLost).crashed
  {
    if s.buf.queue == [] && s.ctl.closing {
      LosingDrainedKeeps(s);
      GentleAllSurvives(LosingDrained(s), inLost);
      ExecAllKeeps(LosingDrained(s), inLost);
      AfterLossKeeps(ExecAll(LosingDrained(s), inLost));
    }
  }

  lemma {:induction false} GentleDrainSurvives(s: Conn, kernel: seq<WriteResult>, inResume: seq<Call>, inLost: seq<Call>)
    requires !s.crashed && AtRest(s) && s.stage.attached && GentleAll(inResume) && GentleAll(inLost)
    ensures !WriteReady(s, kernel, inResume, inLost).crashed
  {
    GentleResumeSurvives(s, kernel, inResume);
    AfterResumeKeeps(s, kernel, inResume);
    WriteReadyResumes(s, kernel, inResume, inLost);
    GentleFinishSurvives(AfterResume(s, kernel, inResume), inLost);
  }

  lemma {:induction false} GentleEventSurvives(s: Conn, e: Event)
    requires !s.crashed && AtRest(s) && GentleEvent(e)
    ensures !Next(s, e).crashed
  {
    match e
    case App(call) => GentleSurvives(s, call);
    case Readable(rounds, inEof, keepOpen, inLost) => GentleRoundsSurvive(s, rounds, inEof, keepOpen, inLost);
    case Writable(kernel, inResume, inLost) =>
      if s.stage.attached {
        GentleDrainSurvives(s, kernel, inResume, inLost);
      }
  }

  /** No panic is reached in any run in which no direct write fails and the pause_writing of a write calls nothing but
      pause_reading, resume_reading and empty writes. */
  lemma {:induction false} GentleRunsSurvive(events: seq<Event>)
    requires forall i :: 0 <= i < |events| ==> GentleEvent(events[i])
    ensures !Run(events).crashed && !Watched(Panics, events)
  {
    if events != [] {
      var init, e := events[..|events|-1], events[|events|-1];
      GentleRunsSurvive(init);
      RunIsSound(init);
      GentleEventSurvives(Run(init), e);
    }
    PanicsExactly(events);
  }
}
