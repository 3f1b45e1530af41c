/** What single events do to a TCP transport: which of them lose bytes, repeat the loss, leave the fd polled for reading
    or the protocol paused for good. Each is told from the state before the event, the kernel's answers and what the
    reactions do. */
module TcpEvents {
  import opened Prelude
  import opened Callbacks
  import opened Interests
  import opened TcpMachine
  import opened TcpInvariant
  import opened TcpWatch
  import opened TcpCalls

  // ----- the kinds of event -----

  /** A write of the write handle fails for good. */
  predicate DrainFails(s: Conn, e: Event) {
    e.Writable? && !s.crashed && s.stage.attached && Drain(s.buf.queue, e.kernel).failed
  }

  /** resume_writing returns after a loss that it brought about, with nothing queued. */
  predicate LosesInResume(s: Conn, e: Event) {
    && e.Writable? && !s.crashed && s.stage.attached && Resumes(s, e.kernel)
    && var t := AfterResume(s, e.kernel, e.inResume);
       !t.crashed && t.trace.lost > 0 && t.buf.queue == []
  }

  /** The transport as the read handle meets the end of file, if it does. */
  function EofState(s: Conn, rounds: seq<Round>): Option<Conn>
    decreases |rounds|
  {
    if rounds == [] then None
    else
      var (data, eof) := ReadInto(rounds[0].room, rounds[0].kernel);
      var s1 := Given(s, rounds[0]);
      if s1.crashed then None
      else if eof then Some(s1)
      else if data == [] then None
      else EofState(s1, rounds[1..])
  }

  predicate MeetsEof(s: Conn, e: Event) {
    e.Readable? && !s.crashed && s.stage.attached && EofState(s, e.rounds).Some?
  }

  /** eof_received lets the transport close, does not close it itself, and made a resume_reading that had effect, with
      no pause_reading after it that had. */
  predicate ResumesAtEof(s: Conn, e: Event) {
    && MeetsEof(s, e) && !e.keepOpen
    && var t := AtEof(EofState(s, e.rounds).value);
       !ExecAll(t, e.inEof).crashed && !ExecAll(t, e.inEof).ctl.closing && LatchAll(Resumed, t, e.inEof, false)
  }

  // ----- the read handle -----

  lemma {:induction false} EofLeaves(s: Conn, inEof: seq<Call>, keepOpen: bool, inLost: seq<Call>)
    ensures var t := RecvEof(s, inEof, keepOpen, inLost);
            Leaves(s, t) && t.misuse.lossesInResume == s.misuse.lossesInResume
  {
    AllLeave(AtEof(s), inEof);
    var t := ExecAll(AtEof(s), inEof);
    LoseLeaves(RemInterest(ClosingAtEof(t), WRITABLE), inLost);
  }

  lemma {:induction false} GivenLeaves(s: Conn, round: Round)
    ensures Spares(s, Given(s, round))
  {
    AllLeave(s, round.inBuffer);
    var s1 := ExecAll(s, round.inBuffer);
    AllLeave(Log(s1, DataReceived(ReadInto(round.room, round.kernel).0)), round.inData);
  }

  lemma {:induction false} RoundLeaves(s: Conn, round: Round, inEof: seq<Call>, keepOpen: bool, inLost: seq<Call>)
    ensures var t := ReadRound(s, round, inEof, keepOpen, inLost).0;
            Leaves(s, t) && t.misuse.lossesInResume == s.misuse.lossesInResume
  {
    GivenLeaves(s, round);
    EofLeaves(Given(s, round), inEof, keepOpen, inLost);
  }

  lemma {:induction false} ReadsLeave(s: Conn, rounds: seq<Round>, inEof: seq<Call>, keepOpen: bool, inLost: seq<Call>)
    ensures var t := ReadRounds(s, rounds, inEof, keepOpen, inLost);
            Leaves(s, t) && t.misuse.lossesInResume == s.misuse.lossesInResume
    decreases |rounds|
  {
    if rounds != [] {
      RoundLeaves(s, rounds[0], inEof, keepOpen, inLost);
      ReadsLeave(ReadRound(s, rounds[0], inEof, keepOpen, inLost).0, rounds[1..], inEof, keepOpen, inLost);
    }
  }

  /** End of file marks the transport exactly if the loop is left polling for reading. */
  lemma {:induction false} EofMarks(s: Conn, inEof: seq<Call>, keepOpen: bool, inLost: seq<Call>)
    requires !s.crashed && AtRest(s) && !RecvEof(s, inEof, keepOpen, inLost).crashed
    ensures var t := ExecAll(AtEof(s), inEof);
            RecvEof(s, inEof, keepOpen, inLost).misuse.eofResumed <==>
              !keepOpen && !t.crashed && !t.ctl.closing && LatchAll(Resumed, AtEof(s), inEof, false)
  {
    AtEofKeeps(s);
    AllLeave(AtEof(s), inEof);
    AllReadOn(AtEof(s), inEof);
    assert !Recorded(AtEof(s).slot).readable;
    var t := ExecAll(AtEof(s), inEof);
    LoseLeaves(RemInterest(ClosingAtEof(t), WRITABLE), inLost);
  }

  lemma {:induction false} ReadsMark(s: Conn, rounds: seq<Round>, inEof: seq<Call>, keepOpen: bool, inLost: seq<Call>)
    requires !s.crashed && AtRest(s) && !ReadRounds(s, rounds, inEof, keepOpen, inLost).crashed
    ensures var u := ReadRounds(s, rounds, inEof, keepOpen, inLost).misuse.eofResumed;
            match EofState(s, rounds)
            case None => u == s.misuse.eofResumed
            case Some(x) =>
              var t := ExecAll(AtEof(x), inEof);
              u <==> !keepOpen && !t.crashed && !t.ctl.closing && LatchAll(Resumed, AtEof(x), inEof, false)
    decreases |rounds|
  {
    if rounds != [] {
      var (data, eof) := ReadInto(rounds[0].room, rounds[0].kernel);
      var s1 := Given(s, rounds[0]);
      GivenLeaves(s, rounds[0]);
      GivenKeeps(s, rounds[0]);
      if !s1.crashed {
        if eof {
          EofMarks(s1, inEof, keepOpen, inLost);
        } else if data != [] {
          ReadsMark(s1, rounds[1..], inEof, keepOpen, inLost);
        }
      }
    }
  }

  // ----- the write handle -----

  lemma {:induction false} FinishLeaves(s: Conn, inLost: seq<Call>)
    ensures var t := FinishDrain(s, inLost);
            && Leaves(s, t) && t.misuse.eofResumed == s.misuse.eofResumed
            && t.misuse.lossesInResume == s.misuse.lossesInResume
               + (if !s.crashed && s.buf.queue == [] && s.ctl.closing && s.trace.lost > 0 then 1 else 0)
  {
    AllLeave(LosingDrained(s), inLost);
  }

  /** The write handle from its drain to its end. */
  lemma {:induction false} WriteReadyLeaves(s: Conn, kernel: seq<WriteResult>, inResume: seq<Call>, inLost: seq<Call>)
    requires !s.crashed && AtRest(s) && s.stage.attached
    ensures var t := WriteReady(s, kernel, inResume, inLost);
            var s1 := AfterDrain(s, Drain(s.buf.queue, kernel));
            && Leaves(if Resumes(s, kernel) then Resuming(s1) else s1, t)
            && t.misuse.eofResumed == s.misuse.eofResumed
            && t.misuse.lossesInResume == s.misuse.lossesInResume + (if LosesInResume(s, Writable(kernel, inResume, inLost)) then 1 else 0)
  {
    var s1 := AfterDrain(s, Drain(s.buf.queue, kernel));
    var t := AfterResume(s, kernel, inResume);
    WriteReadyResumes(s, kernel, inResume, inLost);
    AfterResumeKeeps(s, kernel, inResume);
    AllLeave(Resuming(s1), inResume);
    FinishLeaves(t, inLost);
  }

  // ----- every event -----

  /** The loss is repeated by the write handle exactly at these events. */
  lemma {:induction false} LossInResumeCounts(s: Conn, e: Event)
    requires s.crashed || AtRest(s)
    ensures Next(s, e).misuse.lossesInResume == s.misuse.lossesInResume + (if LosesInResume(s, e) then 1 else 0)
  {
    if !s.crashed {
      match e
      case App(call) => CallLeaves(s, call);
      case Readable(rounds, inEof, keepOpen, inLost) => ReadsLeave(s, rounds, inEof, keepOpen, inLost);
      case Writable(kernel, inResume, inLost) =>
        if s.stage.attached {
          WriteReadyLeaves(s, kernel, inResume, inLost);
        }
    }
  }

  /** The mark of a resume at end of file is set by these events and cleared by any other end of file. */
  lemma {:induction false} EofResumeMarks(s: Conn, e: Event)
    requires !s.crashed && AtRest(s) && !Next(s, e).crashed
    ensures Next(s, e).misuse.eofResumed <==> ResumesAtEof(s, e) || (s.misuse.eofResumed && !MeetsEof(s, e))
  {
    match e
    case App(call) => CallLeaves(s, call);
    case Readable(rounds, inEof, keepOpen, inLost) =>
      if s.stage.attached {
        ReadsMark(s, rounds, inEof, keepOpen, inLost);
      }
    case Writable(kernel, inResume, inLost) =>
      if s.stage.attached {
        WriteReadyLeaves(s, kernel, inResume, inLost);
      }
  }

  /** Bytes are thrown away exactly by a failed drain. */
  lemma {:induction false} DrainFailureDrops(s: Conn, e: Event)
    requires s.crashed || AtRest(s)
    ensures Next(s, e).buf.dropped == [] <==> s.buf.dropped == [] && !DrainFails(s, e)
  {
    if !s.crashed {
      match e
      case App(call) => CallLeaves(s, call);
      case Readable(rounds, inEof, keepOpen, inLost) => ReadsLeave(s, rounds, inEof, keepOpen, inLost);
      case Writable(kernel, inResume, inLost) =>
        if s.stage.attached {
          WriteReadyLeaves(s, kernel, inResume, inLost);
          DrainSplits(s.buf.queue, kernel);
        }
    }
  }

  /** Paused with nothing pending: either a drain has just failed while paused, or it was so before; and nothing has
      been queued since. */
  lemma {:induction false} StrandingSteps(s: Conn, e: Event)
    requires !s.crashed && AtRest(s) && Next(s, e).buf.dsize <= 0
    ensures Next(s, e).ctl.protoPaused <==> s.ctl.protoPaused && (s.buf.dsize == 0 || DrainFails(s, e))
  {
    match e
    case App(call) => CallLeaves(s, call);
    case Readable(rounds, inEof, keepOpen, inLost) => ReadsLeave(s, rounds, inEof, keepOpen, inLost);
    case Writable(kernel, inResume, inLost) =>
      if s.stage.attached {
        WriteReadyLeaves(s, kernel, inResume, inLost);
        DrainSplits(s.buf.queue, kernel);
        FlatEmpty(s.buf.queue);
        var d := Drain(s.buf.queue, kernel);
        assert |d.sent| + |Flat(d.queue)| + |d.dropped| == |Flat(s.buf.queue)|;
      }
  }
}
