/** A TCP transport's books kept from outside: what its protocol wrote and asked for, at any depth of reactions, and what
    the kernel answered, event by event. The lemmas say that the transport's own fields are these books. */
module TcpTally {
  import opened Prelude
  import opened Callbacks
  import opened Interests
  import opened TcpMachine
  import opened TcpWatch

  /** Bytes accepted and sent; the calls that had effect on the flags and marks; and how often the protocol was told of a
      pause, a resume and a loss. */
  datatype Tally = Tally(accepted: Bytes, sent: Bytes, ended: bool, closed: bool, paused: bool, hi: nat, lo: nat,
                         pauses: nat, resumes: nat, losses: nat)

  /** What the transport itself says. */
  function Shown(s: Conn): Tally {
    Tally(s.buf.accepted, s.buf.sent, s.ctl.weof, s.ctl.closing, s.ctl.paused, s.ctl.hi, s.ctl.lo,
          PauseCount(s.trace.log), ResumeCount(s.trace.log), LostCount(s.trace.log))
  }

  /** The entry for one call made in the state `s`, its reactions apart. A call made while a write holds the cell has one
      only if it pauses or resumes reading. */
  function Note(s: Conn, c: Call, a: Tally): Tally {
    if s.crashed then a
    else if c.PauseReading? then a.(paused := a.paused || !s.ctl.closing)
    else if c.ResumeReading? then a.(paused := a.paused && s.ctl.closing)
    else if s.stage.cellHeld then a
    else
      match c
      case Write(data, kernel, _, _) =>
        if s.ctl.weof then a
        else if s.buf.dsize == 0 && kernel.Failed? && data != [] then a.(closed := true)
        else a.(accepted := a.accepted + data, sent := a.sent + (if s.buf.dsize == 0 then TakenOf(data, kernel) else []))
      case WriteEof => a.(ended := a.ended || !s.ctl.closing)
      case SetLimits(high, low, _) =>
        (match Limits(high, low)
         case None => a
         case Some((wh, wl)) => a.(hi := wh, lo := wl))
      case Close(_) => a.(closed := true)
      case Abort(_) => a.(closed := true)
      case _ => a
  }

  function NoteAll(s: Conn, cs: seq<Call>, a: Tally): Tally
    decreases cs, 0
  {
    if cs == [] || s.crashed then a else NoteAll(Exec(s, cs[0]), cs[1..], NoteCall(s, cs[0], a))
  }

  function NotePause(s: Conn, held: bool, inPause: seq<Call>, a: Tally): Tally
    decreases inPause, 1
  {
    if s.buf.dsize > s.ctl.hi && !s.ctl.protoPaused then NoteAll(Pausing(s, held), inPause, a.(pauses := a.pauses + 1)) else a
  }

  function NoteLoss(s: Conn, inLost: seq<Call>, a: Tally): Tally
    decreases inLost, 1
  {
    NoteAll(Losing(s), inLost, a.(losses := a.losses + 1))
  }

  /** The entries for a call and all its reactions, in the order in which they are made. */
  function NoteCall(s: Conn, c: Call, a: Tally): Tally
    decreases c, 3
  {
    var a1 := Note(s, c, a);
    if s.crashed || s.stage.cellHeld || !Borrows(s, c) then a1
    else
      match c
      case Write(data, kernel, inPause, inLost) =>
        if DirectWrite(s, c) && kernel.Failed? then NoteLoss(Failing(s), inLost, a1)
        else NotePause(Enqueue(s, data, if s.buf.dsize == 0 then Taken(kernel, |data|) else 0), true, inPause, a1)
      case SetLimits(high, low, inPause) =>
        (match Limits(high, low)
         case None => a1
         case Some((wh, wl)) => NotePause(s.(ctl := s.ctl.(hi := wh, lo := wl)), false, inPause, a1))
      case Close(inLost) =>
        if s.buf.dsize > 0 then a1
        else NoteLoss(RemInterest(StopReading(s), WRITABLE), inLost, a1)
      case Abort(inLost) => NoteLoss(Aborting(s), inLost, a1)
      case _ => a1
  }

  // ----- calls -----

  lemma {:induction false} AllShow(s: Conn, cs: seq<Call>)
    ensures NoteAll(s, cs, Shown(s)) == Shown(ExecAll(s, cs))
    decreases cs, 0
  {
    if cs != [] && !s.crashed {
      CallShows(s, cs[0]);
      AllShow(Exec(s, cs[0]), cs[1..]);
    }
  }

  lemma {:induction false} PauseShows(s: Conn, held: bool, inPause: seq<Call>)
    ensures NotePause(s, held, inPause, Shown(s)) == Shown(MaybePause(s, held, inPause))
    decreases inPause, 1
  {
    AllShow(Pausing(s, held), inPause);
  }

  lemma {:induction false} LossShows(s: Conn, inLost: seq<Call>)
    ensures NoteLoss(s, inLost, Shown(s)) == Shown(Lose(s, inLost))
    decreases inLost, 1
  {
    AllShow(Losing(s), inLost);
  }

  lemma {:induction false} FailureShows(s: Conn, inLost: seq<Call>)
    ensures NoteLoss(Failing(s), inLost, Shown(s).(closed := true)) == Shown(FailWrite(s, inLost))
    decreases inLost, 1
  {
    AllShow(Losing(Failing(s)), inLost);
  }

  lemma {:induction false} EnqueueShows(s: Conn, data: Bytes, kernel: WriteResult)
    requires !(s.buf.dsize == 0 && kernel.Failed?)
    ensures Shown(Enqueue(s, data, if s.buf.dsize == 0 then Taken(kernel, |data|) else 0))
         == Shown(s).(accepted := s.buf.accepted + data, sent := s.buf.sent + (if s.buf.dsize == 0 then TakenOf(data, kernel) else []))
  {
    assert data[..|data|] == data && data[..0] == [];
  }

  lemma {:induction false} WriteShows(s: Conn, data: Bytes, kernel: WriteResult, inPause: seq<Call>, inLost: seq<Call>)
    ensures var c := Write(data, kernel, inPause, inLost); NoteCall(s, c, Shown(s)) == Shown(Exec(s, c))
    decreases Write(data, kernel, inPause, inLost), 2
  {
    if data == [] {
      assert s.buf.accepted + data == s.buf.accepted && s.buf.sent + [] == s.buf.sent;
    } else if s.buf.dsize == 0 && kernel.Failed? {
      FailureShows(s, inLost);
    } else {
      EnqueueShows(s, data, kernel);
      PauseShows(Enqueue(s, data, if s.buf.dsize == 0 then Taken(kernel, |data|) else 0), true, inPause);
    }
  }

  lemma {:induction false} CloseShows(s: Conn, inLost: seq<Call>)
    ensures NoteCall(s, Close(inLost), Shown(s)) == Shown(Exec(s, Close(inLost)))
    decreases Close(inLost), 2
  {
    LossShows(RemInterest(StopReading(s), WRITABLE), inLost);
  }

  lemma {:induction false} AbortShows(s: Conn, inLost: seq<Call>)
    ensures NoteCall(s, Abort(inLost), Shown(s)) == Shown(Exec(s, Abort(inLost)))
    decreases Abort(inLost), 2
  {
    LossShows(Aborting(s), inLost);
  }

  /** After every call with all its reactions the transport's fields are the entries made for it. */
  lemma {:induction false} CallShows(s: Conn, c: Call)
    ensures NoteCall(s, c, Shown(s)) == Shown(Exec(s, c))
    decreases c, 3
  {
    match c
    case Write(data, kernel, inPause, inLost) => WriteShows(s, data, kernel, inPause, inLost);
    case SetLimits(high, low, inPause) =>
      if Limits(high, low).Some? {
        var (wh, wl) := Limits(high, low).value;
        PauseShows(s.(ctl := s.ctl.(hi := wh, lo := wl)), false, inPause);
      }
    case Close(inLost) => CloseShows(s, inLost);
    case Abort(inLost) => AbortShows(s, inLost);
    case _ =>
  }

  // ----- handles -----

  /** The bytes that the write handle hands to the kernel, one answer at a time: an interrupted write is tried again, one
      that is not taken whole is the last. */
  function Handed(queue: seq<Bytes>, kernel: seq<WriteResult>): Bytes
    decreases |kernel|
  {
    if queue == [] || kernel == [] then []
    else if kernel[0].Interrupted? then Handed(queue, kernel[1..])
    else
      var taken := TakenOf(queue[0], kernel[0]);
      taken + (if taken == queue[0] && kernel[0].Wrote? then Handed(queue[1..], kernel[1..]) else [])
  }

  /** The write handle meets an error. */
  predicate MeetsError(queue: seq<Bytes>, kernel: seq<WriteResult>)
    decreases |kernel|
  {
    && queue != [] && kernel != []
    && match kernel[0]
       case Wrote(n) => n >= |queue[0]| && MeetsError(queue[1..], kernel[1..])
       case Interrupted => MeetsError(queue, kernel[1..])
       case WouldBlock => false
       case Failed => true
  }

  lemma {:induction false} DrainHands(queue: seq<Bytes>, kernel: seq<WriteResult>)
    ensures Drain(queue, kernel).sent == Handed(queue, kernel) && Drain(queue, kernel).failed == MeetsError(queue, kernel)
    decreases |kernel|
  {
    if queue != [] && kernel != [] {
      match kernel[0]
      case Wrote(n) =>
        assert queue[0][..|queue[0]|] == queue[0];
        if n >= |queue[0]| {
          DrainHands(queue[1..], kernel[1..]);
        } else {
          assert |queue[0][..n]| < |queue[0]|;
          assert queue[0][..n] + [] == queue[0][..n];
        }
      case Interrupted => DrainHands(queue, kernel[1..]);
      case WouldBlock =>
      case Failed =>
    }
  }

  /** The write handle resumes a paused protocol once some bytes have gone, without error, and what is pending is no more
      than the low mark. */
  predicate ResumesAfter(s: Conn, kernel: seq<WriteResult>) {
    var handed := Handed(s.buf.queue, kernel);
    handed != [] && !MeetsError(s.buf.queue, kernel) && s.ctl.protoPaused && s.buf.dsize - |handed| <= s.ctl.lo
  }

  function NoteResume(s: Conn, kernel: seq<WriteResult>, inResume: seq<Call>, a: Tally): Tally {
    if ResumesAfter(s, kernel)
    then NoteAll(Resuming(AfterDrain(s, Drain(s.buf.queue, kernel))), inResume, a.(resumes := a.resumes + 1)) else a
  }

  function NoteFinish(s: Conn, inLost: seq<Call>, a: Tally): Tally {
    if !s.crashed && s.buf.queue == [] && s.ctl.closing
    then NoteAll(LosingDrained(s), inLost, a.(losses := a.losses + 1)) else a
  }

  function NoteDrain(s: Conn, kernel: seq<WriteResult>, inResume: seq<Call>, inLost: seq<Call>, a: Tally): Tally {
    NoteFinish(AfterResume(s, kernel, inResume), inLost,
               NoteResume(s, kernel, inResume, a.(sent := a.sent + Handed(s.buf.queue, kernel))))
  }

  /** An end of file that is not kept open closes the transport, and at once if nothing is queued. */
  function NoteEof(s: Conn, inEof: seq<Call>, keepOpen: bool, inLost: seq<Call>, a: Tally): Tally {
    var a1 := NoteAll(AtEof(s), inEof, a);
    var t := ExecAll(AtEof(s), inEof);
    if keepOpen || t.crashed || t.ctl.closing then a1
    else if t.buf.queue != [] then a1.(closed := true)
    else NoteLoss(RemInterest(ClosingAtEof(t), WRITABLE), inLost, a1.(closed := true))
  }

  function NoteGiven(s: Conn, round: Round, a: Tally): Tally {
    var s1 := ExecAll(s, round.inBuffer);
    var data := ReadInto(round.room, round.kernel).0;
    var a1 := NoteAll(s, round.inBuffer, a);
    if s1.crashed || data == [] then a1 else NoteAll(Log(s1, DataReceived(data)), round.inData, a1)
  }

  function NoteRounds(s: Conn, rounds: seq<Round>, inEof: seq<Call>, keepOpen: bool, inLost: seq<Call>, a: Tally): Tally
    decreases |rounds|
  {
    if rounds == [] then a
    else
      var (data, eof) := ReadInto(rounds[0].room, rounds[0].kernel);
      var t := Given(s, rounds[0]);
      var a1 := NoteGiven(s, rounds[0], a);
      if t.crashed then a1
      else if eof then NoteEof(t, inEof, keepOpen, inLost, a1)
      else if data == [] then a1
      else NoteRounds(t, rounds[1..], inEof, keepOpen, inLost, a1)
  }

  function NoteEvent(s: Conn, e: Event, a: Tally): Tally {
    if s.crashed then a
    else
      match e
      case App(call) => NoteCall(s, call, a)
      case Readable(rounds, inEof, keepOpen, inLost) =>
        if s.stage.attached then NoteRounds(s, rounds, inEof, keepOpen, inLost, a) else a
      case Writable(kernel, inResume, inLost) =>
        if s.stage.attached then NoteDrain(s, kernel, inResume, inLost, a) else a
  }

  /** The books of a run. Limits are those of asyncio until they are set. */
  function Tallied(events: seq<Event>): Tally {
    if events == [] then Tally([], [], false, false, false, 64 * 1024, 16 * 1024, 0, 0, 0)
    else NoteEvent(Run(events[..|events|-1]), events[|events|-1], Tallied(events[..|events|-1]))
  }

  lemma {:induction false} FinishShows(s: Conn, inLost: seq<Call>)
    ensures NoteFinish(s, inLost, Shown(s)) == Shown(FinishDrain(s, inLost))
  {
    AllShow(LosingDrained(s), inLost);
  }

  lemma {:induction false} ResumeShows(s: Conn, kernel: seq<WriteResult>, inResume: seq<Call>)
    ensures NoteResume(s, kernel, inResume, Shown(s).(sent := s.buf.sent + Handed(s.buf.queue, kernel)))
         == Shown(AfterResume(s, kernel, inResume))
  {
    DrainHands(s.buf.queue, kernel);
    AllShow(Resuming(AfterDrain(s, Drain(s.buf.queue, kernel))), inResume);
  }

  lemma {:induction false} DrainShows(s: Conn, kernel: seq<WriteResult>, inResume: seq<Call>, inLost: seq<Call>)
    requires s.stage.attached
    ensures NoteDrain(s, kernel, inResume, inLost, Shown(s)) == Shown(WriteReady(s, kernel, inResume, inLost))
  {
    ResumeShows(s, kernel, inResume);
    FinishShows(AfterResume(s, kernel, inResume), inLost);
    WriteReadyResumes(s, kernel, inResume, inLost);
  }

  lemma {:induction false} EofShows(s: Conn, inEof: seq<Call>, keepOpen: bool, inLost: seq<Call>)
    ensures NoteEof(s, inEof, keepOpen, inLost, Shown(s)) == Shown(RecvEof(s, inEof, keepOpen, inLost))
  {
    AllShow(AtEof(s), inEof);
    LossShows(RemInterest(ClosingAtEof(ExecAll(AtEof(s), inEof)), WRITABLE), inLost);
  }

  lemma {:induction false} GivenShows(s: Conn, round: Round)
    ensures NoteGiven(s, round, Shown(s)) == Shown(Given(s, round))
  {
    AllShow(s, round.inBuffer);
    AllShow(Log(ExecAll(s, round.inBuffer), DataReceived(ReadInto(round.room, round.kernel).0)), round.inData);
  }

  lemma {:induction false} RoundsShow(s: Conn, rounds: seq<Round>, inEof: seq<Call>, keepOpen: bool, inLost: seq<Call>)
    ensures NoteRounds(s, rounds, inEof, keepOpen, inLost, Shown(s)) == Shown(ReadRounds(s, rounds, inEof, keepOpen, inLost))
    decreases |rounds|
  {
    if rounds != [] {
      GivenShows(s, rounds[0]);
      EofShows(Given(s, rounds[0]), inEof, keepOpen, inLost);
      RoundsShow(Given(s, rounds[0]), rounds[1..], inEof, keepOpen, inLost);
    }
  }

  lemma {:induction false} EventShows(s: Conn, e: Event)
    ensures NoteEvent(s, e, Shown(s)) == Shown(Next(s, e))
  {
    if !s.crashed {
      match e
      case App(call) => CallShows(s, call);
      case Readable(rounds, inEof, keepOpen, inLost) => RoundsShow(s, rounds, inEof, keepOpen, inLost);
      case Writable(kernel, inResume, inLost) =>
        if s.stage.attached {
          DrainShows(s, kernel, inResume, inLost);
        }
    }
  }

  /** In every run: the bytes accepted are those of the writes that had effect, and the bytes sent those that the kernel
      took, both in order; the end of writing, closing, the pause of reading and the watermarks are as the calls that had
      effect and the ends of file left them; and the protocol has been told of as many pauses, resumes and losses as they made. */
  lemma {:induction false} BooksAgree(events: seq<Event>)
    ensures Shown(Run(events)) == Tallied(events)
  {
    if events != [] {
      BooksAgree(events[..|events|-1]);
      EventShows(Run(events[..|events|-1]), events[|events|-1]);
    }
  }

  // ----- after the end of writing -----

  lemma {:induction false} EndedAll(s: Conn, cs: seq<Call>)
    requires s.ctl.weof
    ensures var t := ExecAll(s, cs); t.ctl.weof && t.buf.accepted == s.buf.accepted
    decreases cs, 0
  {
    if cs != [] && !s.crashed {
      EndedCall(s, cs[0]);
      EndedAll(Exec(s, cs[0]), cs[1..]);
    }
  }

  lemma {:induction false} EndedPause(s: Conn, held: bool, inPause: seq<Call>)
    requires s.ctl.weof
    ensures var t := MaybePause(s, held, inPause); t.ctl.weof && t.buf.accepted == s.buf.accepted
    decreases inPause, 1
  {
    EndedAll(Pausing(s, held), inPause);
  }

  lemma {:induction false} EndedLoss(s: Conn, inLost: seq<Call>)
    requires s.ctl.weof
    ensures var t := Lose(s, inLost); t.ctl.weof && t.buf.accepted == s.buf.accepted
    decreases inLost, 1
  {
    EndedAll(Losing(s), inLost);
  }

  lemma {:induction false} EndedCall(s: Conn, c: Call)
    requires s.ctl.weof
    ensures var t := Exec(s, c); t.ctl.weof && t.buf.accepted == s.buf.accepted
    decreases c, 3
  {
    match c
    case SetLimits(high, low, inPause) =>
      if Limits(high, low).Some? {
        var (wh, wl) := Limits(high, low).value;
        EndedPause(s.(ctl := s.ctl.(hi := wh, lo := wl)), false, inPause);
      }
    case Close(inLost) => EndedLoss(RemInterest(StopReading(s), WRITABLE), inLost);
    case Abort(inLost) => EndedLoss(Aborting(s), inLost);
    case _ =>
  }

  lemma {:induction false} EndedRounds(s: Conn, rounds: seq<Round>, inEof: seq<Call>, keepOpen: bool, inLost: seq<Call>)
    requires s.ctl.weof
    ensures var t := ReadRounds(s, rounds, inEof, keepOpen, inLost); t.ctl.weof && t.buf.accepted == s.buf.accepted
    decreases |rounds|
  {
    if rounds != [] {
      var s1 := ExecAll(s, rounds[0].inBuffer);
      EndedAll(s, rounds[0].inBuffer);
      EndedAll(Log(s1, DataReceived(ReadInto(rounds[0].room, rounds[0].kernel).0)), rounds[0].inData);
      var t := Given(s, rounds[0]);
      EndedAll(AtEof(t), inEof);
      EndedLoss(RemInterest(ClosingAtEof(ExecAll(AtEof(t), inEof)), WRITABLE), inLost);
      EndedRounds(t, rounds[1..], inEof, keepOpen, inLost);
    }
  }

  lemma {:induction false} EndedDrain(s: Conn, kernel: seq<WriteResult>, inResume: seq<Call>, inLost: seq<Call>)
    requires s.ctl.weof && s.stage.attached
    ensures var t := WriteReady(s, kernel, inResume, inLost); t.ctl.weof && t.buf.accepted == s.buf.accepted
  {
    WriteReadyResumes(s, kernel, inResume, inLost);
    EndedAll(Resuming(AfterDrain(s, Drain(s.buf.queue, kernel))), inResume);
    EndedAll(LosingDrained(AfterResume(s, kernel, inResume)), inLost);
  }

  /** After a write_eof that had effect nothing is accepted any more. */
  lemma {:induction false} EndedAcceptsNothing(s: Conn, e: Event)
    requires s.ctl.weof
    ensures Next(s, e).ctl.weof && Next(s, e).buf.accepted == s.buf.accepted
  {
    if !s.crashed {
      match e
      case App(call) => EndedCall(s, call);
      case Readable(rounds, inEof, keepOpen, inLost) => EndedRounds(s, rounds, inEof, keepOpen, inLost);
      case Writable(kernel, inResume, inLost) =>
        if s.stage.attached {
          EndedDrain(s, kernel, inResume, inLost);
        }
    }
  }
}
