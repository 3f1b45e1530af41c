/** What a TCP protocol hears of its peer: the data and the end of file that the kernel gave, and nothing else. */
module TcpInbound {
  import opened Prelude
  import opened Callbacks
  import opened Interests
  import opened TcpMachine
  import opened TcpInvariant
  import opened TcpWatch

  // ----- what the kernel gives -----

  /** What the peer sends before the socket runs dry, and whether it then closes. */
  function Stream(kernel: seq<ReadResult>): Bytes {
    if kernel == [] || kernel[0].ReadStopped? then []
    else if kernel[0].ReadInterrupted? then Stream(kernel[1..])
    else if kernel[0].data == [] then []
    else kernel[0].data + Stream(kernel[1..])
  }

  predicate ClosedAtEnd(kernel: seq<ReadResult>) {
    if kernel == [] || kernel[0].ReadStopped? then false
    else if kernel[0].ReadInterrupted? then ClosedAtEnd(kernel[1..])
    else kernel[0].data == [] || ClosedAtEnd(kernel[1..])
  }

  /** `read_into` returns the next bytes of the stream, as many as there are and fit, and reports the close only
      with room to spare. */
  lemma {:induction false} ReadIntoIsPrefix(room: nat, kernel: seq<ReadResult>)
    ensures var (data, closed) := ReadInto(room, kernel);
            && |data| == Min(room, |Stream(kernel)|)
            && data == Stream(kernel)[..|data|]
            && (closed <==> |data| < room && ClosedAtEnd(kernel))
    decreases |kernel|
  {
    if room > 0 && kernel != [] && !kernel[0].ReadStopped? {
      if kernel[0].ReadInterrupted? {
        ReadIntoIsPrefix(room, kernel[1..]);
      } else if kernel[0].data != [] {
        ReadIntoIsPrefix(room - Min(|kernel[0].data|, room), kernel[1..]);
      }
    }
  }

  /** What fits into the room of a round. */
  function Fits(round: Round): Bytes {
    var all := Stream(round.kernel);
    if |all| < round.room then all else all[..round.room]
  }

  predicate MeetsEnd(round: Round) {
    |Stream(round.kernel)| < round.room && ClosedAtEnd(round.kernel)
  }

  /** The callbacks that are due for one round: its data, if any, then the end of file, if it is met. */
  function DueForOne(round: Round): seq<Callback> {
    (if Fits(round) != [] then [DataReceived(Fits(round))] else []) + (if MeetsEnd(round) then [EofReceived] else [])
  }

  /** The callbacks that are due for a read handle's rounds: the data of each, up to the end of file or a round without
      data. */
  function DueFor(rounds: seq<Round>): seq<Callback> {
    if rounds == [] then []
    else
      var data := Fits(rounds[0]);
      (if data != [] then [DataReceived(data)] else [])
      + (if MeetsEnd(rounds[0]) then [EofReceived] else if data != [] then DueFor(rounds[1..]) else [])
  }

  /** The same for a run: a read handle of an attached transport takes what the kernel gives it. */
  function Due(events: seq<Event>): seq<Callback> {
    if events == [] then []
    else
      var s, e := Run(events[..|events|-1]), events[|events|-1];
      Due(events[..|events|-1]) + (if e.Readable? && s.stage.attached then DueFor(e.rounds) else [])
  }

  // ----- what the protocol hears -----

  lemma {:induction false} CallsSayNothing(s: Conn, cs: seq<Call>)
    ensures Heard(ExecAll(s, cs).trace.log) == Heard(s.trace.log)
    decreases cs, 0
  {
    if cs != [] && !s.crashed {
      CallSaysNothing(s, cs[0]);
      CallsSayNothing(Exec(s, cs[0]), cs[1..]);
    }
  }

  lemma {:induction false} PauseSaysNothing(s: Conn, held: bool, inPause: seq<Call>)
    ensures Heard(MaybePause(s, held, inPause).trace.log) == Heard(s.trace.log)
    decreases inPause, 1
  {
    CallsSayNothing(Pausing(s, held), inPause);
  }

  lemma {:induction false} LossSaysNothing(s: Conn, inLost: seq<Call>)
    ensures Heard(Lose(s, inLost).trace.log) == Heard(s.trace.log)
    decreases inLost, 1
  {
    CallsSayNothing(Losing(s), inLost);
  }

  lemma {:induction false} CallSaysNothing(s: Conn, c: Call)
    ensures Heard(Exec(s, c).trace.log) == Heard(s.trace.log)
    decreases c, 3
  {
    match c
    case Write(data, kernel, inPause, inLost) =>
      CallsSayNothing(Losing(Failing(s)), inLost);
      PauseSaysNothing(Enqueue(s, data, if s.buf.dsize == 0 then Taken(kernel, |data|) else 0), true, inPause);
    case SetLimits(high, low, inPause) =>
      if Limits(high, low).Some? {
        var (wh, wl) := Limits(high, low).value;
        PauseSaysNothing(s.(ctl := s.ctl.(hi := wh, lo := wl)), false, inPause);
      }
    case Close(inLost) => LossSaysNothing(RemInterest(StopReading(s), WRITABLE), inLost);
    case Abort(inLost) => LossSaysNothing(Aborting(s), inLost);
    case _ =>
  }

  lemma {:induction false} EofSays(s: Conn, inEof: seq<Call>, keepOpen: bool, inLost: seq<Call>)
    ensures Heard(RecvEof(s, inEof, keepOpen, inLost).trace.log) == Heard(s.trace.log) + [EofReceived]
  {
    CallsSayNothing(AtEof(s), inEof);
    LossSaysNothing(RemInterest(ClosingAtEof(ExecAll(AtEof(s), inEof)), WRITABLE), inLost);
  }

  lemma {:induction false} GivenSays(s: Conn, round: Round)
    requires !Given(s, round).crashed
    ensures var data := ReadInto(round.room, round.kernel).0;
            Heard(Given(s, round).trace.log) == Heard(s.trace.log) + (if data == [] then [] else [DataReceived(data)])
  {
    var s1 := ExecAll(s, round.inBuffer);
    CallsSayNothing(s, round.inBuffer);
    CallsSayNothing(Log(s1, DataReceived(ReadInto(round.room, round.kernel).0)), round.inData);
  }

  lemma {:induction false} RoundSays(s: Conn, round: Round, inEof: seq<Call>, keepOpen: bool, inLost: seq<Call>)
    ensures var t := ReadRound(s, round, inEof, keepOpen, inLost).0;
            !t.crashed ==> Heard(t.trace.log) == Heard(s.trace.log) + DueForOne(round)
  {
    if Given(s, round).crashed {
      return;
    }
    ReadIntoIsPrefix(round.room, round.kernel);
    var (data, eof) := ReadInto(round.room, round.kernel);
    assert data == Fits(round) && eof == MeetsEnd(round);
    GivenSays(s, round);
    if eof {
      EofSays(Given(s, round), inEof, keepOpen, inLost);
    }
  }

  lemma {:induction false} RoundsSay(s: Conn, rounds: seq<Round>, inEof: seq<Call>, keepOpen: bool, inLost: seq<Call>)
    requires !s.crashed && !ReadRounds(s, rounds, inEof, keepOpen, inLost).crashed
    ensures Heard(ReadRounds(s, rounds, inEof, keepOpen, inLost).trace.log) == Heard(s.trace.log) + DueFor(rounds)
    decreases |rounds|
  {
    if rounds != [] {
      ReadIntoIsPrefix(rounds[0].room, rounds[0].kernel);
      var (data, eof) := ReadInto(rounds[0].room, rounds[0].kernel);
      assert data == Fits(rounds[0]) && eof == MeetsEnd(rounds[0]);
      var t := Given(s, rounds[0]);
      assert !t.crashed;
      GivenSays(s, rounds[0]);
      if eof {
        EofSays(t, inEof, keepOpen, inLost);
      } else if data != [] {
        RoundsSay(t, rounds[1..], inEof, keepOpen, inLost);
      }
    }
  }

  lemma {:induction false} FinishSaysNothing(s: Conn, inLost: seq<Call>)
    ensures Heard(FinishDrain(s, inLost).trace.log) == Heard(s.trace.log)
  {
    CallsSayNothing(LosingDrained(s), inLost);
  }

  lemma {:induction false} DrainSaysNothing(s: Conn, kernel: seq<WriteResult>, inResume: seq<Call>, inLost: seq<Call>)
    requires s.stage.attached
    ensures Heard(WriteReady(s, kernel, inResume, inLost).trace.log) == Heard(s.trace.log)
  {
    WriteReadyResumes(s, kernel, inResume, inLost);
    CallsSayNothing(Resuming(AfterDrain(s, Drain(s.buf.queue, kernel))), inResume);
    FinishSaysNothing(AfterResume(s, kernel, inResume), inLost);
  }

  lemma {:induction false} EventSays(s: Conn, e: Event)
    ensures !Next(s, e).crashed ==>
              Heard(Next(s, e).trace.log) == Heard(s.trace.log) + (if e.Readable? && s.stage.attached then DueFor(e.rounds) else [])
  {
    if s.crashed || Next(s, e).crashed {
      return;
    }
    match e
    case App(call) => CallSaysNothing(s, call);
    case Readable(rounds, inEof, keepOpen, inLost) =>
      if s.stage.attached {
        RoundsSay(s, rounds, inEof, keepOpen, inLost);
      }
    case Writable(kernel, inResume, inLost) =>
      if s.stage.attached {
        DrainSaysNothing(s, kernel, inResume, inLost);
      }
  }

  /** In every run that does not panic the protocol is told of all data the kernel gave to its read handles, in order and
      unchanged, and once of each end of file they met, after its data; whatever else it does meanwhile. */
  lemma {:induction false} ReadsAreHeard(events: seq<Event>)
    requires !Watched(Panics, events)
    ensures Heard(Run(events).trace.log) == Due(events)
  {
    PanicsExactly(events);
    if events != [] {
      var init, e := events[..|events|-1], events[|events|-1];
      PanicsExactly(init);
      ReadsAreHeard(init);
      EventSays(Run(init), e);
    }
  }
}
