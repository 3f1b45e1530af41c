/** The TokioLoop's TCP transport as a program (src/tokio_tcp.rs): its methods and `io_processing_loop`. Every execution
    is a run of the machine of TokioIo, so what is proved of those runs holds of the program. */
module TokioTransport {
  import opened Prelude
  import opened TokioIo

  predicate IsCall(e: Event) {
    e.Write? || e.WriteEof? || e.PauseReading? || e.ResumeReading? || e.Close? || e.Abort?
  }

  type Call = e: Event | IsCall(e) witness WriteEof

  function CallsMade(s: Io, calls: seq<Call>): Io {
    if calls == [] then s else Apply(CallsMade(s, calls[..|calls|-1]), calls[|calls|-1])
  }

  /** What happens in `select!` before a branch other than the write branch completes: calls come in, or the write
      branch is polled and the kernel takes up to `n` bytes, or its write fails. */
  datatype Beat = Interfere(calls: seq<Call>) | Poll(n: nat) | PollFails

  datatype Winner = ReadWins(data: Bytes) | EofWins | WouldBlockWins | ReadFailWins | TickWins

  /** One iteration of the loop. */
  datatype Turn = Turn(beforeTop: seq<Call>, beforeGuard: seq<Call>, race: seq<Beat>, winner: Winner, during: seq<Call>)

  function Step(s: Io, e: Event): Io {
    if Enabled(s, e) then Apply(s, e) else s
  }

  /** The write branch is polled: it runs until the kernel takes no more, or to its end. */
  function Polled(s: Io, n: nat): Io {
    SentOn(Step(s, PopChunk), n)
  }

  /** The write branch from `write_all` on. */
  function SentOn(s: Io, n: nat): Io {
    Step(Step(Taken(s, n), WriteDone), Shutdown)
  }

  function Taken(s: Io, n: nat): Io {
    if InSending(s) && Min(n, Unsent(s)) > 0 then Step(s, Take(Min(n, Unsent(s)))) else s
  }

  function PolledFailing(s: Io): Io {
    Step(Step(Step(s, PopChunk), WriteFail), Shutdown)
  }

  function Beaten(s: Io, beat: Beat): Io {
    match beat
    case Interfere(calls) => CallsMade(s, calls)
    case Poll(n) => Polled(s, n)
    case PollFails => PolledFailing(s)
  }

  function Raced(s: Io, race: seq<Beat>): Io {
    if race == [] then s else Beaten(Raced(s, race[..|race|-1]), race[|race|-1])
  }

  function EventOf(w: Winner, reading: bool): Event {
    match w
    case ReadWins(data) => if reading && data != [] then ReadSome(data) else Tick
    case EofWins => if reading then ReadEof else Tick
    case WouldBlockWins => if reading then ReadWouldBlock else Tick
    case ReadFailWins => if reading then ReadFail else Tick
    case TickWins => Tick
  }

  function Won(s: Io, w: Winner): (t: Io)
    ensures t.buf == s.buf
    ensures s.at.Selecting? ==> t.flags == s.flags.(readEof := s.flags.readEof || (s.at.reading && w == EofWins))
    ensures s.at.Selecting? ==> t.at == if s.at.reading && w == ReadFailWins then Leaving else Post
  {
    if s.at.Selecting? then Step(s, EventOf(w, s.at.reading)) else s
  }

  /** From the check at the head of the loop to the check at its end. */
  function Turned(s: Io, turn: Turn): Io {
    var s1 := Step(CallsMade(s, turn.beforeTop), CheckTop);
    if !s1.at.Guard? then s1
    else
      var s2 := Step(CallsMade(s1, turn.beforeGuard), CheckGuard);
      Settled(Raced(s2, turn.race), turn)
  }

  /** The end of an iteration, from the completion of a branch on. */
  function Settled(s: Io, turn: Turn): Io {
    Step(CallsMade(Won(s, turn.winner), turn.during), CheckExit)
  }

  function TurnedAll(s: Io, turns: seq<Turn>): Io {
    if turns == [] then s else Turned(TurnedAll(s, turns[..|turns|-1]), turns[|turns|-1])
  }

  lemma CallsNext(s: Io, calls: seq<Call>, k: nat)
    requires k < |calls|
    ensures CallsMade(s, calls[..k+1]) == Apply(CallsMade(s, calls[..k]), calls[k])
  {
    assert calls[..k+1][..k] == calls[..k];
  }

  lemma RaceNext(s: Io, race: seq<Beat>, k: nat)
    requires k < |race|
    ensures Raced(s, race[..k+1]) == Beaten(Raced(s, race[..k]), race[k])
  {
    assert race[..k+1][..k] == race[..k];
  }

  lemma TurnsNext(s: Io, turns: seq<Turn>, k: nat)
    requires k < |turns|
    ensures TurnedAll(s, turns[..k+1]) == Turned(TurnedAll(s, turns[..k]), turns[k])
  {
    assert turns[..k+1][..k] == turns[..k];
  }

  lemma {:induction false} StepReachable(s: Io, e: Event)
    requires Reachable(s)
    ensures Reachable(Step(s, e))
  {
    if Enabled(s, e) {
      ReachableStep(s, e);
    }
  }

  lemma {:induction false} CallsMadeKeep(s: Io, calls: seq<Call>)
    ensures CallsMade(s, calls).at == s.at && (Reachable(s) ==> Reachable(CallsMade(s, calls)))
  {
    if calls != [] {
      CallsMadeKeep(s, calls[..|calls|-1]);
      if Reachable(s) {
        ReachableStep(CallsMade(s, calls[..|calls|-1]), calls[|calls|-1]);
      }
    }
  }

  // ----- progress -----

  lemma {:induction false} CallsStayClosing(s: Io, calls: seq<Call>)
    ensures s.flags.closing ==> CallsMade(s, calls).flags.closing
    ensures CallsMade(s, calls).at == s.at && CallsMade(s, calls).trace.callbacks == s.trace.callbacks
    ensures CallsMade(s, calls).trace.wire == s.trace.wire && CallsMade(s, calls).flags.readEof == s.flags.readEof
  {
    if calls != [] {
      CallsStayClosing(s, calls[..|calls|-1]);
    }
  }

  /** The transport as it is checked at the head of a turn, and as it is checked at the end of one that gets there. */
  function HeadOf(s: Io, turn: Turn): Io {
    CallsMade(s, turn.beforeTop)
  }

  function EndOf(s: Io, turn: Turn): Io {
    var s1 := Step(HeadOf(s, turn), CheckTop);
    var s2 := Step(CallsMade(s1, turn.beforeGuard), CheckGuard);
    CallsMade(Won(Raced(s2, turn.race), turn.winner), turn.during)
  }

  /** A turn leaves the loop exactly if it finds the transport closing at its head, or it is neither closing nor paused
      there and it meets a read error or ends after the end of file with an empty buffer. */
  lemma {:induction false} TurnLeavesExactly(s: Io, turn: Turn)
    requires s.at == Top
    ensures var head, end := HeadOf(s, turn), EndOf(s, turn);
            Turned(s, turn).at == Leaving <==>
              || head.flags.closing
              || (!head.flags.paused && (end.at == Leaving || (end.at == Post && end.flags.readEof && end.buf == [])))
  {
    var head := HeadOf(s, turn);
    CallsStayClosing(s, turn.beforeTop);
    PlacesAreExact(head, CheckTop);
    var end := EndOf(s, turn);
    if end.at == Post {
      PlacesAreExact(end, CheckExit);
    }
  }

  /** A turn that finds the transport closing does nothing else than leave, whatever the buffer holds. */
  lemma {:induction false} CloseEndsTurn(s: Io, turn: Turn)
    requires s.at == Top && HeadOf(s, turn).flags.closing
    ensures var t := Turned(s, turn);
            t.at == Leaving && t.trace.callbacks == s.trace.callbacks && t.trace.wire == s.trace.wire
  {
    CallsStayClosing(s, turn.beforeTop);
  }

  /** One poll of the write branch sends the head of the buffer as far as the kernel takes it; with all of it gone the
      branch ends, and shuts the write side down exactly if writing has ended and nothing is left. */
  lemma {:induction false} PollSends(s: Io, n: nat)
    requires Ledger(s) && s.at.Selecting? && s.at.writer == Ready && s.buf != []
    ensures var t, chunk := Polled(s, n), s.buf[0];
            && t.buf == s.buf[1..] && t.trace.wire == s.trace.wire + chunk[..Min(n, |chunk|)]
            && (n >= |chunk| ==>
                  t.at == Post && (t.flags.shutdownDone <==> s.flags.shutdownDone || (s.flags.weof && |s.buf| == 1)))
            && (n < |chunk| ==> t.at.Selecting? && t.flags == s.flags)
  {
    var s1 := Step(s, PopChunk);
    assert s1.trace.fates[s1.at.writer.index] == Fate(s.buf[0], 0);
    assert InSending(s1) && Unsent(s1) == |s.buf[0]|;
    PollTakes(s1, n);
  }

  lemma {:induction false} PollTakes(s: Io, n: nat)
    requires InSending(s) && s.trace.fates[s.at.writer.index].sent == 0
    ensures var t, chunk := SentOn(s, n), s.trace.fates[s.at.writer.index].chunk;
            && t.buf == s.buf && t.trace.wire == s.trace.wire + chunk[..Min(n, |chunk|)]
            && (n >= |chunk| ==> t.at == Post && (t.flags.shutdownDone <==> s.flags.shutdownDone || s.at.writer.shutdown))
            && (n < |chunk| ==> t.at.Selecting? && t.flags == s.flags)
  {
    var chunk := s.trace.fates[s.at.writer.index].chunk;
    var m := Taken(s, n);
    assert chunk[0..Min(n, |chunk|)] == chunk[..Min(n, |chunk|)];
    assert m.trace.wire == s.trace.wire + chunk[..Min(n, |chunk|)];
    assert InSending(m) && Unsent(m) == |chunk| - Min(n, |chunk|);
  }

  /** A poll whose write fails drops the head of the buffer and sends nothing of it; the branch ends as if it had gone. */
  lemma {:induction false} FailingPollDrops(s: Io)
    requires Ledger(s) && s.at.Selecting? && s.at.writer == Ready && s.buf != []
    ensures var t := PolledFailing(s);
            && t.buf == s.buf[1..] && t.trace.wire == s.trace.wire && t.at == Post
            && (t.flags.shutdownDone <==> s.flags.shutdownDone || (s.flags.weof && |s.buf| == 1))
  {
    var s1 := Step(s, PopChunk);
    assert InSending(s1);
  }

  /** The branch that completes tells the protocol what was read, and marks an end of file or an error. */
  lemma {:induction false} WinnerTells(s: Io, w: Winner)
    requires s.at.Selecting?
    ensures var t := Won(s, w);
            && t.trace.callbacks == s.trace.callbacks + Tells(s.at.reading, w)
            && t.trace.wire == s.trace.wire
            && (t.trace.readFailed <==> s.trace.readFailed || (s.at.reading && w == ReadFailWins))
  {
    assert s.trace.callbacks + [] == s.trace.callbacks;
  }

  /** What the completing branch has to tell. */
  function Tells(reading: bool, w: Winner): seq<Callback> {
    if !reading then []
    else
      match w
      case ReadWins(data) => if data == [] then [] else [DataReceived(data)]
      case EofWins => [EofReceived]
      case _ => []
  }

  /** `t` has told nothing more than `s`, and is in the same `select!` if it is in one. */
  predicate Quietly(s: Io, t: Io) {
    && t.trace.callbacks == s.trace.callbacks
    && (t.at.Selecting? ==> s.at.Selecting? && t.at.reading == s.at.reading)
  }

  lemma {:induction false} WriterIsSilent(s: Io, e: Event)
    requires e.PopChunk? || e.Take? || e.WriteDone? || e.WriteFail? || e.Shutdown?
    ensures Quietly(s, Step(s, e))
  {
  }

  lemma {:induction false} BeatsAreSilent(s: Io, beat: Beat)
    ensures Quietly(s, Beaten(s, beat))
  {
    var s1 := Step(s, PopChunk);
    WriterIsSilent(s, PopChunk);
    match beat
    case Interfere(calls) => CallsStayClosing(s, calls);
    case Poll(n) =>
      var s2 := Taken(s1, n);
      if s2 != s1 {
        WriterIsSilent(s1, Take(Min(n, Unsent(s1))));
      }
      WriterIsSilent(s2, WriteDone);
      WriterIsSilent(Step(s2, WriteDone), Shutdown);
    case PollFails =>
      WriterIsSilent(s1, WriteFail);
      WriterIsSilent(Step(s1, WriteFail), Shutdown);
  }

  lemma {:induction false} RaceIsSilent(s: Io, race: seq<Beat>)
    ensures Quietly(s, Raced(s, race))
  {
    if race != [] {
      RaceIsSilent(s, race[..|race|-1]);
      BeatsAreSilent(Raced(s, race[..|race|-1]), race[|race|-1]);
    }
  }

  /** A race is gone through beat by beat: a poll sends, or loses, the head of the buffer. */
  lemma {:induction false} RacePolls(s: Io, race: seq<Beat>, beat: Beat)
    ensures var m := Raced(s, race);
            var t := Raced(s, race + [beat]);
            Ledger(m) && m.at.Selecting? && m.at.writer == Ready && m.buf != [] && !beat.Interfere? ==>
              && t.buf == m.buf[1..]
              && t.trace.wire == m.trace.wire + (if beat.Poll? then m.buf[0][..Min(beat.n, |m.buf[0]|)] else [])
  {
    assert (race + [beat])[..|race|] == race;
    var m := Raced(s, race);
    if Ledger(m) && m.at.Selecting? && m.at.writer == Ready && m.buf != [] {
      match beat
      case Poll(n) => PollSends(m, n);
      case PollFails =>
        FailingPollDrops(m);
        assert m.trace.wire + [] == m.trace.wire;
      case _ =>
    }
  }

  /** A turn that gets to `select!` sends what its race sends, and tells what was read if the write branch has not
      completed before. */
  lemma {:induction false} TurnTells(s: Io, turn: Turn)
    requires s.at == Top && Step(HeadOf(s, turn), CheckTop).at.Guard?
    ensures var s2 := Step(CallsMade(Step(HeadOf(s, turn), CheckTop), turn.beforeGuard), CheckGuard);
            var s3 := Raced(s2, turn.race);
            && Turned(s, turn).trace.wire == s3.trace.wire
            && Turned(s, turn).trace.callbacks
                 == s.trace.callbacks + (if s3.at.Selecting? then Tells(!HeadOf(s, turn).flags.readEof, turn.winner) else [])
  {
    CallsStayClosing(s, turn.beforeTop);
    var s1 := Step(HeadOf(s, turn), CheckTop);
    CallsStayClosing(s1, turn.beforeGuard);
    var s2 := Step(CallsMade(s1, turn.beforeGuard), CheckGuard);
    RaceIsSilent(s2, turn.race);
    var s3 := Raced(s2, turn.race);
    if s3.at.Selecting? {
      WinnerTells(s3, turn.winner);
    } else {
      assert s.trace.callbacks + [] == s.trace.callbacks;
    }
    CallsStayClosing(Won(s3, turn.winner), turn.during);
  }

  /** What the calls of a turn come to. */
  datatype CallBooks = CallBooks(accepted: seq<Bytes>, closing: bool, paused: bool, ended: bool)

  function BooksOf(s: Io): CallBooks {
    CallBooks(s.trace.accepted, s.flags.closing, s.flags.paused, s.flags.weof)
  }

  function Enter(a: CallBooks, c: Call): CallBooks {
    match c
    case Write(data) => if a.ended then a else a.(accepted := a.accepted + [data])
    case WriteEof => a.(ended := a.ended || !a.closing)
    case PauseReading => a.(paused := a.paused || !a.closing)
    case ResumeReading => a.(paused := a.paused && a.closing)
    case Close => a.(closing := true)
    case Abort => a.(closing := true)
  }

  function EnterAll(a: CallBooks, calls: seq<Call>): CallBooks {
    if calls == [] then a else Enter(EnterAll(a, calls[..|calls|-1]), calls[|calls|-1])
  }

  function EnterRace(a: CallBooks, race: seq<Beat>): CallBooks {
    if race == [] then a
    else
      var b, last := EnterRace(a, race[..|race|-1]), race[|race|-1];
      if last.Interfere? then EnterAll(b, last.calls) else b
  }

  lemma {:induction false} CallsEnter(s: Io, calls: seq<Call>)
    ensures BooksOf(CallsMade(s, calls)) == EnterAll(BooksOf(s), calls)
  {
    if calls != [] {
      CallsEnter(s, calls[..|calls|-1]);
    }
  }

  lemma {:induction false} StepEnters(s: Io, e: Event)
    requires !IsCall(e)
    ensures BooksOf(Step(s, e)) == BooksOf(s)
  {
  }

  lemma {:induction false} BeatEnters(s: Io, beat: Beat)
    ensures BooksOf(Beaten(s, beat)) == if beat.Interfere? then EnterAll(BooksOf(s), beat.calls) else BooksOf(s)
  {
    match beat
    case Interfere(calls) => CallsEnter(s, calls);
    case Poll(n) =>
      var s1 := Step(s, PopChunk);
      var s2 := Taken(s1, n);
      StepEnters(s, PopChunk);
      if s2 != s1 {
        StepEnters(s1, Take(Min(n, Unsent(s1))));
      }
      StepEnters(s2, WriteDone);
      StepEnters(Step(s2, WriteDone), Shutdown);
    case PollFails =>
      StepEnters(s, PopChunk);
      StepEnters(Step(s, PopChunk), WriteFail);
      StepEnters(Step(Step(s, PopChunk), WriteFail), Shutdown);
  }

  lemma {:induction false} RaceEnters(s: Io, race: seq<Beat>)
    ensures BooksOf(Raced(s, race)) == EnterRace(BooksOf(s), race)
  {
    if race != [] {
      RaceEnters(s, race[..|race|-1]);
      BeatEnters(Raced(s, race[..|race|-1]), race[|race|-1]);
    }
  }

  /** Every call that comes in during a turn takes effect, in the order in which it comes: before the check at the head,
      and unless that ends the turn before `select!`, while the branches race, and while a callback runs. */
  lemma {:induction false} TurnTakesCalls(s: Io, turn: Turn)
    requires s.at == Top
    ensures var head := EnterAll(BooksOf(s), turn.beforeTop);
            BooksOf(Turned(s, turn)) ==
              if head.closing || head.paused then head
              else EnterAll(EnterRace(EnterAll(head, turn.beforeGuard), turn.race), turn.during)
  {
    CallsEnter(s, turn.beforeTop);
    CallsStayClosing(s, turn.beforeTop);
    var head := HeadOf(s, turn);
    var s1 := Step(head, CheckTop);
    StepEnters(head, CheckTop);
    if s1.at.Guard? {
      CallsEnter(s1, turn.beforeGuard);
      var s2 := Step(CallsMade(s1, turn.beforeGuard), CheckGuard);
      StepEnters(CallsMade(s1, turn.beforeGuard), CheckGuard);
      RaceEnters(s2, turn.race);
      var s3 := Raced(s2, turn.race);
      if s3.at.Selecting? {
        StepEnters(s3, EventOf(turn.winner, s3.at.reading));
      }
      CallsEnter(Won(s3, turn.winner), turn.during);
      StepEnters(EndOf(s, turn), CheckExit);
    }
  }

  /** With an empty buffer and writing ended, one poll shuts the write side down. */
  lemma {:induction false} PollShutsDown(s: Io, n: nat)
    requires s.at.Selecting? && s.at.writer == Ready && s.buf == [] && s.flags.weof && !s.flags.shutdownDone
    ensures Polled(s, n).flags.shutdownDone && Polled(s, n).at == Post && Polled(s, n).trace.wire == s.trace.wire
  {
  }

  /** The write branch's future: not enabled, not yet polled, in `write_all` with this much left, or before `shutdown`. */
  datatype Future = Off | NotPolled | InWrite(rest: Bytes, shutdown: bool)

  predicate Mirrors(f: Future, s: Io) {
    && s.at.Selecting?
    && match f
       case Off => s.at.writer == Disabled
       case NotPolled => s.at.writer == Ready
       case InWrite(rest, shutdown) =>
         && InSending(s) && s.at.writer.shutdown == shutdown
         && var fate := s.trace.fates[s.at.writer.index];
            fate.sent <= |fate.chunk| && rest == fate.chunk[fate.sent..]
  }

  /** Calls do not touch the write in flight. */
  lemma {:induction false} CallsKeepMirror(f: Future, s: Io, calls: seq<Call>)
    ensures Mirrors(f, s) ==> Mirrors(f, CallsMade(s, calls))
  {
    if calls != [] {
      CallsKeepMirror(f, s, calls[..|calls|-1]);
    }
  }

  lemma {:induction false} TakeKeepsMirror(f: Future, s: Io, m: nat)
    requires Mirrors(f, s) && f.InWrite? && m <= |f.rest|
    ensures Unsent(s) == |f.rest|
    ensures m > 0 ==> Step(s, Take(m)) == Taking(s, m) && Mirrors(InWrite(f.rest[m..], f.shutdown), Step(s, Take(m)))
  {
  }

  lemma {:induction false} PolledSteps(s: Io, n: nat)
    ensures s.at.Selecting? && s.at.writer == Disabled ==> Polled(s, n) == s
    ensures s.at.Selecting? && s.at.writer == Ready && s.buf == [] ==> Polled(s, n) == Step(Step(s, PopChunk), Shutdown)
    ensures s.at.Selecting? && s.at.writer.Sending? ==> Polled(s, n) == SentOn(s, n)
  {
  }

  /** `t` has left the loop, and only the loss is told after it. */
  predicate EndsWithLoss(s: Io, t: Io) {
    t.at == Leaving && Step(t, Finish).at == Gone && Step(t, Finish).trace.callbacks == s.trace.callbacks + [ConnectionLost]
  }

  /** From a closing transport the first turn is the last, and the loss is all that is still to be told. */
  lemma {:induction false} ClosedLoopEnds(s: Io, turns: seq<Turn>)
    requires s.at == Top
    ensures s.flags.closing && turns != [] ==> EndsWithLoss(s, TurnedAll(s, turns[..1]))
  {
    if s.flags.closing && turns != [] {
      assert turns[..1][..0] == [];
      assert TurnedAll(s, turns[..1]) == Turned(s, turns[0]);
      CallsStayClosing(s, turns[0].beforeTop);
      CloseEndsTurn(s, turns[0]);
    }
  }

  class TokioTCPTransport {
    // the atomic flags
    var closing: bool
    var paused: bool
    var weof: bool
    // the state under the lock
    var stClosing: bool
    var stPaused: bool
    var stWeof: bool
    var readEof: bool
    var shutdownDone: bool
    var writeBuf: seq<Bytes>
    ghost var model: Io

    ghost predicate Valid()
      reads this
    {
      && Reachable(model) && model.buf == writeBuf
      && model.flags == Flags(stClosing, stPaused, stWeof, readEof, shutdownDone)
      && closing == stClosing && paused == stPaused && weof == stWeof
    }

    constructor ()
      ensures Valid() && model == ATTACHED
    {
      closing, paused, weof := false, false, false;
      stClosing, stPaused, stWeof, readEof, shutdownDone, writeBuf := false, false, false, false, false, [];
      model := ATTACHED;
      new;
      assert IsRunFrom(ATTACHED, []) && After(ATTACHED, []) == ATTACHED;
    }

    /** Refused once write_eof was called; accepted even when closing. */
    method Write(data: Bytes) returns (ok: bool)
      requires Valid()
      modifies this
      ensures Valid() && model == Apply(old(model), Event.Write(data)) && ok == !old(weof)
    {
      ReachableStep(model, Event.Write(data));
      model := Apply(model, Event.Write(data));
      if weof {
        return false;
      }
      writeBuf := writeBuf + [data];
      return true;
    }

    method WriteEof()
      requires Valid()
      modifies this
      ensures Valid() && model == Apply(old(model), Event.WriteEof)
    {
      ReachableStep(model, Event.WriteEof);
      model := Apply(model, Event.WriteEof);
      if closing {
        return;
      }
      if !weof {
        weof := true;
        stWeof := true;
      }
    }

    method PauseReading()
      requires Valid()
      modifies this
      ensures Valid() && model == Apply(old(model), Event.PauseReading)
    {
      ReachableStep(model, Event.PauseReading);
      model := Apply(model, Event.PauseReading);
      if closing {
        return;
      }
      if !paused {
        paused := true;
        stPaused := true;
      }
    }

    method ResumeReading()
      requires Valid()
      modifies this
      ensures Valid() && model == Apply(old(model), Event.ResumeReading)
    {
      ReachableStep(model, Event.ResumeReading);
      model := Apply(model, Event.ResumeReading);
      if closing {
        return;
      }
      if paused {
        paused := false;
        stPaused := false;
      }
    }

    method Close()
      requires Valid()
      modifies this
      ensures Valid() && model == Apply(old(model), Event.Close)
    {
      ReachableStep(model, Event.Close);
      model := Apply(model, Event.Close);
      if closing {
        return;
      }
      closing := true;
      stClosing := true;
    }

    method Abort()
      requires Valid()
      modifies this
      ensures Valid() && model == Apply(old(model), Event.Abort)
    {
      ReachableStep(model, Event.Abort);
      model := Apply(model, Event.Abort);
      if !closing {
        closing := true;
        stClosing := true;
        writeBuf := [];
      }
    }

    method Perform(call: Call)
      requires Valid()
      modifies this
      ensures Valid() && model == Apply(old(model), call)
    {
      match call {
        case Write(data) => var _ := Write(data);
        case WriteEof => WriteEof();
        case PauseReading => PauseReading();
        case ResumeReading => ResumeReading();
        case Close => Close();
        case Abort => Abort();
      }
    }

    method PerformAll(calls: seq<Call>)
      requires Valid()
      modifies this
      ensures Valid() && model == CallsMade(old(model), calls) && model.at == old(model).at
    {
      var k := 0;
      while k < |calls|
        invariant k <= |calls| && Valid() && model == CallsMade(old(model), calls[..k])
      {
        CallsNext(old(model), calls, k);
        Perform(calls[k]);
        k := k + 1;
      }
      assert calls[..k] == calls;
      CallsMadeKeep(old(model), calls);
    }

    ghost method Follow(e: Event)
      requires Reachable(model)
      modifies this`model
      ensures Reachable(model) && model == Step(old(model), e)
    {
      StepReachable(model, e);
      model := Step(model, e);
    }

    /** The head of the write branch. `done` when there was neither a chunk nor a shutdown. */
    method PopChunk() returns (done: bool, shut: bool, future: Future)
      requires Valid() && model.at.Selecting? && model.at.writer == Ready
      modifies this`writeBuf, this`model
      ensures Valid() && model == Step(old(model), Event.PopChunk)
      ensures done || shut ==> old(writeBuf) == []
      ensures done ==> !shut && model.at == Post
      ensures shut ==> model.at.Selecting? && model.at.writer == Shutting
      ensures !done && !shut ==> Mirrors(future, model) && future.InWrite? && model.at.reading == old(model).at.reading
    {
      future := Off;
      if writeBuf != [] {
        var data := writeBuf[0];
        writeBuf := writeBuf[1..];
        future := InWrite(data, stWeof && writeBuf == [] && !shutdownDone);
        done, shut := false, false;
      } else {
        shut := stWeof && !shutdownDone;
        done := !shut;
      }
      Follow(Event.PopChunk);
    }

    method ShutDown()
      requires Valid() && model.at.Selecting? && model.at.writer == Shutting
      modifies this`shutdownDone, this`model
      ensures Valid() && model == Step(old(model), Shutdown) && model.at == Post
    {
      shutdownDone := true;
      Follow(Shutdown);
    }

    /** `write_all` moves on by what the kernel takes. */
    method SendSome(future: Future, n: nat) returns (rest: Bytes)
      requires Valid() && Mirrors(future, model) && future.InWrite?
      modifies this`model
      ensures Valid() && rest == future.rest[Min(n, |future.rest|)..] && Mirrors(InWrite(rest, future.shutdown), model)
      ensures model == Taken(old(model), n) && model.at == old(model).at
    {
      TakeKeepsMirror(future, model, Min(n, |future.rest|));
      var m := Min(n, |future.rest|);
      rest := future.rest[m..];
      if m > 0 {
        Follow(Take(m));
      }
    }

    /** `write_all` has returned; the shutdown follows if it was due. */
    method EndWrite(failed: bool, future: Future)
      requires Valid() && Mirrors(future, model) && future.InWrite? && (!failed ==> future.rest == [])
      modifies this`shutdownDone, this`model
      ensures Valid() && model.at == Post
      ensures model == Step(Step(old(model), if failed then WriteFail else WriteDone), Shutdown)
    {
      Follow(if failed then WriteFail else WriteDone);
      if future.shutdown {
        ShutDown();
      }
    }

    /** The write branch from `write_all` on. */
    method SendOn(future: Future, n: nat) returns (done: bool, future1: Future)
      requires Valid() && Mirrors(future, model) && future.InWrite?
      modifies this`shutdownDone, this`model
      ensures Valid() && model == SentOn(old(model), n)
      ensures if done then model.at == Post else Mirrors(future1, model) && model.at.reading == old(model).at.reading
    {
      var rest := SendSome(future, n);
      future1 := InWrite(rest, future.shutdown);
      done := rest == [];
      if done {
        EndWrite(false, future1);
      }
    }

    /** The write branch is polled. */
    method PollWriter(future: Future, n: nat) returns (done: bool, future1: Future)
      requires Valid() && Mirrors(future, model)
      modifies this`writeBuf, this`shutdownDone, this`model
      ensures Valid() && model == Polled(old(model), n)
      ensures if done then model.at == Post else Mirrors(future1, model) && model.at.reading == old(model).at.reading
    {
      done, future1 := false, future;
      PolledSteps(model, n);
      if future == Off {
        return;
      }
      if future == NotPolled {
        var shut;
        done, shut, future1 := PopChunk();
        if shut {
          ShutDown();
          done := true;
        }
      }
      if !done {
        done, future1 := SendOn(future1, n);
      }
    }

    /** The write branch is polled and its write fails. */
    method PollFailing(future: Future) returns (done: bool)
      requires Valid() && Mirrors(future, model)
      modifies this`writeBuf, this`shutdownDone, this`model
      ensures Valid() && model == PolledFailing(old(model))
      ensures if done then model.at == Post else future == Off && model == old(model)
    {
      done := future != Off;
      var future1 := future;
      if future == NotPolled {
        var ended, shut;
        ended, shut, future1 := PopChunk();
        if shut {
          ShutDown();
        }
        if ended || shut {
          return;
        }
      }
      if done {
        EndWrite(true, future1);
      }
    }

    /** One beat of the race; polling a branch that has completed does nothing. */
    method Beat(beat: Beat, done: bool, future: Future) returns (done1: bool, future1: Future)
      requires Valid() && (if done then model.at == Post else Mirrors(future, model))
      modifies this
      ensures Valid() && model == Beaten(old(model), beat)
      ensures if done1 then model.at == Post
              else !done && Mirrors(future1, model) && model.at.reading == old(model).at.reading
    {
      done1, future1 := done, future;
      match beat {
        case Interfere(calls) =>
          CallsKeepMirror(future, model, calls);
          PerformAll(calls);
        case Poll(n) =>
          if !done {
            done1, future1 := PollWriter(future, n);
          }
        case PollFails =>
          if !done {
            done1 := PollFailing(future);
          }
      }
    }

    /** The branches of `select!` race; ends when the write branch completes or `race` is over. */
    method Race(race: seq<Beat>, start: Future) returns (done: bool)
      requires Valid() && Mirrors(start, model)
      modifies this
      ensures Valid() && model == Raced(old(model), race)
      ensures if done then model.at == Post else model.at.Selecting? && model.at.reading == old(model).at.reading
    {
      var future := start;
      done := false;
      var k := 0;
      while k < |race|
        invariant k <= |race| && Valid() && model == Raced(old(model), race[..k])
        invariant if done then model.at == Post else Mirrors(future, model) && model.at.reading == old(model).at.reading
      {
        RaceNext(old(model), race, k);
        done, future := Beat(race[k], done, future);
        k := k + 1;
      }
      assert race[..k] == race;
    }

    /** The branch that completes the race, unless the write branch has. */
    method Win(winner: Winner, reading: bool) returns (broken: bool)
      requires Valid() && model.at.Selecting? && model.at.reading == reading
      modifies this`readEof, this`model
      ensures Valid() && model == Won(old(model), winner)
      ensures model.at == if broken then Leaving else Post
    {
      if reading && winner == EofWins {
        readEof := true;
      }
      broken := reading && winner == ReadFailWins;
      StepReachable(model, EventOf(winner, reading));
      model := Won(model, winner);
    }

    /** The end of an iteration. */
    method Settle(turn: Turn, done: bool, reading: bool) returns (leave: bool)
      requires Valid() && (if done then model.at == Post else model.at.Selecting? && model.at.reading == reading)
      modifies this
      ensures Valid() && model == Settled(old(model), turn)
      ensures model.at == if leave then Leaving else Top
    {
      leave := false;
      if !done {
        leave := Win(turn.winner, reading);
      }
      PerformAll(turn.during);
      if !leave {
        leave := ShouldExit();
      }
    }

    /** The check at the end of an iteration. */
    method ShouldExit() returns (leave: bool)
      requires Valid() && model.at == Post
      modifies this`model
      ensures Valid() && model == Step(old(model), CheckExit) && model.at == if leave then Leaving else Top
    {
      leave := readEof && writeBuf == [];
      Follow(CheckExit);
    }

    /** The body of the loop from `select!` to its end. */
    method Select(turn: Turn, reading: bool) returns (leave: bool)
      requires Valid() && model.at == Guard(!reading)
      modifies this
      ensures Valid() && model == Settled(Raced(Step(old(model), CheckGuard), turn.race), turn)
      ensures model.at == if leave then Leaving else Top
    {
      var future := if writeBuf != [] || (stWeof && !shutdownDone) then NotPolled else Off;
      Follow(CheckGuard);
      var done := Race(turn.race, future);
      leave := Settle(turn, done, reading);
    }

    /** One iteration of the loop. */
    method Iterate(turn: Turn) returns (leave: bool)
      requires Valid() && model.at == Top
      modifies this
      ensures Valid() && model == Turned(old(model), turn)
      ensures old(closing) ==> leave && model.trace.callbacks == old(model).trace.callbacks
      ensures model.at == if leave then Leaving else Top
    {
      CallsStayClosing(model, turn.beforeTop);
      PerformAll(turn.beforeTop);
      var isClosing, isPaused, eof := stClosing, stPaused, readEof;
      Follow(CheckTop);
      if isClosing {
        return true;
      }
      if isPaused {
        return false;
      }
      PerformAll(turn.beforeGuard);
      leave := Select(turn, !eof);
    }

    /** After the loop. */
    method Lose()
      requires Valid() && model.at == Leaving
      modifies this`model
      ensures Valid() && model == Step(old(model), Finish) && model.at == Gone
    {
      Follow(Finish);
    }

    /** The loop, for as many iterations as `turns` describes or until it is left. */
    method RunLoop(turns: seq<Turn>) returns (leave: bool, ghost taken: nat)
      requires Valid() && model.at == Top
      modifies this
      ensures Valid() && taken <= |turns| && model == TurnedAll(old(model), turns[..taken])
      ensures if leave then model.at == Leaving else taken == |turns| && model.at == Top
      ensures old(closing) && turns != [] ==> leave && taken == 1
    {
      var k := 0;
      leave, taken := false, 0;
      ClosedLoopEnds(model, turns);
      while k < |turns| && !leave
        invariant k == taken <= |turns| && Valid() && model == TurnedAll(old(model), turns[..k])
        invariant model.at == if leave then Leaving else Top
        invariant old(closing) ==> k == 0 || (k == 1 && leave)
      {
        TurnsNext(old(model), turns, k);
        leave := Iterate(turns[k]);
        k := k + 1;
        taken := k;
      }
    }

    /** `io_processing_loop`, for as many iterations as `turns` describes or until it leaves the loop. When it does, the
        protocol has been told of all data read, of the end of file if there was one, and then once of the loss. A task
        that finds the transport closing leaves at its first turn. */
    method IoProcessingLoop(turns: seq<Turn>) returns (gone: bool, ghost taken: nat)
      requires Valid() && model.at == Top
      modifies this
      ensures Valid() && taken <= |turns|
      ensures var t := TurnedAll(old(model), turns[..taken]);
              model == if gone then Step(t, Finish) else t
      ensures if gone then model.at == Gone else taken == |turns| && model.at == Top
      ensures Grammar(model) && Ledger(model) && Sealing(model)
      ensures old(closing) && turns != [] ==>
                (gone && taken == 1 && model.trace.callbacks == old(model).trace.callbacks + [ConnectionLost])
    {
      ClosedLoopEnds(model, turns);
      gone, taken := RunLoop(turns);
      if gone {
        Lose();
      }
      ReachableIsSound(model);
    }
  }
}
