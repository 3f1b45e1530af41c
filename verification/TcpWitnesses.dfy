/** Runs of a TCP transport that show why each proviso of its theorems is there. */
module TcpWitnesses {
  import opened Prelude
  import opened Callbacks
  import opened Interests
  import opened TcpMachine
  import opened TcpInvariant
  import opened TcpInbound
  import opened TcpTheorems

  lemma {:induction false} RunOf(events: seq<Event>, e: Event)
    ensures Run(events + [e]) == Next(Run(events), e)
  {
    assert (events + [e])[..|events|] == events;
  }

  /** The state after `abort` or `close` of an idle transport. */
  const GONE := FRESH.(ctl := FRESH.ctl.(closing := true), slot := UNUSED,
                       stage := FRESH.stage.(attached := false),
                       trace := Trace(Then(Start, ConnectionLost), 1, false, false))

  /** `abort` always delivers connection_lost. */
  lemma {:induction false} AbortTwice()
    ensures LostCount(Run([App(Abort([])), App(Abort([]))]).trace.log) == 2
  {
    RunOf([], App(Abort([])));
    assert Aborting(FRESH) == FRESH.(ctl := FRESH.ctl.(closing := true), slot := UNUSED);
    assert Run([App(Abort([]))]) == GONE;
    RunOf([App(Abort([]))], App(Abort([])));
    assert Aborting(GONE) == GONE.(misuse := GONE.misuse.(lateAborts := 1));
  }

  /** A write after connection_lost can leave the fd registered with nobody behind it. */
  lemma {:induction false} WriteAfterClose()
    ensures var s := Run([App(Close([])), App(Write([7], WouldBlock, [], []))]);
            !s.crashed && !s.stage.attached && Registered(s.slot).writable
  {
    RunOf([], App(Close([])));
    var c := RemInterest(FRESH.(ctl := FRESH.ctl.(closing := true)), READABLE);
    assert c == FRESH.(ctl := FRESH.ctl.(closing := true), slot := UNUSED);
    assert Run([App(Close([]))]) == GONE;
    RunOf([App(Close([]))], App(Write([7], WouldBlock, [], [])));
  }

  /** eof_received that resumes a paused transport and lets it close leaves the fd registered. */
  lemma {:induction false} ResumeAtEof() returns (events: seq<Event>)
    ensures var s := Run(events);
            !s.crashed && !s.stage.attached && Registered(s.slot).readable
  {
    var rounds := [Round([], 1, [Got([5])], [PauseReading]), Round([], 1, [Got([])], [])];
    var e := Readable(rounds, [ResumeReading], false, []);
    events := [] + [e];
    RunOf([], e);
    ReadIntoIsPrefix(1, [Got([5])]);
    assert Stream([Got([5])]) == [5] && !ClosedAtEnd([Got([5])]);
    var s0 := Log(FRESH, DataReceived([5]));
    var s1 := s0.(ctl := s0.ctl.(paused := true), slot := UNUSED);
    assert Exec(s0, PauseReading) == s1;
    assert ExecAll(s1, []) == s1;
    assert ExecAll(s0, [PauseReading]) == s1;
    assert rounds[1..] == [Round([], 1, [Got([])], [])];
    assert ReadRound(FRESH, rounds[0], [ResumeReading], false, []) == (s1, true);
    assert ReadRounds(FRESH, rounds, [ResumeReading], false, []) == ReadRounds(s1, rounds[1..], [ResumeReading], false, []);
    assert ReadInto(1, [Got([])]) == ([], true);
    var s2 := AtEof(s1);
    var s3 := s2.(ctl := s2.ctl.(paused := false), slot := Slot(Some(TCPStream(READABLE)), Some(READABLE)));
    assert Exec(s2, ResumeReading) == s3;
    assert ExecAll(s3, []) == s3;
    assert ExecAll(s2, [ResumeReading]) == s3;
    assert RemInterest(ClosingAtEof(s3), WRITABLE) == ClosingAtEof(s3);
    assert CloseFromRead(s3, []) == Detach(Losing(ClosingAtEof(s3)));
  }

  const TIGHT := App(SetLimits(Some(0), Some(0), []))
  const BLOCKED := App(Write([7], WouldBlock, [], []))

  /** One byte queued above a zero high mark. */
  const PENDING := FRESH.(ctl := Control(false, false, false, true, 0, 0),
                          buf := Buffer([[7]], 1, [7], [], []),
                          slot := Slot(Some(TCPStream(BOTH)), Some(BOTH)),
                          trace := Trace(Then(Start, PauseWriting), 0, false, false))

  lemma {:induction false} PendingIsReached()
    ensures Run([TIGHT, BLOCKED]) == PENDING
  {
    RunOf([], TIGHT);
    var s1 := FRESH.(ctl := FRESH.ctl.(hi := 0, lo := 0));
    assert Run([TIGHT]) == s1;
    RunOf([TIGHT], BLOCKED);
    var d: Bytes := [7];
    assert d[..0] == [] && d[0..] == d;
    assert Enqueue(s1, d, 0) == PENDING.(ctl := s1.ctl, trace := s1.trace);
    assert ExecAll(Pausing(Enqueue(s1, d, 0), true), []) == PENDING.(stage := Stage(true, true, false));
  }

  /** The pending byte has been sent and resume_writing is running. */
  const RESUMED := PENDING.(ctl := Control(false, false, false, false, 0, 0),
                            buf := Buffer([], 0, [7], [7], []),
                            stage := Stage(true, false, true),
                            trace := Trace(Then(Then(Start, PauseWriting), ResumeWriting), 0, false, false))

  lemma {:induction false} ResumedIsReached()
    ensures Drain([[7]], [Wrote(1)]) == Drained([], [7], [], false)
    ensures Resuming(AfterDrain(PENDING, Drained([], [7], [], false))) == RESUMED
  {
    assert TakesAll([[7]], [Wrote(1)]);
    DrainAll([[7]], [Wrote(1)]);
    assert Flat([[7]]) == [7];
  }

  lemma {:induction false} ClosedInResume()
    ensures var t := ExecAll(RESUMED, [Close([])]);
            !t.crashed && t.buf.queue == [] && t.ctl.closing && LostCount(t.trace.log) == 1
  {
    var c := RESUMED.(ctl := RESUMED.ctl.(closing := true));
    assert RemInterest(c, READABLE) == c.(slot := Slot(Some(TCPStream(WRITABLE)), Some(WRITABLE)));
    assert RemInterest(RemInterest(c, READABLE), WRITABLE) == c.(slot := UNUSED);
    var t := Detach(Losing(c.(slot := UNUSED)));
    assert ExecAll(Losing(c.(slot := UNUSED)), []) == Losing(c.(slot := UNUSED));
    assert Exec(RESUMED, Close([])) == t;
    assert ExecAll(t, []) == t;
  }

  /** `close` from resume_writing with nothing left queued delivers connection_lost twice. */
  lemma {:induction false} CloseInResume() returns (events: seq<Event>)
    ensures LostCount(Run(events).trace.log) == 2
  {
    var e := Writable([Wrote(1)], [Close([])], []);
    events := [TIGHT, BLOCKED] + [e];
    PendingIsReached();
    RunOf([TIGHT, BLOCKED], e);
    ResumedIsReached();
    ClosedInResume();
    var t := ExecAll(RESUMED, [Close([])]);
    assert Next(PENDING, e) == FinishDrain(t, []);
    assert ExecAll(LosingDrained(t), []) == LosingDrained(t);
  }

  /** A write handle whose write fails throws the queue away without telling the protocol: the transport stays
      open, paused, and with nothing that would ever resume it. */
  lemma {:induction false} FailedDrainStrands() returns (events: seq<Event>)
    ensures var s := Run(events);
            !s.crashed && s.buf.dropped == [7] && s.stage.attached && !s.ctl.closing
            && s.ctl.protoPaused && s.buf.dsize == 0 && s.trace.lost == 0
  {
    var e := Writable([Failed], [], []);
    events := [TIGHT, BLOCKED] + [e];
    PendingIsReached();
    RunOf([TIGHT, BLOCKED], e);
    assert Flat([[7]]) == [7];
    var d := Drained([], [], [7], true);
    assert Drain([[7]], [Failed]) == d;
    var s1 := AfterDrain(PENDING, d);
    assert s1.buf == Buffer([], 0, [7], [], [7]);
    assert Next(PENDING, e) == FinishDrain(s1, []);
    assert RemInterest(s1, WRITABLE) == s1.(slot := Slot(Some(TCPStream(READABLE)), Some(READABLE)));
  }

  /** The high mark is zero. */
  const TIGHTENED := FRESH.(ctl := FRESH.ctl.(hi := 0, lo := 0))

  lemma {:induction false} TightenedIsReached()
    ensures Run([TIGHT]) == TIGHTENED
  {
    RunOf([], TIGHT);
  }

  /** A write that blocks above the high mark panics if its pause_writing borrows the state. */
  lemma {:induction false} PauseCrashes(c: Call)
    requires c == Close([]) || c == GetWriteBufferSize
    ensures Run([TIGHT, App(Write([7], WouldBlock, [c], []))]).crashed
  {
    var d: Bytes := [7];
    var e := App(Write(d, WouldBlock, [c], []));
    TightenedIsReached();
    RunOf([TIGHT], e);
    assert Run([TIGHT] + [e]) == Next(TIGHTENED, e);
    assert [TIGHT] + [e] == [TIGHT, e];
    var q := Enqueue(TIGHTENED, d, 0);
    assert q.buf.dsize == 1 && q.ctl.hi == 0 && !q.ctl.protoPaused;
    var t := Pausing(q, true);
    assert t.stage.cellHeld && !t.ctl.closing && Exec(t, c).crashed;
    assert [c][1..] == [];
    assert ExecAll(t, [c]) == Exec(t, c);
    assert MaybePause(q, true, [c]).crashed;
  }

  /** A failing direct write panics, and so does `close`, or a look at the buffer size, from the pause_writing of a
      write. */
  lemma {:induction false} Crashes()
    ensures Run([App(Write([7], Failed, [], []))]).crashed
    ensures Run([TIGHT, App(Write([7], WouldBlock, [Close([])], []))]).crashed
    ensures Run([TIGHT, App(Write([7], WouldBlock, [GetWriteBufferSize], []))]).crashed
  {
    RunOf([], App(Write([7], Failed, [], [])));
    PauseCrashes(Close([]));
    PauseCrashes(GetWriteBufferSize);
  }
}
