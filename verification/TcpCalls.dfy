/** What no call on a TCP transport does, whatever reactions it sets off, and what only some calls do. */
module TcpCalls {
  import opened Prelude
  import opened Callbacks
  import opened Interests
  import opened TcpMachine
  import opened TcpInvariant
  import opened TcpWatch

  /** Nothing is thrown away and nothing sent is taken back, what is pending only grows, nobody is resumed, and nobody
      is paused without bytes pending. */
  predicate Leaves(s: Conn, t: Conn) {
    && t.buf.dropped == s.buf.dropped && s.buf.sent <= t.buf.sent && t.buf.dsize >= s.buf.dsize
    && (t.buf.dsize <= 0 ==> t.ctl.protoPaused == s.ctl.protoPaused)
    && ResumeCount(t.trace.log) == ResumeCount(s.trace.log)
  }

  /** Nor do calls touch the marks of the two handles. */
  predicate Spares(s: Conn, t: Conn) {
    && Leaves(s, t)
    && t.misuse.lossesInResume == s.misuse.lossesInResume && t.misuse.eofResumed == s.misuse.eofResumed
  }

  lemma {:induction false} AllLeave(s: Conn, cs: seq<Call>)
    ensures Spares(s, ExecAll(s, cs))
    decreases cs, 0
  {
    if cs != [] && !s.crashed {
      CallLeaves(s, cs[0]);
      AllLeave(Exec(s, cs[0]), cs[1..]);
    }
  }

  lemma {:induction false} PauseLeaves(s: Conn, held: bool, inPause: seq<Call>)
    ensures Spares(s, MaybePause(s, held, inPause))
    decreases inPause, 1
  {
    AllLeave(Pausing(s, held), inPause);
  }

  lemma {:induction false} LoseLeaves(s: Conn, inLost: seq<Call>)
    ensures Spares(s, Lose(s, inLost))
    decreases inLost, 1
  {
    AllLeave(Losing(s), inLost);
  }

  lemma {:induction false} FailureLeaves(s: Conn, inLost: seq<Call>)
    ensures Spares(s, FailWrite(s, inLost))
    decreases inLost, 1
  {
    AllLeave(Losing(Failing(s)), inLost);
  }

  lemma {:induction false} EnqueueLeaves(s: Conn, data: Bytes, n: nat)
    requires n <= |data|
    ensures Spares(s, Enqueue(s, data, n))
  {
  }

  lemma {:induction false} WriteLeaves(s: Conn, data: Bytes, kernel: WriteResult, inPause: seq<Call>, inLost: seq<Call>)
    ensures Spares(s, Exec(s, Write(data, kernel, inPause, inLost)))
    decreases Write(data, kernel, inPause, inLost), 2
  {
    if s.buf.dsize == 0 && kernel.Failed? {
      FailureLeaves(s, inLost);
    } else {
      var n := if s.buf.dsize == 0 then Taken(kernel, |data|) else 0;
      EnqueueLeaves(s, data, n);
      PauseLeaves(Enqueue(s, data, n), true, inPause);
    }
  }

  lemma {:induction false} CloseLeaves(s: Conn, inLost: seq<Call>)
    ensures Spares(s, Exec(s, Close(inLost)))
    decreases Close(inLost), 2
  {
    LoseLeaves(RemInterest(StopReading(s), WRITABLE), inLost);
  }

  lemma {:induction false} AbortLeaves(s: Conn, inLost: seq<Call>)
    ensures Spares(s, Exec(s, Abort(inLost)))
    decreases Abort(inLost), 2
  {
    LoseLeaves(Aborting(s), inLost);
  }

  lemma {:induction false} CallLeaves(s: Conn, c: Call)
    ensures Spares(s, Exec(s, c))
    decreases c, 3
  {
    match c
    case Write(data, kernel, inPause, inLost) => WriteLeaves(s, data, kernel, inPause, inLost);
    case SetLimits(high, low, inPause) =>
      if Limits(high, low).Some? {
        var (wh, wl) := Limits(high, low).value;
        PauseLeaves(s.(ctl := s.ctl.(hi := wh, lo := wl)), false, inPause);
      }
    case Close(inLost) => CloseLeaves(s, inLost);
    case Abort(inLost) => AbortLeaves(s, inLost);
    case _ =>
  }

  // ----- calls that deliver no loss -----

  /** The call does not close or abort, nor does any reaction to a pause it causes, and no direct write fails. */
  predicate Quiet(c: Call)
    decreases c, 1
  {
    match c
    case Write(_, kernel, inPause, _) => !kernel.Failed? && QuietAll(inPause)
    case SetLimits(_, _, inPause) => QuietAll(inPause)
    case Close(_) => false
    case Abort(_) => false
    case _ => true
  }

  predicate QuietAll(cs: seq<Call>)
    decreases cs, 0
  {
    cs == [] || (Quiet(cs[0]) && QuietAll(cs[1..]))
  }

  lemma {:induction false} QuietPauseLosesNone(s: Conn, held: bool, inPause: seq<Call>)
    requires QuietAll(inPause)
    ensures MaybePause(s, held, inPause).trace.lost == s.trace.lost
    decreases inPause, 1
  {
    QuietLosesNone(Pausing(s, held), inPause);
  }

  lemma {:induction false} QuietCallLosesNone(s: Conn, c: Call)
    requires Quiet(c)
    ensures Exec(s, c).trace.lost == s.trace.lost
    decreases c, 3
  {
    match c
    case Write(data, kernel, inPause, inLost) =>
      QuietPauseLosesNone(Enqueue(s, data, if s.buf.dsize == 0 then Taken(kernel, |data|) else 0), true, inPause);
    case SetLimits(high, low, inPause) =>
      if Limits(high, low).Some? {
        var (wh, wl) := Limits(high, low).value;
        QuietPauseLosesNone(s.(ctl := s.ctl.(hi := wh, lo := wl)), false, inPause);
      }
    case _ =>
  }

  lemma {:induction false} QuietLosesNone(s: Conn, cs: seq<Call>)
    requires QuietAll(cs)
    ensures ExecAll(s, cs).trace.lost == s.trace.lost
    decreases cs, 0
  {
    if cs != [] && !s.crashed {
      QuietCallLosesNone(s, cs[0]);
      QuietLosesNone(Exec(s, cs[0]), cs[1..]);
    }
  }

  // ----- who polls for reading -----

  /** On a transport that is not closing, the loop polls for reading exactly if it did before and has not been paused
      since, or a resume_reading had effect and no pause_reading after it. */
  predicate ReadsOn(t: Conn, latched: bool) {
    t.crashed || t.ctl.closing || Recorded(t.slot).readable == latched
  }

  lemma {:induction false} AllReadOn(s: Conn, cs: seq<Call>)
    requires !s.crashed && Sound(s)
    ensures ReadsOn(ExecAll(s, cs), LatchAll(Resumed, s, cs, Recorded(s.slot).readable))
    decreases cs, 0
  {
    if cs != [] {
      CallReadsOn(s, cs[0]);
      ExecKeeps(s, cs[0]);
      var t := Exec(s, cs[0]);
      if !t.crashed {
        if t.ctl.closing {
          AllStayClosing(t, cs[1..]);
        } else {
          AllReadOn(t, cs[1..]);
        }
      }
    }
  }

  lemma {:induction false} PauseReadsOn(s: Conn, held: bool, inPause: seq<Call>)
    requires !s.crashed && PausesSoundly(s, held)
    ensures ReadsOn(MaybePause(s, held, inPause), LatchPause(Resumed, s, held, inPause, Recorded(s.slot).readable))
    decreases inPause, 1
  {
    if s.buf.dsize > s.ctl.hi && !s.ctl.protoPaused {
      AllReadOn(Pausing(s, held), inPause);
    }
  }

  lemma {:induction false} WriteReadsOn(s: Conn, data: Bytes, kernel: WriteResult, inPause: seq<Call>, inLost: seq<Call>)
    requires !s.crashed && Sound(s)
    ensures var c := Write(data, kernel, inPause, inLost);
            ReadsOn(Exec(s, c), Latch(Resumed, s, c, Recorded(s.slot).readable))
    decreases Write(data, kernel, inPause, inLost), 2
  {
    var c := Write(data, kernel, inPause, inLost);
    SoundCallsOutSoundly(s, c);
    if Borrows(s, c) && !s.stage.cellHeld {
      if DirectWrite(s, c) && kernel.Failed? {
        AllStayClosing(Losing(Failing(s)), inLost);
      } else {
        var n := if s.buf.dsize == 0 then Taken(kernel, |data|) else 0;
        EnqueueKeeps(s, data, n);
        PauseReadsOn(Enqueue(s, data, n), true, inPause);
      }
    }
  }

  lemma {:induction false} CallReadsOn(s: Conn, c: Call)
    requires !s.crashed && Sound(s)
    ensures ReadsOn(Exec(s, c), Latch(Resumed, s, c, Recorded(s.slot).readable))
    decreases c, 3
  {
    SoundCallsOutSoundly(s, c);
    if Borrows(s, c) && !s.stage.cellHeld {
      match c
      case Write(data, kernel, inPause, inLost) => WriteReadsOn(s, data, kernel, inPause, inLost);
      case SetLimits(high, low, inPause) =>
        var (wh, wl) := Limits(high, low).value;
        PauseReadsOn(s.(ctl := s.ctl.(hi := wh, lo := wl)), false, inPause);
      case Close(inLost) => AllStayClosing(Losing(RemInterest(StopReading(s), WRITABLE)), inLost);
      case Abort(inLost) => AllStayClosing(Losing(Aborting(s)), inLost);
      case _ =>
    }
  }

  lemma {:induction false} AllStayClosing(s: Conn, cs: seq<Call>)
    requires s.ctl.closing
    ensures ExecAll(s, cs).ctl.closing
    decreases cs, 0
  {
    if cs != [] && !s.crashed {
      CallStaysClosing(s, cs[0]);
      AllStayClosing(Exec(s, cs[0]), cs[1..]);
    }
  }

  lemma {:induction false} PauseStaysClosing(s: Conn, held: bool, inPause: seq<Call>)
    requires s.ctl.closing
    ensures MaybePause(s, held, inPause).ctl.closing
    decreases inPause, 1
  {
    AllStayClosing(Pausing(s, held), inPause);
  }

  lemma {:induction false} CallStaysClosing(s: Conn, c: Call)
    requires s.ctl.closing
    ensures Exec(s, c).ctl.closing
    decreases c, 3
  {
    match c
    case Write(data, kernel, inPause, inLost) =>
      AllStayClosing(Losing(Failing(s)), inLost);
      PauseStaysClosing(Enqueue(s, data, if s.buf.dsize == 0 then Taken(kernel, |data|) else 0), true, inPause);
    case SetLimits(high, low, inPause) =>
      if Limits(high, low).Some? {
        var (wh, wl) := Limits(high, low).value;
        PauseStaysClosing(s.(ctl := s.ctl.(hi := wh, lo := wl)), false, inPause);
      }
    case Abort(inLost) => AllStayClosing(Losing(Aborting(s)), inLost);
    case _ =>
  }

  // ----- reactions without resume_reading -----

  /** No resume_reading at any depth. */
  predicate NoResume(c: Call)
    decreases c, 1
  {
    match c
    case ResumeReading => false
    case Write(_, _, inPause, inLost) => NoResumeAll(inPause) && NoResumeAll(inLost)
    case SetLimits(_, _, inPause) => NoResumeAll(inPause)
    case Close(inLost) => NoResumeAll(inLost)
    case Abort(inLost) => NoResumeAll(inLost)
    case _ => true
  }

  predicate NoResumeAll(cs: seq<Call>)
    decreases cs, 0
  {
    cs == [] || (NoResume(cs[0]) && NoResumeAll(cs[1..]))
  }

  lemma {:induction false} NoResumeLatchesNone(s: Conn, cs: seq<Call>)
    requires NoResumeAll(cs)
    ensures !LatchAll(Resumed, s, cs, false)
    decreases cs, 0
  {
    if cs != [] && !s.crashed {
      NoResumeCallLatchesNone(s, cs[0]);
      NoResumeLatchesNone(Exec(s, cs[0]), cs[1..]);
    }
  }

  lemma {:induction false} NoResumeCallLatchesNone(s: Conn, c: Call)
    requires NoResume(c)
    ensures !Latch(Resumed, s, c, false)
    decreases c, 3
  {
    match c
    case Write(data, kernel, inPause, inLost) =>
      NoResumeLatchesNone(Losing(Failing(s)), inLost);
      NoResumeLatchesNone(Pausing(Enqueue(s, data, if s.buf.dsize == 0 then Taken(kernel, |data|) else 0), true), inPause);
    case SetLimits(high, low, inPause) =>
      if Limits(high, low).Some? {
        var (wh, wl) := Limits(high, low).value;
        NoResumeLatchesNone(Pausing(s.(ctl := s.ctl.(hi := wh, lo := wl)), false), inPause);
      }
    case Close(inLost) => NoResumeLatchesNone(Losing(RemInterest(StopReading(s), WRITABLE)), inLost);
    case Abort(inLost) => NoResumeLatchesNone(Losing(Aborting(s)), inLost);
    case _ =>
  }

  // ----- when a single write panics -----

  /** A write outside any held cell panics exactly if it fails at once on an attached transport, or sets off a
      pause_writing, or on a detached one a connection_lost, in which some call borrows the cell. */
  lemma {:induction false} WritePanicsExactly(s: Conn, data: Bytes, kernel: WriteResult, inPause: seq<Call>, inLost: seq<Call>)
    requires !s.crashed && Sound(s) && !s.stage.cellHeld && !s.ctl.weof && data != []
    ensures Exec(s, Write(data, kernel, inPause, inLost)).crashed <==>
              if s.buf.dsize == 0 && kernel.Failed?
              then s.stage.attached || exists i :: 0 <= i < |inLost| && Borrows(Losing(Failing(s)), inLost[i])
              else var t := Enqueue(s, data, if s.buf.dsize == 0 then Taken(kernel, |data|) else 0);
                   t.buf.dsize > t.ctl.hi && !t.ctl.protoPaused && exists i :: 0 <= i < |inPause| && Borrows(Pausing(t, true), inPause[i])
  {
    if s.buf.dsize == 0 && kernel.Failed? {
      FailingKeeps(s);
      HeldPanicsExactly(Losing(Failing(s)), inLost);
      ExecAllKeeps(Losing(Failing(s)), inLost);
    } else {
      var n := if s.buf.dsize == 0 then Taken(kernel, |data|) else 0;
      EnqueueKeeps(s, data, n);
      var t := Enqueue(s, data, n);
      if t.buf.dsize > t.ctl.hi && !t.ctl.protoPaused {
        PausingKeeps(t, true);
        HeldPanicsExactly(Pausing(t, true), inPause);
      }
    }
  }
}
