/** What every step of a TCP transport keeps, in every run and at every callback. */
module TcpInvariant {
  import opened Prelude
  import opened Callbacks
  import opened Interests
  import opened TcpMachine

  // ----- the invariant, by concern -----

  /** The queue, its cached size and the byte histories. */
  predicate Books(b: Buffer) {
    && NoEmptyChunk(b.queue)
    && b.dsize == |Flat(b.queue)|
    && |b.sent| + b.dsize + |b.dropped| == |b.accepted|
    && (b.dropped == [] ==> b.sent + Flat(b.queue) == b.accepted)
  }

  /** The write side is shut down only after `write_eof` and once nothing is pending, and then it is. */
  predicate HalfClose(s: Conn) {
    && (s.trace.shut ==> s.ctl.weof && s.buf.dsize == 0)
    && (s.ctl.weof && s.buf.dsize == 0 && !s.ctl.closing && !s.stage.draining ==> s.trace.shut)
  }

  /** Watermarks and flow-control callbacks. */
  predicate Flow(s: Conn) {
    && s.ctl.lo <= s.ctl.hi
    && Alternates(s.trace.log)
    && s.ctl.protoPaused == ToldToPause(s.trace.log)
    && (s.buf.dsize > s.ctl.hi ==> s.ctl.protoPaused)
    && (s.ctl.protoPaused ==> s.buf.dsize > 0 || s.buf.dropped != [])
    && (s.stage.cellHeld ==> s.ctl.protoPaused || s.buf.dsize == 0)
  }

  /** The fd table against the transport's flags. */
  predicate Wiring(s: Conn) {
    && Agrees(Tcp, s.slot)
    && (Recorded(s.slot).readable ==> !s.ctl.paused && (s.ctl.closing ==> s.misuse.eofResumed))
    && (!Recorded(s.slot).readable && !s.ctl.paused && !s.ctl.closing ==> s.trace.eofSeen)
    && (s.trace.lost == 0 && s.buf.dsize > 0 ==> Recorded(s.slot).writable)
    && (Recorded(s.slot).writable ==>
          if s.trace.lost == 0 then s.buf.dsize > 0 || s.stage.draining
          else s.misuse.strayWrite || (s.stage.draining && s.buf.dsize == 0))
    && (s.misuse.strayWrite ==> Recorded(s.slot).writable && s.trace.lost > 0 && s.buf.dsize > 0)
    && (s.misuse.eofResumed ==> Recorded(s.slot).readable && s.ctl.closing)
  }

  /** Repeated deliveries of connection_lost that the protocol brought about. */
  function Repeats(m: Misuse): nat {
    m.lateAborts + m.lateFailures + m.lossesInResume
  }

  /** Life cycle. */
  predicate Life(s: Conn) {
    && s.trace.lost == LostCount(s.trace.log)
    && (if s.trace.lost == 0 then s.stage.attached && Repeats(s.misuse) == 0
        else s.ctl.closing && s.trace.lost == 1 + Repeats(s.misuse))
    && (s.ctl.closing && s.trace.lost == 0 ==> s.buf.dsize > 0 || s.stage.draining)
  }

  /** The invariant at every callback. */
  predicate Sound(s: Conn) {
    Books(s.buf) && HalfClose(s) && Flow(s) && Wiring(s) && Life(s)
  }

  /** A loss that is over has detached the transport. */
  predicate Settled(s: Conn) {
    s.stage.attached ==> s.trace.lost == 0
  }

  /** Between handles: sound, no callback running, and attached exactly until connection_lost. */
  predicate AtRest(s: Conn) {
    Sound(s) && !s.stage.draining && !s.stage.cellHeld && Settled(s)
  }

  /** What calls from a callback leave as they found it. */
  predicate Keeps(s: Conn, t: Conn) {
    t.crashed || (&& Sound(t)
                  && t.stage.draining == s.stage.draining && t.stage.cellHeld == s.stage.cellHeld
                  && t.trace.lost >= s.trace.lost
                  && (Settled(s) ==> Settled(t))
                  && (s.stage.cellHeld ==> t.stage == s.stage && t.trace.lost == s.trace.lost))
  }

  // ----- a write -----

  lemma {:induction false} PushKeepsOrder(queue: seq<Bytes>, sent: Bytes, accepted: Bytes, data: Bytes, n: nat)
    requires n <= |data| && (n > 0 ==> Flat(queue) == [])
    requires sent + Flat(queue) == accepted
    ensures sent + data[..n] + Flat(queue + [data[n..]]) == accepted + data
  {
    FlatAppend(queue, data[n..]);
    if n == 0 {
      assert sent + data[..0] + (Flat(queue) + data[0..]) == (sent + Flat(queue)) + data;
    } else {
      assert sent + data[..n] + data[n..] == sent + data;
    }
  }

  lemma {:induction false} PushBooks(b: Buffer, data: Bytes, n: nat)
    requires Books(b) && n <= |data| && (n > 0 ==> b.dsize == 0)
    ensures Books(Push(b, data, n)) && Push(b, data, n).dsize == b.dsize + |data| - n
  {
    FlatAppend(b.queue, data[n..]);
    if b.dropped == [] {
      PushKeepsOrder(b.queue, b.sent, b.accepted, data, n);
    }
    if n == |data| {
      assert data[n..] == [];
      assert Flat(b.queue) + [] == Flat(b.queue);
      assert data[..n] == data;
    }
  }

  /** After a write has queued what it could not send, only the pause is still owed. */
  lemma {:induction false} EnqueueKeeps(s: Conn, data: Bytes, n: nat)
    requires !s.crashed && Sound(s) && !s.ctl.weof && data != [] && n <= |data| && (n > 0 ==> s.buf.dsize == 0)
    ensures var t := Enqueue(s, data, n);
            !t.crashed && Books(t.buf) && HalfClose(t) && Wiring(t) && Life(t)
            && t.ctl == s.ctl && t.stage == s.stage && t.trace == s.trace
            && t.buf.dsize >= s.buf.dsize && t.buf.dropped == s.buf.dropped
  {
    PushBooks(s.buf, data, n);
  }

  // ----- single steps without callbacks -----

  lemma {:induction false} PlainKeeps(s: Conn, c: Call)
    requires !s.crashed && Sound(s) && (c.WriteEof? || c.GetWriteBufferSize? || c.IsTls? || c.PauseReading? || c.ResumeReading?)
    ensures Keeps(s, Exec(s, c))
  {
  }

  // ----- the states in which callbacks run -----

  lemma {:induction false} PausingKeeps(s: Conn, held: bool)
    requires !s.crashed && Books(s.buf) && HalfClose(s) && Wiring(s) && Life(s)
    requires s.ctl.lo <= s.ctl.hi && Alternates(s.trace.log) && s.ctl.protoPaused == ToldToPause(s.trace.log)
    requires s.buf.dsize > s.ctl.hi && !s.ctl.protoPaused
    ensures Sound(Pausing(s, held)) && !Pausing(s, held).crashed
  {
  }

  lemma {:induction false} FailingKeeps(s: Conn)
    requires !s.crashed && Sound(s) && s.buf.dsize == 0
    ensures Sound(Losing(Failing(s))) && !Failing(s).crashed
  {
  }

  lemma {:induction false} AbortingKeeps(s: Conn)
    requires !s.crashed && Sound(s)
    ensures Sound(Losing(Aborting(s))) && !Aborting(s).crashed && Aborting(s).stage == s.stage
  {
    AbortingWires(s);
  }

  lemma {:induction false} AbortingWires(s: Conn)
    requires !s.crashed && Sound(s)
    ensures var t := Aborting(s);
            && Wiring(Losing(t)) && !t.crashed && t.buf == s.buf && t.stage == s.stage && t.trace == s.trace
            && t.ctl == s.ctl.(closing := true)
  {
  }

  lemma {:induction false} ClosingKeeps(s: Conn)
    requires !s.crashed && Sound(s) && !s.ctl.closing
    ensures var t := StopReading(s);
            !t.crashed && t.stage == s.stage && t.trace == s.trace && t.buf == s.buf
            && (if t.buf.dsize > 0 then Sound(t)
                else Sound(Losing(RemInterest(t, WRITABLE))) && RemInterest(t, WRITABLE) == t.(slot := RemInterest(t, WRITABLE).slot))
  {
  }

  // ----- every call, with every reaction to every callback it makes -----

  lemma {:induction false} ExecAllKeeps(s: Conn, cs: seq<Call>)
    requires !s.crashed && Sound(s)
    ensures Keeps(s, ExecAll(s, cs))
    decreases cs, 0
  {
    if cs != [] {
      ExecKeeps(s, cs[0]);
      if !Exec(s, cs[0]).crashed {
        ExecAllKeeps(Exec(s, cs[0]), cs[1..]);
      }
    }
  }

  lemma {:induction false} MaybePauseKeeps(s: Conn, held: bool, inPause: seq<Call>)
    requires !s.crashed && Books(s.buf) && HalfClose(s) && Wiring(s) && Life(s) && !s.stage.cellHeld
    requires s.ctl.lo <= s.ctl.hi && Alternates(s.trace.log) && s.ctl.protoPaused == ToldToPause(s.trace.log)
    requires s.ctl.protoPaused ==> s.buf.dsize > 0 || s.buf.dropped != []
    ensures Keeps(s, MaybePause(s, held, inPause))
    decreases inPause, 1
  {
    if s.buf.dsize > s.ctl.hi && !s.ctl.protoPaused {
      PausingKeeps(s, held);
      ExecAllKeeps(Pausing(s, held), inPause);
    }
  }

  lemma {:induction false} LoseKeeps(s: Conn, inLost: seq<Call>)
    requires !s.crashed && Sound(Losing(s))
    ensures var t := Lose(s, inLost);
            t.crashed || (Sound(t) && Settled(t) && t.trace.lost > s.trace.lost
                          && t.stage == s.stage.(attached := false))
    decreases inLost, 1
  {
    ExecAllKeeps(Losing(s), inLost);
  }

  lemma {:induction false} FailWriteKeeps(s: Conn, inLost: seq<Call>)
    requires !s.crashed && Sound(s) && s.buf.dsize == 0 && !s.stage.cellHeld
    ensures Keeps(s, FailWrite(s, inLost))
    decreases inLost, 1
  {
    FailingKeeps(s);
    ExecAllKeeps(Losing(Failing(s)), inLost);
  }

  lemma {:induction false} WriteKeeps(s: Conn, data: Bytes, kernel: WriteResult, inPause: seq<Call>, inLost: seq<Call>)
    requires !s.crashed && Sound(s)
    ensures Keeps(s, Exec(s, Write(data, kernel, inPause, inLost)))
    decreases Write(data, kernel, inPause, inLost), 2
  {
    if !s.ctl.weof && data != [] && !s.stage.cellHeld {
      if s.buf.dsize == 0 && kernel.Failed? {
        FailWriteKeeps(s, inLost);
      } else {
        var n := if s.buf.dsize == 0 then Taken(kernel, |data|) else 0;
        EnqueueKeeps(s, data, n);
        MaybePauseKeeps(Enqueue(s, data, n), true, inPause);
      }
    }
  }

  lemma {:induction false} CloseKeeps(s: Conn, inLost: seq<Call>)
    requires !s.crashed && Sound(s)
    ensures Keeps(s, Exec(s, Close(inLost)))
    decreases Close(inLost), 2
  {
    if !s.ctl.closing && !s.stage.cellHeld {
      ClosingKeeps(s);
      var t := StopReading(s);
      if t.buf.dsize == 0 {
        LoseKeeps(RemInterest(t, WRITABLE), inLost);
      }
    }
  }

  lemma {:induction false} AbortKeeps(s: Conn, inLost: seq<Call>)
    requires !s.crashed && Sound(s)
    ensures Keeps(s, Exec(s, Abort(inLost)))
    decreases Abort(inLost), 2
  {
    if !s.stage.cellHeld {
      AbortingKeeps(s);
      LoseKeeps(Aborting(s), inLost);
    }
  }

  lemma {:induction false} SetLimitsKeeps(s: Conn, high: Option<nat>, low: Option<nat>, inPause: seq<Call>)
    requires !s.crashed && Sound(s)
    ensures Keeps(s, Exec(s, SetLimits(high, low, inPause)))
    decreases SetLimits(high, low, inPause), 2
  {
    if Limits(high, low).Some? && !s.stage.cellHeld {
      var (wh, wl) := Limits(high, low).value;
      MaybePauseKeeps(s.(ctl := s.ctl.(hi := wh, lo := wl)), false, inPause);
    }
  }

  lemma {:induction false} ExecKeeps(s: Conn, c: Call)
    requires !s.crashed && Sound(s)
    ensures Keeps(s, Exec(s, c))
    decreases c, 3
  {
    match c
    case Write(data, kernel, inPause, inLost) => WriteKeeps(s, data, kernel, inPause, inLost);
    case SetLimits(high, low, inPause) => SetLimitsKeeps(s, high, low, inPause);
    case Close(inLost) => CloseKeeps(s, inLost);
    case Abort(inLost) => AbortKeeps(s, inLost);
    case _ => PlainKeeps(s, c);
  }

  /** If a call makes a callback at once, it does so in a sound state. */
  predicate CallsOutSoundly(s: Conn, c: Call) {
    match c
    case Write(data, kernel, inPause, inLost) =>
      s.ctl.weof || data == [] || s.stage.cellHeld ||
      if s.buf.dsize == 0 && kernel.Failed? then Sound(Losing(Failing(s)))
      else PausesSoundly(Enqueue(s, data, if s.buf.dsize == 0 then Taken(kernel, |data|) else 0), true)
    case SetLimits(high, low, inPause) =>
      Limits(high, low).None? || s.stage.cellHeld ||
      PausesSoundly(s.(ctl := s.ctl.(hi := Limits(high, low).value.0, lo := Limits(high, low).value.1)), false)
    case Close(inLost) =>
      s.ctl.closing || s.stage.cellHeld || s.buf.dsize > 0 ||
      Sound(Losing(RemInterest(StopReading(s), WRITABLE)))
    case Abort(inLost) => s.stage.cellHeld || Sound(Losing(Aborting(s)))
    case _ => true
  }

  predicate PausesSoundly(s: Conn, held: bool) {
    s.buf.dsize > s.ctl.hi && !s.ctl.protoPaused ==> Sound(Pausing(s, held))
  }

  lemma {:induction false} SoundCallsOutSoundly(s: Conn, c: Call)
    requires !s.crashed && Sound(s)
    ensures CallsOutSoundly(s, c)
  {
    match c
    case Write(data, kernel, inPause, inLost) =>
      if !s.ctl.weof && data != [] && !s.stage.cellHeld {
        if s.buf.dsize == 0 && kernel.Failed? {
          FailingKeeps(s);
        } else {
          var n := if s.buf.dsize == 0 then Taken(kernel, |data|) else 0;
          EnqueueKeeps(s, data, n);
          var t := Enqueue(s, data, n);
          if t.buf.dsize > t.ctl.hi && !t.ctl.protoPaused {
            PausingKeeps(t, true);
          }
        }
      }
    case SetLimits(high, low, inPause) =>
      if Limits(high, low).Some? {
        var t := s.(ctl := s.ctl.(hi := Limits(high, low).value.0, lo := Limits(high, low).value.1));
        if t.buf.dsize > t.ctl.hi && !t.ctl.protoPaused {
          PausingKeeps(t, false);
        }
      }
    case Close(inLost) =>
      if !s.ctl.closing {
        ClosingKeeps(s);
      }
    case Abort(inLost) => AbortingKeeps(s);
    case _ =>
  }

  // ----- the write handle -----

  /** Draining splits the queued bytes, in order, into sent and still queued, or sent and dropped. */
  lemma {:induction false} DrainSplits(queue: seq<Bytes>, kernel: seq<WriteResult>)
    requires NoEmptyChunk(queue)
    ensures var d := Drain(queue, kernel);
            && NoEmptyChunk(d.queue)
            && d.sent + Flat(d.queue) + d.dropped == Flat(queue)
            && (if d.failed then d.queue == [] && d.dropped != [] else d.dropped == [])
    decreases |kernel|
  {
    if queue != [] && kernel != [] {
      match kernel[0]
      case Wrote(n) =>
        var k := Min(n, |queue[0]|);
        if k < |queue[0]| {
          assert ([queue[0][k..]] + queue[1..])[1..] == queue[1..];
          assert queue[0][..k] + (queue[0][k..] + Flat(queue[1..])) == queue[0] + Flat(queue[1..]);
        } else {
          DrainSplits(queue[1..], kernel[1..]);
          var r := Drain(queue[1..], kernel[1..]);
          assert queue[0] + r.sent + Flat(r.queue) + r.dropped == queue[0] + (r.sent + Flat(r.queue) + r.dropped);
        }
      case Interrupted => DrainSplits(queue, kernel[1..]);
      case WouldBlock =>
      case Failed =>
    }
  }

  lemma {:induction false} AfterDrainBooks(b: Buffer, d: Drained, kernel: seq<WriteResult>)
    requires Books(b) && d == Drain(b.queue, kernel)
    ensures Books(Buffer(d.queue, if d.failed then 0 else b.dsize - |d.sent|, b.accepted, b.sent + d.sent, b.dropped + d.dropped))
  {
    DrainSplits(b.queue, kernel);
    if b.dropped + d.dropped == [] {
      assert (b.sent + d.sent) + Flat(d.queue) == b.sent + (d.sent + Flat(d.queue));
      assert d.sent + Flat(d.queue) + d.dropped == d.sent + Flat(d.queue);
    }
  }

  /** Right after the drain the transport is sound, or is once resume_writing has been called. */
  lemma {:induction false} AfterDrainKeeps(s: Conn, kernel: seq<WriteResult>)
    requires !s.crashed && Sound(s) && s.trace.lost == 0 && !s.stage.cellHeld
    ensures var d := Drain(s.buf.queue, kernel);
            var s1 := AfterDrain(s, d);
            if d.sent != [] && !d.failed && s1.buf.dsize <= s1.ctl.lo && s1.ctl.protoPaused
            then Sound(Resuming(s1)) else Sound(s1)
  {
    var d := Drain(s.buf.queue, kernel);
    AfterDrainBooks(s.buf, d, kernel);
    DrainSplits(s.buf.queue, kernel);
    assert |d.sent| + |Flat(d.queue)| + |d.dropped| == s.buf.dsize;
  }

  lemma {:induction false} ResumeKeeps(s: Conn, kernel: seq<WriteResult>, inResume: seq<Call>)
    requires !s.crashed && Sound(s) && s.trace.lost == 0 && !s.stage.cellHeld
    ensures var d := Drain(s.buf.queue, kernel);
            var t := if d.sent != [] && !d.failed then MaybeResume(AfterDrain(s, d), inResume) else AfterDrain(s, d);
            t.crashed || (Sound(t) && t.stage.draining && !t.stage.cellHeld && Settled(t))
  {
    AfterDrainKeeps(s, kernel);
    var d := Drain(s.buf.queue, kernel);
    var s1 := AfterDrain(s, d);
    if d.sent != [] && !d.failed && s1.buf.dsize <= s1.ctl.lo && s1.ctl.protoPaused {
      ExecAllKeeps(Resuming(s1), inResume);
    }
  }

  lemma {:induction false} LosingDrainedKeeps(s: Conn)
    requires !s.crashed && Sound(s) && s.stage.draining && s.buf.queue == [] && s.ctl.closing
    ensures Sound(LosingDrained(s)) && LosingDrained(s).stage == s.stage
  {
  }

  lemma {:induction false} AfterLossKeeps(s: Conn)
    requires !s.crashed && Sound(s) && s.stage.draining && !s.stage.cellHeld && s.trace.lost > 0
    ensures !AfterLoss(s).crashed && AtRest(AfterLoss(s))
  {
    FlatEmpty(s.buf.queue);
  }

  lemma {:induction false} FinishDrainKeeps(s: Conn, inLost: seq<Call>)
    requires !s.crashed && Sound(s) && s.stage.draining && !s.stage.cellHeld && Settled(s)
    ensures FinishDrain(s, inLost).crashed || AtRest(FinishDrain(s, inLost))
  {
    if s.buf.queue == [] && s.ctl.closing {
      LosingDrainedKeeps(s);
      ExecAllKeeps(LosingDrained(s), inLost);
      var r := ExecAll(LosingDrained(s), inLost);
      if !r.crashed {
        AfterLossKeeps(r);
      }
    } else {
      FlatEmpty(s.buf.queue);
    }
  }

  // ----- the read handle -----

  lemma {:induction false} AtEofKeeps(s: Conn)
    requires !s.crashed && Sound(s)
    ensures Sound(AtEof(s)) && !AtEof(s).crashed && AtEof(s).stage == s.stage && AtEof(s).trace.lost == s.trace.lost
  {
  }

  lemma {:induction false} ClosingAtEofKeeps(s: Conn)
    requires !s.crashed && AtRest(s) && !s.ctl.closing
    ensures if s.buf.queue != [] then AtRest(ClosingAtEof(s))
            else var t := RemInterest(ClosingAtEof(s), WRITABLE);
                 !t.crashed && Sound(Losing(t)) && t.stage == s.stage
  {
    FlatEmpty(s.buf.queue);
  }

  lemma {:induction false} CloseFromReadKeeps(s: Conn, inLost: seq<Call>)
    requires !s.crashed && AtRest(s)
    ensures CloseFromRead(s, inLost).crashed || AtRest(CloseFromRead(s, inLost))
  {
    if !s.ctl.closing {
      ClosingAtEofKeeps(s);
      if s.buf.queue == [] {
        LoseKeeps(RemInterest(ClosingAtEof(s), WRITABLE), inLost);
      }
    }
  }

  lemma {:induction false} RecvEofKeeps(s: Conn, inEof: seq<Call>, keepOpen: bool, inLost: seq<Call>)
    requires !s.crashed && AtRest(s)
    ensures RecvEof(s, inEof, keepOpen, inLost).crashed || AtRest(RecvEof(s, inEof, keepOpen, inLost))
  {
    AtEofKeeps(s);
    ExecAllKeeps(AtEof(s), inEof);
    var t := ExecAll(AtEof(s), inEof);
    if !t.crashed {
      CloseFromReadKeeps(t, inLost);
    }
  }

  lemma {:induction false} GivenKeeps(s: Conn, round: Round)
    requires !s.crashed && AtRest(s)
    ensures Given(s, round).crashed || AtRest(Given(s, round))
  {
    ExecAllKeeps(s, round.inBuffer);
    var s1 := ExecAll(s, round.inBuffer);
    var data := ReadInto(round.room, round.kernel).0;
    if !s1.crashed && data != [] {
      ExecAllKeeps(Log(s1, DataReceived(data)), round.inData);
    }
  }

  lemma {:induction false} ReadRoundKeeps(s: Conn, round: Round, inEof: seq<Call>, keepOpen: bool, inLost: seq<Call>)
    requires !s.crashed && AtRest(s)
    ensures var (t, more) := ReadRound(s, round, inEof, keepOpen, inLost);
            (t.crashed || AtRest(t)) && (more ==> !t.crashed)
  {
    GivenKeeps(s, round);
    if !Given(s, round).crashed {
      RecvEofKeeps(Given(s, round), inEof, keepOpen, inLost);
    }
  }

  lemma {:induction false} ReadRoundsKeeps(s: Conn, rounds: seq<Round>, inEof: seq<Call>, keepOpen: bool, inLost: seq<Call>)
    requires !s.crashed && AtRest(s)
    ensures var t := ReadRounds(s, rounds, inEof, keepOpen, inLost);
            t.crashed || AtRest(t)
    decreases |rounds|
  {
    if rounds != [] {
      ReadRoundKeeps(s, rounds[0], inEof, keepOpen, inLost);
      var (t, more) := ReadRound(s, rounds[0], inEof, keepOpen, inLost);
      if more {
        ReadRoundsKeeps(t, rounds[1..], inEof, keepOpen, inLost);
      }
    }
  }

  // ----- whole runs -----

  lemma {:induction false} NextKeeps(s: Conn, e: Event)
    requires s.crashed || AtRest(s)
    ensures Next(s, e).crashed || AtRest(Next(s, e))
  {
    if !s.crashed {
      match e
      case App(call) => ExecKeeps(s, call);
      case Readable(rounds, inEof, keepOpen, inLost) =>
        ReadRoundsKeeps(s, rounds, inEof, keepOpen, inLost);
      case Writable(kernel, inResume, inLost) =>
        if s.stage.attached {
          ResumeKeeps(s, kernel, inResume);
          var d := Drain(s.buf.queue, kernel);
          var t := if d.sent != [] && !d.failed then MaybeResume(AfterDrain(s, d), inResume) else AfterDrain(s, d);
          if !t.crashed {
            FinishDrainKeeps(t, inLost);
          }
        }
    }
  }

  lemma {:induction false} RunIsSound(events: seq<Event>)
    ensures Run(events).crashed || AtRest(Run(events))
  {
    if events != [] {
      RunIsSound(events[..|events|-1]);
      NextKeeps(Run(events[..|events|-1]), events[|events|-1]);
    }
  }
}
