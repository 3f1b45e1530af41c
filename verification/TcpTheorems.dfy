/** What holds of every run of a TCP transport. A run is any list of events; every prefix of a run is a run, so each
    statement holds at all times. A run that panicked is over: PanicsExactly in TcpWatch says which runs those are. */
module TcpTheorems {
  import opened Prelude
  import opened Callbacks
  import opened Interests
  import opened TcpMachine
  import opened TcpInvariant
  import opened TcpWatch
  import opened TcpCalls
  import opened TcpEvents

  // ----- where in a run -----

  /** resume_writing has brought about a loss with nothing queued. */
  predicate LostInResume(events: seq<Event>) {
    events != [] && (LostInResume(events[..|events|-1]) || LosesInResume(Run(events[..|events|-1]), events[|events|-1]))
  }

  /** At the last end of file, eof_received resumed reading on a transport that it let close. */
  predicate ResumedAtEof(events: seq<Event>) {
    && events != []
    && (|| ResumesAtEof(Run(events[..|events|-1]), events[|events|-1])
        || (ResumedAtEof(events[..|events|-1]) && !MeetsEof(Run(events[..|events|-1]), events[|events|-1])))
  }

  /** A write of the write handle has failed. */
  predicate DrainFailed(events: seq<Event>) {
    events != [] && (DrainFailed(events[..|events|-1]) || DrainFails(Run(events[..|events|-1]), events[|events|-1]))
  }

  /** A write of the write handle has failed while the protocol was paused, and nothing has been queued since. */
  predicate LeftPaused(events: seq<Event>) {
    && events != [] && Run(events).buf.dsize == 0
    && (|| LeftPaused(events[..|events|-1])
        || (DrainFails(Run(events[..|events|-1]), events[|events|-1]) && Run(events[..|events|-1]).ctl.protoPaused))
  }

  lemma {:induction false} LostInResumeCounts(events: seq<Event>)
    ensures LostInResume(events) <==> Run(events).misuse.lossesInResume > 0
  {
    if events != [] {
      var init, e := events[..|events|-1], events[|events|-1];
      LostInResumeCounts(init);
      RunIsSound(init);
      LossInResumeCounts(Run(init), e);
    }
  }

  lemma {:induction false} ResumedAtEofMarks(events: seq<Event>)
    requires !Run(events).crashed
    ensures ResumedAtEof(events) <==> Run(events).misuse.eofResumed
  {
    if events != [] {
      var init, e := events[..|events|-1], events[|events|-1];
      ResumedAtEofMarks(init);
      RunIsSound(init);
      EofResumeMarks(Run(init), e);
    }
  }

  lemma {:induction false} DrainFailedDrops(events: seq<Event>)
    ensures DrainFailed(events) <==> Run(events).buf.dropped != []
  {
    if events != [] {
      var init, e := events[..|events|-1], events[|events|-1];
      DrainFailedDrops(init);
      RunIsSound(init);
      DrainFailureDrops(Run(init), e);
    }
  }

  lemma {:induction false} LeftPausedExactly(events: seq<Event>)
    requires !Run(events).crashed
    ensures LeftPaused(events) <==> Run(events).ctl.protoPaused && Run(events).buf.dsize == 0
  {
    if events != [] {
      var init, e := events[..|events|-1], events[|events|-1];
      LeftPausedExactly(init);
      RunIsSound(init);
      if Next(Run(init), e).buf.dsize == 0 {
        StrandingSteps(Run(init), e);
      }
    }
  }

  // ----- safety of whole runs -----

  /** connection_lost is delivered at most once exactly when no `abort` and no failing direct write came after it, at
      any depth of reactions, and resume_writing never brought it about with nothing queued. The transport is in
      `tcp_transports` exactly until the first delivery. */
  lemma {:induction false} LossDeliveredAtMostOnce(events: seq<Event>)
    requires !Watched(Panics, events)
    ensures var s := Run(events);
            && (LostCount(s.trace.log) <= 1 <==>
                  !Watched(LateAbort, events) && !Watched(LateFailure, events) && !LostInResume(events))
            && (s.stage.attached <==> LostCount(s.trace.log) == 0)
            && (s.ctl.closing && s.stage.attached ==> s.buf.dsize > 0)
  {
    PanicsExactly(events);
    RunIsSound(events);
    WatchedReads(LateAbort, events);
    WatchedReads(LateFailure, events);
    LostInResumeCounts(events);
  }

  /** A detached transport leaves neither a `handles_io` entry nor a poller registration behind exactly when no write
      after the loss was queued on an empty queue, unless an abort came after it, and eof_received did not resume
      reading on a transport that it let close. The loop polls for reading only while the transport neither closes nor
      is paused, again but for such an eof_received, and it does so until end of file; what it recorded is what the
      poller was told. */
  lemma {:induction false} DetachIsClean(events: seq<Event>)
    requires !Watched(Panics, events)
    ensures var s := Run(events);
            && Recorded(s.slot) == Registered(s.slot)
            && (!s.stage.attached ==> (s.slot == UNUSED <==> !Watched(StrayWrite, events) && !ResumedAtEof(events)))
            && (Recorded(s.slot).readable ==> !s.ctl.paused && (s.ctl.closing <==> ResumedAtEof(events)))
            && (!s.ctl.closing && !s.ctl.paused && !s.trace.eofSeen ==> Recorded(s.slot).readable)
  {
    PanicsExactly(events);
    RunIsSound(events);
    WatchedReads(StrayWrite, events);
    ResumedAtEofMarks(events);
  }

  /** Bytes handed to the kernel, followed by the flattened queue, are the bytes accepted, exactly when no write of the
      write handle has failed; in any case none is counted twice or invented. */
  lemma {:induction false} BytesAreConserved(events: seq<Event>)
    requires !Watched(Panics, events)
    ensures var b := Run(events).buf;
            && (b.sent + Flat(b.queue) == b.accepted <==> !DrainFailed(events))
            && |b.sent| + |Flat(b.queue)| + |b.dropped| == |b.accepted|
            && b.dsize == |Flat(b.queue)|
  {
    PanicsExactly(events);
    RunIsSound(events);
    DrainFailedDrops(events);
  }

  /** The protocol is paused with nothing pending exactly after a write of the write handle failed while it was paused,
      until something is queued again; and an attached transport polls for writing exactly while bytes are pending. */
  lemma {:induction false} NoWriterIsStranded(events: seq<Event>)
    requires !Watched(Panics, events)
    ensures var s := Run(events);
            && (s.ctl.protoPaused && s.buf.dsize == 0 <==> LeftPaused(events))
            && (s.stage.attached ==> (Registered(s.slot).writable <==> s.buf.dsize > 0))
  {
    PanicsExactly(events);
    RunIsSound(events);
    LeftPausedExactly(events);
  }

  /** pause_writing and resume_writing strictly alternate starting with a pause, the flag says which came last,
      low never exceeds high, and a size above high means paused. */
  lemma {:induction false} FlowControlAlternates(events: seq<Event>)
    requires !Watched(Panics, events)
    ensures var s := Run(events);
            && Alternates(s.trace.log)
            && s.ctl.protoPaused == ToldToPause(s.trace.log)
            && s.ctl.lo <= s.ctl.hi
            && (s.buf.dsize > s.ctl.hi ==> s.ctl.protoPaused)
  {
    PanicsExactly(events);
    RunIsSound(events);
  }

  /** The write side is shut down only after `write_eof` and, unless a write of the write handle failed, only once every
      accepted byte has been sent; and with nothing pending it has been shut down. */
  lemma {:induction false} HalfCloseComesLast(events: seq<Event>)
    requires !Watched(Panics, events)
    ensures var s := Run(events);
            && (s.trace.shut ==> s.ctl.weof && s.buf.dsize == 0)
            && (s.trace.shut ==> (s.buf.sent == s.buf.accepted <==> !DrainFailed(events)))
            && (s.ctl.weof && s.buf.dsize == 0 && !s.ctl.closing ==> s.trace.shut)
  {
    PanicsExactly(events);
    RunIsSound(events);
    BytesAreConserved(events);
    var b := Run(events).buf;
    if b.dsize == 0 {
      assert Flat(b.queue) == [];
      assert b.sent + [] == b.sent;
    }
  }

  // ----- conditions on the reactions alone -----

  predicate QuietResume(e: Event) {
    e.Writable? ==> QuietAll(e.inResume)
  }

  lemma {:induction false} QuietResumeLosesNone(s: Conn, e: Event)
    requires (s.crashed || Settled(s)) && QuietResume(e)
    ensures !LosesInResume(s, e)
  {
    if e.Writable? && s.stage.attached && Resumes(s, e.kernel) {
      QuietLosesNone(Resuming(AfterDrain(s, Drain(s.buf.queue, e.kernel))), e.inResume);
    }
  }

  lemma {:induction false} QuietRunsLoseNoneInResume(events: seq<Event>)
    requires forall i :: 0 <= i < |events| ==> QuietResume(events[i])
    ensures !LostInResume(events)
  {
    if events != [] {
      var init, e := events[..|events|-1], events[|events|-1];
      QuietRunsLoseNoneInResume(init);
      RunIsSound(init);
      QuietResumeLosesNone(Run(init), e);
    }
  }

  /** For a protocol that never closes, aborts or has a write fail in resume_writing, connection_lost comes at most once
      exactly when no abort and no failing write comes after it; `close` may be called from anywhere else,
      data_received and eof_received included. */
  lemma {:induction false} QuietRunsLoseOnce(events: seq<Event>)
    requires !Watched(Panics, events) && forall i :: 0 <= i < |events| ==> QuietResume(events[i])
    ensures LostCount(Run(events).trace.log) <= 1 <==> !Watched(LateAbort, events) && !Watched(LateFailure, events)
  {
    PanicsExactly(events);
    QuietRunsLoseNoneInResume(events);
    LossDeliveredAtMostOnce(events);
  }

  predicate NoResumeAtEof(e: Event) {
    e.Readable? ==> NoResumeAll(e.inEof)
  }

  lemma {:induction false} NoResumeRunsAreNotResumed(events: seq<Event>)
    requires forall i :: 0 <= i < |events| ==> NoResumeAtEof(events[i])
    ensures !ResumedAtEof(events)
  {
    if events != [] {
      var init, e := events[..|events|-1], events[|events|-1];
      NoResumeRunsAreNotResumed(init);
      if MeetsEof(Run(init), e) {
        NoResumeLatchesNone(AtEof(EofState(Run(init), e.rounds).value), e.inEof);
      }
    }
  }

  /** A protocol that makes no resume_reading at any depth of eof_received detaches clean exactly when it has not left
      a write after the loss on an empty queue. */
  lemma {:induction false} NoResumeRunsDetachClean(events: seq<Event>)
    requires !Watched(Panics, events) && forall i :: 0 <= i < |events| ==> NoResumeAtEof(events[i])
    ensures !Run(events).stage.attached ==> (Run(events).slot == UNUSED <==> !Watched(StrayWrite, events))
  {
    PanicsExactly(events);
    NoResumeRunsAreNotResumed(events);
    DetachIsClean(events);
  }

  // ----- progress of one write handle -----

  /** The kernel takes every queued chunk whole. */
  predicate TakesAll(queue: seq<Bytes>, kernel: seq<WriteResult>) {
    |queue| <= |kernel| && forall i :: 0 <= i < |queue| ==> kernel[i] == Wrote(|queue[i]|)
  }

  lemma {:induction false} DrainAll(queue: seq<Bytes>, kernel: seq<WriteResult>)
    requires TakesAll(queue, kernel)
    ensures Drain(queue, kernel) == Drained([], Flat(queue), [], false)
    decreases |kernel|
  {
    if queue != [] {
      assert kernel[0] == Wrote(|queue[0]|);
      assert TakesAll(queue[1..], kernel[1..]) by {
        forall i | 0 <= i < |queue[1..]| ensures kernel[1..][i] == Wrote(|queue[1..][i]|) {
          assert kernel[i+1] == Wrote(|queue[i+1]|);
        }
      }
      DrainAll(queue[1..], kernel[1..]);
    }
  }

  /** Once the kernel takes what is queued, one write handle sends it all in order and resumes a paused protocol, whatever
      the reactions do; and if they leave the queue empty it completes a pending `close`, or else a pending `write_eof`.
      The loss is then told once, if resume_writing has not brought it about and no abort or failing write follows it. */
  lemma {:induction false} FullDrainFinishes(s: Conn, kernel: seq<WriteResult>, inResume: seq<Call>, inLost: seq<Call>)
    requires !s.crashed && AtRest(s) && s.stage.attached && TakesAll(s.buf.queue, kernel)
    requires !LatchEvent(Panics, s, Writable(kernel, inResume, inLost), false)
    ensures var t := Next(s, Writable(kernel, inResume, inLost));
            var m := AfterResume(s, kernel, inResume);
            && s.buf.sent + Flat(s.buf.queue) <= t.buf.sent
            && ResumeCount(t.trace.log) == ResumeCount(s.trace.log) + (if s.ctl.protoPaused && s.buf.queue != [] then 1 else 0)
            && (m.buf.queue == [] && m.ctl.closing ==> !t.stage.attached && LostCount(t.trace.log) > 0)
            && (m.buf.queue == [] && m.ctl.closing && m.trace.lost == 0
                && !LatchAll(LateAbort, LosingDrained(m), inLost, false) && !LatchAll(LateFailure, LosingDrained(m), inLost, false)
                ==> LostCount(t.trace.log) == 1)
            && (m.buf.queue == [] && !m.ctl.closing ==> !Registered(t.slot).writable && (m.ctl.weof ==> t.trace.shut))
  {
    LatchEventReads(Panics, s, Writable(kernel, inResume, inLost));
    FullDrainSends(s, kernel, inResume, inLost);
    WriteReadyResumes(s, kernel, inResume, inLost);
    AfterResumeKeeps(s, kernel, inResume);
    var m := AfterResume(s, kernel, inResume);
    if m.buf.queue == [] {
      DrainFinishes(m, inLost);
    }
  }

  lemma {:induction false} FullDrainSends(s: Conn, kernel: seq<WriteResult>, inResume: seq<Call>, inLost: seq<Call>)
    requires !s.crashed && AtRest(s) && s.stage.attached && TakesAll(s.buf.queue, kernel)
    ensures var t := Next(s, Writable(kernel, inResume, inLost));
            && s.buf.sent + Flat(s.buf.queue) <= t.buf.sent
            && ResumeCount(t.trace.log) == ResumeCount(s.trace.log) + (if s.ctl.protoPaused && s.buf.queue != [] then 1 else 0)
  {
    DrainAll(s.buf.queue, kernel);
    FlatEmpty(s.buf.queue);
    WriteReadyLeaves(s, kernel, inResume, inLost);
  }

  lemma {:induction false} DrainFinishes(s: Conn, inLost: seq<Call>)
    requires !s.crashed && Sound(s) && s.stage.draining && !s.stage.cellHeld && Settled(s)
    requires !FinishDrain(s, inLost).crashed && s.buf.queue == []
    ensures var t := FinishDrain(s, inLost);
            && (s.ctl.closing ==> !t.stage.attached && LostCount(t.trace.log) > 0)
            && (s.ctl.closing && s.trace.lost == 0
                && !LatchAll(LateAbort, LosingDrained(s), inLost, false) && !LatchAll(LateFailure, LosingDrained(s), inLost, false)
                ==> LostCount(t.trace.log) == 1)
            && (!s.ctl.closing ==> !Registered(t.slot).writable && (s.ctl.weof ==> t.trace.shut))
  {
    FinishDrainKeeps(s, inLost);
    FinishLeaves(s, inLost);
    LatchFinishReads(LateAbort, s, inLost);
    LatchFinishReads(LateFailure, s, inLost);
  }
}
