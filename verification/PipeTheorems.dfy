/** What the pipe's write transport promises, for every run; and two runs that go against expectation. */
module PipeTheorems {
  import opened Prelude
  import opened Callbacks
  import opened PipeMachine
  import opened PipeInvariant
  import opened PipeWatch

  /** connection_lost is delivered at most once, and exactly when the pipe is closed; a transport that is closing still
      has it coming, from a scheduled call or from the write handler that will drain the buffer. */
  lemma {:induction false} PipeLossOnce(events: seq<Event>)
    ensures var s := Run(events);
            && LostCount(s.trace.log) == (if s.wires.open then 0 else 1)
            && (!s.wires.open ==> s.ctl.closing)
            && (s.ctl.closing && s.wires.open ==> s.wires.scheduled > 0 || (s.book.buffer != [] && s.wires.writer))
  {
    RunIsSound(events);
  }

  /** What the kernel took is a prefix of what was accepted; with the buffer it is all of it exactly when no call or event
      threw bytes away: a failed write, or an abort or hang-up with bytes in the buffer, or a write after the close of a
      pipe that stranded some. */
  lemma {:induction false} PipeBytes(events: seq<Event>)
    ensures var b := Run(events).book;
            && b.sent <= b.accepted
            && (b.sent + b.buffer == b.accepted <==> !Thrown(events))
  {
    RunIsSound(events);
    ThrownDrops(events);
    var b := Run(events).book;
    assert |b.sent + b.buffer| == |b.sent| + |b.buffer|;
  }

  /** Bytes are thrown away only on a transport that an error, an abort or a hang-up closed, or that stranded bytes. */
  lemma {:induction false} ThrownNeedsBreak(events: seq<Event>)
    ensures Thrown(events) ==> Run(events).ctl.closing && (Run(events).trace.broken || Run(events).trace.stranded)
  {
    RunIsSound(events);
    ThrownDrops(events);
  }

  /** The fd is polled for writing exactly while there are bytes to write, so the write handler's assertion holds whenever
      it is registered; a closed transport leaves nothing registered, exactly when no bytes were stranded. */
  lemma {:induction false} WriterMatchesBuffer(events: seq<Event>)
    ensures var s := Run(events);
            && (s.wires.open ==> (s.wires.writer <==> s.book.buffer != []))
            && (!s.wires.open ==> !s.wires.reader && (!s.wires.writer <==> !s.trace.stranded))
            && (!s.ctl.closing ==> s.wires.reader)
  {
    RunIsSound(events);
  }

  /** A paused protocol has bytes pending, more than the high mark means paused, and pauses and resumes alternate. */
  lemma {:induction false} PipeFlowControl(events: seq<Event>)
    ensures var s := Run(events);
            && Alternates(s.trace.log) && 0 <= s.ctl.lo <= s.ctl.hi
            && (s.ctl.protoPaused && !s.ctl.closing ==> s.book.buffer != [] && s.wires.writer)
            && (s.wires.open ==> s.ctl.protoPaused == ToldToPause(s.trace.log))
            && (s.wires.open && |s.book.buffer| > s.ctl.hi ==> s.ctl.protoPaused)
  {
    RunIsSound(events);
  }

  // ----- closing from resume_writing -----

  /** resume_writing returns with the transport closing and bytes buffered, and connection_lost does not abort it. */
  predicate LeavesBytes(s: Pipe, e: Event) {
    && e.WritePoll? && s.wires.open && s.book.buffer != [] && Taken(e.kernel, |s.book.buffer|) == |s.book.buffer| && !e.kernel.Failed?
    && var t := MaybeResume(Drained(s), e.inResume);
       && t.ctl.closing
       && ExecAll(Losing(t.(wires := t.wires.(reader := false))), e.inLost).book.buffer != []
  }

  predicate LeavesBytesSomewhere(events: seq<Event>) {
    events != [] && (LeavesBytesSomewhere(events[..|events|-1]) || LeavesBytes(Run(events[..|events|-1]), events[|events|-1]))
  }

  lemma {:induction false} OnlyReleaseStrands(s: Pipe, e: Event)
    requires AtRest(s)
    ensures Next(s, e).trace.stranded <==> s.trace.stranded || LeavesBytes(s, e)
  {
    match e
    case App(call) => ExecKeeps(s, call);
    case ReadReady =>
    case WritePoll(kernel, inResume, inLost) =>
      if s.wires.open && s.book.buffer != [] {
        MaybeResumeKeeps(s, inResume);
      }
    case LossDue(inLost) =>
      if s.wires.scheduled > 0 && s.wires.open {
        LosingKeeps(s);
        var t := Losing(s.(wires := s.wires.(scheduled := s.wires.scheduled - 1)));
        ClosedStaysEmpty(t, inLost);
      }
  }

  lemma {:induction false} ClosedCallAddsNothing(s: Pipe, c: Call)
    requires s.ctl.closing && s.book.buffer == []
    ensures Exec(s, c).book.buffer == []
  {
    match c
    case SetLimits(high, low, inPause) =>
      if Limits(high, low).Some? {
        var (h, l) := Limits(high, low).value;
        var t := s.(ctl := s.ctl.(hi := h, lo := l));
        assert |t.book.buffer| == 0 && MaybePause(t, inPause) == t;
      }
    case _ =>
  }

  lemma {:induction false} ClosedStaysEmpty(s: Pipe, cs: seq<Call>)
    requires Sound(s) && s.ctl.closing && s.book.buffer == []
    ensures ExecAll(s, cs).book.buffer == []
    decreases |cs|
  {
    if cs != [] {
      ExecKeeps(s, cs[0]);
      ClosedCallAddsNothing(s, cs[0]);
      ClosedStaysEmpty(Exec(s, cs[0]), cs[1..]);
    }
  }

  /** Bytes are stranded, and the fd left registered, exactly by the runs in which that happened. */
  lemma {:induction false} StrandedExactly(events: seq<Event>)
    ensures Run(events).trace.stranded <==> LeavesBytesSomewhere(events)
  {
    if events != [] {
      RunIsSound(events[..|events|-1]);
      StrandedExactly(events[..|events|-1]);
      OnlyReleaseStrands(Run(events[..|events|-1]), events[|events|-1]);
    }
  }

  /** A closed pipe has delivered every accepted byte exactly when none was thrown away or stranded. */
  lemma {:induction false} GracefulCloseDelivers(events: seq<Event>)
    requires !Run(events).wires.open
    ensures Run(events).book.sent == Run(events).book.accepted <==> !Thrown(events) && !LeavesBytesSomewhere(events)
  {
    RunIsSound(events);
    ThrownDrops(events);
    StrandedExactly(events);
    var b := Run(events).book;
    assert b.sent + [] == b.sent;
  }

  // ----- the low mark -----

  lemma {:induction false} CallsResumeNone(s: Pipe, cs: seq<Call>)
    ensures ResumeCount(ExecAll(s, cs).trace.log) == ResumeCount(s.trace.log)
    decreases cs, 0
  {
    if cs != [] {
      CallResumesNone(s, cs[0]);
      CallsResumeNone(Exec(s, cs[0]), cs[1..]);
    }
  }

  lemma {:induction false} PauseResumesNone(s: Pipe, inPause: seq<Call>)
    ensures ResumeCount(MaybePause(s, inPause).trace.log) == ResumeCount(s.trace.log)
    decreases inPause, 1
  {
    CallsResumeNone(Pausing(s), inPause);
  }

  lemma {:induction false} CallResumesNone(s: Pipe, c: Call)
    ensures ResumeCount(Exec(s, c).trace.log) == ResumeCount(s.trace.log)
    decreases c, 2
  {
    match c
    case Write(data, kernel, inPause) =>
      PauseResumesNone(Enqueue(s, data, if s.book.buffer == [] then Taken(kernel, |data|) else 0), inPause);
    case SetLimits(high, low, inPause) =>
      if Limits(high, low).Some? {
        var (h, l) := Limits(high, low).value;
        PauseResumesNone(s.(ctl := s.ctl.(hi := h, lo := l)), inPause);
      }
    case _ =>
  }

  /** The event lets the kernel take the whole buffer of an open pipe whose protocol is paused. */
  predicate EmptiesPaused(s: Pipe, e: Event) {
    && e.WritePoll? && s.wires.open && s.ctl.protoPaused && s.book.buffer != []
    && !e.kernel.Failed? && Taken(e.kernel, |s.book.buffer|) == |s.book.buffer|
  }

  lemma {:induction false} LossResumesNone(s: Pipe, inLost: seq<Call>)
    ensures ResumeCount(Lose(s, inLost).trace.log) == ResumeCount(s.trace.log)
  {
    CallsResumeNone(Losing(s), inLost);
  }

  /** resume_writing is called exactly when the kernel takes the whole buffer of a paused protocol, wherever the low mark
      is; a write that takes part of it never resumes. */
  lemma {:induction false} ResumesExactly(s: Pipe, e: Event)
    requires AtRest(s)
    ensures ResumeCount(Next(s, e).trace.log) == ResumeCount(s.trace.log) + (if EmptiesPaused(s, e) then 1 else 0)
  {
    match e
    case App(call) => CallResumesNone(s, call);
    case ReadReady =>
    case WritePoll(kernel, inResume, inLost) =>
      if s.wires.open && s.book.buffer != [] && !kernel.Failed? && Taken(kernel, |s.book.buffer|) == |s.book.buffer| {
        var m := MaybeResume(Drained(s), inResume);
        CallsResumeNone(Resuming(Drained(s)), inResume);
        LossResumesNone(m.(wires := m.wires.(reader := false)), inLost);
      }
    case LossDue(inLost) =>
      if s.wires.scheduled > 0 {
        LossResumesNone(s.(wires := s.wires.(scheduled := s.wires.scheduled - 1)), inLost);
      }
  }

  /** Two calls that differ in low marks at most: with the high mark given, both valid or both not. */
  predicate SameHigh(c: Call, d: Call)
    decreases c, 1
  {
    match c
    case Write(data, kernel, inPause) => d.Write? && d.data == data && d.kernel == kernel && SameHighs(inPause, d.inPause)
    case SetLimits(high, low, inPause) =>
      && d.SetLimits? && d.high == high && SameHighs(inPause, d.inPause)
      && (d.low == low || (high.Some? && Limits(high, low).Some? == Limits(high, d.low).Some?))
    case _ => d == c
  }

  predicate SameHighs(cs: seq<Call>, ds: seq<Call>)
    decreases cs, 0
  {
    if cs == [] then ds == [] else ds != [] && SameHigh(cs[0], ds[0]) && SameHighs(cs[1..], ds[1..])
  }

  predicate SameButLow(s: Pipe, t: Pipe) {
    t == s.(ctl := s.ctl.(lo := t.ctl.lo))
  }

  lemma {:induction false} CallsIgnoreLow(s: Pipe, t: Pipe, cs: seq<Call>, ds: seq<Call>)
    requires SameButLow(s, t) && SameHighs(cs, ds)
    ensures SameButLow(ExecAll(s, cs), ExecAll(t, ds))
    decreases cs, 0
  {
    if cs != [] {
      CallIgnoresLow(s, t, cs[0], ds[0]);
      CallsIgnoreLow(Exec(s, cs[0]), Exec(t, ds[0]), cs[1..], ds[1..]);
    }
  }

  lemma {:induction false} PauseIgnoresLow(s: Pipe, t: Pipe, cs: seq<Call>, ds: seq<Call>)
    requires SameButLow(s, t) && SameHighs(cs, ds)
    ensures SameButLow(MaybePause(s, cs), MaybePause(t, ds))
    decreases cs, 1
  {
    CallsIgnoreLow(Pausing(s), Pausing(t), cs, ds);
  }

  lemma {:induction false} CallIgnoresLow(s: Pipe, t: Pipe, c: Call, d: Call)
    requires SameButLow(s, t) && SameHigh(c, d)
    ensures SameButLow(Exec(s, c), Exec(t, d))
    decreases c, 2
  {
    match c
    case Write(data, kernel, inPause) =>
      var n := if s.book.buffer == [] then Taken(kernel, |data|) else 0;
      PauseIgnoresLow(Enqueue(s, data, n), Enqueue(t, data, n), inPause, d.inPause);
    case SetLimits(high, low, inPause) =>
      if Limits(high, low).Some? {
        var (h, l) := Limits(high, low).value;
        var (h', l') := Limits(high, d.low).value;
        PauseIgnoresLow(s.(ctl := s.ctl.(hi := h, lo := l)), t.(ctl := t.ctl.(hi := h', lo := l')), inPause, d.inPause);
      }
    case _ =>
  }

  predicate SameHighEvent(e: Event, f: Event) {
    match e
    case App(call) => f.App? && SameHigh(call, f.call)
    case ReadReady => f == e
    case WritePoll(kernel, inResume, inLost) =>
      f.WritePoll? && f.kernel == kernel && SameHighs(inResume, f.inResume) && SameHighs(inLost, f.inLost)
    case LossDue(inLost) => f.LossDue? && SameHighs(inLost, f.inLost)
  }

  lemma {:induction false} LossIgnoresLow(s: Pipe, t: Pipe, cs: seq<Call>, ds: seq<Call>)
    requires SameButLow(s, t) && SameHighs(cs, ds)
    ensures SameButLow(Lose(s, cs), Lose(t, ds))
  {
    CallsIgnoreLow(Losing(s), Losing(t), cs, ds);
  }

  lemma {:induction false} DrainIgnoresLow(s: Pipe, t: Pipe, e: Event, f: Event)
    requires AtRest(s) && AtRest(t) && SameButLow(s, t) && SameHighEvent(e, f) && e.WritePoll?
    ensures SameButLow(Next(s, e), Next(t, f))
  {
    if s.wires.open && s.book.buffer != [] && !e.kernel.Failed? && Taken(e.kernel, |s.book.buffer|) == |s.book.buffer| {
      CallsIgnoreLow(Resuming(Drained(s)), Resuming(Drained(t)), e.inResume, f.inResume);
      var m, n := MaybeResume(Drained(s), e.inResume), MaybeResume(Drained(t), f.inResume);
      assert SameButLow(m, n);
      LossIgnoresLow(m.(wires := m.wires.(reader := false)), n.(wires := n.wires.(reader := false)), e.inLost, f.inLost);
    }
  }

  lemma {:induction false} NextIgnoresLow(s: Pipe, t: Pipe, e: Event, f: Event)
    requires AtRest(s) && AtRest(t) && SameButLow(s, t) && SameHighEvent(e, f)
    ensures SameButLow(Next(s, e), Next(t, f))
  {
    match e
    case App(call) => CallIgnoresLow(s, t, call, f.call);
    case ReadReady =>
    case WritePoll(kernel, inResume, inLost) => DrainIgnoresLow(s, t, e, f);
    case LossDue(inLost) =>
      if s.wires.scheduled > 0 {
        LossIgnoresLow(s.(wires := s.wires.(scheduled := s.wires.scheduled - 1)),
                       t.(wires := t.wires.(scheduled := t.wires.scheduled - 1)), inLost, f.inLost);
      }
  }

  /** The low mark has no effect: two runs that differ in valid low marks at most, the high marks being given, make the
      same callbacks, send the same bytes and leave the same state but for the mark. */
  lemma {:induction false} LowMarkHasNoEffect(es: seq<Event>, fs: seq<Event>)
    requires |es| == |fs| && forall i :: 0 <= i < |es| ==> SameHighEvent(es[i], fs[i])
    ensures Run(es).trace.log == Run(fs).trace.log && Run(es).book == Run(fs).book
    ensures SameButLow(Run(es), Run(fs))
  {
    if es != [] {
      LowMarkHasNoEffect(es[..|es|-1], fs[..|fs|-1]);
      RunIsSound(es[..|es|-1]);
      RunIsSound(fs[..|fs|-1]);
      NextIgnoresLow(Run(es[..|es|-1]), Run(fs[..|fs|-1]), es[|es|-1], fs[|fs|-1]);
    }
  }

  // ----- two runs -----

  lemma {:induction false} RunOn(events: seq<Event>, s: Pipe, e: Event) returns (longer: seq<Event>)
    requires Run(events) == s
    ensures longer == events + [e] && Run(longer) == Next(s, e)
  {
    longer := events + [e];
    assert longer[..|longer|-1] == events;
  }

  lemma {:induction false} ExecOne(s: Pipe, c: Call)
    ensures ExecAll(s, [c]) == Exec(s, c)
  {
    assert [c][1..] == [];
  }

  lemma {:induction false} ExecTwo(s: Pipe, c: Call, d: Call)
    ensures ExecAll(s, [c, d]) == Exec(Exec(s, c), d)
  {
    assert [c, d][1..] == [d];
    ExecOne(Exec(s, c), d);
  }

  /** A protocol that writes and closes from resume_writing loses the bytes and leaves the fd registered. */
  lemma {:induction false} CloseInResumeStrands() returns (events: seq<Event>)
    ensures var s := Run(events);
            && s.trace.stranded && !s.trace.broken && !s.wires.open && s.wires.writer
            && s.book.accepted == [1, 2] && s.book.sent == [1] && s.book.buffer == [2]
  {
    var again := [Write([2], WouldBlock, []), Close];
    events := [];
    events := RunOn(events, FRESH, App(SetLimits(Some(0), None, [])));
    var s1 := Exec(FRESH, SetLimits(Some(0), None, []));
    assert s1 == FRESH.(ctl := FRESH.ctl.(hi := 0, lo := 0));
    events := RunOn(events, s1, App(Write([1], WouldBlock, [])));
    var s2 := Exec(s1, Write([1], WouldBlock, []));
    assert s2.book == Book([1], [1], [], []) && s2.ctl.protoPaused && s2.wires == FRESH.wires.(writer := true);
    events := RunOn(events, s2, WritePoll(Wrote(1), again, []));
    var s3 := Resuming(Drained(s2));
    ExecTwo(s3, again[0], again[1]);
    var s4 := Exec(s3, again[0]);
    assert s4.book.buffer == [2] && !s4.ctl.closing && s4.wires.writer && s4.wires.open;
    var s5 := Exec(s4, Close);
    assert s5.ctl.closing && s5.book.buffer == [2];
  }

  /** A write handler that sends part of the buffer does not resume the protocol, however far below the low mark. */
  lemma {:induction false} PartialDrainStaysPaused() returns (events: seq<Event>)
    ensures var s := Run(events);
            s.ctl.protoPaused && !s.ctl.closing && |s.book.buffer| < s.ctl.lo
  {
    events := [];
    events := RunOn(events, FRESH, App(SetLimits(Some(2), Some(2), [])));
    var s1 := Exec(FRESH, SetLimits(Some(2), Some(2), []));
    assert s1 == FRESH.(ctl := FRESH.ctl.(hi := 2, lo := 2));
    events := RunOn(events, s1, App(Write([1, 2, 3], WouldBlock, [])));
    var s2 := Exec(s1, Write([1, 2, 3], WouldBlock, []));
    assert s2.book.buffer == [1, 2, 3] && s2.ctl.protoPaused && s2.wires.open && !s2.ctl.closing;
    events := RunOn(events, s2, WritePoll(Wrote(2), [], []));
  }
}
