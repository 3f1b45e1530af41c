/** Which calls and events throw away bytes that the pipe's write transport had accepted, told from the calls alone. */
module PipeWatch {
  import opened Prelude
  import opened Callbacks
  import opened PipeMachine
  import opened PipeInvariant

  /** A write that fails at once, or an abort of an open pipe with bytes in the buffer. */
  predicate Throws(s: Pipe, c: Call) {
    match c
    case Write(data, kernel, _) =>
      data != [] && s.ctl.connLost == 0 && !s.ctl.closing && s.book.buffer == [] && kernel.Failed?
    case Abort => s.wires.open && s.book.buffer != []
    case _ => false
  }

  predicate ThrowsInPause(s: Pipe, inPause: seq<Call>)
    decreases inPause, 1
  {
    |s.book.buffer| > s.ctl.hi && !s.ctl.protoPaused && s.wires.open && ThrowsAll(Pausing(s), inPause)
  }

  /** The call throws bytes away, or one of its reactions does. */
  predicate ThrowsIn(s: Pipe, c: Call)
    decreases c, 2
  {
    || Throws(s, c)
    || match c
       case Write(data, kernel, inPause) =>
         (var n := if s.book.buffer == [] then Taken(kernel, |data|) else 0;
          && data != [] && s.ctl.connLost == 0 && !s.ctl.closing && n < |data|
          && !(s.book.buffer == [] && kernel.Failed?) && ThrowsInPause(Enqueue(s, data, n), inPause))
       case SetLimits(high, low, inPause) =>
         (match Limits(high, low)
          case None => false
          case Some((h, l)) => ThrowsInPause(s.(ctl := s.ctl.(hi := h, lo := l)), inPause))
       case _ => false
  }

  predicate ThrowsAll(s: Pipe, cs: seq<Call>)
    decreases cs, 0
  {
    cs != [] && (ThrowsIn(s, cs[0]) || ThrowsAll(Exec(s, cs[0]), cs[1..]))
  }

  /** The write handler resumes the protocol. */
  predicate Resumes(s: Pipe) {
    s.ctl.protoPaused && |s.book.buffer| <= s.ctl.lo
  }

  predicate ThrowsInDrain(s: Pipe, inResume: seq<Call>, inLost: seq<Call>) {
    var d := Drained(s);
    var m := MaybeResume(d, inResume);
    || (Resumes(d) && ThrowsAll(Resuming(d), inResume))
    || (m.ctl.closing && m.wires.open && ThrowsAll(Losing(m.(wires := m.wires.(reader := false))), inLost))
  }

  /** The event throws bytes away: a hang-up or a failed write with bytes in the buffer, a write to whatever has the file
      descriptor of a closed pipe, or a call. */
  predicate ThrowsAt(s: Pipe, e: Event) {
    match e
    case App(call) => ThrowsIn(s, call)
    case ReadReady => s.wires.open && s.book.buffer != []
    case WritePoll(kernel, inResume, inLost) =>
      && s.book.buffer != []
      && (|| kernel.Failed?
          || (!s.wires.open && Taken(kernel, |s.book.buffer|) > 0)
          || (s.wires.open && Taken(kernel, |s.book.buffer|) == |s.book.buffer| && ThrowsInDrain(s, inResume, inLost)))
    case LossDue(inLost) =>
      s.wires.scheduled > 0 && s.wires.open && ThrowsAll(Losing(s.(wires := s.wires.(scheduled := s.wires.scheduled - 1))), inLost)
  }

  predicate Thrown(events: seq<Event>) {
    events != [] && (Thrown(events[..|events|-1]) || ThrowsAt(Run(events[..|events|-1]), events[|events|-1]))
  }

  // ----- what it reads -----

  predicate Dropped(s: Pipe) {
    s.book.dropped != []
  }

  lemma {:induction false} ThrowsAllDrops(s: Pipe, cs: seq<Call>)
    ensures Dropped(ExecAll(s, cs)) <==> Dropped(s) || ThrowsAll(s, cs)
    decreases cs, 0
  {
    if cs != [] {
      ThrowsInDrops(s, cs[0]);
      ThrowsAllDrops(Exec(s, cs[0]), cs[1..]);
    }
  }

  lemma {:induction false} PauseDrops(s: Pipe, inPause: seq<Call>)
    ensures Dropped(MaybePause(s, inPause)) <==> Dropped(s) || ThrowsInPause(s, inPause)
    decreases inPause, 1
  {
    ThrowsAllDrops(Pausing(s), inPause);
  }

  lemma {:induction false} ThrowsInDrops(s: Pipe, c: Call)
    ensures Dropped(Exec(s, c)) <==> Dropped(s) || ThrowsIn(s, c)
    decreases c, 2
  {
    match c
    case Write(data, kernel, inPause) =>
      PauseDrops(Enqueue(s, data, if s.book.buffer == [] then Taken(kernel, |data|) else 0), inPause);
    case SetLimits(high, low, inPause) =>
      if Limits(high, low).Some? {
        var (h, l) := Limits(high, low).value;
        PauseDrops(s.(ctl := s.ctl.(hi := h, lo := l)), inPause);
      }
    case _ =>
  }

  lemma {:induction false} LossDrops(s: Pipe, inLost: seq<Call>)
    ensures Dropped(Lose(s, inLost)) <==> Dropped(s) || (s.wires.open && ThrowsAll(Losing(s), inLost))
  {
    ThrowsAllDrops(Losing(s), inLost);
  }

  lemma {:induction false} DrainDrops(s: Pipe, inResume: seq<Call>, inLost: seq<Call>)
    ensures Dropped(AfterResume(MaybeResume(Drained(s), inResume), inLost)) <==> Dropped(s) || ThrowsInDrain(s, inResume, inLost)
  {
    var d := Drained(s);
    var m := MaybeResume(d, inResume);
    ThrowsAllDrops(Resuming(d), inResume);
    LossDrops(m.(wires := m.wires.(reader := false)), inLost);
  }

  lemma {:induction false} ThrowsAtDrops(s: Pipe, e: Event)
    ensures Dropped(Next(s, e)) <==> Dropped(s) || ThrowsAt(s, e)
  {
    match e
    case App(call) => ThrowsInDrops(s, call);
    case ReadReady =>
    case WritePoll(kernel, inResume, inLost) => DrainDrops(s, inResume, inLost);
    case LossDue(inLost) =>
      if s.wires.scheduled > 0 {
        LossDrops(s.(wires := s.wires.(scheduled := s.wires.scheduled - 1)), inLost);
      }
  }

  /** Over whole runs, bytes have been thrown away exactly if some call or event did so. */
  lemma {:induction false} ThrownDrops(events: seq<Event>)
    ensures Dropped(Run(events)) <==> Thrown(events)
  {
    if events != [] {
      ThrownDrops(events[..|events|-1]);
      ThrowsAtDrops(Run(events[..|events|-1]), events[|events|-1]);
    }
  }
}
