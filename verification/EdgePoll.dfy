/** One stream's fd under a poller that reports edges, as mio's does on Linux: an event is due when a readiness of
    interest is new or the interest is registered anew, and reports all readiness of interest there is. `handle_io_tcps`
    (src/event_loop.rs) starts one handle for it. By NoWriterIsStranded of TcpTheorems, WRITABLE is of interest exactly
    while an attached transport has bytes pending. */
module EdgePoll {
  import opened Prelude
  import opened Interests

  datatype Handle = ReadHandle | WriteHandle

  /** What the poller has registered, what the kernel has ready, whether an event is due, whether a write handle has been
      started and not ended; and the handles started so far. */
  datatype Fd = Fd(interest: Mask, ready: Mask, due: bool, writing: bool, started: seq<Handle>)

  /** A fresh connection is writable and polled for reading. */
  const ATTACHED := Fd(READABLE.Flags(), WRITABLE.Flags(), false, false, [])

  predicate Common(a: Mask, b: Mask) {
    (a.readable && b.readable) || (a.writable && b.writable)
  }

  datatype Step =
    | Register(interest: Mask)     // any registry call; no flags is a deregistration
    | Arrives(flags: Mask)         // the kernel has new readiness
    | ReadDry                      // a read handle has met WouldBlock
    | Deliver                      // poll returns the event that is due
    | Wrote(blocked: bool)         // the write handle ends: the kernel takes no more, or the queue is empty

  /** The handle that an event starts. */
  function Started(flags: Mask): Option<Handle> {
    if flags.readable then Some(ReadHandle) else if flags.writable then Some(WriteHandle) else None
  }

  function Reported(s: Fd): Mask {
    Mask(s.interest.readable && s.ready.readable, s.interest.writable && s.ready.writable)
  }

  function Registered(s: Fd, interest: Mask): Fd {
    s.(interest := interest, due := Common(s.ready, interest))
  }

  /** A step that cannot happen changes nothing. */
  function Apply(s: Fd, step: Step): Fd {
    match step
    case Register(interest) => Registered(s, interest)
    case Arrives(flags) => s.(ready := s.ready.Union(flags), due := s.due || Common(flags, s.interest))
    case ReadDry =>
      var ready := s.ready.Minus(READABLE.Flags());
      s.(ready := ready, due := s.due && Common(ready, s.interest))
    case Deliver =>
      if !s.due || s.writing then s
      else
        (match Started(Reported(s))
         case None => s.(due := false)
         case Some(h) => s.(due := false, writing := h.WriteHandle?, started := s.started + [h]))
    case Wrote(blocked) =>
      if !s.writing then s
      else if blocked then
        var ready := s.ready.Minus(WRITABLE.Flags());
        s.(writing := false, ready := ready, due := s.due && Common(ready, s.interest))
      else Registered(s.(writing := false), s.interest.Minus(WRITABLE.Flags()))
  }

  function After(s: Fd, steps: seq<Step>): Fd {
    if steps == [] then s else Apply(After(s, steps[..|steps|-1]), steps[|steps|-1])
  }

  /** Bytes are pending, the kernel would take them, and neither an event nor a write handle is under way. */
  predicate Stuck(s: Fd) {
    s.interest.writable && s.ready.writable && !s.due && !s.writing
  }

  /** Whether the last event delivered was one that reported the fd both readable and writable, nothing was registered
      since, no write handle ended, and nothing new of interest came; given whether it was so before the step. */
  predicate StillOverlooked(before: Fd, step: Step, was: bool) {
    match step
    case Register(_) => false
    case Arrives(flags) => was && !Common(flags, before.interest)
    case ReadDry => was
    case Deliver => if before.due && !before.writing then Reported(before) == BOTH.Flags() else was
    case Wrote(_) => was && !before.writing
  }

  predicate Overlooked(s: Fd, steps: seq<Step>) {
    && steps != []
    && StillOverlooked(After(s, steps[..|steps|-1]), steps[|steps|-1], Overlooked(s, steps[..|steps|-1]))
  }

  lemma {:induction false} StuckStep(s: Fd, step: Step)
    requires s.due ==> Common(s.ready, s.interest)
    ensures Stuck(Apply(s, step)) <==> StillOverlooked(s, step, Stuck(s))
    ensures Apply(s, step).due ==> Common(Apply(s, step).ready, Apply(s, step).interest)
  {
  }

  /** In every run pending bytes that the kernel would take are left without event and handle exactly after such an event:
      only its read handle was started. */
  lemma {:induction false} StuckExactly(steps: seq<Step>)
    ensures var s := After(ATTACHED, steps);
            && (Stuck(s) <==> Overlooked(ATTACHED, steps))
            && (s.due ==> Common(s.ready, s.interest))
  {
    if steps != [] {
      StuckExactly(steps[..|steps|-1]);
      StuckStep(After(ATTACHED, steps[..|steps|-1]), steps[|steps|-1]);
    }
  }

  /** The peer sends `n` times more, each time before the last was read. */
  function Chatter(n: nat): seq<Step> {
    if n == 0 then [] else Chatter(n - 1) + [Arrives(READABLE.Flags())] + [Deliver] + [ReadDry]
  }

  function Reads(n: nat): seq<Handle> {
    seq(n, _ => ReadHandle)
  }

  lemma AfterOne(s: Fd, steps: seq<Step>, step: Step)
    ensures After(s, steps + [step]) == Apply(After(s, steps), step)
  {
    var longer := steps + [step];
    assert longer[..|longer|-1] == steps;
  }

  /** However long the peer goes on sending, a stuck writer that is polled for reading stays stuck: every event starts a
      read handle. */
  lemma {:induction false} ChatterStarves(s: Fd, n: nat)
    requires Stuck(s) && s.interest.readable
    ensures var t := After(s, Chatter(n));
            Stuck(t) && t.interest == s.interest && t.started == s.started + Reads(n)
  {
    if n > 0 {
      ChatterStarves(s, n - 1);
      var before, arrives := Chatter(n - 1), Arrives(READABLE.Flags());
      AfterOne(s, before, arrives);
      AfterOne(s, before + [arrives], Deliver);
      AfterOne(s, before + [arrives] + [Deliver], ReadDry);
      assert Reads(n) == Reads(n - 1) + [ReadHandle];
    }
  }

  /** Any registry call frees a stuck writer, pause_reading among them: the next event is due, and once reading is not of
      interest it starts the write handle. */
  lemma {:induction false} PauseFrees(s: Fd)
    requires Stuck(s)
    ensures var t := After(s, [Register(WRITABLE.Flags())] + [Deliver]);
            t.writing && t.started == s.started + [WriteHandle]
  {
    AfterOne(s, [], Register(WRITABLE.Flags()));
    assert [] + [Register(WRITABLE.Flags())] == [Register(WRITABLE.Flags())];
    AfterOne(s, [Register(WRITABLE.Flags())], Deliver);
  }

  /** A write that blocks, then the kernel making room just as the peer sends: the bytes are stuck. */
  lemma {:induction false} ReadHidesWrite() returns (steps: seq<Step>)
    ensures Stuck(After(ATTACHED, steps)) && After(ATTACHED, steps).started == [WriteHandle, ReadHandle]
  {
    var s := ATTACHED;
    steps := [];
    assert After(ATTACHED, steps) == s;
    AfterOne(ATTACHED, steps, Register(BOTH.Flags()));
    steps, s := steps + [Register(BOTH.Flags())], Apply(s, Register(BOTH.Flags()));
    assert s == Fd(BOTH.Flags(), WRITABLE.Flags(), true, false, []);
    AfterOne(ATTACHED, steps, Deliver);
    steps, s := steps + [Deliver], Apply(s, Deliver);
    assert s == Fd(BOTH.Flags(), WRITABLE.Flags(), false, true, [WriteHandle]);
    AfterOne(ATTACHED, steps, Wrote(true));
    steps, s := steps + [Wrote(true)], Apply(s, Wrote(true));
    assert s == Fd(BOTH.Flags(), NOTHING, false, false, [WriteHandle]);
    AfterOne(ATTACHED, steps, Arrives(BOTH.Flags()));
    steps, s := steps + [Arrives(BOTH.Flags())], Apply(s, Arrives(BOTH.Flags()));
    assert s == Fd(BOTH.Flags(), BOTH.Flags(), true, false, [WriteHandle]);
    AfterOne(ATTACHED, steps, Deliver);
    steps, s := steps + [Deliver], Apply(s, Deliver);
    assert s == Fd(BOTH.Flags(), BOTH.Flags(), false, false, [WriteHandle, ReadHandle]);
    AfterOne(ATTACHED, steps, ReadDry);
    steps, s := steps + [ReadDry], Apply(s, ReadDry);
    assert s == Fd(BOTH.Flags(), WRITABLE.Flags(), false, false, [WriteHandle, ReadHandle]);
  }
}
