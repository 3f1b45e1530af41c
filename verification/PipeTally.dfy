/** The books of a pipe's write transport kept from outside: what its protocol wrote and asked for, at any depth of
    reactions, and what the kernel and the loop did, event by event. The lemmas say that the transport's own fields are
    these books. */
module PipeTally {
  import opened Prelude
  import opened Callbacks
  import opened PipeMachine
  import opened PipeInvariant

  datatype Tally = Tally(accepted: Bytes, sent: Bytes, closing: bool, refused: nat, hi: int, lo: int,
                         scheduled: nat, pauses: nat, resumes: nat, losses: nat, errors: nat)

  function Shown(s: Pipe): Tally {
    Tally(s.book.accepted, s.book.sent, s.ctl.closing, s.ctl.connLost, s.ctl.hi, s.ctl.lo, s.wires.scheduled,
          PauseCount(s.trace.log), ResumeCount(s.trace.log), LostCount(s.trace.log), s.trace.errors)
  }

  /** An immediate close: of an open pipe it schedules the loss, of a closed one it raises. */
  function NoteShut(open: bool, a: Tally): Tally {
    if open then a.(closing := true, scheduled := a.scheduled + 1) else a.(closing := true, errors := a.errors + 1)
  }

  /** The end of writing, which schedules the loss at once if nothing is buffered. */
  function NoteEnd(s: Pipe, a: Tally): Tally {
    if s.ctl.closing then a
    else a.(closing := true, scheduled := a.scheduled + (if s.book.buffer == [] then 1 else 0))
  }

  /** The entry for one call made in the state `s`, its reactions apart. */
  function Note(s: Pipe, c: Call, a: Tally): Tally {
    match c
    case Write(data, kernel, _) =>
      if data == [] then a
      else if s.ctl.connLost > 0 || s.ctl.closing then a.(refused := a.refused + 1)
      else if s.book.buffer == [] && kernel.Failed? then
        NoteShut(s.wires.open, a.(accepted := a.accepted + data, refused := a.refused + 1))
      else a.(accepted := a.accepted + data, sent := a.sent + (if s.book.buffer == [] then TakenOf(data, kernel) else []))
    case WriteEof => NoteEnd(s, a)
    case Close => if s.wires.open then NoteEnd(s, a) else a
    case Abort => NoteShut(s.wires.open, a)
    case SetLimits(high, low, _) =>
      (match Limits(high, low)
       case None => a.(errors := a.errors + 1)
       case Some((h, l)) => a.(hi := h, lo := l))
  }

  function NoteAll(s: Pipe, cs: seq<Call>, a: Tally): Tally
    decreases cs, 0
  {
    if cs == [] then a else NoteAll(Exec(s, cs[0]), cs[1..], NoteCall(s, cs[0], a))
  }

  function NotePause(s: Pipe, inPause: seq<Call>, a: Tally): Tally
    decreases inPause, 1
  {
    if |s.book.buffer| <= s.ctl.hi || s.ctl.protoPaused then a
    else if s.wires.open then NoteAll(Pausing(s), inPause, a.(pauses := a.pauses + 1))
    else a.(errors := a.errors + 1)
  }

  /** The entries for a call and all its reactions, in the order in which they are made. */
  function NoteCall(s: Pipe, c: Call, a: Tally): Tally
    decreases c, 2
  {
    var a1 := Note(s, c, a);
    match c
    case Write(data, kernel, inPause) =>
      var n := if s.book.buffer == [] then Taken(kernel, |data|) else 0;
      if data == [] || s.ctl.connLost > 0 || s.ctl.closing || (s.book.buffer == [] && kernel.Failed?) || n == |data| then a1
      else NotePause(Enqueue(s, data, n), inPause, a1)
    case SetLimits(high, low, inPause) =>
      (match Limits(high, low)
       case None => a1
       case Some((h, l)) => NotePause(s.(ctl := s.ctl.(hi := h, lo := l)), inPause, a1))
    case _ => a1
  }

  // ----- the loop's handles -----

  function NoteLoss(s: Pipe, inLost: seq<Call>, a: Tally): Tally {
    if s.wires.open then NoteAll(Losing(s), inLost, a.(losses := a.losses + 1)) else a.(errors := a.errors + 1)
  }

  /** The whole buffer has gone: a paused protocol is resumed, then a close completed. */
  function NoteDrain(s: Pipe, inResume: seq<Call>, inLost: seq<Call>, a: Tally): Tally {
    var d := Drained(s);
    var a1 := if s.ctl.protoPaused && 0 <= s.ctl.lo then NoteAll(Resuming(d), inResume, a.(resumes := a.resumes + 1)) else a;
    var m := MaybeResume(d, inResume);
    if m.ctl.closing then NoteLoss(m.(wires := m.wires.(reader := false)), inLost, a1) else a1
  }

  function NoteEvent(s: Pipe, e: Event, a: Tally): Tally {
    match e
    case App(call) => NoteCall(s, call, a)
    case ReadReady => NoteShut(s.wires.open, a)
    case WritePoll(kernel, inResume, inLost) =>
      var taken := TakenOf(s.book.buffer, kernel);
      if s.book.buffer == [] then a.(errors := a.errors + 1)
      else if kernel.Failed? then
        (if s.wires.open then NoteShut(true, a.(refused := a.refused + 1))
         else a.(refused := a.refused + 1, errors := a.errors + 1))
      else if !s.wires.open then (if taken == s.book.buffer then a.(errors := a.errors + 1) else a)
      else if taken != s.book.buffer then a.(sent := a.sent + taken)
      else NoteDrain(s, inResume, inLost, a.(sent := a.sent + taken))
    case LossDue(inLost) =>
      if s.wires.scheduled == 0 then a
      else
        var t := s.(wires := s.wires.(scheduled := s.wires.scheduled - 1));
        if a.scheduled > 0 then NoteLoss(t, inLost, a.(scheduled := a.scheduled - 1)) else a
  }

  function Tallied(events: seq<Event>): Tally {
    if events == [] then Tally([], [], false, 0, 64 * 1024, 16 * 1024, 0, 0, 0, 0, 0)
    else NoteEvent(Run(events[..|events|-1]), events[|events|-1], Tallied(events[..|events|-1]))
  }

  // ----- they agree -----

  lemma {:induction false} AllShow(s: Pipe, cs: seq<Call>)
    ensures NoteAll(s, cs, Shown(s)) == Shown(ExecAll(s, cs))
    decreases cs, 0
  {
    if cs != [] {
      CallShows(s, cs[0]);
      AllShow(Exec(s, cs[0]), cs[1..]);
    }
  }

  lemma {:induction false} PauseShows(s: Pipe, inPause: seq<Call>)
    ensures NotePause(s, inPause, Shown(s)) == Shown(MaybePause(s, inPause))
    decreases inPause, 1
  {
    AllShow(Pausing(s), inPause);
  }

  lemma {:induction false} TakenIs(data: Bytes, kernel: WriteResult)
    ensures data[..Taken(kernel, |data|)] == TakenOf(data, kernel)
    ensures Taken(kernel, |data|) == |data| <==> TakenOf(data, kernel) == data
  {
    assert data[..|data|] == data && data[..0] == [];
    if kernel.Wrote? && kernel.n < |data| {
      assert |data[..kernel.n]| != |data|;
    }
  }

  lemma {:induction false} WriteShows(s: Pipe, data: Bytes, kernel: WriteResult, inPause: seq<Call>)
    ensures var c := Write(data, kernel, inPause); NoteCall(s, c, Shown(s)) == Shown(Exec(s, c))
    decreases Write(data, kernel, inPause), 1
  {
    TakenIs(data, kernel);
    assert data[..0] == [];
    PauseShows(Enqueue(s, data, if s.book.buffer == [] then Taken(kernel, |data|) else 0), inPause);
  }

  /** After every call with all its reactions the transport's fields are the entries made for it. */
  lemma {:induction false} CallShows(s: Pipe, c: Call)
    ensures NoteCall(s, c, Shown(s)) == Shown(Exec(s, c))
    decreases c, 2
  {
    match c
    case Write(data, kernel, inPause) => WriteShows(s, data, kernel, inPause);
    case SetLimits(high, low, inPause) =>
      if Limits(high, low).Some? {
        var (h, l) := Limits(high, low).value;
        PauseShows(s.(ctl := s.ctl.(hi := h, lo := l)), inPause);
      }
    case _ =>
  }

  lemma {:induction false} LossShows(s: Pipe, inLost: seq<Call>)
    ensures NoteLoss(s, inLost, Shown(s)) == Shown(Lose(s, inLost))
  {
    AllShow(Losing(s), inLost);
  }

  lemma {:induction false} DrainShows(s: Pipe, inResume: seq<Call>, inLost: seq<Call>)
    ensures NoteDrain(s, inResume, inLost, Shown(s).(sent := s.book.sent + s.book.buffer))
         == Shown(AfterResume(MaybeResume(Drained(s), inResume), inLost))
  {
    AllShow(Resuming(Drained(s)), inResume);
    var m := MaybeResume(Drained(s), inResume);
    LossShows(m.(wires := m.wires.(reader := false)), inLost);
  }

  lemma {:induction false} PollShows(s: Pipe, kernel: WriteResult, inResume: seq<Call>, inLost: seq<Call>)
    ensures var e := WritePoll(kernel, inResume, inLost); NoteEvent(s, e, Shown(s)) == Shown(Next(s, e))
  {
    TakenIs(s.book.buffer, kernel);
    DrainShows(s, inResume, inLost);
  }

  lemma {:induction false} EventShows(s: Pipe, e: Event)
    ensures NoteEvent(s, e, Shown(s)) == Shown(Next(s, e))
  {
    match e
    case App(call) => CallShows(s, call);
    case ReadReady =>
    case WritePoll(kernel, inResume, inLost) => PollShows(s, kernel, inResume, inLost);
    case LossDue(inLost) =>
      if s.wires.scheduled > 0 {
        LossShows(s.(wires := s.wires.(scheduled := s.wires.scheduled - 1)), inLost);
      }
  }

  /** In every run: the bytes accepted are those written before any close or error, the bytes sent those that the kernel
      took; closing, the refusals, the watermarks and the losses scheduled are as the calls and events that had effect
      left them; and there were as many pauses, resumes, losses and exceptions as they made. */
  lemma {:induction false} BooksAgree(events: seq<Event>)
    ensures Shown(Run(events)) == Tallied(events)
  {
    if events != [] {
      BooksAgree(events[..|events|-1]);
      EventShows(Run(events[..|events|-1]), events[|events|-1]);
    }
  }

  /** `write_eof` or `close` of an open pipe that is not closing closes it; with nothing buffered the loss is scheduled
      and the reader gone, else the bytes stay and are still polled for. */
  lemma {:induction false} EndCloses(s: Pipe, c: Call)
    requires Sound(s) && s.wires.open && !s.ctl.closing && (c == WriteEof || c == Close)
    ensures var t := Exec(s, c);
            && t.ctl.closing && t.book == s.book
            && (if s.book.buffer == [] then t.wires.scheduled == s.wires.scheduled + 1 && !t.wires.reader
                else t.wires.scheduled == s.wires.scheduled && t.wires.writer)
  {
    CallShows(s, c);
    ExecKeeps(s, c);
  }
}
