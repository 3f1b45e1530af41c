/** The TokioLoop's connection task (src/tokio_tcp.rs, `io_processing_loop` and the transport's methods) as a state
    machine. Each step is one region of the code that holds the state lock, or one step of the kernel; the transport's
    methods may come between any two. Which branch `select!` completes is the environment's choice, and completing one
    drops the others. The atomic copies of `closing`, `paused` and `weof` move with those under the lock. */
module TokioIo {
  import opened Prelude

  datatype Callback = DataReceived(data: Bytes) | EofReceived | ConnectionLost

  /** A chunk out of the write buffer and how much of it the kernel took; `abort` takes chunks out unsent. */
  datatype Fate = Fate(chunk: Bytes, sent: nat)

  /** The write branch of `select!`. */
  datatype Writer = Disabled | Ready | Sending(index: nat, shutdown: bool) | Shutting

  /** Where `io_processing_loop` is. */
  datatype Place = Top | Guard(readEof: bool) | Selecting(reading: bool, writer: Writer) | Post | Leaving | Gone

  datatype Flags = Flags(closing: bool, paused: bool, weof: bool, readEof: bool, shutdownDone: bool)

  datatype Trace = Trace(
    accepted: seq<Bytes>,          // chunks taken by `write`
    fates: seq<Fate>,              // chunks out of the buffer
    wire: Bytes,                   // bytes the kernel took
    sealed: Option<Bytes>,         // the wire when the write side was shut down
    received: seq<Bytes>,           // what the kernel gave
    callbacks: seq<Callback>,
    readFailed: bool)

  datatype Io = Io(flags: Flags, buf: seq<Bytes>, at: Place, trace: Trace)

  const ATTACHED := Io(Flags(false, false, false, false, false), [], Top, Trace([], [], [], None, [], [], false))

  datatype Event =
    // the transport's methods
    | Write(data: Bytes) | WriteEof | PauseReading | ResumeReading | Close | Abort
    // the task
    | CheckTop | CheckGuard | PopChunk | Take(n: nat) | WriteDone | WriteFail | Shutdown
    | ReadSome(data: Bytes) | ReadEof | ReadWouldBlock | ReadFail | Tick | CheckExit | Finish

  function Unsent(s: Io): nat
    requires s.at.Selecting? && s.at.writer.Sending? && s.at.writer.index < |s.trace.fates|
  {
    var f := s.trace.fates[s.at.writer.index];
    if f.sent <= |f.chunk| then |f.chunk| - f.sent else 0
  }

  predicate InSending(s: Io) {
    s.at.Selecting? && s.at.writer.Sending? && s.at.writer.index < |s.trace.fates|
  }

  predicate Enabled(s: Io, e: Event) {
    match e
    case Write(_) => true
    case WriteEof => true
    case PauseReading => true
    case ResumeReading => true
    case Close => true
    case Abort => true
    case CheckTop => s.at == Top
    case CheckGuard => s.at.Guard?
    case PopChunk => s.at.Selecting? && s.at.writer == Ready
    case Take(n) => InSending(s) && 0 < n <= Unsent(s)
    case WriteDone => InSending(s) && Unsent(s) == 0
    case WriteFail => InSending(s)
    case Shutdown => s.at.Selecting? && s.at.writer == Shutting
    case ReadSome(data) => s.at.Selecting? && s.at.reading && data != []
    case ReadEof => s.at.Selecting? && s.at.reading
    case ReadWouldBlock => s.at.Selecting? && s.at.reading
    case ReadFail => s.at.Selecting? && s.at.reading
    case Tick => s.at.Selecting?
    case CheckExit => s.at == Post
    case Finish => s.at == Leaving
  }

  function Queued(s: Io, data: Bytes): Io {
    s.(buf := s.buf + [data], trace := s.trace.(accepted := s.trace.accepted + [data]))
  }

  function Unread(chunks: seq<Bytes>): (fates: seq<Fate>)
    ensures |fates| == |chunks|
  {
    seq(|chunks|, i requires 0 <= i < |chunks| => Fate(chunks[i], 0))
  }

  function Aborting(s: Io): Io {
    s.(flags := s.flags.(closing := true), buf := [], trace := s.trace.(fates := s.trace.fates + Unread(s.buf)))
  }

  /** The lock region at the head of the loop. */
  function AtTop(s: Io): Io {
    s.(at := if s.flags.closing then Leaving else if s.flags.paused then Top else Guard(s.flags.readEof))
  }

  /** The write branch's precondition, evaluated as `select!` starts. */
  function AtGuard(s: Io): Io
    requires s.at.Guard?
  {
    s.(at := Selecting(!s.at.readEof, if s.buf != [] || (s.flags.weof && !s.flags.shutdownDone) then Ready else Disabled))
  }

  /** The lock region at the head of the write branch. */
  function Popping(s: Io): Io
    requires s.at.Selecting?
  {
    var shutdown := s.flags.weof && |s.buf| <= 1 && !s.flags.shutdownDone;
    if s.buf != [] then
      s.(buf := s.buf[1..], at := s.at.(writer := Sending(|s.trace.fates|, shutdown)),
         trace := s.trace.(fates := s.trace.fates + [Fate(s.buf[0], 0)]))
    else
      s.(at := if shutdown then s.at.(writer := Shutting) else Post)
  }

  function Taking(s: Io, n: nat): Io
    requires InSending(s) && n <= Unsent(s)
  {
    var k := s.at.writer.index;
    var f := s.trace.fates[k];
    if f.sent <= |f.chunk| then
      s.(trace := s.trace.(fates := s.trace.fates[k := f.(sent := f.sent + n)],
                           wire := s.trace.wire + f.chunk[f.sent..f.sent + n]))
    else s
  }

  /** `write_all` has returned, with or without an error. */
  function Written(s: Io): Io
    requires InSending(s)
  {
    s.(at := if s.at.writer.shutdown then s.at.(writer := Shutting) else Post)
  }

  function ShuttingDown(s: Io): Io {
    s.(flags := s.flags.(shutdownDone := true), at := Post, trace := s.trace.(sealed := Some(s.trace.wire)))
  }

  function Called(s: Io, c: Callback): Io {
    s.(trace := s.trace.(callbacks := s.trace.callbacks + [c]))
  }

  function Reading(s: Io, data: Bytes): Io {
    Called(s.(at := Post, trace := s.trace.(received := s.trace.received + [data])), DataReceived(data))
  }

  function Apply(s: Io, e: Event): Io
    requires Enabled(s, e)
  {
    match e
    case Write(data) => if s.flags.weof then s else Queued(s, data)
    case WriteEof => if s.flags.closing then s else s.(flags := s.flags.(weof := true))
    case PauseReading => if s.flags.closing then s else s.(flags := s.flags.(paused := true))
    case ResumeReading => if s.flags.closing then s else s.(flags := s.flags.(paused := false))
    case Close => s.(flags := s.flags.(closing := true))
    case Abort => if s.flags.closing then s else Aborting(s)
    case CheckTop => AtTop(s)
    case CheckGuard => AtGuard(s)
    case PopChunk => Popping(s)
    case Take(n) => Taking(s, n)
    case WriteDone => Written(s)
    case WriteFail => Written(s)
    case Shutdown => ShuttingDown(s)
    case ReadSome(data) => Reading(s, data)
    case ReadEof => Called(s.(flags := s.flags.(readEof := true), at := Post), EofReceived)
    case ReadWouldBlock => s.(at := Post)
    case ReadFail => s.(at := Leaving, trace := s.trace.(readFailed := true))
    case Tick => s.(at := Post)
    case CheckExit => s.(at := if s.flags.readEof && s.buf == [] then Leaving else Top)
    case Finish => Called(s.(at := Gone), ConnectionLost)
  }

  /** `s` after `events`, as far as they are enabled one after the other. */
  predicate IsRunFrom(s: Io, events: seq<Event>)
    decreases |events|
  {
    events == [] || (Enabled(s, events[0]) && IsRunFrom(Apply(s, events[0]), events[1..]))
  }

  function After(s: Io, events: seq<Event>): Io
    requires IsRunFrom(s, events)
    decreases |events|
  {
    if events == [] then s else After(Apply(s, events[0]), events[1..])
  }

  // ----- the write side's ledger -----

  function ChunksOf(fates: seq<Fate>): (chunks: seq<Bytes>)
    ensures |chunks| == |fates|
  {
    seq(|fates|, i requires 0 <= i < |fates| => fates[i].chunk)
  }

  predicate Bounded(fates: seq<Fate>) {
    forall i :: 0 <= i < |fates| ==> fates[i].sent <= |fates[i].chunk|
  }

  /** The bytes sent, chunk by chunk in the order the chunks left the buffer. */
  function WireOf(fates: seq<Fate>): Bytes
    requires Bounded(fates)
  {
    if fates == [] then []
    else WireOf(fates[..|fates|-1]) + fates[|fates|-1].chunk[..fates[|fates|-1].sent]
  }

  predicate UnsentFrom(fates: seq<Fate>, k: nat) {
    forall i :: k <= i < |fates| ==> fates[i].sent == 0
  }

  predicate Ledger(s: Io) {
    && ChunksOf(s.trace.fates) + s.buf == s.trace.accepted
    && Bounded(s.trace.fates) && s.trace.wire == WireOf(s.trace.fates)
    && (s.at.Selecting? && s.at.writer.Sending? ==>
          s.at.writer.index < |s.trace.fates| && UnsentFrom(s.trace.fates, s.at.writer.index + 1))
  }

  /** The write side is shut down at most once, after write_eof and with nothing left in the buffer. */
  predicate Sealing(s: Io) {
    && s.trace.sealed.Some? == s.flags.shutdownDone
    && (s.flags.shutdownDone ==> s.flags.weof && s.buf == [] && s.trace.sealed == Some(s.trace.wire))
    && (s.at.Selecting? && s.at.writer == Shutting ==> s.flags.weof && s.buf == [] && !s.flags.shutdownDone)
    && (s.at.Selecting? && s.at.writer.Sending? ==> !s.flags.shutdownDone)
    && (s.at.Selecting? && s.at.writer.Sending? && s.at.writer.shutdown ==> s.flags.weof && s.buf == [])
  }

  // ----- the callbacks -----

  function DataCalls(datas: seq<Bytes>): seq<Callback> {
    seq(|datas|, i requires 0 <= i < |datas| => DataReceived(datas[i]))
  }

  /** Every read was delivered, in order; then the end of file once, if it was read; then the loss, once the task is gone. */
  predicate Grammar(s: Io) {
    && s.trace.callbacks == DataCalls(s.trace.received) + (if s.flags.readEof then [EofReceived] else [])
                            + (if s.at == Gone then [ConnectionLost] else [])
    && (s.at.Guard? ==> s.at.readEof == s.flags.readEof)
    && (s.at.Selecting? ==> s.at.reading == !s.flags.readEof)
    && (s.at == Leaving || s.at == Gone ==> s.flags.closing || s.flags.readEof || s.trace.readFailed)
  }

  lemma {:induction false} WireSilent(fates: seq<Fate>, more: seq<Fate>)
    requires Bounded(fates) && Bounded(more) && UnsentFrom(more, 0)
    ensures Bounded(fates + more) && WireOf(fates + more) == WireOf(fates)
  {
    if more == [] {
      assert fates + more == fates;
    } else {
      var init := more[..|more|-1];
      WireSilent(fates, init);
      assert (fates + more)[..|fates + more|-1] == fates + init;
    }
  }

  lemma {:induction false} WireGrows(init: seq<Fate>, f: Fate, n: nat)
    requires Bounded(init) && f.sent + n <= |f.chunk|
    ensures Bounded(init + [f]) && Bounded(init + [f.(sent := f.sent + n)])
    ensures WireOf(init + [f.(sent := f.sent + n)]) == WireOf(init + [f]) + f.chunk[f.sent..f.sent + n]
  {
    var g := f.(sent := f.sent + n);
    assert (init + [f])[..|init|] == init && (init + [g])[..|init|] == init;
    assert f.chunk[..f.sent + n] == f.chunk[..f.sent] + f.chunk[f.sent..f.sent + n];
  }

  /** The kernel takes bytes of the chunk in flight, behind which nothing has been sent. */
  lemma {:induction false} WireTakes(fates: seq<Fate>, k: nat, n: nat)
    requires k < |fates| && Bounded(fates) && UnsentFrom(fates, k + 1) && fates[k].sent + n <= |fates[k].chunk|
    ensures var f := fates[k];
            var now := fates[k := f.(sent := f.sent + n)];
            Bounded(now) && WireOf(now) == WireOf(fates) + f.chunk[f.sent..f.sent + n]
  {
    var f, init, later := fates[k], fates[..k], fates[k+1..];
    var g := f.(sent := f.sent + n);
    Splits(fates, k, f);
    Splits(fates, k, g);
    WireGrows(init, f, n);
    WireSilent(init + [f], later);
    WireSilent(init + [g], later);
  }

  lemma Splits(fates: seq<Fate>, k: nat, g: Fate)
    requires k < |fates|
    ensures fates[k := g] == (fates[..k] + [g]) + fates[k+1..] && (g == fates[k] ==> fates[k := g] == fates)
  {
  }

  lemma {:induction false} AbortKeepsLedger(s: Io)
    requires Ledger(s)
    ensures Ledger(Aborting(s))
  {
    WireSilent(s.trace.fates, Unread(s.buf));
    assert ChunksOf(s.trace.fates + Unread(s.buf)) + [] == ChunksOf(s.trace.fates) + s.buf;
  }

  /** A chunk goes from the head of the buffer to the end of the fates. */
  lemma PopMoves(fates: seq<Fate>, buf: seq<Bytes>)
    requires buf != []
    ensures ChunksOf(fates + [Fate(buf[0], 0)]) + buf[1..] == ChunksOf(fates) + buf
  {
    assert ChunksOf(fates + [Fate(buf[0], 0)]) == ChunksOf(fates) + [buf[0]];
    assert [buf[0]] + buf[1..] == buf;
  }

  lemma {:induction false} PopKeepsLedger(s: Io)
    requires Ledger(s) && s.at.Selecting?
    ensures Ledger(Popping(s))
  {
    if s.buf != [] {
      WireSilent(s.trace.fates, [Fate(s.buf[0], 0)]);
      PopMoves(s.trace.fates, s.buf);
    }
  }

  lemma {:induction false} TakeKeepsLedger(s: Io, n: nat)
    requires Ledger(s) && InSending(s) && n <= Unsent(s)
    ensures Ledger(Taking(s, n))
  {
    WireTakes(s.trace.fates, s.at.writer.index, n);
    assert ChunksOf(Taking(s, n).trace.fates) == ChunksOf(s.trace.fates);
  }

  lemma {:induction false} LedgerKept(s: Io, e: Event)
    requires Ledger(s) && Enabled(s, e)
    ensures Ledger(Apply(s, e))
  {
    match e
    case Write(data) => assert ChunksOf(s.trace.fates) + (s.buf + [data]) == ChunksOf(s.trace.fates) + s.buf + [data];
    case Abort => AbortKeepsLedger(s);
    case PopChunk => PopKeepsLedger(s);
    case Take(n) => TakeKeepsLedger(s, n);
    case _ =>
  }

  lemma {:induction false} SealingKept(s: Io, e: Event)
    requires Sealing(s) && Enabled(s, e)
    ensures Sealing(Apply(s, e))
  {
    match e
    case Take(n) => assert !s.flags.shutdownDone;
    case _ =>
  }

  lemma {:induction false} GrammarKept(s: Io, e: Event)
    requires Grammar(s) && Enabled(s, e)
    ensures Grammar(Apply(s, e))
  {
    match e
    case ReadSome(data) => assert DataCalls(s.trace.received + [data]) == DataCalls(s.trace.received) + [DataReceived(data)];
    case _ =>
  }

  // ----- whole runs -----

  /** For every interleaving of branches and calls: the callbacks are the data read, in order, then at most one end of
      file, then one loss, exactly when the task is gone; the chunks out of the buffer and those in it are all that was
      written, in order, and what went out is a part of each in turn; the write side is shut down once, with every
      chunk out of the buffer, and nothing is sent after that. */
  lemma {:induction false} TaskIsSound(s: Io, events: seq<Event>)
    requires Ledger(s) && Sealing(s) && Grammar(s) && IsRunFrom(s, events)
    ensures var t := After(s, events); Ledger(t) && Sealing(t) && Grammar(t)
    decreases |events|
  {
    if events != [] {
      LedgerKept(s, events[0]);
      SealingKept(s, events[0]);
      GrammarKept(s, events[0]);
      TaskIsSound(Apply(s, events[0]), events[1..]);
    }
  }

  /** The callback grammar, from attachment: zero or more `data_received`, at most one `eof_received`, and one
      `connection_lost` exactly when the task has gone. */
  lemma {:induction false} CallbackGrammar(events: seq<Event>)
    requires IsRunFrom(ATTACHED, events)
    ensures var t := After(ATTACHED, events);
            && t.trace.callbacks == DataCalls(t.trace.received) + (if t.flags.readEof then [EofReceived] else [])
                                    + (if t.at == Gone then [ConnectionLost] else [])
            && (t.at == Gone ==> t.flags.closing || t.flags.readEof || t.trace.readFailed)
  {
    TaskIsSound(ATTACHED, events);
  }

  // ----- when every byte gets out -----

  function InFlight(s: Io): int {
    if s.at.Selecting? && s.at.writer.Sending? then s.at.writer.index else -1
  }

  /** Every chunk out of the buffer went out whole, but for the one in flight. */
  predicate Whole(fates: seq<Fate>, flying: int) {
    forall i :: 0 <= i < |fates| && i != flying ==> fates[i].sent == |fates[i].chunk|
  }

  function RestOf(fates: seq<Fate>, flying: int): Bytes
    requires Bounded(fates)
  {
    if 0 <= flying < |fates| then fates[flying].chunk[fates[flying].sent..] else []
  }

  /** `e` loses bytes: it drops or fails the write in flight, or aborts with bytes in the buffer. */
  predicate Loses(s: Io, e: Event) {
    match e
    case Abort => !s.flags.closing && exists i :: 0 <= i < |s.buf| && s.buf[i] != []
    case WriteFail => InSending(s) && Unsent(s) > 0
    case ReadSome(_) => InSending(s) && Unsent(s) > 0
    case ReadEof => InSending(s) && Unsent(s) > 0
    case ReadWouldBlock => InSending(s) && Unsent(s) > 0
    case ReadFail => InSending(s) && Unsent(s) > 0
    case Tick => InSending(s) && Unsent(s) > 0
    case _ => false
  }

  predicate LosesNothing(s: Io, events: seq<Event>)
    requires IsRunFrom(s, events)
    decreases |events|
  {
    events == [] || (!Loses(s, events[0]) && LosesNothing(Apply(s, events[0]), events[1..]))
  }

  predicate AllWhole(s: Io) {
    Whole(s.trace.fates, InFlight(s))
  }

  lemma {:induction false} AbortLoses(s: Io)
    requires Ledger(s)
    ensures AllWhole(Aborting(s)) <==> AllWhole(s) && forall i :: 0 <= i < |s.buf| ==> s.buf[i] == []
  {
    var before, now := s.trace.fates, Aborting(s).trace.fates;
    assert forall i :: 0 <= i < |before| ==> now[i] == before[i];
    assert forall i :: 0 <= i < |s.buf| ==> now[|before| + i] == Fate(s.buf[i], 0);
  }

  lemma {:induction false} LossIsExact(s: Io, e: Event)
    requires Ledger(s) && Enabled(s, e)
    ensures AllWhole(Apply(s, e)) <==> AllWhole(s) && !Loses(s, e)
  {
    if e == Abort && !s.flags.closing {
      AbortLoses(s);
    } else if e.PopChunk? && s.buf != [] {
      var t := Apply(s, e);
      assert forall i :: 0 <= i < |s.trace.fates| ==> t.trace.fates[i] == s.trace.fates[i];
    } else if e.Take? {
      var t := Apply(s, e);
      assert forall i :: 0 <= i < |s.trace.fates| && i != InFlight(s) ==> t.trace.fates[i] == s.trace.fates[i];
    }
  }

  lemma {:induction false} LossOverRun(s: Io, events: seq<Event>)
    requires Ledger(s) && IsRunFrom(s, events)
    ensures AllWhole(After(s, events)) <==> AllWhole(s) && LosesNothing(s, events)
    decreases |events|
  {
    if events != [] {
      LedgerKept(s, events[0]);
      LossIsExact(s, events[0]);
      LossOverRun(Apply(s, events[0]), events[1..]);
    }
  }

  lemma {:induction false} FlatGrows(init: seq<Fate>, f: Fate)
    requires Bounded(init) && f.sent <= |f.chunk|
    ensures Bounded(init + [f]) && WireOf(init + [f]) == WireOf(init) + f.chunk[..f.sent]
    ensures Flat(ChunksOf(init + [f])) == Flat(ChunksOf(init)) + f.chunk
    ensures f.chunk == f.chunk[..f.sent] + f.chunk[f.sent..]
  {
    assert (init + [f])[..|init|] == init;
    assert ChunksOf(init + [f]) == ChunksOf(init) + [f.chunk];
    FlatAppend(ChunksOf(init), f.chunk);
  }

  /** The chunks out of the buffer are on the wire but for the one in flight exactly when each went out whole. */
  lemma {:induction false} WireMeasures(fates: seq<Fate>, flying: int)
    requires Bounded(fates) && (0 <= flying < |fates| ==> UnsentFrom(fates, flying + 1))
    ensures |WireOf(fates)| + |RestOf(fates, flying)| <= |Flat(ChunksOf(fates))|
    ensures Whole(fates, flying) <==> |WireOf(fates)| + |RestOf(fates, flying)| == |Flat(ChunksOf(fates))|
    ensures Whole(fates, flying) ==> WireOf(fates) + RestOf(fates, flying) == Flat(ChunksOf(fates))
  {
    if fates != [] {
      var n := |fates|-1;
      var init, last := fates[..n], fates[n];
      var before := if 0 <= flying < n then flying else -1;
      assert fates == init + [last];
      FlatGrows(init, last);
      WireMeasures(init, before);
      WholeGrows(init, last, flying);
      MeasureGrows(WireOf(init), RestOf(init, before), Flat(ChunksOf(init)), last, 0 <= flying < n, flying == n);
    }
  }

  /** One more chunk: `wire` and `rest` of those before it, against all their bytes. */
  lemma {:induction false} MeasureGrows(wire: Bytes, rest: Bytes, all: Bytes, last: Fate, behind: bool, flies: bool)
    requires last.sent <= |last.chunk| && |wire| + |rest| <= |all| && !(behind && flies)
    requires (behind ==> last.sent == 0) && (!behind ==> rest == []) && (|wire| + |rest| == |all| ==> wire + rest == all)
    ensures var wire1 := wire + last.chunk[..last.sent];
            var rest1 := if behind then rest else if flies then last.chunk[last.sent..] else [];
            && |wire1| + |rest1| <= |all + last.chunk|
            && (|wire1| + |rest1| == |all + last.chunk| <==> |wire| + |rest| == |all| && (flies || last.sent == |last.chunk|))
            && (|wire1| + |rest1| == |all + last.chunk| ==> wire1 + rest1 == all + last.chunk)
  {
    var sent, left := last.chunk[..last.sent], last.chunk[last.sent..];
    assert last.chunk == sent + left;
    assert wire + [] == wire;
    if flies {
      assert (wire + sent) + left == wire + last.chunk;
    } else if last.sent == |last.chunk| {
      assert sent == last.chunk;
      assert behind ==> last.chunk == [] && sent == [] && wire + sent == wire && all + last.chunk == all;
      assert !behind ==> wire + sent + [] == wire + last.chunk;
    }
  }

  lemma {:induction false} WholeGrows(init: seq<Fate>, last: Fate, flying: int)
    requires Bounded(init) && last.sent <= |last.chunk|
    ensures Bounded(init + [last])
    ensures Whole(init + [last], flying) <==>
              Whole(init, if 0 <= flying < |init| then flying else -1) && (flying == |init| || last.sent == |last.chunk|)
    ensures RestOf(init + [last], flying) ==
              if 0 <= flying < |init| then RestOf(init, flying) else if flying == |init| then last.chunk[last.sent..] else []
  {
    assert forall i :: 0 <= i < |init| ==> init[i] == (init + [last])[i];
    assert last == (init + [last])[|init|];
  }

  /** In every run from attachment, the bytes on the wire, those of the chunk in flight and those in the buffer are all
      the bytes written, in order, exactly when no step of the run was one that loses bytes. */
  lemma {:induction false} BytesSurvive(events: seq<Event>)
    requires IsRunFrom(ATTACHED, events)
    ensures var t := After(ATTACHED, events);
            Bounded(t.trace.fates) &&
            (LosesNothing(ATTACHED, events) <==>
             t.trace.wire + RestOf(t.trace.fates, InFlight(t)) + Flat(t.buf) == Flat(t.trace.accepted))
  {
    var t := After(ATTACHED, events);
    TaskIsSound(ATTACHED, events);
    LossOverRun(ATTACHED, events);
    WireMeasures(t.trace.fates, InFlight(t));
    FlatConcat(ChunksOf(t.trace.fates), t.buf);
    assert |t.trace.wire + RestOf(t.trace.fates, InFlight(t)) + Flat(t.buf)|
        == |t.trace.wire| + |RestOf(t.trace.fates, InFlight(t))| + |Flat(t.buf)|;
  }

  // ----- when everything written is delivered -----

  predicate HasBytes(queue: seq<Bytes>) {
    exists i :: 0 <= i < |queue| && queue[i] != []
  }

  lemma {:induction false} FlatHasBytes(queue: seq<Bytes>)
    ensures HasBytes(queue) <==> Flat(queue) != []
  {
    if queue != [] {
      FlatHasBytes(queue[1..]);
      if HasBytes(queue) && queue[0] == [] {
        var i :| 0 <= i < |queue| && queue[i] != [];
        assert queue[1..][i-1] == queue[i];
      } else if HasBytes(queue[1..]) {
        var i :| 0 <= i < |queue[1..]| && queue[1..][i] != [];
        assert queue[i+1] == queue[1..][i];
      }
    }
  }

  /** `e` leaves bytes in the buffer for good: the task sees a close or a read error with some there, or a write is
      accepted once the task has left its loop. */
  predicate Abandons(s: Io, e: Event) {
    match e
    case CheckTop => s.flags.closing && HasBytes(s.buf)
    case ReadFail => HasBytes(s.buf)
    case Write(data) => !s.flags.weof && data != [] && (s.at == Leaving || s.at == Gone)
    case _ => false
  }

  predicate AbandonsNothing(s: Io, events: seq<Event>)
    requires IsRunFrom(s, events)
    decreases |events|
  {
    events == [] || (!Abandons(s, events[0]) && AbandonsNothing(Apply(s, events[0]), events[1..]))
  }

  /** Every chunk out of the buffer went out whole, and a task that has left its loop has left none behind. */
  predicate Delivers(s: Io) {
    AllWhole(s) && (s.at == Leaving || s.at == Gone ==> !HasBytes(s.buf))
  }

  lemma {:induction false} DeliveryIsExact(s: Io, e: Event)
    requires Ledger(s) && Enabled(s, e)
    ensures Delivers(Apply(s, e)) <==> Delivers(s) && !Loses(s, e) && !Abandons(s, e)
  {
    LossIsExact(s, e);
    if e.Write? && !s.flags.weof {
      var now := s.buf + [e.data];
      assert forall i :: 0 <= i < |s.buf| ==> now[i] == s.buf[i];
      assert now[|s.buf|] == e.data;
    }
  }

  lemma {:induction false} DeliveryOverRun(s: Io, events: seq<Event>)
    requires Ledger(s) && IsRunFrom(s, events)
    ensures Delivers(After(s, events)) <==> Delivers(s) && LosesNothing(s, events) && AbandonsNothing(s, events)
    decreases |events|
  {
    if events != [] {
      LedgerKept(s, events[0]);
      DeliveryIsExact(s, events[0]);
      DeliveryOverRun(Apply(s, events[0]), events[1..]);
    }
  }

  /** By the time connection_lost has been delivered, every byte written is on the wire exactly in the runs in which no
      step lost bytes and none left bytes in the buffer for good. */
  lemma {:induction false} DeliveredExactly(events: seq<Event>)
    requires IsRunFrom(ATTACHED, events) && After(ATTACHED, events).at == Gone
    ensures var t := After(ATTACHED, events).trace;
            t.wire == Flat(t.accepted) <==> LosesNothing(ATTACHED, events) && AbandonsNothing(ATTACHED, events)
  {
    var t := After(ATTACHED, events);
    TaskIsSound(ATTACHED, events);
    DeliveryOverRun(ATTACHED, events);
    WireMeasures(t.trace.fates, -1);
    FlatConcat(ChunksOf(t.trace.fates), t.buf);
    FlatHasBytes(t.buf);
    assert t.trace.wire + [] == t.trace.wire;
    assert |Flat(t.trace.accepted)| == |Flat(ChunksOf(t.trace.fates))| + |Flat(t.buf)|;
  }

  /** Half-close: when the write side has been shut down in a run that lost nothing, every byte written is on the wire. */
  lemma {:induction false} ShutdownComesLast(events: seq<Event>)
    requires IsRunFrom(ATTACHED, events) && LosesNothing(ATTACHED, events)
    ensures var t := After(ATTACHED, events);
            t.trace.sealed.Some? ==> t.trace.sealed == Some(Flat(t.trace.accepted))
  {
    var t := After(ATTACHED, events);
    TaskIsSound(ATTACHED, events);
    BytesSurvive(events);
    assert t.trace.sealed.Some? ==> t.trace.wire + RestOf(t.trace.fates, InFlight(t)) + Flat(t.buf) == t.trace.wire;
  }

  // ----- what close and pause do -----

  /** Once the task sees `close`, the rest of the buffer is never sent: only the loss is still delivered. */
  lemma {:induction false} CloseAbandonsBuffer(s: Io, events: seq<Event>)
    requires s.flags.closing && (s.at == Top || s.at == Leaving || s.at == Gone) && IsRunFrom(s, events)
    ensures var t := After(s, events);
            && t.trace.wire == s.trace.wire && t.trace.received == s.trace.received
            && (t.at == Top || t.at == Leaving || t.at == Gone) && (s.at == Gone ==> t.at == Gone)
            && t.trace.callbacks == s.trace.callbacks + (if t.at == Gone && s.at != Gone then [ConnectionLost] else [])
    decreases |events|
  {
    if events != [] {
      var s1 := Apply(s, events[0]);
      CloseAbandonsBuffer(s1, events[1..]);
      assert s1.at != Gone || s.at == Gone ==> s1.trace.callbacks == s.trace.callbacks;
    }
  }

  /** A transport whose reading is paused does not write either, until it is resumed or closed. */
  lemma {:induction false} PauseStopsWriting(s: Io, events: seq<Event>)
    requires s.flags.paused && !s.flags.closing && s.at == Top && IsRunFrom(s, events)
    requires forall i :: 0 <= i < |events| ==> !events[i].ResumeReading? && !events[i].Close? && !events[i].Abort?
    ensures var t := After(s, events);
            t.at == Top && t.trace.wire == s.trace.wire && t.trace.callbacks == s.trace.callbacks && |t.buf| >= |s.buf|
    decreases |events|
  {
    if events != [] {
      PauseStopsWriting(Apply(s, events[0]), events[1..]);
    }
  }

  // ----- the books of a run -----

  /** Kept from the calls, and from what the kernel took and gave, alone. */
  datatype Books = Books(accepted: seq<Bytes>, closing: bool, paused: bool, ended: bool, received: seq<Bytes>, eof: bool,
                         failed: bool, taken: nat, shut: bool)

  const EMPTY := Books([], false, false, false, [], false, false, 0, false)

  function Note(a: Books, e: Event): Books {
    match e
    case Write(data) => if a.ended then a else a.(accepted := a.accepted + [data])
    case WriteEof => a.(ended := a.ended || !a.closing)
    case PauseReading => a.(paused := a.paused || !a.closing)
    case ResumeReading => a.(paused := a.paused && a.closing)
    case Close => a.(closing := true)
    case Abort => a.(closing := true)
    case Take(n) => a.(taken := a.taken + n)
    case ReadSome(data) => a.(received := a.received + [data])
    case ReadEof => a.(eof := true)
    case ReadFail => a.(failed := true)
    case Shutdown => a.(shut := true)
    case _ => a
  }

  function Noted(events: seq<Event>, a: Books): Books
    decreases |events|
  {
    if events == [] then a else Noted(events[1..], Note(a, events[0]))
  }

  function Shown(s: Io): Books {
    Books(s.trace.accepted, s.flags.closing, s.flags.paused, s.flags.weof, s.trace.received, s.flags.readEof,
          s.trace.readFailed, |s.trace.wire|, s.flags.shutdownDone)
  }

  lemma {:induction false} StepShows(s: Io, e: Event)
    requires Enabled(s, e)
    ensures Shown(Apply(s, e)) == Note(Shown(s), e)
  {
    match e
    case Take(n) => assert |Apply(s, e).trace.wire| == |s.trace.wire| + n;
    case _ =>
  }

  /** In every run: accepted is what was written before the end of writing; closing, the pause and the end of writing are
      as the calls that had effect left them; as many bytes are on the wire as the kernel took; what was received, the
      end of file, a read error and the shutdown are those that occurred. */
  lemma {:induction false} BooksAgree(s: Io, events: seq<Event>)
    requires IsRunFrom(s, events)
    ensures Shown(After(s, events)) == Noted(events, Shown(s))
    decreases |events|
  {
    if events != [] {
      StepShows(s, events[0]);
      BooksAgree(Apply(s, events[0]), events[1..]);
    }
  }

  lemma {:induction false} AttachedBooksAgree(events: seq<Event>)
    requires IsRunFrom(ATTACHED, events)
    ensures Shown(After(ATTACHED, events)) == Noted(events, EMPTY)
  {
    BooksAgree(ATTACHED, events);
  }

  // ----- where the task goes -----

  /** There is something for the write branch to do. */
  predicate HasWork(s: Io) {
    s.buf != [] || (s.flags.weof && !s.flags.shutdownDone)
  }

  /** The task leaves its loop at the head exactly if the transport is closing, and at the end exactly after the end of
      file with an empty buffer, or on a read error. At the head a pause keeps it there. The write branch is offered
      exactly while it has work, reading exactly until the end of file. Any other completion of a branch leads to the
      check at the end, and what is left after the loop is the loss. */
  lemma {:induction false} PlacesAreExact(s: Io, e: Event)
    requires Enabled(s, e)
    ensures var p := Apply(s, e).at;
            match e
            case CheckTop =>
              && (p == Leaving <==> s.flags.closing) && (p == Top <==> !s.flags.closing && s.flags.paused)
              && (p.Guard? <==> !s.flags.closing && !s.flags.paused)
            case CheckGuard =>
              && p.Selecting? && (p.reading <==> !s.at.readEof) && (p.writer == Ready <==> HasWork(s))
              && (p.writer == Disabled <==> !HasWork(s))
            case PopChunk =>
              if s.buf != [] then
                p.Selecting? && p.writer.Sending? && (p.writer.shutdown <==> s.flags.weof && |s.buf| == 1 && !s.flags.shutdownDone)
              else if HasWork(s) then p.Selecting? && p.writer == Shutting
              else p == Post
            case WriteDone => if s.at.writer.shutdown then p.Selecting? && p.writer == Shutting else p == Post
            case WriteFail => if s.at.writer.shutdown then p.Selecting? && p.writer == Shutting else p == Post
            case ReadFail => p == Leaving
            case CheckExit => (p == Leaving <==> s.flags.readEof && s.buf == []) && (p == Leaving || p == Top)
            case Finish => p == Gone
            case Write(_) => p == s.at
            case WriteEof => p == s.at
            case PauseReading => p == s.at
            case ResumeReading => p == s.at
            case Close => p == s.at
            case Abort => p == s.at
            case Take(_) => p == s.at
            case _ => p == Post
  {
    match e
    case PopChunk =>
    case CheckGuard =>
    case _ =>
  }

  // ----- runs grow at the end -----

  lemma {:induction false} Extend(s: Io, events: seq<Event>, e: Event)
    requires IsRunFrom(s, events) && Enabled(After(s, events), e)
    ensures IsRunFrom(s, events + [e]) && After(s, events + [e]) == Apply(After(s, events), e)
    decreases |events|
  {
    if events == [] {
      assert [] + [e] == [e] && [e][1..] == [];
    } else {
      Extend(Apply(s, events[0]), events[1..], e);
      assert (events + [e])[1..] == events[1..] + [e];
    }
  }

  ghost predicate Reachable(s: Io) {
    exists events :: IsRunFrom(ATTACHED, events) && After(ATTACHED, events) == s
  }

  lemma {:induction false} ReachableStep(s: Io, e: Event)
    requires Reachable(s) && Enabled(s, e)
    ensures Reachable(Apply(s, e))
  {
    var events :| IsRunFrom(ATTACHED, events) && After(ATTACHED, events) == s;
    Extend(ATTACHED, events, e);
  }

  lemma {:induction false} ReachableIsSound(s: Io)
    requires Reachable(s)
    ensures Ledger(s) && Sealing(s) && Grammar(s)
  {
    var events :| IsRunFrom(ATTACHED, events) && After(ATTACHED, events) == s;
    TaskIsSound(ATTACHED, events);
  }

  // ----- two ways to lose bytes -----

  lemma {:induction false} Grown(events: seq<Event>, s: Io, e: Event) returns (longer: seq<Event>)
    requires IsRunFrom(ATTACHED, events) && After(ATTACHED, events) == s && Enabled(s, e)
    ensures longer == events + [e] && IsRunFrom(ATTACHED, longer) && After(ATTACHED, longer) == Apply(s, e)
  {
    Extend(ATTACHED, events, e);
    longer := events + [e];
  }

  /** A chunk of two bytes has been popped and nothing of it sent. */
  const SENDING := Io(Flags(false, false, false, false, false), [], Selecting(true, Sending(0, false)),
                      Trace([[1, 2]], [Fate([1, 2], 0)], [], None, [], [], false))

  lemma {:induction false} SendingIsReached() returns (events: seq<Event>)
    ensures IsRunFrom(ATTACHED, events) && After(ATTACHED, events) == SENDING
  {
    var t := ATTACHED;
    events := [];
    events := Grown(events, t, Write([1, 2]));
    t := Apply(t, Write([1, 2]));
    events := Grown(events, t, CheckTop);
    t := Apply(t, CheckTop);
    events := Grown(events, t, CheckGuard);
    t := Apply(t, CheckGuard);
    events := Grown(events, t, PopChunk);
    t := Apply(t, PopChunk);
  }

  /** A tick that beats a half-finished `write_all` loses the rest of its chunk. */
  lemma {:induction false} CutWriteLosesBytes() returns (events: seq<Event>, t: Io)
    ensures IsRunFrom(ATTACHED, events) && t == After(ATTACHED, events)
    ensures t.trace.accepted == [[1, 2]] && t.trace.wire == [1] && t.buf == [] && InFlight(t) == -1
  {
    events := SendingIsReached();
    events := Grown(events, SENDING, Take(1));
    t := Apply(SENDING, Take(1));
    events := Grown(events, t, Tick);
    t := Apply(t, Tick);
  }

  /** `close` right after `write` sends nothing. */
  lemma {:induction false} CloseLosesBuffer() returns (events: seq<Event>, t: Io)
    ensures IsRunFrom(ATTACHED, events) && t == After(ATTACHED, events)
    ensures t.at == Gone && t.trace.wire == [] && t.buf == t.trace.accepted == [[7]] && t.trace.callbacks == [ConnectionLost]
  {
    events, t := [], ATTACHED;
    events := Grown(events, t, Write([7]));
    t := Apply(t, Write([7]));
    events := Grown(events, t, Close);
    t := Apply(t, Close);
    events := Grown(events, t, CheckTop);
    t := Apply(t, CheckTop);
    events := Grown(events, t, Finish);
    t := Apply(t, Finish);
  }

  /** A read error, with a chunk in the buffer and nobody closing, sends nothing either. */
  lemma {:induction false} ReadErrorLosesBuffer() returns (events: seq<Event>, t: Io)
    ensures IsRunFrom(ATTACHED, events) && t == After(ATTACHED, events)
    ensures t.at == Gone && !t.flags.closing && t.trace.wire == [] && t.trace.accepted == [[7]] && t.trace.callbacks == [ConnectionLost]
  {
    events, t := [], ATTACHED;
    events := Grown(events, t, Write([7]));
    t := Apply(t, Write([7]));
    events := Grown(events, t, CheckTop);
    t := Apply(t, CheckTop);
    events := Grown(events, t, CheckGuard);
    t := Apply(t, CheckGuard);
    events := Grown(events, t, ReadFail);
    t := Apply(t, ReadFail);
    events := Grown(events, t, Finish);
    t := Apply(t, Finish);
  }
}
