/** The RLoop's fd tables and TCP transports as the objects of the source, updated in place
    (src/event_loop.rs, src/tcp.rs). Every method is tied to the state machine of TcpMachine. */
module TcpTransport {
  import opened Prelude
  import opened Callbacks
  import opened Interests
  import opened TcpMachine
  import opened TcpInvariant
  import opened TcpInbound

  /** `tcp_transports` and `tcp_lstreams`. */
  datatype Links = Links(transports: map<nat, TCPTransport>, lstreams: map<nat, set<nat>>)

  /** `tcp_stream_close` on the links. */
  function Unlink(k: Links, fd: nat): Links {
    if fd !in k.transports then k
    else
      var lfd := k.transports[fd].lfd;
      Links(k.transports - {fd},
            if lfd.Some? && lfd.value in k.lstreams
            then k.lstreams[lfd.value := k.lstreams[lfd.value] - {fd}] else k.lstreams)
  }

  /** Each listener's stream set is the attached transports that name it. */
  ghost predicate Indexed(k: Links) {
    forall l, fd :: l in k.lstreams ==>
      (fd in k.lstreams[l] <==> fd in k.transports && k.transports[fd].lfd == Some(l))
  }

  lemma UnlinkKeepsIndex(k: Links, fd: nat)
    requires Indexed(k)
    ensures Indexed(Unlink(k, fd))
  {
  }

  /** Maps that differ at one key at most are the same elsewhere. */
  lemma SameElsewhere<V>(was: map<nat, V>, now: map<nat, V>, fd: nat, other: nat)
    requires now - {fd} == was - {fd} && other != fd
    ensures other in now <==> other in was
    ensures other in now ==> now[other] == was[other]
  {
    assert other in now <==> other in now - {fd};
    assert other in was <==> other in was - {fd};
    assert other in now ==> now[other] == (now - {fd})[other];
  }

  class EventLoop {
    var handlesIo: map<nat, IOHandle>
    var poller: map<nat, Interest>
    var tcpTransports: map<nat, TCPTransport>
    var tcpLstreams: map<nat, set<nat>>

    constructor ()
      ensures handlesIo == map[] && poller == map[] && tcpTransports == map[] && tcpLstreams == map[]
    {
      handlesIo, poller, tcpTransports, tcpLstreams := map[], map[], map[], map[];
    }

    ghost function SlotOf(fd: nat): Slot
      reads this
    {
      Slot(if fd in handlesIo then Some(handlesIo[fd]) else None,
           if fd in poller then Some(poller[fd]) else None)
    }

    ghost function AllLinks(): Links
      reads this
    {
      Links(tcpTransports, tcpLstreams)
    }

    /** No entry but that of the given fd has changed. */
    twostate predicate SameEntriesBut(fd: nat)
      reads this
    {
      && handlesIo - {fd} == old(handlesIo) - {fd}
      && poller - {fd} == old(poller) - {fd}
    }

    /** Nor has any link, except that the fd may have been unlinked. */
    twostate predicate SameLinksBut(fd: nat)
      reads this
    {
      AllLinks() == if fd in tcpTransports then old(AllLinks()) else Unlink(old(AllLinks()), fd)
    }

    /** `panicked`: the entry is of another kind. */
    method TcpStreamAdd(fd: nat, interest: Interest) returns (panicked: bool)
      modifies this`handlesIo, this`poller
      ensures Add(Tcp, old(SlotOf(fd)), interest) == if panicked then Panic else Done(SlotOf(fd))
      ensures panicked ==> SlotOf(fd) == old(SlotOf(fd))
      ensures SameEntriesBut(fd)
    {
      if fd in handlesIo {
        if !handlesIo[fd].TCPStream? { return true; }
        var prev := handlesIo[fd].tcpInterest;
        if prev != interest {
          var interests := prev.Or(interest);
          if fd in poller {
            poller := poller[fd := interests];
          }
          handlesIo := handlesIo[fd := TCPStream(interests)];
        }
      } else {
        if fd !in poller {
          poller := poller[fd := interest];
        }
        handlesIo := handlesIo[fd := TCPStream(interest)];
      }
      return false;
    }

    /** `panicked`: the entry is of another kind, or nothing would be left of it. */
    method TcpStreamRem(fd: nat, interest: Interest) returns (panicked: bool)
      modifies this`handlesIo, this`poller
      ensures Rem(Tcp, old(SlotOf(fd)), interest) == if panicked then Panic else Done(SlotOf(fd))
      ensures panicked ==> SlotOf(fd) == old(SlotOf(fd))
      ensures SameEntriesBut(fd)
    {
      if fd in handlesIo {
        if !handlesIo[fd].TCPStream? { return true; }
        var present := handlesIo[fd].tcpInterest;
        if present == interest {
          handlesIo := handlesIo - {fd};
          poller := poller - {fd};
        } else {
          var left := present.Without(interest);
          if left.None? { return true; }
          if fd in poller {
            poller := poller[fd := left.value];
          }
          handlesIo := handlesIo[fd := TCPStream(left.value)];
        }
      }
      return false;
    }

    /** `panicked`: the entry is of another kind. */
    method UdpSocketAdd(fd: nat, interest: Interest) returns (panicked: bool)
      modifies this`handlesIo, this`poller
      ensures Add(Udp, old(SlotOf(fd)), interest) == if panicked then Panic else Done(SlotOf(fd))
      ensures panicked ==> SlotOf(fd) == old(SlotOf(fd))
      ensures SameEntriesBut(fd)
    {
      if fd in handlesIo {
        if !handlesIo[fd].UDPSocket? { return true; }
        var prev := handlesIo[fd].udpInterest;
        if prev != interest {
          var interests := prev.Or(interest);
          if fd in poller {
            poller := poller[fd := interests];
          }
          handlesIo := handlesIo[fd := UDPSocket(interests)];
        }
      } else {
        if fd !in poller {
          poller := poller[fd := interest];
        }
        handlesIo := handlesIo[fd := UDPSocket(interest)];
      }
      return false;
    }

    /** `panicked`: the entry is of another kind, or nothing would be left of it. */
    method UdpSocketRem(fd: nat, interest: Interest) returns (panicked: bool)
      modifies this`handlesIo, this`poller
      ensures Rem(Udp, old(SlotOf(fd)), interest) == if panicked then Panic else Done(SlotOf(fd))
      ensures panicked ==> SlotOf(fd) == old(SlotOf(fd))
      ensures SameEntriesBut(fd)
    {
      if fd in handlesIo {
        if !handlesIo[fd].UDPSocket? { return true; }
        var present := handlesIo[fd].udpInterest;
        if present == interest {
          handlesIo := handlesIo - {fd};
          poller := poller - {fd};
        } else {
          var left := present.Without(interest);
          if left.None? { return true; }
          if fd in poller {
            poller := poller[fd := left.value];
          }
          handlesIo := handlesIo[fd := UDPSocket(left.value)];
        }
      }
      return false;
    }

    method TcpStreamClose(fd: nat)
      modifies this`tcpTransports, this`tcpLstreams
      ensures AllLinks() == Unlink(old(AllLinks()), fd)
    {
      if fd in tcpTransports {
        var transport := tcpTransports[fd];
        tcpTransports := tcpTransports - {fd};
        if transport.lfd.Some? && transport.lfd.value in tcpLstreams {
          var l := transport.lfd.value;
          tcpLstreams := tcpLstreams[l := tcpLstreams[l] - {fd}];
        }
      }
    }
  }

  class TCPTransport {
    const fd: nat
    const lfd: Option<nat>
    const loop: EventLoop
    var closing: bool
    var paused: bool
    var weof: bool
    var protoPaused: bool
    var waterHi: nat
    var waterLo: nat
    var writeBuf: seq<Bytes>
    var writeBufDsize: nat
    var cellHeld: bool
    var crashed: bool
    ghost var draining: bool
    ghost var accepted: Bytes
    ghost var sent: Bytes
    ghost var dropped: Bytes
    ghost var trace: Trace
    ghost var misuse: Misuse

    constructor (loop: EventLoop, fd: nat, lfd: Option<nat>)
      ensures this.loop == loop && this.fd == fd && this.lfd == lfd
      ensures View() == FRESH.(slot := loop.SlotOf(fd), stage := View().stage)
      ensures View().stage == Stage(fd in loop.tcpTransports && loop.tcpTransports[fd] == this, false, false)
    {
      this.loop, this.fd, this.lfd := loop, fd, lfd;
      closing, paused, weof, protoPaused := false, false, false, false;
      waterHi, waterLo := 65536, 16384;
      writeBuf, writeBufDsize := [], 0;
      cellHeld, crashed, draining := false, false, false;
      accepted, sent, dropped := [], [], [];
      trace, misuse := FRESH.trace, FRESH.misuse;
    }

    ghost function View(): Conn
      reads this, loop
    {
      Conn(Control(closing, paused, weof, protoPaused, waterHi, waterLo),
           Buffer(writeBuf, writeBufDsize, accepted, sent, dropped),
           loop.SlotOf(fd),
           Stage(fd in loop.tcpTransports && loop.tcpTransports[fd] == this, cellHeld, draining),
           trace, misuse, crashed)
    }

    /** A live transport owns its fd: the open stream keeps the kernel from handing the fd out again. */
    ghost predicate Ready()
      reads this, loop
    {
      && !crashed
      && (fd in loop.tcpTransports ==> loop.tcpTransports[fd] == this)
      && Agrees(Tcp, loop.SlotOf(fd))
    }

    /** The invariant of TcpInvariant, at every callback and between handles. */
    ghost predicate Valid()
      reads this, loop
    {
      Ready() && Sound(View())
    }

    ghost method Record(cb: Callback)
      modifies this`trace
      ensures trace == old(trace).(log := Then(old(trace).log, cb))
    {
      trace := trace.(log := Then(trace.log, cb));
    }

    method StreamAdd(interest: Interest)
      requires Ready()
      modifies loop`handlesIo, loop`poller
      ensures Ready() && View() == AddInterest(old(View()), interest) && loop.SameEntriesBut(fd)
    {
      var panicked := loop.TcpStreamAdd(fd, interest);
    }

    method StreamRem(interest: Interest)
      requires Ready() && interest != BOTH
      modifies loop`handlesIo, loop`poller
      ensures Ready() && View() == RemInterest(old(View()), interest) && loop.SameEntriesBut(fd)
    {
      var panicked := loop.TcpStreamRem(fd, interest);
    }

    method PauseReading()
      requires Ready()
      modifies this`paused, loop`handlesIo, loop`poller
      ensures Ready() && View() == Exec(old(View()), Call.PauseReading) && loop.SameEntriesBut(fd)
    {
      if closing || paused { return; }
      paused := true;
      StreamRem(READABLE);
    }

    method ResumeReading()
      requires Ready()
      modifies this`paused, loop`handlesIo, loop`poller
      ensures Ready() && View() == Exec(old(View()), Call.ResumeReading) && loop.SameEntriesBut(fd)
    {
      if closing || !paused { return; }
      paused := false;
      StreamAdd(READABLE);
    }

    method WriteEof()
      requires Ready()
      modifies this`weof, this`crashed, this`trace
      ensures (crashed || Ready()) && View() == Exec(old(View()), Call.WriteEof)
      ensures !crashed ==> weof == (old(weof) || !old(closing))
      ensures !crashed && weof && !old(weof) && writeBufDsize == 0 ==> trace.shut
    {
      if closing || weof { return; }
      if cellHeld { crashed := true; return; }
      weof := true;
      if writeBufDsize == 0 {
        trace := trace.(shut := true);
      }
    }

    /** The size, unless a write holds the cell. */
    method GetWriteBufferSize() returns (size: nat)
      requires Ready()
      modifies this`crashed
      ensures (crashed || Ready()) && View() == Exec(old(View()), Call.GetWriteBufferSize)
      ensures size == writeBufDsize
    {
      size := writeBufDsize;
      if cellHeld { crashed := true; }
    }

    /** False for the plain transports of this model, unless a write holds the cell. */
    method IsTls() returns (tls: bool)
      requires Ready()
      modifies this`crashed
      ensures (crashed || Ready()) && View() == Exec(old(View()), Call.IsTls) && !tls
    {
      tls := false;
      if cellHeld { crashed := true; }
    }

    /** connection_lost and what the protocol does in it. */
    method Announce(inLost: seq<Call>)
      requires Ready() && Sound(Losing(View()))
      modifies this, loop
      ensures (crashed || Ready()) && View() == ExecAll(Losing(old(View())), inLost)
      ensures loop.SameEntriesBut(fd) && loop.SameLinksBut(fd)
      decreases inLost, 1
    {
      trace := trace.(log := Then(trace.log, ConnectionLost), lost := trace.lost + 1);
      assert View() == Losing(old(View()));
      PerformAll(inLost);
    }

    /** `call_conn_lost` */
    method CallConnLost(inLost: seq<Call>)
      requires Ready() && Sound(Losing(View()))
      modifies this, loop
      ensures (crashed || Ready()) && View() == Lose(old(View()), inLost)
      ensures loop.SameEntriesBut(fd) && loop.SameLinksBut(fd)
      decreases inLost, 2
    {
      Announce(inLost);
      if !crashed {
        loop.TcpStreamClose(fd);
      }
    }

    /** Set `closing` unless it is set, and then stop polling for reads. */
    method StopReading()
      requires Ready()
      modifies this`closing, loop`handlesIo, loop`poller
      ensures Ready() && View() == TcpMachine.StopReading(old(View())) && loop.SameEntriesBut(fd)
    {
      if !closing {
        closing := true;
        StreamRem(READABLE);
      }
    }

    method Close(inLost: seq<Call>)
      requires Ready() && CallsOutSoundly(View(), Call.Close(inLost))
      modifies this, loop
      ensures (crashed || Ready()) && View() == Exec(old(View()), Call.Close(inLost))
      ensures loop.SameEntriesBut(fd) && loop.SameLinksBut(fd)
      decreases Call.Close(inLost), 2
    {
      if closing { return; }
      if cellHeld { crashed := true; return; }
      StopReading();
      if writeBufDsize == 0 {
        StreamRem(WRITABLE);
        CallConnLost(inLost);
      }
    }

    method StopWriting()
      requires Ready()
      modifies this`misuse, loop`handlesIo, loop`poller
      ensures Ready() && View() == TcpMachine.StopWriting(old(View())) && loop.SameEntriesBut(fd)
    {
      if writeBufDsize > 0 {
        StreamRem(WRITABLE);
        misuse := misuse.(strayWrite := false);
      }
    }

    method Abort(inLost: seq<Call>)
      requires Ready() && CallsOutSoundly(View(), Call.Abort(inLost))
      modifies this, loop
      ensures (crashed || Ready()) && View() == Exec(old(View()), Call.Abort(inLost))
      ensures loop.SameEntriesBut(fd) && loop.SameLinksBut(fd)
      decreases Call.Abort(inLost), 2
    {
      if cellHeld { crashed := true; return; }
      StopBoth();
      CallConnLost(inLost);
    }

    /** What `abort` does before it calls connection_lost. */
    method StopBoth()
      requires Ready()
      modifies this`closing, this`misuse, loop`handlesIo, loop`poller
      ensures Ready() && View() == Aborting(old(View())) && loop.SameEntriesBut(fd)
    {
      StopWriting();
      StopReading();
      misuse := misuse.(lateAborts := misuse.lateAborts + (if trace.lost > 0 then 1 else 0));
    }

    /** The check against the high mark and `proto_pause`; a write passes `held`. */
    method PauseIfFull(held: bool, inPause: seq<Call>)
      requires Ready() && PausesSoundly(View(), held)
      modifies this, loop
      ensures (crashed || Ready()) && View() == MaybePause(old(View()), held, inPause)
      ensures loop.SameEntriesBut(fd) && loop.SameLinksBut(fd)
      decreases inPause, 1
    {
      if writeBufDsize > waterHi && !protoPaused {
        protoPaused := true;
        cellHeld := held;
        Record(PauseWriting);
        assert View() == Pausing(old(View()), held);
        PerformAll(inPause);
        if !crashed {
          cellHeld := false;
        }
      }
    }

    method SetWriteBufferLimits(high: Option<nat>, low: Option<nat>, inPause: seq<Call>)
      requires Ready() && CallsOutSoundly(View(), SetLimits(high, low, inPause))
      modifies this, loop
      ensures (crashed || Ready()) && View() == Exec(old(View()), SetLimits(high, low, inPause))
      ensures loop.SameEntriesBut(fd) && loop.SameLinksBut(fd)
      decreases SetLimits(high, low, inPause), 2
    {
      var limits := Limits(high, low);
      if limits.None? { return; }
      if cellHeld { crashed := true; return; }
      waterHi, waterLo := limits.value.0, limits.value.1;
      assert View() == old(View()).(ctl := old(View()).ctl.(hi := limits.value.0, lo := limits.value.1));
      PauseIfFull(false, inPause);
    }

    method MarkFailing()
      requires Ready()
      modifies this`closing, this`cellHeld, this`misuse, loop`handlesIo, loop`poller
      ensures Ready() && View() == Failing(old(View())) && loop.SameEntriesBut(fd)
    {
      StopReading();
      cellHeld := true;
      misuse := misuse.(lateFailures := misuse.lateFailures + (if trace.lost > 0 then 1 else 0));
    }

    /** The error arm of `try_write`. */
    method FailedWrite(inLost: seq<Call>)
      requires Ready() && Sound(Losing(Failing(View())))
      modifies this, loop
      ensures (crashed || Ready()) && View() == FailWrite(old(View()), inLost)
      ensures loop.SameEntriesBut(fd) && loop.SameLinksBut(fd)
      decreases inLost, 2
    {
      MarkFailing();
      Announce(inLost);
      if !crashed {
        CloseHeld();
      }
    }

    /** `tcp_stream_close` while the cell is held. */
    method CloseHeld()
      requires Ready()
      modifies this`cellHeld, this`crashed
      ensures var s := old(View()); View() == s.(stage := s.stage.(cellHeld := false), crashed := s.stage.attached)
      ensures crashed || Ready()
    {
      cellHeld := false;
      crashed := fd in loop.tcpTransports;
    }

    /** Queue what a write could not send at once. */
    method Enqueue(data: Bytes, written: nat)
      requires Ready() && written <= |data|
      modifies this`writeBuf, this`writeBufDsize, this`accepted, this`sent, this`misuse, loop`handlesIo, loop`poller
      ensures Ready() && View() == TcpMachine.Enqueue(old(View()), data, written) && loop.SameEntriesBut(fd)
    {
      var first := writeBufDsize == 0;
      PushChunk(data, written);
      if written < |data| && first {
        StreamAdd(WRITABLE);
        misuse := misuse.(strayWrite := trace.lost > 0);
      }
    }

    method PushChunk(data: Bytes, written: nat)
      requires Ready() && written <= |data|
      modifies this`writeBuf, this`writeBufDsize, this`accepted, this`sent
      ensures Ready() && View() == old(View()).(buf := Push(old(View()).buf, data, written))
    {
      accepted, sent := accepted + data, sent + data[..written];
      if written < |data| {
        writeBuf := writeBuf + [data[written..]];
        writeBufDsize := writeBufDsize + |data| - written;
      }
    }

    method TryWrite(data: Bytes, kernel: WriteResult, inPause: seq<Call>, inLost: seq<Call>)
      requires Ready() && CallsOutSoundly(View(), Write(data, kernel, inPause, inLost))
      modifies this, loop
      ensures (crashed || Ready()) && View() == Exec(old(View()), Write(data, kernel, inPause, inLost))
      ensures loop.SameEntriesBut(fd) && loop.SameLinksBut(fd)
      decreases Write(data, kernel, inPause, inLost), 2
    {
      if weof || data == [] { return; }
      if cellHeld { crashed := true; return; }
      var written := 0;
      if writeBufDsize == 0 {
        if kernel.Failed? {
          FailedWrite(inLost);
          return;
        }
        written := Taken(kernel, |data|);
      }
      Enqueue(data, written);
      PauseIfFull(true, inPause);
    }

    // ----- what the protocol does in a callback -----

    method PerformAll(cs: seq<Call>)
      requires Valid()
      modifies this, loop
      ensures View() == ExecAll(old(View()), cs) && loop.SameEntriesBut(fd) && loop.SameLinksBut(fd)
      ensures crashed || Valid()
      decreases cs, 0
    {
      ExecAllKeeps(View(), cs);
      if cs != [] {
        Perform(cs[0]);
        if !crashed {
          PerformAll(cs[1..]);
        }
      }
    }

    method Perform(c: Call)
      requires Valid()
      modifies this, loop
      ensures View() == Exec(old(View()), c) && loop.SameEntriesBut(fd) && loop.SameLinksBut(fd)
      ensures crashed || Valid()
      decreases c, 3
    {
      ExecKeeps(View(), c);
      SoundCallsOutSoundly(View(), c);
      match c
      case Write(data, kernel, inPause, inLost) => TryWrite(data, kernel, inPause, inLost);
      case WriteEof => WriteEof();
      case GetWriteBufferSize => var _ := GetWriteBufferSize();
      case IsTls => var _ := IsTls();
      case PauseReading => PauseReading();
      case ResumeReading => ResumeReading();
      case SetLimits(high, low, inPause) => SetWriteBufferLimits(high, low, inPause);
      case Close(inLost) => Close(inLost);
      case Abort(inLost) => Abort(inLost);
    }

    // ----- TCPWriteHandle -----

    /** `TCPWriteHandle::write` on the transport's own buffer. */
    method WriteChunks(kernel: seq<WriteResult>) returns (written: Option<nat>)
      requires Ready() && Books(View().buf)
      modifies this`writeBuf, this`writeBufDsize, this`sent, this`dropped, this`draining
      ensures var d := Drain(old(writeBuf), kernel);
              View() == AfterDrain(old(View()), d) && written == (if d.failed then None else Some(|d.sent|))
      ensures Ready()
    {
      DrainSplits(writeBuf, kernel);
      var queue, ret, failed, out, thrown := DrainLoop(writeBuf, kernel);
      assert |out| + |Flat(queue)| + |thrown| == writeBufDsize;
      writeBuf := queue;
      sent, dropped, draining := sent + out, dropped + thrown, true;
      if failed {
        writeBufDsize := 0;
        written := None;
      } else {
        writeBufDsize := writeBufDsize - ret;
        written := Some(ret);
      }
    }

    /** `write_buf_size_decr` */
    method WriteBufSizeDecr(inResume: seq<Call>)
      requires Ready() && (writeBufDsize <= waterLo && protoPaused ==> Sound(Resuming(View())))
      modifies this, loop
      ensures (crashed || Ready()) && View() == MaybeResume(old(View()), inResume)
      ensures loop.SameEntriesBut(fd) && loop.SameLinksBut(fd)
    {
      if writeBufDsize <= waterLo && protoPaused {
        protoPaused := false;
        Record(ResumeWriting);
        assert View() == Resuming(old(View()));
        PerformAll(inResume);
      }
    }

    /** The interest update and `tcp_stream_close` of a drained, closing transport. */
    method Retire()
      requires Ready()
      modifies this`draining, loop
      ensures Ready() && View() == AfterLoss(old(View()))
      ensures loop.SameEntriesBut(fd) && loop.SameLinksBut(fd)
    {
      if writeBuf == [] {
        StreamRem(WRITABLE);
      }
      loop.TcpStreamClose(fd);
      draining := false;
    }

    /** A drained, closing transport: `close_from_write_handle` and what follows. */
    method LoseDrained(inLost: seq<Call>)
      requires Ready() && Sound(LosingDrained(View()))
      modifies this, loop
      ensures (crashed || Ready()) && View() == AfterLoss(ExecAll(LosingDrained(old(View())), inLost))
      ensures loop.SameEntriesBut(fd) && loop.SameLinksBut(fd)
    {
      CountRepeat();
      Announce(inLost);
      if !crashed {
        Retire();
      }
    }

    ghost method CountRepeat()
      requires Ready()
      modifies this`misuse
      ensures Ready() && Losing(View()) == LosingDrained(old(View()))
    {
      misuse := misuse.(lossesInResume := misuse.lossesInResume + (if trace.lost > 0 then 1 else 0));
    }

    /** `TCPWriteHandle::run` after the drain and resume_writing. */
    method Conclude(inLost: seq<Call>)
      requires Ready() && (writeBuf == [] && closing ==> Sound(LosingDrained(View())))
      modifies this, loop
      ensures (crashed || Ready()) && View() == FinishDrain(old(View()), inLost)
      ensures loop.SameEntriesBut(fd) && loop.SameLinksBut(fd)
    {
      if writeBuf != [] {
        draining := false;
      } else if closing {
        LoseDrained(inLost);
      } else {
        StreamRem(WRITABLE);
        trace := trace.(shut := trace.shut || weof);
        draining := false;
      }
    }

    method RunWriteHandle(kernel: seq<WriteResult>, inResume: seq<Call>, inLost: seq<Call>)
      requires Valid() && AtRest(View())
      modifies this, loop
      ensures (crashed || Ready()) && View() == WriteReady(old(View()), kernel, inResume, inLost)
      ensures loop.SameEntriesBut(fd) && loop.SameLinksBut(fd)
    {
      if fd !in loop.tcpTransports { return; }
      AfterDrainKeeps(View(), kernel);
      ResumeKeeps(View(), kernel, inResume);
      var written := WriteChunks(kernel);
      if written.Some? && written.value > 0 {
        WriteBufSizeDecr(inResume);
      }
      if !crashed {
        if writeBuf == [] && closing {
          LosingDrainedKeeps(View());
        }
        Conclude(inLost);
      }
    }

    // ----- TCPReadHandle -----

    /** `close_from_read_handle` and the `tcp_stream_close` after it */
    method CloseFromReadHandle(inLost: seq<Call>)
      requires Ready() && (!closing && writeBuf == [] ==> Sound(Losing(RemInterest(ClosingAtEof(View()), WRITABLE))))
      modifies this, loop
      ensures (crashed || Ready()) && View() == CloseFromRead(old(View()), inLost)
      ensures loop.SameEntriesBut(fd) && loop.SameLinksBut(fd)
    {
      if closing { return; }
      misuse := misuse.(eofResumed := Recorded(loop.SlotOf(fd)).readable);
      closing := true;
      if writeBuf == [] {
        StreamRem(WRITABLE);
        CallConnLost(inLost);
      }
    }

    method MarkEof()
      requires Ready()
      modifies this`trace, this`misuse, loop`handlesIo, loop`poller
      ensures Ready() && View() == AtEof(old(View())) && loop.SameEntriesBut(fd)
    {
      StreamRem(READABLE);
      trace := trace.(log := Then(trace.log, EofReceived), eofSeen := true);
      misuse := misuse.(eofResumed := false);
    }

    method RecvEof(inEof: seq<Call>, keepOpen: bool, inLost: seq<Call>)
      requires Valid() && AtRest(View())
      modifies this, loop
      ensures (crashed || Ready()) && View() == TcpMachine.RecvEof(old(View()), inEof, keepOpen, inLost)
      ensures loop.SameEntriesBut(fd) && loop.SameLinksBut(fd)
    {
      AtEofKeeps(View());
      MarkEof();
      ExecAllKeeps(View(), inEof);
      PerformAll(inEof);
      if !keepOpen && !crashed {
        if !closing {
          ClosingAtEofKeeps(View());
        }
        CloseFromReadHandle(inLost);
      }
    }

    method DataReceived(data: Bytes, inData: seq<Call>)
      requires Valid() && AtRest(View())
      modifies this, loop
      ensures (crashed || Ready()) && View() == ExecAll(Log(old(View()), Callback.DataReceived(data)), inData)
      ensures crashed || AtRest(View())
      ensures loop.SameEntriesBut(fd) && loop.SameLinksBut(fd)
    {
      Record(Callback.DataReceived(data));
      ExecAllKeeps(View(), inData);
      PerformAll(inData);
    }

    /** One turn of the read loop up to the delivery of its data. */
    method Give(round: Round) returns (any: bool, eof: bool)
      requires Valid() && AtRest(View())
      modifies this, loop
      ensures (crashed || Ready()) && View() == Given(old(View()), round)
      ensures crashed || AtRest(View())
      ensures !crashed ==> any == (ReadInto(round.room, round.kernel).0 != []) && eof == ReadInto(round.room, round.kernel).1
      ensures loop.SameEntriesBut(fd) && loop.SameLinksBut(fd)
    {
      any, eof := false, false;
      ExecAllKeeps(View(), round.inBuffer);
      PerformAll(round.inBuffer);
      if !crashed {
        var data;
        data, eof := ReadLoop(round.room, round.kernel);
        any := data != [];
        if any {
          DataReceived(data, round.inData);
        }
      }
    }

    /** One turn of the read loop: its data is delivered unchanged, then the end of file, if it is met. */
    method HandleRound(round: Round, inEof: seq<Call>, keepOpen: bool, inLost: seq<Call>) returns (more: bool)
      requires Valid() && AtRest(View())
      modifies this, loop
      ensures (crashed || Ready()) && (View(), more) == ReadRound(old(View()), round, inEof, keepOpen, inLost)
      ensures !crashed ==> Heard(trace.log) == Heard(old(trace).log) + DueForOne(round)
      ensures loop.SameEntriesBut(fd) && loop.SameLinksBut(fd)
    {
      RoundSays(View(), round, inEof, keepOpen, inLost);
      var any, eof := Give(round);
      if crashed { return false; }
      if eof {
        RecvEof(inEof, keepOpen, inLost);
        return false;
      }
      return any;
    }

    /** The read loop of an attached transport. */
    method RunRounds(rounds: seq<Round>, inEof: seq<Call>, keepOpen: bool, inLost: seq<Call>)
      requires Valid() && AtRest(View())
      modifies this, loop
      ensures (crashed || Ready()) && View() == ReadRounds(old(View()), rounds, inEof, keepOpen, inLost)
      ensures loop.SameEntriesBut(fd) && loop.SameLinksBut(fd)
    {
      var k := 0;
      assert rounds[0..] == rounds;
      while k < |rounds|
        invariant k <= |rounds| && Ready() && AtRest(View())
        invariant ReadRounds(old(View()), rounds, inEof, keepOpen, inLost)
               == ReadRounds(View(), rounds[k..], inEof, keepOpen, inLost)
        invariant loop.SameEntriesBut(fd) && loop.SameLinksBut(fd)
      {
        assert rounds[k..][0] == rounds[k] && rounds[k..][1..] == rounds[k+1..];
        ReadRoundKeeps(View(), rounds[k], inEof, keepOpen, inLost);
        var more := HandleRound(rounds[k], inEof, keepOpen, inLost);
        if !more { return; }
        k := k + 1;
      }
    }

    /** The protocol is told of all the data that the kernel gives, and of the end of file once, after it. */
    method RunReadHandle(rounds: seq<Round>, inEof: seq<Call>, keepOpen: bool, inLost: seq<Call>)
      requires Valid() && AtRest(View())
      modifies this, loop
      ensures (crashed || Ready()) && View() == Next(old(View()), Readable(rounds, inEof, keepOpen, inLost))
      ensures !crashed ==>
                Heard(trace.log) == Heard(old(trace).log) + (if fd in old(loop.tcpTransports) then DueFor(rounds) else [])
      ensures loop.SameEntriesBut(fd) && loop.SameLinksBut(fd)
    {
      EventSays(View(), Readable(rounds, inEof, keepOpen, inLost));
      if fd in loop.tcpTransports {
        RunRounds(rounds, inEof, keepOpen, inLost);
      }
    }
  }

  /** `read_into`: read until the buffer is full, the socket is dry or the peer has closed. */
  method ReadLoop(room: nat, kernel: seq<ReadResult>) returns (data: Bytes, closed: bool)
    ensures (data, closed) == ReadInto(room, kernel)
    ensures |data| <= room
  {
    data, closed := [], false;
    var k := 0;
    assert kernel[0..] == kernel && [] + ReadInto(room, kernel).0 == ReadInto(room, kernel).0;
    while k < |kernel| && |data| < room
      invariant k <= |kernel| && |data| <= room
      invariant ReadInto(room, kernel) == var r := ReadInto(room - |data|, kernel[k..]); (data + r.0, r.1)
    {
      assert kernel[k..][1..] == kernel[k+1..];
      match kernel[k] {
        case Got(chunk) =>
          var m := Min(|chunk|, room - |data|);
          if m == 0 {
            assert data + [] == data;
            return data, true;
          }
          ghost var r := ReadInto(room - |data| - m, kernel[k+1..]);
          assert data + (chunk[..m] + r.0) == (data + chunk[..m]) + r.0;
          data := data + chunk[..m];
        case ReadInterrupted =>
        case ReadStopped =>
          assert data + [] == data;
          return data, false;
      }
      k := k + 1;
    }
    assert data + [] == data;
  }

  /** `Drain` from answer `k` on, after `sent` has gone out. */
  function DrainFrom(queue: seq<Bytes>, kernel: seq<WriteResult>, k: nat, sent: Bytes): Drained
    requires k <= |kernel|
  {
    var r := Drain(queue, kernel[k..]);
    r.(sent := sent + r.sent)
  }

  lemma {:induction false} DrainNext(queue: seq<Bytes>, kernel: seq<WriteResult>, k: nat, sent: Bytes)
    requires queue != [] && k < |kernel|
    ensures DrainFrom(queue, kernel, k, sent) ==
            match kernel[k]
            case Wrote(n) =>
              (var m := Min(n, |queue[0]|);
               if m < |queue[0]| then Drained([queue[0][m..]] + queue[1..], sent + queue[0][..m], [], false)
               else DrainFrom(queue[1..], kernel, k + 1, sent + queue[0]))
            case Interrupted => DrainFrom(queue, kernel, k + 1, sent)
            case WouldBlock => Drained(queue, sent, [], false)
            case Failed => Drained([], sent, Flat(queue), true)
  {
    assert kernel[k..][1..] == kernel[k+1..];
    var r := Drain(queue[1..], kernel[k+1..]);
    assert sent + (queue[0] + r.sent) == sent + queue[0] + r.sent;
    assert sent + [] == sent;
  }

  /** The loop of `TCPWriteHandle::write`: send queued chunks until one is not taken whole. */
  method DrainLoop(queue: seq<Bytes>, kernel: seq<WriteResult>)
    returns (rest: seq<Bytes>, ret: nat, failed: bool, ghost sent: Bytes, ghost dropped: Bytes)
    ensures rest == Drain(queue, kernel).queue && failed == Drain(queue, kernel).failed && ret == |Drain(queue, kernel).sent|
    ensures Drained(rest, sent, dropped, failed) == Drain(queue, kernel)
  {
    rest, ret, failed, sent, dropped := queue, 0, false, [], [];
    var k, blocked := 0, false;
    assert kernel[0..] == kernel;
    while rest != [] && k < |kernel| && !blocked
      invariant k <= |kernel| && ret == |sent|
      invariant !blocked ==> Drain(queue, kernel) == DrainFrom(rest, kernel, k, sent)
      invariant blocked ==> Drain(queue, kernel) == Drained(rest, sent, [], false)
      decreases |kernel| - k, !blocked
    {
      ghost var before := rest;
      var data := rest[0];
      rest := rest[1..];
      assert [data] + rest == before;
      DrainNext(before, kernel, k, sent);
      match kernel[k] {
        case Wrote(n) =>
          var m := Min(n, |data|);
          if m < |data| {
            rest := [data[m..]] + rest;
            blocked := true;
          } else {
            assert data[..m] == data;
          }
          ret := ret + m;
          sent := sent + data[..m];
        case Interrupted =>
          rest := [data] + rest;
        case WouldBlock =>
          rest := [data] + rest;
          blocked := true;
        case Failed =>
          return [], ret, true, sent, Flat(before);
      }
      k := k + 1;
    }
    assert sent + [] == sent;
  }
}
