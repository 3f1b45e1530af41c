/** Listeners: accepting streams and closing a server (src/event_loop.rs, src/tcp.rs). */
module TcpServer {
  import opened Prelude
  import opened Callbacks
  import opened Interests
  import opened TcpMachine
  import opened TcpInvariant
  import opened TcpWatch
  import opened TcpCalls
  import opened TcpTransport

  /** Every attached transport sits under its own fd. */
  ghost predicate Homed(loop: EventLoop)
    reads loop
  {
    forall fd :: fd in loop.tcpTransports ==> loop.tcpTransports[fd].loop == loop && loop.tcpTransports[fd].fd == fd
  }

  /** Every listener entry has its stream set, so the `unwrap` of the accept path is safe. */
  ghost predicate ListenersKnown(loop: EventLoop)
    reads loop
  {
    forall l :: l in loop.handlesIo && loop.handlesIo[l].TCPListener? ==>
      loop.handlesIo[l].server == l && l in loop.tcpLstreams
  }

  function ListenerEntries(handles: map<nat, IOHandle>): map<nat, IOHandle> {
    map l | l in handles && handles[l].TCPListener? :: handles[l]
  }

  /** The index survives exactly if no attached transport names the listener: a second call for one fd empties the set
      of its live connections. */
  method TcpListenerAdd(loop: EventLoop, lfd: nat)
    requires Indexed(loop.AllLinks()) && ListenersKnown(loop)
    modifies loop`handlesIo, loop`poller, loop`tcpLstreams
    ensures ListenersKnown(loop)
    ensures Indexed(loop.AllLinks()) <==> forall fd :: fd in loop.tcpTransports ==> loop.tcpTransports[fd].lfd != Some(lfd)
    ensures loop.handlesIo == old(loop.handlesIo)[lfd := TCPListener(lfd)]
    ensures loop.tcpLstreams == old(loop.tcpLstreams)[lfd := {}]
    ensures loop.poller == if lfd in old(loop.poller) then old(loop.poller) else old(loop.poller)[lfd := READABLE]
  {
    if lfd !in loop.poller {
      loop.poller := loop.poller[lfd := READABLE];
    }
    loop.tcpLstreams := loop.tcpLstreams[lfd := {}];
    loop.handlesIo := loop.handlesIo[lfd := TCPListener(lfd)];
  }

  /** The entry goes whatever it is; then the call panics if it was not a listener's. */
  method TcpListenerRem(loop: EventLoop, fd: nat) returns (removed: bool, panicked: bool)
    requires Indexed(loop.AllLinks()) && ListenersKnown(loop)
    modifies loop`handlesIo, loop`poller, loop`tcpLstreams
    ensures Indexed(loop.AllLinks()) && ListenersKnown(loop)
    ensures loop.handlesIo == old(loop.handlesIo) - {fd}
    ensures removed == (fd in old(loop.handlesIo) && old(loop.handlesIo)[fd].TCPListener?)
    ensures panicked == (fd in old(loop.handlesIo) && !old(loop.handlesIo)[fd].TCPListener?)
    ensures if removed then loop.tcpLstreams == old(loop.tcpLstreams) - {fd} && loop.poller == old(loop.poller) - {fd}
            else loop.tcpLstreams == old(loop.tcpLstreams) && loop.poller == old(loop.poller)
  {
    removed, panicked := false, false;
    if fd in loop.handlesIo {
      removed := loop.handlesIo[fd].TCPListener?;
      panicked := !removed;
      loop.handlesIo := loop.handlesIo - {fd};
      if removed {
        loop.tcpLstreams := loop.tcpLstreams - {fd};
        loop.poller := loop.poller - {fd};
      }
    }
  }

  /** One accepted stream starts in the state FRESH, in place of whatever entry an earlier owner of its fd left behind; no
      other transport notices. An attached transport keeps its fd open, so the kernel does not hand that out, and it
      forgets the registration of an fd that is closed. */
  method Accept(loop: EventLoop, lfd: nat, fd: nat)
    requires Homed(loop) && Indexed(loop.AllLinks()) && ListenersKnown(loop)
    requires lfd in loop.tcpLstreams && fd !in loop.tcpTransports
    modifies loop
    ensures Homed(loop) && Indexed(loop.AllLinks()) && ListenersKnown(loop)
    ensures FreshAt(loop, lfd, fd) && fresh(loop.tcpTransports[fd])
    ensures loop.handlesIo == old(loop.handlesIo)[fd := TCPStream(READABLE)]
    ensures loop.poller == old(loop.poller)[fd := READABLE]
    ensures loop.tcpLstreams.Keys == old(loop.tcpLstreams.Keys)
    ensures loop.tcpTransports == old(loop.tcpTransports)[fd := loop.tcpTransports[fd]]
    ensures forall f :: f != fd && old(FreshAt(loop, lfd, f)) ==> FreshAt(loop, lfd, f)
  {
    var t := new TCPTransport(loop, fd, Some(lfd));
    loop.tcpTransports := loop.tcpTransports[fd := t];
    loop.tcpLstreams := loop.tcpLstreams[lfd := loop.tcpLstreams[lfd] + {fd}];
    loop.poller := loop.poller[fd := READABLE];
    loop.handlesIo := loop.handlesIo[fd := TCPStream(READABLE)];
  }

  /** An attached transport of the listener, in the initial state. */
  ghost predicate FreshAt(loop: EventLoop, lfd: nat, fd: nat)
    requires Homed(loop)
    reads loop, loop.tcpTransports.Values
  {
    fd in loop.tcpTransports && loop.tcpTransports[fd].lfd == Some(lfd) && loop.tcpTransports[fd].View() == FRESH
  }

  /** The accept loop of `handle_io_tcpl`; the kernel hands out fds that are not open. */
  method HandleIoTcpl(loop: EventLoop, lfd: nat, fds: seq<nat>)
    requires Homed(loop) && Indexed(loop.AllLinks()) && ListenersKnown(loop)
    requires lfd in loop.handlesIo && loop.handlesIo[lfd].TCPListener?
    requires forall i :: 0 <= i < |fds| ==> fds[i] !in loop.tcpTransports
    requires forall i, j :: 0 <= i < j < |fds| ==> fds[i] != fds[j]
    modifies loop
    ensures Homed(loop) && Indexed(loop.AllLinks()) && ListenersKnown(loop)
    ensures forall i :: 0 <= i < |fds| ==> FreshAt(loop, lfd, fds[i])
    ensures loop.tcpTransports.Keys == old(loop.tcpTransports).Keys + set fd | fd in fds
    ensures forall fd :: fd in old(loop.tcpTransports) ==> loop.tcpTransports[fd] == old(loop.tcpTransports)[fd]
  {
    var i := 0;
    while i < |fds|
      invariant i <= |fds|
      invariant Homed(loop) && Indexed(loop.AllLinks()) && ListenersKnown(loop) && lfd in loop.tcpLstreams
      invariant loop.tcpTransports.Keys == old(loop.tcpTransports).Keys + set fd | fd in fds[..i]
      invariant forall j :: 0 <= j < i ==> FreshAt(loop, lfd, fds[j])
      invariant forall fd :: fd in old(loop.tcpTransports) ==> loop.tcpTransports[fd] == old(loop.tcpTransports)[fd]
    {
      assert fds[i] !in fds[..i];
      assert fds[..i+1] == fds[..i] + [fds[i]];
      Accept(loop, lfd, fds[i]);
      i := i + 1;
    }
    assert fds[..i] == fds;
  }

  /** What a transport's protocol does in connection_lost. */
  function Reaction(reactions: map<nat, seq<Call>>, fd: nat): seq<Call> {
    if fd in reactions then reactions[fd] else []
  }

  /** An abort panics exactly if the watch says so, and else detaches the transport. */
  lemma {:induction false} AbortDetaches(s: Conn, inLost: seq<Call>)
    requires !s.crashed && Sound(s)
    ensures var t := Exec(s, Abort(inLost));
            && (t.crashed <==> Latch(Panics, s, Abort(inLost), false))
            && (!t.crashed ==> Sound(t) && !t.stage.attached && t.trace.lost > s.trace.lost)
            && CallsOutSoundly(s, Abort(inLost)) && Agrees(Tcp, s.slot)
  {
    LatchReads(Panics, s, Abort(inLost));
    ExecKeeps(s, Abort(inLost));
    if !s.stage.cellHeld {
      AbortingKeeps(s);
      LoseKeeps(Aborting(s), inLost);
    }
    SoundCallsOutSoundly(s, Abort(inLost));
  }

  /** The protocol aborts, or has a direct write fail, in reaction to the loss. */
  predicate RepeatsLoss(s: Conn, inLost: seq<Call>) {
    Latch(LateAbort, s, Abort(inLost), false) || Latch(LateFailure, s, Abort(inLost), false)
  }

  /** Whatever its reaction, the protocol of an aborted connection is told exactly once exactly if it had not been told
      and does neither. */
  lemma {:induction false} AbortTellsOnce(s: Conn, inLost: seq<Call>)
    requires !s.crashed && Sound(s) && !Latch(Panics, s, Abort(inLost), false)
    ensures LostCount(Exec(s, Abort(inLost)).trace.log) == 1 <==> s.trace.lost == 0 && !RepeatsLoss(s, inLost)
  {
    AbortDetaches(s, inLost);
    var t := Exec(s, Abort(inLost));
    assert t.trace.lost == LostCount(t.trace.log) == 1 + Repeats(t.misuse);
    if s.trace.lost == 0 {
      FirstAbortRepeats(s, inLost);
    }
  }

  lemma {:induction false} FirstAbortRepeats(s: Conn, inLost: seq<Call>)
    requires !s.crashed && Sound(s) && s.trace.lost == 0
    ensures Repeats(Exec(s, Abort(inLost)).misuse) == 0 <==> !RepeatsLoss(s, inLost)
  {
    LatchReads(LateAbort, s, Abort(inLost));
    LatchReads(LateFailure, s, Abort(inLost));
    CallLeaves(s, Abort(inLost));
  }

  lemma ListenersUntouched(was: map<nat, IOHandle>, now: map<nat, IOHandle>, fd: nat)
    requires now - {fd} == was - {fd}
    requires (fd in was ==> !was[fd].TCPListener?) && (fd in now ==> !now[fd].TCPListener?)
    ensures ListenerEntries(now) == ListenerEntries(was)
  {
    forall l
      ensures l in ListenerEntries(now) <==> l in ListenerEntries(was)
      ensures l in ListenerEntries(now) ==> now[l] == was[l]
    {
      if l != fd {
        SameElsewhere(was, now, fd, l);
      }
    }
  }

  /** Aborting one of the transports in `home` leaves every other one, linked or not, and every listener
      exactly as it was. */
  method AbortOne(loop: EventLoop, home: map<nat, TCPTransport>, fd: nat, inLost: seq<Call>) returns (panicked: bool)
    requires AtHome(loop, home)
    requires fd in home && fd in loop.tcpTransports && loop.tcpTransports[fd] == home[fd] && Indexed(loop.AllLinks())
    requires !home[fd].crashed && Sound(home[fd].View())
    modifies home[fd], loop
    ensures home[fd].View() == AfterAbort(old(home[fd].View()), inLost) && panicked == home[fd].View().crashed
    ensures forall f :: f in home && f != fd ==> home[f].View() == old(home[f].View())
    ensures !panicked ==> loop.tcpTransports == old(loop.tcpTransports) - {fd}
    ensures !panicked ==> loop.tcpLstreams.Keys == old(loop.tcpLstreams.Keys) && Indexed(loop.AllLinks())
    ensures loop.SameEntriesBut(fd) && (!panicked ==> Agrees(Tcp, loop.SlotOf(fd)))
  {
    var t := home[fd];
    AbortDetaches(t.View(), inLost);
    UnlinkKeepsIndex(loop.AllLinks(), fd);
    ghost var before := t.View();
    t.Abort(inLost);
    panicked := t.crashed;
    assert t.View() == Exec(before, Abort(inLost));
    assert !panicked ==> !t.View().stage.attached && Agrees(Tcp, t.View().slot);
    assert loop.tcpTransports - {fd} == old(loop.tcpTransports) - {fd};
    forall f | f in home && f != fd
      ensures home[f].View() == old(home[f].View())
    {
      SameElsewhere(old(loop.handlesIo), loop.handlesIo, fd, f);
      SameElsewhere(old(loop.poller), loop.poller, fd, f);
      SameElsewhere(old(loop.tcpTransports), loop.tcpTransports, fd, f);
    }
  }

  ghost predicate AtHome(loop: EventLoop, home: map<nat, TCPTransport>) {
    forall f :: f in home ==> home[f].loop == loop && home[f].fd == f
  }

  ghost function ViewsOf(loop: EventLoop, home: map<nat, TCPTransport>): map<nat, Conn>
    requires AtHome(loop, home)
    reads loop, home.Values
  {
    map f | f in home :: home[f].View()
  }

  function AfterAbort(s: Conn, inLost: seq<Call>): Conn {
    Exec(s, Abort(inLost))
  }

  /** All of `todo` as planned, nothing else touched. */
  ghost function Replaced(views: map<nat, Conn>, todo: set<nat>, plan: map<nat, Conn>): map<nat, Conn> {
    map f | f in views :: if f in todo && f in plan then plan[f] else views[f]
  }

  /** The connections to abort are alive, and the plan says what becomes of them. */
  ghost predicate Fit(views: map<nat, Conn>, todo: set<nat>, reactions: map<nat, seq<Call>>, plan: map<nat, Conn>) {
    && (forall f :: f in todo ==> f in views && !views[f].crashed && Sound(views[f]))
    && (forall f :: f in todo ==> f in plan && plan[f] == AfterAbort(views[f], Reaction(reactions, f)))
  }

  ghost predicate Linked(loop: EventLoop, home: map<nat, TCPTransport>, todo: set<nat>)
    reads loop
  {
    forall f :: f in todo ==> f in home && f in loop.tcpTransports && loop.tcpTransports[f] == home[f]
  }

  predicate SomeCrashed(plan: map<nat, Conn>, todo: set<nat>) {
    exists f :: f in todo && f in plan && plan[f].crashed
  }

  lemma OnlyOne(was: map<nat, Conn>, now: map<nat, Conn>, fd: nat, plan: map<nat, Conn>)
    requires now.Keys == was.Keys && fd in was && fd in plan && now[fd] == plan[fd]
    requires forall f :: f in was && f != fd ==> now[f] == was[f]
    ensures now == Replaced(was, {fd}, plan)
  {
  }

  lemma {:induction false} SomeOneCrashed(plan: map<nat, Conn>, todo: set<nat>, fd: nat)
    requires fd in todo && fd in plan
    ensures SomeCrashed(plan, todo) <==> plan[fd].crashed || SomeCrashed(plan, todo - {fd})
  {
    if SomeCrashed(plan, todo) && !plan[fd].crashed {
      var f :| f in todo && f in plan && plan[f].crashed;
      assert f in todo - {fd};
    }
  }

  lemma {:induction false} ReplacedTwice(views: map<nat, Conn>, todo: set<nat>, fd: nat, plan: map<nat, Conn>)
    requires fd in todo
    ensures Replaced(Replaced(views, {fd}, plan), todo - {fd}, plan) == Replaced(views, todo, plan)
  {
  }

  lemma {:induction false} StaysFit(views: map<nat, Conn>, todo: set<nat>, fd: nat, reactions: map<nat, seq<Call>>, plan: map<nat, Conn>)
    requires Fit(views, todo, reactions, plan) && fd in todo
    ensures Fit(Replaced(views, {fd}, plan), todo - {fd}, reactions, plan)
  {
    forall f | f in todo - {fd}
      ensures f in Replaced(views, {fd}, plan) && Replaced(views, {fd}, plan)[f] == views[f]
    {
      assert f in todo;
    }
  }

  /** Aborting one of them and then the rest is aborting them all. */
  lemma {:induction false} AbortsCompose(views: map<nat, Conn>, todo: set<nat>, fd: nat, reactions: map<nat, seq<Call>>, plan: map<nat, Conn>)
    requires Fit(views, todo, reactions, plan) && fd in todo
    ensures var one := Replaced(views, {fd}, plan);
            && Fit(one, todo - {fd}, reactions, plan)
            && Replaced(one, todo - {fd}, plan) == Replaced(views, todo, plan)
            && (SomeCrashed(plan, todo) <==> plan[fd].crashed || SomeCrashed(plan, todo - {fd}))
  {
    StaysFit(views, todo, fd, reactions, plan);
    ReplacedTwice(views, todo, fd, plan);
    SomeOneCrashed(plan, todo, fd);
  }

  method AbortStep(loop: EventLoop, home: map<nat, TCPTransport>, todo: set<nat>, fd: nat, reactions: map<nat, seq<Call>>, ghost plan: map<nat, Conn>)
      returns (panicked: bool)
    requires AtHome(loop, home) && Indexed(loop.AllLinks()) && fd in todo
    requires Linked(loop, home, todo) && Fit(ViewsOf(loop, home), todo, reactions, plan)
    modifies loop, home.Values
    ensures panicked == plan[fd].crashed
    ensures ViewsOf(loop, home) == Replaced(old(ViewsOf(loop, home)), {fd}, plan)
    ensures !panicked ==> loop.tcpTransports == old(loop.tcpTransports) - {fd} && Linked(loop, home, todo - {fd})
    ensures !panicked ==> loop.tcpLstreams.Keys == old(loop.tcpLstreams.Keys) && Indexed(loop.AllLinks())
    ensures !panicked ==> ListenerEntries(loop.handlesIo) == old(ListenerEntries(loop.handlesIo))
  {
    assert ViewsOf(loop, home)[fd] == home[fd].View();
    assert Agrees(Tcp, loop.SlotOf(fd)) by {
      assert loop.SlotOf(fd) == home[fd].View().slot;
    }
    panicked := AbortOne(loop, home, fd, Reaction(reactions, fd));
    OnlyOne(old(ViewsOf(loop, home)), ViewsOf(loop, home), fd, plan);
    if !panicked {
      ListenersUntouched(old(loop.handlesIo), loop.handlesIo, fd);
    }
  }

  /** Each of the given connections is aborted exactly once, unless one of them panics; no other one is touched. */
  method AbortEach(loop: EventLoop, home: map<nat, TCPTransport>, todo: set<nat>, reactions: map<nat, seq<Call>>, ghost plan: map<nat, Conn>)
      returns (panicked: bool)
    requires AtHome(loop, home) && Indexed(loop.AllLinks()) && Linked(loop, home, todo) && Fit(ViewsOf(loop, home), todo, reactions, plan)
    modifies loop, home.Values
    ensures panicked == SomeCrashed(plan, todo)
    ensures !panicked ==> ViewsOf(loop, home) == Replaced(old(ViewsOf(loop, home)), todo, plan)
    ensures !panicked ==> loop.tcpTransports == old(loop.tcpTransports) - todo
    ensures !panicked ==> loop.tcpLstreams.Keys == old(loop.tcpLstreams.Keys) && Indexed(loop.AllLinks())
    ensures !panicked ==> ListenerEntries(loop.handlesIo) == old(ListenerEntries(loop.handlesIo))
    decreases todo
  {
    ghost var views := ViewsOf(loop, home);
    if todo == {} {
      assert Replaced(views, todo, plan) == views;
      return false;
    }
    var fd :| fd in todo;
    AbortsCompose(views, todo, fd, reactions, plan);
    RemoveOneMore(loop.tcpTransports, todo, fd);
    panicked := AbortStep(loop, home, todo, fd, reactions, plan);
    if !panicked {
      panicked := AbortEach(loop, home, todo - {fd}, reactions, plan);
    }
  }

  lemma RemoveOneMore<V>(m: map<nat, V>, all: set<nat>, x: nat)
    requires x in all
    ensures m - {x} - (all - {x}) == m - all
  {
    assert {x} + (all - {x}) == all;
  }

  /** The plan is what the watches say: who panics, and who is told exactly once. */
  lemma {:induction false} PlanTells(views: map<nat, Conn>, todo: set<nat>, reactions: map<nat, seq<Call>>, plan: map<nat, Conn>)
    requires Fit(views, todo, reactions, plan)
    ensures SomeCrashed(plan, todo) == SomePanics(views, todo, reactions)
    ensures forall fd :: fd in todo && !plan[fd].crashed ==> Told(views[fd], plan[fd].trace, Reaction(reactions, fd))
  {
    forall fd | fd in todo
      ensures plan[fd].crashed <==> Latch(Panics, views[fd], Abort(Reaction(reactions, fd)), false)
      ensures !plan[fd].crashed ==> Told(views[fd], plan[fd].trace, Reaction(reactions, fd))
    {
      AbortDetaches(views[fd], Reaction(reactions, fd));
      if !plan[fd].crashed {
        AbortTellsOnce(views[fd], Reaction(reactions, fd));
      }
    }
  }

  lemma ListenersStayKnown(was: map<nat, IOHandle>, now: map<nat, IOHandle>, keys: set<nat>)
    requires ListenerEntries(now) == ListenerEntries(was)
    requires forall l :: l in was && was[l].TCPListener? ==> was[l].server == l && l in keys
    ensures forall l :: l in now && now[l].TCPListener? ==> now[l].server == l && l in keys
    ensures forall l :: l in was && was[l].TCPListener? ==> l in now && now[l] == was[l]
  {
    forall l | l in now && now[l].TCPListener?
      ensures now[l].server == l && l in keys
    {
      assert l in ListenerEntries(now);
    }
    forall l | l in was && was[l].TCPListener?
      ensures l in now && now[l] == was[l]
    {
      assert l in ListenerEntries(was);
    }
  }

  /** The connections of a listener can be aborted: each is alive, at rest or inside any of its callbacks. */
  ghost predicate Closable(loop: EventLoop, lfd: nat)
    requires Homed(loop)
    reads loop, loop.tcpTransports.Values
  {
    && Indexed(loop.AllLinks()) && ListenersKnown(loop) && lfd in loop.handlesIo && loop.handlesIo[lfd].TCPListener?
    && forall fd :: fd in loop.tcpLstreams[lfd] ==>
         var s := ViewsOf(loop, loop.tcpTransports)[fd];
         !s.crashed && Sound(s)
  }

  /** What the connections of a listener become when they are aborted. */
  ghost function PlanOf(views: map<nat, Conn>, todo: set<nat>, reactions: map<nat, seq<Call>>): map<nat, Conn> {
    map fd | fd in todo && fd in views :: AfterAbort(views[fd], Reaction(reactions, fd))
  }

  method AbortListed(loop: EventLoop, lfd: nat, reactions: map<nat, seq<Call>>, ghost plan: map<nat, Conn>) returns (panicked: bool)
    requires Homed(loop) && Closable(loop, lfd) && Fit(ViewsOf(loop, loop.tcpTransports), loop.tcpLstreams[lfd], reactions, plan)
    modifies loop, loop.tcpTransports.Values
    ensures panicked == SomeCrashed(plan, old(loop.tcpLstreams)[lfd])
    ensures !panicked ==> Indexed(loop.AllLinks()) && ListenersKnown(loop) && lfd in loop.handlesIo && loop.handlesIo[lfd].TCPListener?
    ensures !panicked ==> loop.tcpTransports == old(loop.tcpTransports) - old(loop.tcpLstreams)[lfd]
    ensures !panicked ==> forall fd :: fd in old(loop.tcpLstreams)[lfd] ==> old(loop.tcpTransports)[fd].trace == plan[fd].trace
  {
    ghost var home, views, todo := loop.tcpTransports, ViewsOf(loop, loop.tcpTransports), loop.tcpLstreams[lfd];
    panicked := AbortEach(loop, loop.tcpTransports, loop.tcpLstreams[lfd], reactions, plan);
    if !panicked {
      ListenersStayKnown(old(loop.handlesIo), loop.handlesIo, loop.tcpLstreams.Keys);
      PlanDone(loop, home, views, todo, plan);
    }
  }

  /** What a server's close leaves of one of its connections: it is told exactly once, unless it has been told or repeats
      the loss. */
  ghost predicate Told(was: Conn, now: Trace, inLost: seq<Call>) {
    && now == AfterAbort(was, inLost).trace
    && (LostCount(now.log) == 1 <==> was.trace.lost == 0 && !RepeatsLoss(was, inLost))
  }

  ghost predicate SomePanics(views: map<nat, Conn>, todo: set<nat>, reactions: map<nat, seq<Call>>) {
    exists fd :: fd in todo && fd in views && Latch(Panics, views[fd], Abort(Reaction(reactions, fd)), false)
  }

  /** `streams_abort`: each connection of the listener is aborted once, unless a reaction to one of the losses panics,
      and none is left; each protocol that does not repeat the loss is told of it exactly once. */
  method StreamsAbort(loop: EventLoop, lfd: nat, reactions: map<nat, seq<Call>>) returns (panicked: bool)
    requires Homed(loop) && Closable(loop, lfd)
    modifies loop, loop.tcpTransports.Values
    ensures panicked == SomePanics(old(ViewsOf(loop, loop.tcpTransports)), old(loop.tcpLstreams)[lfd], reactions)
    ensures !panicked ==> Indexed(loop.AllLinks()) && ListenersKnown(loop) && lfd in loop.handlesIo && loop.handlesIo[lfd].TCPListener?
    ensures !panicked ==> loop.tcpTransports == old(loop.tcpTransports) - old(loop.tcpLstreams)[lfd]
    ensures !panicked ==> forall fd :: fd in old(loop.tcpLstreams)[lfd] ==>
              Told(old(ViewsOf(loop, loop.tcpTransports))[fd], old(loop.tcpTransports)[fd].trace, Reaction(reactions, fd))
  {
    ghost var views, todo := ViewsOf(loop, loop.tcpTransports), loop.tcpLstreams[lfd];
    ghost var plan := PlanOf(views, todo, reactions);
    PlanTells(views, todo, reactions, plan);
    panicked := AbortListed(loop, lfd, reactions, plan);
  }

  lemma NoneNames(links: Links, lfd: nat, rest: map<nat, TCPTransport>)
    requires Indexed(links) && lfd in links.lstreams && rest == links.transports - links.lstreams[lfd]
    ensures forall fd :: fd in rest ==> rest[fd].lfd != Some(lfd)
  {
  }

  /** Closing a server aborts its connections, leaves none that names it, and forgets the listener. */
  method ServerClose(loop: EventLoop, lfd: nat, reactions: map<nat, seq<Call>>) returns (panicked: bool)
    requires Homed(loop) && Closable(loop, lfd)
    modifies loop, loop.tcpTransports.Values
    ensures panicked == SomePanics(old(ViewsOf(loop, loop.tcpTransports)), old(loop.tcpLstreams)[lfd], reactions)
    ensures !panicked ==> Indexed(loop.AllLinks()) && ListenersKnown(loop)
    ensures !panicked ==> lfd !in loop.handlesIo && lfd !in loop.poller && lfd !in loop.tcpLstreams
    ensures !panicked ==> forall fd :: fd in loop.tcpTransports ==> loop.tcpTransports[fd].lfd != Some(lfd)
    ensures !panicked ==> loop.tcpTransports == old(loop.tcpTransports) - old(loop.tcpLstreams)[lfd]
    ensures !panicked ==> forall fd :: fd in old(loop.tcpLstreams)[lfd] ==>
              Told(old(ViewsOf(loop, loop.tcpTransports))[fd], old(loop.tcpTransports)[fd].trace, Reaction(reactions, fd))
  {
    panicked := StreamsAbort(loop, lfd, reactions);
    if !panicked {
      NoneNames(old(loop.AllLinks()), lfd, loop.tcpTransports);
      var removed, strange := TcpListenerRem(loop, lfd);
    }
  }

  lemma PlanDone(loop: EventLoop, home: map<nat, TCPTransport>, views: map<nat, Conn>, todo: set<nat>, plan: map<nat, Conn>)
    requires AtHome(loop, home) && ViewsOf(loop, home) == Replaced(views, todo, plan)
    ensures forall fd :: fd in todo && fd in plan && fd in home ==> home[fd].trace == plan[fd].trace
  {
    forall fd | fd in todo && fd in plan && fd in home
      ensures home[fd].trace == plan[fd].trace
    {
      assert home[fd].View() == ViewsOf(loop, home)[fd];
      assert fd in Replaced(views, todo, plan);
    }
  }
}
