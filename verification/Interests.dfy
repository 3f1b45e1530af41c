/** The per-fd handle table of the RLoop and what the poller was told
    (src/event_loop.rs, `tcp_stream_add` .. `udp_socket_rem`). */
module Interests {
  import opened Prelude

  /** A set of readiness flags. */
  datatype Mask = Mask(readable: bool, writable: bool) {
    function Union(other: Mask): Mask {
      Mask(readable || other.readable, writable || other.writable)
    }
    function Minus(other: Mask): Mask {
      Mask(readable && !other.readable, writable && !other.writable)
    }
    predicate SubsetOf(other: Mask) {
      (readable ==> other.readable) && (writable ==> other.writable)
    }
  }

  const NOTHING := Mask(false, false)

  /** mio's `Interest`: a non-empty set of flags. */
  datatype Interest = READABLE | WRITABLE | BOTH {
    function Flags(): Mask {
      Mask(this != WRITABLE, this != READABLE)
    }
    /** `|` */
    function Or(other: Interest): (r: Interest)
      ensures r.Flags() == Flags().Union(other.Flags())
    {
      if this == other then this else BOTH
    }
    /** `Interest::remove` */
    function Without(other: Interest): (r: Option<Interest>)
      ensures r.None? <==> Flags().SubsetOf(other.Flags())
      ensures r.Some? ==> r.value.Flags() == Flags().Minus(other.Flags())
    {
      if other == BOTH || this == other then None
      else if this == BOTH then Some(if other == READABLE then WRITABLE else READABLE)
      else Some(this)
    }
  }

  datatype Kind = Tcp | Udp

  datatype IOHandle =
    | PyHandle
    | Signals
    | TCPListener(server: nat)
    | TCPStream(tcpInterest: Interest)
    | UDPSocket(udpInterest: Interest)

  predicate OfKind(h: IOHandle, kind: Kind) {
    match kind
    case Tcp => h.TCPStream?
    case Udp => h.UDPSocket?
  }

  function InterestOf(h: IOHandle): Interest
    requires h.TCPStream? || h.UDPSocket?
  {
    if h.TCPStream? then h.tcpInterest else h.udpInterest
  }

  function Entry(kind: Kind, interest: Interest): IOHandle {
    match kind
    case Tcp => TCPStream(interest)
    case Udp => UDPSocket(interest)
  }

  /** One fd: its `handles_io` entry and the interest registered with the poller. */
  datatype Slot = Slot(entry: Option<IOHandle>, polled: Option<Interest>)

  const UNUSED := Slot(None, None)

  /** A table call that hits `unwrap` or `unreachable!` panics. */
  datatype Outcome<+T> = Done(value: T) | Panic

  /** Registering a known fd fails and the result is discarded. */
  function Register(polled: Option<Interest>, interest: Interest): Option<Interest> {
    if polled.Some? then polled else Some(interest)
  }

  /** Re-registering an unknown fd fails and the result is discarded. */
  function Reregister(polled: Option<Interest>, interest: Interest): Option<Interest> {
    if polled.Some? then Some(interest) else polled
  }

  /** What the loop believes it asked for. */
  function Recorded(slot: Slot): Mask {
    if slot.entry.Some? && (slot.entry.value.TCPStream? || slot.entry.value.UDPSocket?)
    then InterestOf(slot.entry.value).Flags() else NOTHING
  }

  /** What the poller reports on. */
  function Registered(slot: Slot): Mask {
    if slot.polled.Some? then slot.polled.value.Flags() else NOTHING
  }

  /** The slot is unused or holds a stream entry of the given kind, and the poller agrees. */
  predicate Agrees(kind: Kind, slot: Slot) {
    && (slot.entry.Some? ==> OfKind(slot.entry.value, kind))
    && Recorded(slot) == Registered(slot)
  }

  /** Adding is set union on both sides, from any agreeing slot, and never panics there. */
  function Add(kind: Kind, slot: Slot, interest: Interest): (r: Outcome<Slot>)
    ensures Agrees(kind, slot) ==>
              r.Done? && Agrees(kind, r.value) && Recorded(r.value) == Recorded(slot).Union(interest.Flags())
  {
    match slot.entry
    case None => Done(Slot(Some(Entry(kind, interest)), Register(slot.polled, interest)))
    case Some(h) =>
      if !OfKind(h, kind) then Panic
      else if InterestOf(h) == interest then Done(slot)
      else
        var both := InterestOf(h).Or(interest);
        Done(Slot(Some(Entry(kind, both)), Reregister(slot.polled, both)))
  }

  /** Removing is set difference on both sides. It panics exactly when the entry would be
      left empty without having been equal to what is removed. */
  function Rem(kind: Kind, slot: Slot, interest: Interest): (r: Outcome<Slot>)
    ensures Agrees(kind, slot) ==>
              (r.Panic? <==> slot.entry.Some? && Recorded(slot) != interest.Flags() && Recorded(slot).SubsetOf(interest.Flags()))
    ensures Agrees(kind, slot) && r.Done? ==>
              Agrees(kind, r.value) && Recorded(r.value) == Recorded(slot).Minus(interest.Flags())
  {
    match slot.entry
    case None => Done(slot)
    case Some(h) =>
      if OfKind(h, kind) && InterestOf(h) == interest then Done(UNUSED)
      else if !OfKind(h, kind) then Panic
      else
        match InterestOf(h).Without(interest)
        case None => Panic
        case Some(left) => Done(Slot(Some(Entry(kind, left)), Reregister(slot.polled, left)))
  }

  // ----- whole runs over many fds -----

  datatype Op =
    | AddOp(kind: Kind, fd: nat, interest: Interest)
    | RemOp(kind: Kind, fd: nat, interest: Interest)

  type Table = map<nat, Slot>

  function SlotAt(table: Table, fd: nat): Slot {
    if fd in table then table[fd] else UNUSED
  }

  function ApplyOp(table: Table, op: Op): Outcome<Table> {
    var r := match op
      case AddOp(kind, fd, interest) => Add(kind, SlotAt(table, fd), interest)
      case RemOp(kind, fd, interest) => Rem(kind, SlotAt(table, fd), interest);
    if r.Panic? then Panic else Done(table[op.fd := r.value])
  }

  function ApplyOps(ops: seq<Op>): Outcome<Table> {
    if ops == [] then Done(map[])
    else
      var before := ApplyOps(ops[..|ops|-1]);
      if before.Panic? then Panic else ApplyOp(before.value, ops[|ops|-1])
  }

  /** Reference: the flags asked for and not given back since, fd by fd. */
  function Wanted(ops: seq<Op>, fd: nat): Mask {
    if ops == [] then NOTHING
    else
      var before := Wanted(ops[..|ops|-1], fd);
      var op := ops[|ops|-1];
      if op.fd != fd then before
      else if op.AddOp? then before.Union(op.interest.Flags())
      else before.Minus(op.interest.Flags())
  }

  /** Every fd is used by one kind of transport. */
  predicate OneKindPerFd(ops: seq<Op>, kinds: map<nat, Kind>) {
    forall i :: 0 <= i < |ops| ==> ops[i].fd in kinds && kinds[ops[i].fd] == ops[i].kind
  }

  /** Some removal finds flags wanted, other than those it removes, and would leave none of them. */
  predicate Overreaches(ops: seq<Op>) {
    && ops != []
    && var before, op := ops[..|ops|-1], ops[|ops|-1];
       || Overreaches(before)
       || (op.RemOp? && var wanted := Wanted(before, op.fd);
                        wanted != NOTHING && wanted != op.interest.Flags() && wanted.SubsetOf(op.interest.Flags()))
  }

  /** For every sequence of adds and removals a panic arm is reached exactly if some removal overreaches; until then, for
      every fd, both the recorded and the registered interest are exactly the flags still wanted. */
  lemma {:induction false} TableTracksRequests(ops: seq<Op>, kinds: map<nat, Kind>)
    requires OneKindPerFd(ops, kinds)
    ensures ApplyOps(ops).Panic? <==> Overreaches(ops)
    ensures ApplyOps(ops).Done? ==> forall fd :: fd in ApplyOps(ops).value ==> fd in kinds && Agrees(kinds[fd], SlotAt(ApplyOps(ops).value, fd))
    ensures ApplyOps(ops).Done? ==> forall fd :: Recorded(SlotAt(ApplyOps(ops).value, fd)) == Wanted(ops, fd)
    ensures ApplyOps(ops).Done? ==> forall fd :: Registered(SlotAt(ApplyOps(ops).value, fd)) == Wanted(ops, fd)
  {
    if ops != [] {
      var init, op := ops[..|ops|-1], ops[|ops|-1];
      TableTracksRequests(init, kinds);
      if ApplyOps(init).Done? {
        var slot := SlotAt(ApplyOps(init).value, op.fd);
        assert Agrees(op.kind, slot);
        assert slot.entry.Some? <==> Recorded(slot) != NOTHING;
      }
    }
  }

  /** Every removal names one flag, as all callers in src/tcp.rs and src/udp.rs do. */
  predicate SingleFlagRemovals(ops: seq<Op>) {
    forall i :: 0 <= i < |ops| && ops[i].RemOp? ==> ops[i].interest != BOTH
  }

  /** So no panic arm is reached by removals of one flag each. */
  lemma {:induction false} SingleFlagsNeverOverreach(ops: seq<Op>)
    requires SingleFlagRemovals(ops)
    ensures !Overreaches(ops)
  {
    if ops != [] {
      SingleFlagsNeverOverreach(ops[..|ops|-1]);
    }
  }

  /** Two kinds on one fd, or removing both flags where one is held, panic. */
  lemma PanicWitnesses()
    ensures ApplyOps([AddOp(Tcp, 3, READABLE), AddOp(Udp, 3, READABLE)]).Panic?
    ensures ApplyOps([AddOp(Tcp, 3, READABLE), RemOp(Tcp, 3, BOTH)]).Panic?
  {
    var first := [AddOp(Tcp, 3, READABLE)];
    assert first[..0] == [];
    assert ApplyOps(first) == ApplyOp(map[], first[0]);
    var mixed := [AddOp(Tcp, 3, READABLE), AddOp(Udp, 3, READABLE)];
    assert mixed[..1] == first;
    var wide := [AddOp(Tcp, 3, READABLE), RemOp(Tcp, 3, BOTH)];
    assert wide[..1] == first;
  }
}
