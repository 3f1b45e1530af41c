/** Timers (src/time.rs and the timer parts of src/event_loop.rs). The heap is a multiset; ties pop in any order. */
module Timers {
  import opened Prelude

  datatype Timer = Timer(id: nat, when: nat)

  datatype Ordering = Less | Equal | Greater

  /** `Ord for Timer`, reversed so that the heap's greatest element is the earliest. */
  function Cmp(a: Timer, b: Timer): Ordering {
    if a.when < b.when then Greater
    else if a.when > b.when then Less
    else Equal
  }

  /** What `BinaryHeap::peek` may return. */
  predicate IsTop(heap: multiset<Timer>, t: Timer) {
    t in heap && forall u :: u in heap ==> Cmp(u, t) != Greater
  }

  lemma {:induction false} TopExists(heap: multiset<Timer>) returns (t: Timer)
    requires heap != multiset{}
    ensures IsTop(heap, t)
    decreases |heap|
  {
    t :| t in heap;
    var rest := heap - multiset{t};
    assert heap == rest + multiset{t};
    if rest != multiset{} {
      var u := TopExists(rest);
      if u.when < t.when {
        t := u;
      }
    }
  }

  /** The top of the heap is the earliest timer. */
  lemma TopIsEarliest(heap: multiset<Timer>, t: Timer)
    requires t in heap
    ensures IsTop(heap, t) <==> forall u :: u in heap ==> t.when <= u.when
  {
    assert forall u :: Cmp(u, t) == Greater <==> u.when < t.when;
  }

  predicate SortedByDeadline(ts: seq<Timer>) {
    forall i, j :: 0 <= i < j < |ts| ==> ts[i].when <= ts[j].when
  }

  /** `fired` is exactly what is due at `tick`, each as often as it is in the heap, earliest first. */
  predicate FiresExactly(heap: multiset<Timer>, tick: nat, fired: seq<Timer>, rest: multiset<Timer>) {
    && multiset(fired) + rest == heap
    && SortedByDeadline(fired)
    && (forall i :: 0 <= i < |fired| ==> fired[i].when <= tick)
    && (forall t :: t in rest ==> t.when > tick)
  }

  /** `BinaryHeap::peek` */
  method Peek(heap: multiset<Timer>) returns (timer: Timer)
    requires heap != multiset{}
    ensures timer in heap && forall u :: u in heap ==> timer.when <= u.when
  {
    ghost var top := TopExists(heap);
    timer :| timer in heap && IsTop(heap, timer);
    TopIsEarliest(heap, timer);
  }

  /** Part of a heap has popped, in order, none later than `floor`; the rest is not earlier. */
  predicate Popping(heap: multiset<Timer>, fired: seq<Timer>, rest: multiset<Timer>, floor: nat) {
    && multiset(fired) + rest == heap
    && SortedByDeadline(fired)
    && (forall i :: 0 <= i < |fired| ==> fired[i].when <= floor)
    && (forall t :: t in rest ==> floor <= t.when)
  }

  lemma MovesOne(fired: seq<Timer>, rest: multiset<Timer>, timer: Timer)
    requires timer in rest
    ensures multiset(fired + [timer]) + (rest - multiset{timer}) == multiset(fired) + rest
  {
  }

  lemma {:induction false} PopsOne(heap: multiset<Timer>, fired: seq<Timer>, rest: multiset<Timer>, floor: nat, timer: Timer)
    requires Popping(heap, fired, rest, floor) && timer in rest && forall u :: u in rest ==> timer.when <= u.when
    ensures Popping(heap, fired + [timer], rest - multiset{timer}, timer.when)
  {
    MovesOne(fired, rest, timer);
    var now := fired + [timer];
    assert forall i :: 0 <= i < |fired| ==> now[i] == fired[i];
  }

  /** The timer phase of `step`. */
  method PopDue(heap: multiset<Timer>, tick: nat) returns (fired: seq<Timer>, rest: multiset<Timer>)
    ensures FiresExactly(heap, tick, fired, rest)
  {
    fired, rest := [], heap;
    ghost var floor: nat := 0;
    while rest != multiset{}
      invariant Popping(heap, fired, rest, floor) && floor <= tick
      decreases |rest|
    {
      var timer := Peek(rest);
      if timer.when > tick {
        return;
      }
      PopsOne(heap, fired, rest, floor, timer);
      floor := timer.when;
      fired := fired + [timer];
      rest := rest - multiset{timer};
    }
  }

  /** The order in which equal deadlines pop aside, there is one way to fire. */
  lemma FiringIsDetermined(heap: multiset<Timer>, tick: nat, f1: seq<Timer>, r1: multiset<Timer>, f2: seq<Timer>, r2: multiset<Timer>)
    requires FiresExactly(heap, tick, f1, r1) && FiresExactly(heap, tick, f2, r2)
    ensures multiset(f1) == multiset(f2) && r1 == r2
  {
    forall t: Timer
      ensures multiset(f1)[t] == multiset(f2)[t] && r1[t] == r2[t]
    {
      assert heap[t] == multiset(f1)[t] + r1[t] == multiset(f2)[t] + r2[t];
      if t.when <= tick {
        assert t !in r1 && t !in r2;
      } else {
        assert t !in multiset(f1) && t !in multiset(f2);
      }
    }
  }

  // ----- the poll timeout -----

  /** `sched_time` in microseconds. It is a u64, cut from a u128. The loop never sleeps past the earliest deadline
      when that lies ahead, exactly until it if it is less than a word away, and without limit exactly when there is
      no ready work and the earliest timer is missing or already due. */
  function PollTimeout(ready: bool, earliest: Option<nat>, tick: nat): (timeout: Option<nat>)
    ensures timeout.None? <==> !ready && (earliest.None? || earliest.value <= tick)
    ensures !ready && timeout.Some? ==> tick + timeout.value <= earliest.value
    ensures !ready && timeout.Some? && earliest.value - tick < WORD ==> tick + timeout.value == earliest.value
    ensures ready ==> timeout == Some(0)
  {
    if ready then Some(0)
    else if earliest.Some? && earliest.value > tick then Some((earliest.value - tick) % WORD)
    else None
  }

  // ----- whole runs -----

  /** Where `step` is: before poll, past it, past the swap of the ready queue, or in its callbacks. */
  datatype Phase = Top | Polled | Swapped | Calling

  datatype Clock = Clock(
    now: nat, phase: Phase, ready: nat, heap: multiset<Timer>, lastTick: nat,
    fired: seq<Timer>, ticks: seq<nat>, added: multiset<Timer>)

  const STOPPED := Clock(0, Top, 0, multiset{}, 0, [], [], multiset{})

  datatype Event =
    | Advance(d: nat)                                // the clock is monotone
    | Queue                                          // a handle is queued, on any thread
    | Later(id: nat, delay: nat)                     // `_call_later` on the loop thread
    | Poll(earliest: Option<nat>)                    // the timeout is computed and poll entered
    | Swap                                           // the ready queue is taken
    | Fire(due: seq<Timer>, rest: multiset<Timer>)   // the timer phase
    | EndStep

  /** What peeking at the heap finds. */
  predicate IsEarliest(heap: multiset<Timer>, earliest: Option<nat>) {
    match earliest
    case None => heap == multiset{}
    case Some(when) => (exists t :: t in heap && t.when == when) && forall t :: t in heap ==> when <= t.when
  }

  predicate Enabled(c: Clock, e: Event) {
    match e
    case Advance(_) => true
    case Queue => true
    case Later(_, _) => c.phase == Top || c.phase == Calling
    case Poll(earliest) => c.phase == Top && IsEarliest(c.heap, earliest)
    case Swap => c.phase == Polled
    case Fire(due, rest) => c.phase == Swapped && FiresExactly(c.heap, c.now, due, rest)
    case EndStep => c.phase == Calling
  }

  /** The timeout with which poll is entered. */
  function Timeout(c: Clock, earliest: Option<nat>): Option<nat> {
    PollTimeout(c.ready > 0, earliest, c.now)
  }

  function Apply(c: Clock, e: Event): Clock {
    match e
    case Advance(d) => c.(now := c.now + d)
    case Queue => c.(ready := c.ready + 1)
    case Later(id, delay) =>
      var t := Timer(id, c.now + delay);
      c.(heap := c.heap + multiset{t}, added := c.added + multiset{t})
    case Poll(_) => c.(phase := Polled)
    case Swap => c.(phase := Swapped, ready := 0)
    case Fire(due, rest) =>
      c.(phase := Calling, heap := rest, lastTick := c.now, fired := c.fired + due, ticks := c.ticks + seq(|due|, _ => c.now))
    case EndStep => c.(phase := Top)
  }

  predicate IsRun(events: seq<Event>)
    decreases events, 0
  {
    events == [] || (IsRun(events[..|events|-1]) && Enabled(After(events[..|events|-1]), events[|events|-1]))
  }

  function After(events: seq<Event>): Clock
    requires IsRun(events)
    decreases events, 1
  {
    if events == [] then STOPPED else Apply(After(events[..|events|-1]), events[|events|-1])
  }

  predicate Inv(c: Clock) {
    && c.lastTick <= c.now
    && |c.ticks| == |c.fired|
    && multiset(c.fired) + c.heap == c.added
    && SortedByDeadline(c.fired)
    && (forall i :: 0 <= i < |c.fired| ==> c.fired[i].when <= c.ticks[i] <= c.lastTick)
    && (forall t :: t in c.heap ==> c.lastTick <= t.when)
  }

  lemma SortedConcat(a: seq<Timer>, b: seq<Timer>, mid: nat)
    requires SortedByDeadline(a) && SortedByDeadline(b)
    requires forall i :: 0 <= i < |a| ==> a[i].when <= mid
    requires forall i :: 0 <= i < |b| ==> mid <= b[i].when
    ensures SortedByDeadline(a + b)
  {
  }

  lemma {:induction false} FireKeeps(c: Clock, due: seq<Timer>, rest: multiset<Timer>)
    requires Inv(c) && FiresExactly(c.heap, c.now, due, rest)
    ensures Inv(Apply(c, Fire(due, rest)))
  {
    forall i | 0 <= i < |due|
      ensures c.lastTick <= due[i].when
    {
      assert due[i] in multiset(due);
      assert due[i] in c.heap;
    }
    SortedConcat(c.fired, due, c.lastTick);
    assert multiset(c.fired + due) == multiset(c.fired) + multiset(due);
    var d := Apply(c, Fire(due, rest));
    forall i | 0 <= i < |d.fired|
      ensures d.fired[i].when <= d.ticks[i] <= d.lastTick
    {
      if i < |c.fired| {
        assert d.fired[i] == c.fired[i] && d.ticks[i] == c.ticks[i];
      } else {
        assert d.fired[i] == due[i - |c.fired|];
      }
    }
  }

  lemma {:induction false} ApplyKeeps(c: Clock, e: Event)
    requires Inv(c) && Enabled(c, e)
    ensures Inv(Apply(c, e))
  {
    if e.Fire? {
      FireKeeps(c, e.due, e.rest);
    }
  }

  /** In every run the fired timers, over all steps, come in order of deadline; none fires before its deadline; and
      every timer added has fired exactly once or is still in the heap. */
  lemma {:induction false} TimersFireInOrder(events: seq<Event>)
    requires IsRun(events)
    ensures var c := After(events);
            && SortedByDeadline(c.fired)
            && |c.ticks| == |c.fired|
            && (forall i :: 0 <= i < |c.fired| ==> c.fired[i].when <= c.ticks[i])
            && multiset(c.fired) + c.heap == c.added
    ensures Inv(After(events))
  {
    if events != [] {
      TimersFireInOrder(events[..|events|-1]);
      ApplyKeeps(After(events[..|events|-1]), events[|events|-1]);
    }
  }

  // ----- when poll oversleeps -----

  /** In every run, poll is entered without limit while timers wait exactly when nothing is ready and one of them has
      fallen due since the last timer phase. */
  lemma {:induction false} OversleepsExactly(events: seq<Event>, earliest: Option<nat>)
    requires IsRun(events) && Enabled(After(events), Poll(earliest))
    ensures var c := After(events);
            Timeout(c, earliest).None? && c.heap != multiset{} <==>
              c.ready == 0 && exists t :: t in c.heap && c.lastTick <= t.when <= c.now
  {
    TimersFireInOrder(events);
    var c := After(events);
    if earliest.Some? {
      var first :| first in c.heap && first.when == earliest.value;
    }
  }

  lemma {:induction false} Extend(events: seq<Event>, c: Clock, e: Event) returns (longer: seq<Event>)
    requires IsRun(events) && After(events) == c && Enabled(c, e)
    ensures longer == events + [e] && IsRun(longer) && After(longer) == Apply(c, e)
  {
    longer := events + [e];
    assert longer[..|events|] == events;
  }

  /** A callback adds a timer after the timer phase and runs past its deadline: the next poll has no limit. */
  lemma {:induction false} OverduePollHasNoLimit() returns (events: seq<Event>)
    ensures IsRun(events)
    ensures var c := After(events);
            && c.phase == Top && c.ready == 0 && c.heap == multiset{Timer(7, 5)} && c.now == 6
            && Enabled(c, Poll(Some(5))) && Timeout(c, Some(5)) == None
  {
    var c := STOPPED;
    events := [];
    events := Extend(events, c, Poll(None));
    c := Apply(c, Poll(None));
    events := Extend(events, c, Swap);
    c := Apply(c, Swap);
    events := Extend(events, c, Fire([], multiset{}));
    c := Apply(c, Fire([], multiset{}));
    events := Extend(events, c, Later(7, 5));
    c := Apply(c, Later(7, 5));
    events := Extend(events, c, Advance(6));
    c := Apply(c, Advance(6));
    events := Extend(events, c, EndStep);
    c := Apply(c, EndStep);
    assert c.heap == multiset{Timer(7, 5)};
    assert Timer(7, 5) in c.heap;
  }

  // ----- what was asked for -----

  function Elapsed(events: seq<Event>): nat {
    if events == [] then 0
    else Elapsed(events[..|events|-1]) + (if events[|events|-1].Advance? then events[|events|-1].d else 0)
  }

  /** The timers asked for, each due its delay from the time of the call. */
  function Requested(events: seq<Event>): multiset<Timer> {
    if events == [] then multiset{}
    else
      var init, e := events[..|events|-1], events[|events|-1];
      Requested(init) + (if e.Later? then multiset{Timer(e.id, Elapsed(init) + e.delay)} else multiset{})
  }

  /** The handles queued since the ready queue was last taken. */
  function Waiting(events: seq<Event>): nat {
    if events == [] then 0
    else
      match events[|events|-1]
      case Queue => Waiting(events[..|events|-1]) + 1
      case Swap => 0
      case _ => Waiting(events[..|events|-1])
  }

  /** In every run the timers fired and those waiting are the timers asked for, with the deadlines asked for. */
  lemma {:induction false} RequestsAreKept(events: seq<Event>)
    requires IsRun(events)
    ensures var c := After(events);
            c.now == Elapsed(events) && c.ready == Waiting(events) && multiset(c.fired) + c.heap == Requested(events)
  {
    AddedIsRequested(events);
    TimersFireInOrder(events);
  }

  lemma {:induction false} AddedIsRequested(events: seq<Event>)
    requires IsRun(events)
    ensures After(events).now == Elapsed(events) && After(events).added == Requested(events) && After(events).ready == Waiting(events)
  {
    if events != [] {
      var init, e := events[..|events|-1], events[|events|-1];
      AddedIsRequested(init);
      StepAdds(After(init), e);
      assert After(events) == Apply(After(init), e);
    }
  }

  lemma {:induction false} StepAdds(c: Clock, e: Event)
    requires Enabled(c, e)
    ensures Apply(c, e).now == c.now + (if e.Advance? then e.d else 0)
    ensures Apply(c, e).ready == if e.Queue? then c.ready + 1 else if e.Swap? then 0 else c.ready
    ensures Apply(c, e).added == c.added + (if e.Later? then multiset{Timer(e.id, c.now + e.delay)} else multiset{})
  {
  }
}
