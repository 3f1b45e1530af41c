/** The TokioLoop's scheduler (src/tokio_event_loop.rs, `schedule_handle` and the `select!` loop of `_run`). Which
    branch `select!` takes, what the clock reads and what other threads send meanwhile are the environment's choice. */
module TokioScheduler {
  import opened Timers

  datatype Task = Immediate(id: nat) | Delayed(timer: Timer)

  /** What became of a task taken from the handle channel. */
  datatype Fate = Ran(task: Task) | Skipped(task: Task) | Abandoned(task: Task)

  datatype Release = Release(timer: Timer, at: nat)

  /** Outside `_run`, in `select!`, or between a branch's body and the stop check. */
  datatype Phase = Idle | Selecting | Checking

  datatype Sched = Sched(
    schedulerCh: seq<Task>, stopping: bool, closed: bool,
    phase: Phase, handleCh: seq<Task>, delayed: multiset<Timer>,
    // histories
    sent: seq<Task>,               // accepted by schedule_handle, in order
    retired: seq<Fate>,            // out of the handle channel: run or dropped as cancelled, or left there when `_run` ended
    discarded: multiset<Timer>,    // cancelled before release
    lost: multiset<Timer>,         // left in the heap when `_run` ended
    released: seq<Release>)

  const IDLE := Sched([], false, false, Idle, [], multiset{}, [], [], multiset{}, multiset{}, [])

  datatype Event =
    | Schedule(task: Task)
    | SetStopping(value: bool)
    | SetClosed(value: bool)
    | Start                                             // `_run`
    | RecvTask
    | ReleaseDue(current: nat, due: seq<Timer>, rest: multiset<Timer>, cancelled: set<nat>)
    | Sleep
    | Signal(num: nat, listening: bool)
    | RecvHandle(skip: bool)
    | Check                                             // the stop condition at the end of an iteration

  predicate Enabled(s: Sched, e: Event) {
    match e
    case Schedule(_) => true
    case SetStopping(_) => true
    case SetClosed(_) => true
    case Start => s.phase == Idle
    case RecvTask => s.phase == Selecting && s.schedulerCh != []
    case ReleaseDue(current, due, rest, _) =>
      s.phase == Selecting && s.delayed != multiset{} && FiresExactly(s.delayed, current, due, rest)
    case Sleep => s.phase == Selecting
    case Signal(_, _) => s.phase == Selecting
    case RecvHandle(_) => s.phase == Selecting && s.handleCh != []
    case Check => s.phase == Checking
  }

  function AsDelayed(ts: seq<Timer>): (tasks: seq<Task>)
    ensures |tasks| == |ts| && forall i :: 0 <= i < |ts| ==> tasks[i] == Delayed(ts[i])
  {
    seq(|ts|, i requires 0 <= i < |ts| => Delayed(ts[i]))
  }

  /** The due timers that have not been cancelled are sent to run, in the order they pop. */
  function Live(due: seq<Timer>, cancelled: set<nat>): seq<Timer> {
    if due == [] then []
    else Live(due[..|due|-1], cancelled) + (if due[|due|-1].id in cancelled then [] else [due[|due|-1]])
  }

  function AllAbandoned(tasks: seq<Task>): seq<Fate> {
    seq(|tasks|, i requires 0 <= i < |tasks| => Abandoned(tasks[i]))
  }

  /** `_run` returns: its heap and handle channel are local and go with it. */
  function Exit(s: Sched): Sched {
    s.(phase := Idle, handleCh := [], retired := s.retired + AllAbandoned(s.handleCh),
       delayed := multiset{}, lost := s.lost + s.delayed)
  }

  /** `schedule_handle` sends a task. */
  function Accepted(s: Sched, task: Task): Sched {
    s.(schedulerCh := s.schedulerCh + [task], sent := s.sent + [task])
  }

  /** A task comes in from the scheduler channel. */
  function Received(s: Sched): Sched
    requires s.schedulerCh != []
  {
    var task, rest := s.schedulerCh[0], s.schedulerCh[1..];
    match task
    case Immediate(id) => s.(phase := Checking, schedulerCh := rest, handleCh := s.handleCh + [task])
    case Delayed(timer) => s.(phase := Checking, schedulerCh := rest, delayed := s.delayed + multiset{timer})
  }

  function Releases(live: seq<Timer>, current: nat): seq<Release> {
    seq(|live|, i requires 0 <= i < |live| => Release(live[i], current))
  }

  /** The due timers are popped; those not cancelled are sent to run. */
  function Released(s: Sched, current: nat, due: seq<Timer>, rest: multiset<Timer>, cancelled: set<nat>): Sched {
    var live := Live(due, cancelled);
    s.(phase := Checking, handleCh := s.handleCh + AsDelayed(live), delayed := rest,
       discarded := s.discarded + (multiset(due) - multiset(live)),
       released := s.released + Releases(live, current))
  }

  /** A handle is taken from the handle channel and run, or dropped as cancelled. */
  function HandledNext(s: Sched, cancelled: bool): Sched
    requires s.handleCh != []
  {
    s.(phase := Checking, handleCh := s.handleCh[1..], retired := s.retired + [if cancelled then Skipped(s.handleCh[0]) else Ran(s.handleCh[0])])
  }

  function Apply(s: Sched, e: Event): Sched
    requires Enabled(s, e)
  {
    match e
    case Schedule(task) =>
      if s.stopping || s.closed then s else Accepted(s, task)
    case SetStopping(value) => s.(stopping := value)
    case SetClosed(value) => s.(closed := value)
    case Start => s.(phase := Selecting)
    case RecvTask => Received(s)
    case ReleaseDue(current, due, rest, cancelled) => Released(s, current, due, rest, cancelled)
    case Sleep => s.(phase := Checking)
    case Signal(num, listening) =>
      var s1 := s.(phase := Checking, stopping := s.stopping || num == 2 || num == 15);
      if listening then s1 else Exit(s1)
    case RecvHandle(cancelled) => HandledNext(s, cancelled)
    case Check => if s.stopping then Exit(s) else s.(phase := Selecting)
  }

  predicate IsRun(events: seq<Event>)
    decreases events, 0
  {
    events == [] || (IsRun(events[..|events|-1]) && Enabled(After(events[..|events|-1]), events[|events|-1]))
  }

  function After(events: seq<Event>): Sched
    requires IsRun(events)
    decreases events, 1
  {
    if events == [] then IDLE else Apply(After(events[..|events|-1]), events[|events|-1])
  }

  // ----- readings -----

  function ImmediatesOf(tasks: seq<Task>): seq<nat> {
    if tasks == [] then []
    else ImmediatesOf(tasks[..|tasks|-1]) + (if tasks[|tasks|-1].Immediate? then [tasks[|tasks|-1].id] else [])
  }

  function TimersOf(tasks: seq<Task>): multiset<Timer> {
    if tasks == [] then multiset{}
    else TimersOf(tasks[..|tasks|-1]) + (if tasks[|tasks|-1].Delayed? then multiset{tasks[|tasks|-1].timer} else multiset{})
  }

  function TasksOf(fates: seq<Fate>): seq<Task> {
    seq(|fates|, i requires 0 <= i < |fates| => fates[i].task)
  }

  lemma {:induction false} ImmediatesConcat(a: seq<Task>, b: seq<Task>)
    ensures ImmediatesOf(a + b) == ImmediatesOf(a) + ImmediatesOf(b)
  {
    if b == [] {
      assert a + b == a;
    } else {
      assert (a + b)[..|a + b|-1] == a + b[..|b|-1];
      ImmediatesConcat(a, b[..|b|-1]);
    }
  }

  lemma {:induction false} TimersConcat(a: seq<Task>, b: seq<Task>)
    ensures TimersOf(a + b) == TimersOf(a) + TimersOf(b)
  {
    if b == [] {
      assert a + b == a;
    } else {
      assert (a + b)[..|a + b|-1] == a + b[..|b|-1];
      TimersConcat(a, b[..|b|-1]);
    }
  }

  lemma {:induction false} DelayedReadings(ts: seq<Timer>)
    ensures ImmediatesOf(AsDelayed(ts)) == [] && TimersOf(AsDelayed(ts)) == multiset(ts)
  {
    if ts != [] {
      DelayedReadings(ts[..|ts|-1]);
      assert AsDelayed(ts)[..|ts|-1] == AsDelayed(ts[..|ts|-1]);
      assert ts == ts[..|ts|-1] + [ts[|ts|-1]];
    }
  }

  lemma {:induction false} DelayedCounts(ts: seq<Timer>, t: Timer)
    ensures multiset(AsDelayed(ts))[Delayed(t)] == multiset(ts)[t]
  {
    if ts != [] {
      var init, last := ts[..|ts|-1], ts[|ts|-1];
      DelayedCounts(init, t);
      assert ts == init + [last] && AsDelayed(ts) == AsDelayed(init) + [Delayed(last)];
    }
  }

  lemma {:induction false} LiveIsPart(due: seq<Timer>, cancelled: set<nat>)
    ensures multiset(Live(due, cancelled)) <= multiset(due)
    ensures forall i :: 0 <= i < |Live(due, cancelled)| ==> Live(due, cancelled)[i] in due
  {
    if due != [] {
      var init, last := due[..|due|-1], due[|due|-1];
      LiveIsPart(init, cancelled);
      assert due == init + [last];
      assert multiset(Live(due, cancelled)) <= multiset(init) + multiset{last};
    }
  }

  /** Where each step leads: a branch to the stop check, unless it is a signal that nobody listens for; the check back to
      `select!`, unless the flag is set. */
  lemma {:induction false} PhasesAreExact(s: Sched, e: Event)
    requires Enabled(s, e)
    ensures var p := Apply(s, e).phase;
            match e
            case Schedule(_) => p == s.phase
            case SetStopping(_) => p == s.phase
            case SetClosed(_) => p == s.phase
            case Start => p == Selecting
            case Signal(_, listening) => p == if listening then Checking else Idle
            case Check => p == if s.stopping then Idle else Selecting
            case _ => p == Checking
  {
    match e
    case RecvTask => assert Received(s).phase == Checking;
    case _ =>
  }

  // ----- which timers are live -----

  /** A timer that is cancelled is not sent, any other as often as it is due. */
  lemma {:induction false} LiveIsExact(due: seq<Timer>, cancelled: set<nat>, t: Timer)
    ensures multiset(Live(due, cancelled))[t] == if t.id in cancelled then 0 else multiset(due)[t]
  {
    if due != [] {
      var init, last := due[..|due|-1], due[|due|-1];
      LiveIsExact(init, cancelled, t);
      assert due == init + [last];
    }
  }

  /** The order is that in which they pop: each is kept or left out by itself. */
  lemma {:induction false} LiveKeepsOrder(a: seq<Timer>, b: seq<Timer>, cancelled: set<nat>)
    ensures Live(a + b, cancelled) == Live(a, cancelled) + Live(b, cancelled)
  {
    if b == [] {
      assert a + b == a;
    } else {
      assert (a + b)[..|a + b|-1] == a + b[..|b|-1] && (a + b)[|a + b|-1] == b[|b|-1];
      LiveKeepsOrder(a, b[..|b|-1], cancelled);
    }
  }

  // ----- the invariant -----

  /** The tasks in the channels and out of them, and the timers elsewhere, make up all that was sent: immediates in
      the same order, timers each as often. */
  predicate Accounts(tasks: seq<Task>, elsewhere: multiset<Timer>, sent: seq<Task>) {
    ImmediatesOf(tasks) == ImmediatesOf(sent) && TimersOf(tasks) + elsewhere == TimersOf(sent)
  }

  lemma {:induction false} AccountsSend(tasks: seq<Task>, elsewhere: multiset<Timer>, sent: seq<Task>, task: Task)
    requires Accounts(tasks, elsewhere, sent)
    ensures Accounts(tasks + [task], elsewhere, sent + [task])
  {
    ImmediatesConcat(tasks, [task]);
    ImmediatesConcat(sent, [task]);
    TimersConcat(tasks, [task]);
    TimersConcat(sent, [task]);
  }

  lemma {:induction false} ReadingsAround(front: seq<Task>, ts: seq<Timer>, back: seq<Task>)
    ensures ImmediatesOf(front + AsDelayed(ts) + back) == ImmediatesOf(front + back)
    ensures TimersOf(front + AsDelayed(ts) + back) == TimersOf(front + back) + multiset(ts)
  {
    DelayedReadings(ts);
    ImmediatesConcat(front + AsDelayed(ts), back);
    ImmediatesConcat(front, AsDelayed(ts));
    ImmediatesConcat(front, back);
    TimersConcat(front + AsDelayed(ts), back);
    TimersConcat(front, AsDelayed(ts));
    TimersConcat(front, back);
    assert ImmediatesOf(front) + [] == ImmediatesOf(front);
  }

  /** Timers taken out of a list of tasks, or put into it, leave its immediates alone. */
  lemma {:induction false} AccountsMove(front: seq<Task>, ts: seq<Timer>, back: seq<Task>, elsewhere: multiset<Timer>, sent: seq<Task>)
    ensures Accounts(front + AsDelayed(ts) + back, elsewhere, sent) <==> Accounts(front + back, elsewhere + multiset(ts), sent)
  {
    ReadingsAround(front, ts, back);
    assert TimersOf(front + back) + multiset(ts) + elsewhere == TimersOf(front + back) + (elsewhere + multiset(ts));
  }

  /** All the places a task can be in, the oldest first. */
  function Everywhere(s: Sched): seq<Task> {
    TasksOf(s.retired) + s.handleCh + s.schedulerCh
  }

  /** No timer was released before its deadline. */
  predicate InTime(released: seq<Release>) {
    forall i :: 0 <= i < |released| ==> released[i].timer.when <= released[i].at
  }

  /** The timers that will never be released. */
  function Out(s: Sched): multiset<Timer> {
    s.lost + s.discarded
  }

  predicate Inv(s: Sched) {
    && Accounts(Everywhere(s), s.delayed + Out(s), s.sent)
    && InTime(s.released)
    && (s.phase == Idle ==> s.handleCh == [] && s.delayed == multiset{})
  }

  lemma {:induction false} AbandonedStay(s: Sched)
    ensures Everywhere(Exit(s)) == Everywhere(s)
  {
    assert TasksOf(s.retired + AllAbandoned(s.handleCh)) == TasksOf(s.retired) + s.handleCh;
    assert TasksOf(s.retired) + s.handleCh + [] == TasksOf(s.retired) + s.handleCh;
  }

  lemma {:induction false} ExitKeeps(s: Sched)
    requires Inv(s)
    ensures Inv(Exit(s))
  {
    AbandonedStay(s);
    assert multiset{} + ((s.lost + s.delayed) + s.discarded) == s.delayed + (s.lost + s.discarded);
  }

  lemma {:induction false} AcceptedKeeps(s: Sched, task: Task)
    requires Inv(s)
    ensures Inv(Accepted(s, task))
  {
    var t := Accepted(s, task);
    AccountsSend(Everywhere(s), s.delayed + Out(s), s.sent, task);
    assert (TasksOf(s.retired) + s.handleCh) + (s.schedulerCh + [task]) == (TasksOf(s.retired) + s.handleCh) + s.schedulerCh + [task];
  }

  /** Where the tasks are before and after one comes in. */
  lemma {:induction false} ReceivedPlaces(s: Sched)
    requires s.schedulerCh != []
    ensures var task, front, rest := s.schedulerCh[0], TasksOf(s.retired) + s.handleCh, s.schedulerCh[1..];
            && Everywhere(s) == front + [task] + rest
            && Everywhere(Received(s)) == (if task.Immediate? then Everywhere(s) else front + rest)
            && (task.Delayed? ==> [task] == AsDelayed([task.timer]))
  {
    assert s.schedulerCh == [s.schedulerCh[0]] + s.schedulerCh[1..];
  }

  lemma {:induction false} AccountsReceive(front: seq<Task>, timer: Timer, rest: seq<Task>, delayed: multiset<Timer>,
                                           discarded: multiset<Timer>, sent: seq<Task>)
    requires Accounts(front + AsDelayed([timer]) + rest, delayed + discarded, sent)
    ensures Accounts(front + rest, delayed + multiset{timer} + discarded, sent)
  {
    AccountsMove(front, [timer], rest, delayed + discarded, sent);
    assert delayed + multiset{timer} + discarded == delayed + discarded + multiset([timer]);
  }

  /** A task moved from the scheduler channel stays ahead of everything sent after it. */
  lemma {:induction false} ReceivedKeeps(s: Sched)
    requires Inv(s) && s.schedulerCh != []
    ensures Inv(Received(s))
  {
    ReceivedPlaces(s);
    if s.schedulerCh[0].Delayed? {
      AccountsReceive(TasksOf(s.retired) + s.handleCh, s.schedulerCh[0].timer, s.schedulerCh[1..], s.delayed, Out(s), s.sent);
    }
  }

  lemma {:induction false} AccountsRelease(front: seq<Task>, back: seq<Task>, sent: seq<Task>, live: seq<Timer>,
                                           due: multiset<Timer>, rest: multiset<Timer>, discarded: multiset<Timer>)
    requires Accounts(front + back, (due + rest) + discarded, sent) && multiset(live) <= due
    ensures Accounts(front + AsDelayed(live) + back, rest + (discarded + (due - multiset(live))), sent)
  {
    var elsewhere := rest + (discarded + (due - multiset(live)));
    assert elsewhere + multiset(live) == (due + rest) + discarded;
    AccountsMove(front, live, back, elsewhere, sent);
  }

  /** Released timers join the handle channel behind what is there and ahead of the scheduler channel. */
  lemma {:induction false} ReleasedPlaces(s: Sched, current: nat, due: seq<Timer>, rest: multiset<Timer>, cancelled: set<nat>)
    ensures Everywhere(Released(s, current, due, rest, cancelled))
         == (TasksOf(s.retired) + s.handleCh) + AsDelayed(Live(due, cancelled)) + s.schedulerCh
  {
    assert TasksOf(s.retired) + (s.handleCh + AsDelayed(Live(due, cancelled)))
        == (TasksOf(s.retired) + s.handleCh) + AsDelayed(Live(due, cancelled));
  }

  lemma {:induction false} ReleasedAccounts(s: Sched, current: nat, due: seq<Timer>, rest: multiset<Timer>, cancelled: set<nat>)
    requires Accounts((TasksOf(s.retired) + s.handleCh) + s.schedulerCh, (multiset(due) + rest) + Out(s), s.sent)
    ensures var t := Released(s, current, due, rest, cancelled);
            Accounts((TasksOf(s.retired) + s.handleCh) + AsDelayed(Live(due, cancelled)) + s.schedulerCh, t.delayed + Out(t), t.sent)
  {
    LiveIsPart(due, cancelled);
    AccountsRelease(TasksOf(s.retired) + s.handleCh, s.schedulerCh, s.sent, Live(due, cancelled), multiset(due), rest, Out(s));
    assert s.lost + (s.discarded + (multiset(due) - multiset(Live(due, cancelled)))) == Out(s) + (multiset(due) - multiset(Live(due, cancelled)));
  }

  lemma {:induction false} ReleasedKeeps(s: Sched, current: nat, due: seq<Timer>, rest: multiset<Timer>, cancelled: set<nat>)
    requires Inv(s) && Enabled(s, ReleaseDue(current, due, rest, cancelled))
    ensures Inv(Released(s, current, due, rest, cancelled))
  {
    ReleasedPlaces(s, current, due, rest, cancelled);
    ReleasedAccounts(s, current, due, rest, cancelled);
    ReleasedInTime(due, current, cancelled);
    AddedInTime(s.released, Releases(Live(due, cancelled), current));
  }

  lemma {:induction false} ReleasedInTime(due: seq<Timer>, current: nat, cancelled: set<nat>)
    requires forall i :: 0 <= i < |due| ==> due[i].when <= current
    ensures InTime(Releases(Live(due, cancelled), current))
  {
    LiveIsPart(due, cancelled);
    forall i | 0 <= i < |Live(due, cancelled)|
      ensures Live(due, cancelled)[i].when <= current
    {
      assert Live(due, cancelled)[i] in due;
    }
  }

  lemma AddedInTime(a: seq<Release>, b: seq<Release>)
    requires InTime(a) && InTime(b)
    ensures InTime(a + b)
  {
  }

  lemma {:induction false} HandledNextKeeps(s: Sched, cancelled: bool)
    requires Inv(s) && s.handleCh != []
    ensures Inv(HandledNext(s, cancelled))
  {
    var t := HandledNext(s, cancelled);
    assert TasksOf(t.retired) == TasksOf(s.retired) + [s.handleCh[0]];
    assert [s.handleCh[0]] + s.handleCh[1..] == s.handleCh;
    assert Everywhere(t) == Everywhere(s);
  }

  lemma {:induction false} ApplyKeeps(s: Sched, e: Event)
    requires Inv(s) && Enabled(s, e)
    ensures Inv(Apply(s, e))
  {
    match e
    case Schedule(task) => AcceptedKeeps(s, task);
    case RecvTask => ReceivedKeeps(s);
    case ReleaseDue(current, due, rest, cancelled) => ReleasedKeeps(s, current, due, rest, cancelled);
    case RecvHandle(cancelled) => HandledNextKeeps(s, cancelled);
    case Signal(num, listening) => ExitKeeps(s.(phase := Checking, stopping := s.stopping || num == 2 || num == 15));
    case Check => ExitKeeps(s);
    case _ => assert Everywhere(Apply(s, e)) == Everywhere(s);
  }

  /** For every sequence of choices: immediates leave in the order they were sent, so that those out of the handle
      channel, those in it and those still in the scheduler channel make up all that were sent; every accepted timer
      is in exactly one place; and none is released before its deadline. */
  lemma {:induction false} TasksAreConserved(events: seq<Event>)
    requires IsRun(events)
    ensures var s := After(events);
            && ImmediatesOf(TasksOf(s.retired)) + ImmediatesOf(s.handleCh) + ImmediatesOf(s.schedulerCh) == ImmediatesOf(s.sent)
            && TimersOf(TasksOf(s.retired)) + TimersOf(s.handleCh) + TimersOf(s.schedulerCh) + s.delayed + (s.lost + s.discarded) == TimersOf(s.sent)
            && InTime(s.released)
    ensures Inv(After(events))
  {
    if events != [] {
      TasksAreConserved(events[..|events|-1]);
      ApplyKeeps(After(events[..|events|-1]), events[|events|-1]);
    }
    var s := After(events);
    ImmediatesConcat(TasksOf(s.retired) + s.handleCh, s.schedulerCh);
    ImmediatesConcat(TasksOf(s.retired), s.handleCh);
    TimersConcat(TasksOf(s.retired) + s.handleCh, s.schedulerCh);
    TimersConcat(TasksOf(s.retired), s.handleCh);
  }

  // ----- what ending `_run` loses -----

  /** `_run` returns at the stop check, or on a signal that nobody listens for. */
  predicate Leaves(s: Sched, e: Event) {
    (e.Check? && s.stopping) || (e.Signal? && !e.listening)
  }

  predicate LeftWithHandles(events: seq<Event>)
    requires IsRun(events)
  {
    && events != []
    && var s, e := After(events[..|events|-1]), events[|events|-1];
       LeftWithHandles(events[..|events|-1]) || (Leaves(s, e) && s.handleCh != [])
  }

  predicate LeftWithTimers(events: seq<Event>)
    requires IsRun(events)
  {
    && events != []
    && var s, e := After(events[..|events|-1]), events[|events|-1];
       LeftWithTimers(events[..|events|-1]) || (Leaves(s, e) && s.delayed != multiset{})
  }

  predicate NoneAbandoned(fates: seq<Fate>) {
    forall i :: 0 <= i < |fates| ==> !fates[i].Abandoned?
  }

  lemma AbandonedJoin(fates: seq<Fate>, tasks: seq<Task>)
    ensures NoneAbandoned(fates + AllAbandoned(tasks)) <==> NoneAbandoned(fates) && tasks == []
  {
    var all := fates + AllAbandoned(tasks);
    assert forall i :: 0 <= i < |fates| ==> all[i] == fates[i];
    if tasks != [] {
      assert all[|fates|] == Abandoned(tasks[0]);
    }
  }

  /** A step abandons handles, and loses timers, exactly if it leaves `_run` with some. */
  lemma {:induction false} LeavingLoses(s: Sched, e: Event)
    requires Enabled(s, e)
    ensures NoneAbandoned(Apply(s, e).retired) <==> NoneAbandoned(s.retired) && !(Leaves(s, e) && s.handleCh != [])
    ensures Apply(s, e).lost == multiset{} <==> s.lost == multiset{} && !(Leaves(s, e) && s.delayed != multiset{})
  {
    match e
    case RecvHandle(skip) => assert HandledNext(s, skip).retired[..|s.retired|] == s.retired;
    case Check => AbandonedJoin(s.retired, s.handleCh);
    case Signal(num, listening) => AbandonedJoin(s.retired, s.handleCh);
    case _ =>
  }

  /** Every task out of the handle channel was run, or skipped as cancelled, exactly in the runs in which `_run` never
      returned with handles in that channel; and no timer was lost exactly if it never returned with timers in its heap. */
  lemma {:induction false} LossNeedsExit(events: seq<Event>)
    requires IsRun(events)
    ensures NoneAbandoned(After(events).retired) <==> !LeftWithHandles(events)
    ensures After(events).lost == multiset{} <==> !LeftWithTimers(events)
  {
    if events != [] {
      var init, last := events[..|events|-1], events[|events|-1];
      LossNeedsExit(init);
      LeavingLoses(After(init), last);
    }
  }

  lemma {:induction false} Extend(events: seq<Event>, e: Event)
    requires IsRun(events) && Enabled(After(events), e)
    ensures IsRun(events + [e]) && After(events + [e]) == Apply(After(events), e)
  {
    assert (events + [e])[..|events|] == events;
  }

  lemma {:induction false} Grown(events: seq<Event>, s: Sched, e: Event) returns (longer: seq<Event>)
    requires IsRun(events) && After(events) == s && Enabled(s, e)
    ensures longer == events + [e] && IsRun(longer) && After(longer) == Apply(s, e)
  {
    Extend(events, e);
    longer := events + [e];
  }

  /** An accepted immediate is lost when the loop stops between the two channels. */
  lemma {:induction false} StopLosesHandles() returns (events: seq<Event>)
    ensures IsRun(events)
    ensures After(events).sent == [Immediate(0)] && After(events).phase == Idle
    ensures After(events).retired == [Abandoned(Immediate(0))]
  {
    var s := IDLE;
    events := [];
    events := Grown(events, s, Start);
    s := Apply(s, Start);
    events := Grown(events, s, Schedule(Immediate(0)));
    s := Apply(s, Schedule(Immediate(0)));
    events := Grown(events, s, RecvTask);
    s := Apply(s, RecvTask);
    events := Grown(events, s, SetStopping(true));
    s := Apply(s, SetStopping(true));
    events := Grown(events, s, Check);
    s := Apply(s, Check);
  }

  /** An accepted timer is lost when the loop stops before it is due. */
  lemma {:induction false} StopLosesTimers() returns (events: seq<Event>)
    ensures IsRun(events)
    ensures After(events).sent == [Delayed(Timer(0, 5))] && After(events).phase == Idle
    ensures After(events).lost == multiset{Timer(0, 5)} && After(events).released == []
  {
    var s := IDLE;
    events := [];
    events := Grown(events, s, Start);
    s := Apply(s, Start);
    events := Grown(events, s, Schedule(Delayed(Timer(0, 5))));
    s := Apply(s, Schedule(Delayed(Timer(0, 5))));
    events := Grown(events, s, RecvTask);
    s := Apply(s, RecvTask);
    events := Grown(events, s, SetStopping(true));
    s := Apply(s, SetStopping(true));
    events := Grown(events, s, Check);
    s := Apply(s, Check);
  }

  // ----- the books of a run -----

  datatype Verdict = DidRun | DidSkip | LeftBehind

  /** Kept from the events alone, but for the number of handles that an exit finds. */
  datatype Books = Books(sent: seq<Task>, stopping: bool, closed: bool, running: bool, verdicts: seq<Verdict>,
                         released: multiset<Timer>, discarded: multiset<Timer>)

  const EMPTY := Books([], false, false, false, [], multiset{}, multiset{})

  function Alike(n: nat, v: Verdict): (vs: seq<Verdict>)
    ensures |vs| == n && forall i :: 0 <= i < n ==> vs[i] == v
  {
    seq(n, _ => v)
  }

  /** `_run` returns, with `held` handles in its channel. */
  function Left(a: Books, held: nat): Books {
    a.(running := false, verdicts := a.verdicts + Alike(held, LeftBehind))
  }

  /** The timers among `due` that are cancelled, or those that are not. */
  function Sifted(due: seq<Timer>, cancelled: set<nat>, out: bool): multiset<Timer> {
    if due == [] then multiset{}
    else
      var last := due[|due|-1];
      Sifted(due[..|due|-1], cancelled, out) + (if (last.id in cancelled) == out then multiset{last} else multiset{})
  }

  function Note(a: Books, e: Event, held: nat): Books {
    match e
    case Schedule(task) => if a.stopping || a.closed then a else a.(sent := a.sent + [task])
    case SetStopping(value) => a.(stopping := value)
    case SetClosed(value) => a.(closed := value)
    case Start => a.(running := true)
    case ReleaseDue(_, due, _, cancelled) =>
      a.(released := a.released + Sifted(due, cancelled, false), discarded := a.discarded + Sifted(due, cancelled, true))
    case Signal(num, listening) =>
      var a1 := if num == 2 || num == 15 then a.(stopping := true) else a;
      if listening then a1 else Left(a1, held)
    case RecvHandle(skip) => a.(verdicts := a.verdicts + [if skip then DidSkip else DidRun])
    case Check => if a.stopping then Left(a, held) else a
    case _ => a
  }

  function Noted(events: seq<Event>): Books
    requires IsRun(events)
  {
    if events == [] then EMPTY
    else Note(Noted(events[..|events|-1]), events[|events|-1], |After(events[..|events|-1]).handleCh|)
  }

  function VerdictsOf(fates: seq<Fate>): (vs: seq<Verdict>)
    ensures |vs| == |fates|
  {
    seq(|fates|, i requires 0 <= i < |fates| =>
      match fates[i] case Ran(_) => DidRun case Skipped(_) => DidSkip case Abandoned(_) => LeftBehind)
  }

  function TimersIn(released: seq<Release>): multiset<Timer> {
    if released == [] then multiset{} else TimersIn(released[..|released|-1]) + multiset{released[|released|-1].timer}
  }

  function Shown(s: Sched): Books {
    Books(s.sent, s.stopping, s.closed, s.phase != Idle, VerdictsOf(s.retired), TimersIn(s.released), s.discarded)
  }

  lemma {:induction false} ExitShows(s: Sched)
    ensures Shown(Exit(s)) == Left(Shown(s), |s.handleCh|)
  {
    assert VerdictsOf(s.retired + AllAbandoned(s.handleCh)) == VerdictsOf(s.retired) + Alike(|s.handleCh|, LeftBehind);
  }

  lemma {:induction false} SiftedIsLive(due: seq<Timer>, cancelled: set<nat>)
    ensures multiset(Live(due, cancelled)) == Sifted(due, cancelled, false)
    ensures multiset(due) == Sifted(due, cancelled, false) + Sifted(due, cancelled, true)
  {
    if due != [] {
      var init, last := due[..|due|-1], due[|due|-1];
      SiftedIsLive(init, cancelled);
      assert due == init + [last];
    }
  }

  lemma {:induction false} OneMoreRelease(released: seq<Release>, r: Release)
    ensures TimersIn(released + [r]) == TimersIn(released) + multiset{r.timer}
  {
    assert (released + [r])[..|released|] == released;
  }

  lemma LiveSplits(live: seq<Timer>)
    requires live != []
    ensures multiset(live) == multiset(live[..|live|-1]) + multiset{live[|live|-1]}
  {
    assert live == live[..|live|-1] + [live[|live|-1]];
  }

  lemma ReleasesSplit(released: seq<Release>, live: seq<Timer>, current: nat)
    requires live != []
    ensures released + Releases(live, current)
         == (released + Releases(live[..|live|-1], current)) + [Release(live[|live|-1], current)]
  {
  }

  lemma {:induction false} ReleasesShow(released: seq<Release>, live: seq<Timer>, current: nat)
    ensures TimersIn(released + Releases(live, current)) == TimersIn(released) + multiset(live)
  {
    if live == [] {
      assert released + Releases(live, current) == released;
    } else {
      var init, last := live[..|live|-1], live[|live|-1];
      ReleasesShow(released, init, current);
      ReleasesSplit(released, live, current);
      OneMoreRelease(released + Releases(init, current), Release(last, current));
      LiveSplits(live);
    }
  }

  lemma {:induction false} ReleasedShows(s: Sched, current: nat, due: seq<Timer>, rest: multiset<Timer>, cancelled: set<nat>)
    requires s.phase != Idle
    ensures Shown(Released(s, current, due, rest, cancelled))
         == Shown(s).(released := TimersIn(s.released) + Sifted(due, cancelled, false),
                      discarded := s.discarded + Sifted(due, cancelled, true))
  {
    SiftedIsLive(due, cancelled);
    ReleasesShow(s.released, Live(due, cancelled), current);
    assert multiset(due) - multiset(Live(due, cancelled)) == Sifted(due, cancelled, true);
  }

  lemma {:induction false} StepShows(s: Sched, e: Event)
    requires Enabled(s, e)
    ensures Shown(Apply(s, e)) == Note(Shown(s), e, |s.handleCh|)
  {
    match e
    case ReleaseDue(current, due, rest, cancelled) => ReleasedShows(s, current, due, rest, cancelled);
    case Signal(num, listening) => ExitShows(s.(phase := Checking, stopping := s.stopping || num == 2 || num == 15));
    case Check => ExitShows(s);
    case RecvHandle(skip) => HandleShows(s, skip);
    case _ =>
  }

  lemma {:induction false} HandleShows(s: Sched, skip: bool)
    requires s.phase != Idle && s.handleCh != []
    ensures Shown(HandledNext(s, skip)) == Shown(s).(verdicts := VerdictsOf(s.retired) + [if skip then DidSkip else DidRun])
  {
    assert VerdictsOf(HandledNext(s, skip).retired) == VerdictsOf(s.retired) + [if skip then DidSkip else DidRun];
  }

  /** In every run: sent is what was scheduled while the loop was neither stopping nor closed; the stop flag is as it was
      last set, by SIGINT and SIGTERM too, and `_run` has returned exactly at a check that found it set or a signal that
      nobody listened for; every task out of the handle channel was run, or skipped exactly if it had been cancelled, or
      left there; and every timer released was not cancelled at its release, every one discarded was. */
  lemma {:induction false} BooksAgree(events: seq<Event>)
    requires IsRun(events)
    ensures Shown(After(events)) == Noted(events)
  {
    if events != [] {
      BooksAgree(events[..|events|-1]);
      StepShows(After(events[..|events|-1]), events[|events|-1]);
    }
  }

  predicate LeavesFlag(e: Event) {
    e.Schedule? || e.SetClosed?
  }

  lemma {:induction false} FlagStays(events: seq<Event>, more: seq<Event>)
    requires IsRun(events) && IsRun(events + more) && After(events).stopping
    requires forall i :: 0 <= i < |more| ==> LeavesFlag(more[i])
    ensures After(events + more).stopping
  {
    if more == [] {
      assert events + more == events;
    } else {
      var init := more[..|more|-1];
      assert (events + more)[..|events + more|-1] == events + init;
      assert (events + more)[|events + more|-1] == more[|more|-1];
      FlagStays(events, init);
    }
  }

  /** SIGINT or SIGTERM stops the loop at its next check, unless somebody takes the flag back before. */
  lemma {:induction false} SignalStops(events: seq<Event>, num: nat, listening: bool, more: seq<Event>)
    requires num == 2 || num == 15
    requires IsRun(events + [Signal(num, listening)]) && IsRun(events + [Signal(num, listening)] + more)
    requires forall i :: 0 <= i < |more| ==> LeavesFlag(more[i])
    requires IsRun(events + [Signal(num, listening)] + more + [Check])
    ensures After(events + [Signal(num, listening)] + more + [Check]).phase == Idle
  {
    var first := events + [Signal(num, listening)];
    assert first[..|first|-1] == events;
    FlagStays(first, more);
    var all := first + more + [Check];
    assert all[..|all|-1] == first + more;
  }

  // ----- reachable states -----

  ghost predicate Reachable(s: Sched) {
    exists events :: IsRun(events) && After(events) == s
  }

  lemma {:induction false} ReachableStep(s: Sched, e: Event)
    requires Reachable(s) && Enabled(s, e)
    ensures Reachable(Apply(s, e))
  {
    var events :| IsRun(events) && After(events) == s;
    Extend(events, e);
  }

  lemma {:induction false} IdleIsEmpty(s: Sched)
    requires Reachable(s) && s.phase == Idle
    ensures s.handleCh == [] && s.delayed == multiset{}
  {
    var events :| IsRun(events) && After(events) == s;
    TasksAreConserved(events);
  }
}
