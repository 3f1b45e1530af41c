/** The RLoop's ready queue under concurrency (src/event_loop.rs): the loop thread and any number of producer
    threads, each atomic operation a step of its own. With `gil` set, a thread runs only while it holds the
    interpreter lock, which the loop lets go of around poll and during callbacks. */
module ReadyQueue {
  import opened Prelude

  /** A handle in the ready queue, or one collected from I/O events and timers. */
  datatype Item = Item(id: nat, ready: bool)

  datatype Thread = LoopThread | Producer(tid: nat)

  /** Where the loop thread stands in `EventLoop::step`. */
  datatype Pc =
    | Start                      // about to load the counter
    | Decided(blocking: bool)    // the timeout is known
    | Entering                   // idle is set, poll not entered
    | Polling(idle: bool)
    | Returned(idle: bool)       // poll is over, idle not yet cleared
    | Swapping                   // about to take the queue
    | Subtracting(taken: nat)    // took that many, counter not yet updated
    | Collecting                 // I/O events and timers join the batch
    | Running                    // callbacks
    | Adding                     // a callback's call_soon has pushed, counter not yet updated

  datatype State = State(
    gil: bool, holder: Option<Thread>,
    queue: seq<Item>, counter: nat, idle: bool, wake: bool,
    pc: Pc, batch: seq<Item>,
    pushed: set<nat>,            // producers that have pushed and not yet added
    added: set<nat>,             // producers that have added and not yet looked at idle
    scheduled: seq<Item>,        // history: handles in the order they were queued
    done: seq<Item>)             // history: handles run, or skipped as cancelled

  function Initial(gil: bool): State {
    State(gil, None, [], 0, false, false, Start, [], {}, {}, [], [])
  }

  datatype Step =
    | Acquire(thread: Thread)
    | Release(thread: Thread)
    | Load(blocking: bool)
    | SetIdle
    | EnterPoll
    | PollReturn
    | ClearIdle
    | Swap
    | Subtract
    | Collect(items: seq<Item>)
    | RunNext
    | SoonPush(id: nat)
    | SoonAdd
    | Finish
    | Push(tid: nat, id: nat)
    | Add(tid: nat)
    | Wake(tid: nat)

  predicate Holds(s: State, t: Thread) {
    s.gil ==> s.holder == Some(t)
  }

  predicate MidOperation(s: State, tid: nat) {
    tid in s.pushed || tid in s.added
  }

  predicate Enabled(s: State, step: Step) {
    match step
    case Acquire(t) => s.holder == None
    case Release(t) =>
      s.holder == Some(t) && (match t case LoopThread => s.pc == Running case Producer(tid) => !MidOperation(s, tid))
    case Load(blocking) => s.pc == Start && Holds(s, LoopThread) && (s.counter > 0 ==> !blocking)
    case SetIdle => s.pc == Decided(true) && Holds(s, LoopThread)
    case EnterPoll => (s.pc == Entering || s.pc == Decided(false)) && Holds(s, LoopThread)
    case PollReturn => s.pc.Polling?
    case ClearIdle => s.pc.Returned?
    case Swap => (s.pc == Swapping || s.pc == Decided(false)) && Holds(s, LoopThread)
    case Subtract => s.pc.Subtracting? && Holds(s, LoopThread)
    case Collect(items) =>
      s.pc == Collecting && Holds(s, LoopThread) && (forall i :: 0 <= i < |items| ==> !items[i].ready)
    case RunNext => s.pc == Running && s.batch != [] && Holds(s, LoopThread)
    case SoonPush(id) => s.pc == Running && Holds(s, LoopThread) && |s.queue| + 1 < WORD
    case SoonAdd => s.pc == Adding && Holds(s, LoopThread)
    case Finish => s.pc == Running && s.batch == [] && Holds(s, LoopThread)
    case Push(tid, id) => !MidOperation(s, tid) && Holds(s, Producer(tid)) && |s.queue| + 1 < WORD
    case Add(tid) => tid in s.pushed && Holds(s, Producer(tid))
    case Wake(tid) => tid in s.added && Holds(s, Producer(tid))
  }

  function Enqueue(s: State, id: nat): State {
    s.(queue := s.queue + [Item(id, true)], scheduled := s.scheduled + [Item(id, true)])
  }

  function Apply(s: State, step: Step): State
    requires Enabled(s, step)
  {
    match step
    case Acquire(t) => s.(holder := Some(t))
    case Release(t) => s.(holder := None)
    case Load(blocking) => s.(pc := Decided(blocking))
    case SetIdle => s.(idle := true, pc := Entering)
    case EnterPoll => s.(pc := Polling(s.pc == Entering), holder := None)
    case PollReturn => s.(pc := Returned(s.pc.idle), wake := false)
    case ClearIdle => s.(pc := Swapping, idle := if s.pc.idle then false else s.idle)
    case Swap => s.(pc := Subtracting(|s.queue|), batch := s.queue, queue := [])
    case Subtract => s.(pc := Collecting, counter := (s.counter - s.pc.taken) % WORD)
    case Collect(items) => s.(pc := Running, batch := s.batch + items)
    case RunNext => s.(batch := s.batch[1..], done := s.done + [s.batch[0]])
    case SoonPush(id) => Enqueue(s, id).(pc := Adding)
    case SoonAdd => s.(pc := Running, counter := (s.counter + 1) % WORD)
    case Finish => s.(pc := Start)
    case Push(tid, id) => Enqueue(s, id).(pushed := s.pushed + {tid})
    case Add(tid) => s.(counter := (s.counter + 1) % WORD, pushed := s.pushed - {tid}, added := s.added + {tid})
    case Wake(tid) => s.(wake := s.wake || s.idle, added := s.added - {tid})
  }

  predicate IsRun(gil: bool, steps: seq<Step>)
    decreases steps, 0
  {
    steps == [] || (IsRun(gil, steps[..|steps|-1]) && Enabled(After(gil, steps[..|steps|-1]), steps[|steps|-1]))
  }

  function After(gil: bool, steps: seq<Step>): State
    requires IsRun(gil, steps)
    decreases steps, 1
  {
    if steps == [] then Initial(gil) else Apply(After(gil, steps[..|steps|-1]), steps[|steps|-1])
  }

  // ----- the counter -----

  /** What the counter stands for: queued, plus taken but not subtracted, minus pushed but not added. */
  function Truth(s: State): int {
    |s.queue| + (if s.pc.Subtracting? then s.pc.taken else 0) - |s.pushed| - (if s.pc == Adding then 1 else 0)
  }

  lemma ModShift(x: int, d: int)
    ensures (x % WORD + d) % WORD == (x + d) % WORD
  {
    var q := x / WORD;
    assert x == q * WORD + x % WORD;
  }

  predicate Counted(s: State) {
    s.counter == Truth(s) % WORD
  }

  lemma {:induction false} ApplyCounts(s: State, step: Step)
    requires Enabled(s, step) && Counted(s)
    ensures Counted(Apply(s, step))
  {
    match step
    case Subtract => ModShift(Truth(s), 0 - s.pc.taken);
    case SoonAdd => ModShift(Truth(s), 1);
    case Add(tid) => ModShift(Truth(s), 1);
    case Push(tid, id) => assert |s.pushed + {tid}| == |s.pushed| + 1;
    case _ =>
  }

  // ----- order and exactly-once -----

  /** The ready handles among some items. */
  function ReadyOnly(items: seq<Item>): seq<Item> {
    if items == [] then []
    else ReadyOnly(items[..|items|-1]) + (if items[|items|-1].ready then [items[|items|-1]] else [])
  }

  lemma {:induction false} ReadyOnlyConcat(a: seq<Item>, b: seq<Item>)
    ensures ReadyOnly(a + b) == ReadyOnly(a) + ReadyOnly(b)
  {
    if b == [] {
      assert a + b == a;
    } else {
      assert (a + b)[..|a + b|-1] == a + b[..|b|-1];
      ReadyOnlyConcat(a, b[..|b|-1]);
    }
  }

  lemma {:induction false} ReadyOnlyAll(a: seq<Item>)
    requires forall i :: 0 <= i < |a| ==> a[i].ready
    ensures ReadyOnly(a) == a
  {
    if a != [] {
      ReadyOnlyAll(a[..|a|-1]);
    }
  }

  lemma {:induction false} ReadyOnlyNone(a: seq<Item>)
    requires forall i :: 0 <= i < |a| ==> !a[i].ready
    ensures ReadyOnly(a) == []
  {
    if a != [] {
      ReadyOnlyNone(a[..|a|-1]);
    }
  }

  /** Handled, then in the batch, then queued: the scheduling order, each handle once. */
  predicate Ordered(s: State) {
    && (forall i :: 0 <= i < |s.queue| ==> s.queue[i].ready)
    && ReadyOnly(s.done + s.batch) + s.queue == s.scheduled
    && (s.batch != [] ==> s.pc.Subtracting? || s.pc == Collecting || s.pc == Running || s.pc == Adding)
  }

  lemma {:induction false} ApplyOrders(s: State, step: Step)
    requires Enabled(s, step) && Ordered(s)
    ensures Ordered(Apply(s, step))
  {
    match step
    case Swap =>
      assert s.done + [] == s.done;
      ReadyOnlyConcat(s.done, s.queue);
      ReadyOnlyAll(s.queue);
      assert ReadyOnly(s.done) + s.queue + [] == s.scheduled;
    case Collect(items) =>
      assert s.done + (s.batch + items) == (s.done + s.batch) + items;
      ReadyOnlyConcat(s.done + s.batch, items);
      ReadyOnlyNone(items);
      assert ReadyOnly(s.done + s.batch) + [] == ReadyOnly(s.done + s.batch);
    case RunNext =>
      assert s.done + [s.batch[0]] + s.batch[1..] == s.done + s.batch;
    case SoonPush(id) =>
      assert ReadyOnly(s.done + s.batch) + (s.queue + [Item(id, true)]) == (ReadyOnly(s.done + s.batch) + s.queue) + [Item(id, true)];
    case Push(tid, id) =>
      assert ReadyOnly(s.done + s.batch) + (s.queue + [Item(id, true)]) == (ReadyOnly(s.done + s.batch) + s.queue) + [Item(id, true)];
    case _ =>
  }

  // ----- the wake-up -----

  /** Only a producer that holds the lock can be mid-operation. */
  predicate LockExcludes(s: State) {
    && (forall tid :: tid in s.pushed ==> s.holder == Some(Producer(tid)))
    && (forall tid :: tid in s.added ==> s.holder == Some(Producer(tid)))
  }

  predicate WakesUp(s: State) {
    && |s.queue| < WORD
    && LockExcludes(s)
    && (s.pc.Decided? || s.pc == Entering || s.pc.Subtracting? || s.pc == Collecting || s.pc == Adding ==> s.holder == Some(LoopThread))
    && (s.pc == Decided(true) || s.pc == Entering ==> s.queue == [])
    && (s.idle <==> s.pc == Entering || s.pc == Polling(true) || s.pc == Returned(true))
    && (s.pc == Polling(true) && s.queue != [] ==> s.wake || s.pushed != {} || s.added != {})
  }

  lemma {:induction false} ApplyWakesUp(s: State, step: Step)
    requires Enabled(s, step) && s.gil && Counted(s) && WakesUp(s)
    ensures WakesUp(Apply(s, step))
  {
    match step
    case Load(blocking) =>
      assert s.pushed == {};
      assert Truth(s) == |s.queue|;
    case _ =>
  }

  // ----- whole runs -----

  lemma {:induction false} RunKeeps(gil: bool, steps: seq<Step>)
    requires IsRun(gil, steps)
    ensures var s := After(gil, steps); s.gil == gil && Counted(s) && Ordered(s) && (gil ==> WakesUp(s))
  {
    if steps != [] {
      var init, step := steps[..|steps|-1], steps[|steps|-1];
      RunKeeps(gil, init);
      var s := After(gil, init);
      ApplyCounts(s, step);
      ApplyOrders(s, step);
      if gil {
        ApplyWakesUp(s, step);
      }
    }
  }

  /** In every interleaving, with or without the lock, the counter is the queue length plus what is taken and not
      subtracted minus what is pushed and not added, modulo the word size; so between operations it is the queue
      length. */
  lemma {:induction false} CounterIsExact(gil: bool, steps: seq<Step>)
    requires IsRun(gil, steps)
    ensures var s := After(gil, steps);
            && s.counter == Truth(s) % WORD
            && (s.pushed == {} && !s.pc.Subtracting? && s.pc != Adding && |s.queue| < WORD ==> s.counter == |s.queue|)
  {
    RunKeeps(gil, steps);
    CountedExactly(After(gil, steps));
  }

  lemma {:induction false} CountedExactly(s: State)
    requires Counted(s)
    ensures s.counter == Truth(s) % WORD
    ensures s.pushed == {} && !s.pc.Subtracting? && s.pc != Adding && |s.queue| < WORD ==> s.counter == |s.queue|
  {
    if s.pushed == {} && !s.pc.Subtracting? && s.pc != Adding && |s.queue| < WORD {
      assert Truth(s) == |s.queue|;
    }
  }

  /** In every interleaving each ready handle is run or skipped exactly once, in the order of scheduling. */
  lemma {:induction false} HandlesRunInOrder(gil: bool, steps: seq<Step>)
    requires IsRun(gil, steps)
    ensures var s := After(gil, steps);
            && ReadyOnly(s.done) <= s.scheduled
            && ReadyOnly(s.done) + ReadyOnly(s.batch) + s.queue == s.scheduled
  {
    RunKeeps(gil, steps);
    var s := After(gil, steps);
    ReadyOnlyConcat(s.done, s.batch);
    assert ReadyOnly(s.done) + ReadyOnly(s.batch) + s.queue == ReadyOnly(s.done) + (ReadyOnly(s.batch) + s.queue);
  }

  /** Under the lock, a loop blocked in poll with handles queued has been woken, unless the producer that queued
      them is still at it. */
  lemma {:induction false} NoLostWakeUp(steps: seq<Step>)
    requires IsRun(true, steps)
    ensures var s := After(true, steps);
            s.pc == Polling(true) && s.queue != [] && s.pushed == {} && s.added == {} ==> s.wake
  {
    RunKeeps(true, steps);
  }

  lemma {:induction false} Extend(gil: bool, steps: seq<Step>, step: Step)
    requires IsRun(gil, steps) && Enabled(After(gil, steps), step)
    ensures IsRun(gil, steps + [step]) && After(gil, steps + [step]) == Apply(After(gil, steps), step)
  {
    assert (steps + [step])[..|steps|] == steps;
  }

  lemma {:induction false} Grown(gil: bool, steps: seq<Step>, s: State, step: Step) returns (longer: seq<Step>)
    requires IsRun(gil, steps) && After(gil, steps) == s && Enabled(s, step)
    ensures longer == steps + [step] && IsRun(gil, longer) && After(gil, longer) == Apply(s, step)
  {
    Extend(gil, steps, step);
    longer := steps + [step];
  }

  /** The loop has found nothing to do and is about to say that it is idle; a producer has queued a handle meanwhile and
      seen no reason to wake it. */
  const MISSED := State(false, None, [Item(7, true)], 1, false, false, Decided(true), [], {}, {}, [Item(7, true)], [])

  lemma {:induction false} MissedIsReached() returns (steps: seq<Step>)
    ensures IsRun(false, steps) && After(false, steps) == MISSED
  {
    var s := Initial(false);
    steps := [];
    steps := Grown(false, steps, s, Load(true));
    s := Apply(s, Load(true));
    steps := Grown(false, steps, s, Push(1, 7));
    s := Apply(s, Push(1, 7));
    steps := Grown(false, steps, s, Add(1));
    s := Apply(s, Add(1));
    assert s.added == {1} && s.pushed == {};
    steps := Grown(false, steps, s, Wake(1));
    s := Apply(s, Wake(1));
    assert s.added == {} && s.pushed == {};
  }

  /** Without the lock a wake-up can be lost: the producer looks at `idle` between the loop's load of the counter
      and its store of `idle`. */
  lemma {:induction false} WakeUpLostWithoutLock() returns (steps: seq<Step>)
    ensures IsRun(false, steps)
    ensures var s := After(false, steps);
            s.pc == Polling(true) && s.queue != [] && s.pushed == {} && s.added == {} && !s.wake
  {
    steps := MissedIsReached();
    steps := Grown(false, steps, MISSED, SetIdle);
    steps := Grown(false, steps, Apply(MISSED, SetIdle), EnterPoll);
  }

  // ----- what a lost wake-up takes -----

  /** Since the loop last loaded the counter, some producer has looked at `idle` before the loop stored it. */
  predicate LookedEarly(gil: bool, steps: seq<Step>)
    requires IsRun(gil, steps)
  {
    && steps != []
    && var init, step := steps[..|steps|-1], steps[|steps|-1];
       match step
       case Load(_) => false
       case Wake(_) => After(gil, init).pc == Decided(true) || LookedEarly(gil, init)
       case _ => LookedEarly(gil, init)
  }

  predicate GoingToSleep(s: State) {
    s.pc == Decided(true) || s.pc == Entering || s.pc == Polling(true)
  }

  /** On its way to sleep the loop leaves no handle behind that nobody will wake it for. */
  predicate Minded(s: State, looked: bool) {
    && |s.queue| < WORD
    && (s.idle <==> s.pc == Entering || s.pc == Polling(true) || s.pc == Returned(true))
    && (GoingToSleep(s) && s.queue != [] ==> looked || s.wake || s.pushed != {} || s.added != {})
  }

  lemma {:induction false} ApplyMinds(s: State, step: Step, looked: bool)
    requires Enabled(s, step) && Counted(s) && Minded(s, looked)
    ensures Minded(Apply(s, step), !step.Load? && (looked || (step.Wake? && s.pc == Decided(true))))
  {
    match step
    case Load(blocking) => CountedExactly(s);
    case Add(tid) => assert tid in Apply(s, step).added;
    case Push(tid, id) => assert tid in Apply(s, step).pushed;
    case _ =>
  }

  lemma {:induction false} RunMinds(gil: bool, steps: seq<Step>)
    requires IsRun(gil, steps)
    ensures Minded(After(gil, steps), LookedEarly(gil, steps))
  {
    if steps != [] {
      var init, step := steps[..|steps|-1], steps[|steps|-1];
      RunMinds(gil, init);
      RunKeeps(gil, init);
      ApplyMinds(After(gil, init), step, LookedEarly(gil, init));
    }
  }

  /** With or without the lock, a loop is left asleep over queued handles only if a producer looked at `idle` between the
      loop's load of the counter and its store of `idle`. */
  lemma {:induction false} SleepTakesEarlyLook(gil: bool, steps: seq<Step>)
    requires IsRun(gil, steps)
    ensures var s := After(gil, steps);
            s.pc == Polling(true) && s.queue != [] && s.pushed == {} && s.added == {} && !s.wake ==> LookedEarly(gil, steps)
  {
    RunMinds(gil, steps);
  }

  // ----- what was queued -----

  /** The handles queued, by callbacks and producers, in order. */
  function Pushed(steps: seq<Step>): seq<Item> {
    if steps == [] then []
    else
      var step := steps[|steps|-1];
      Pushed(steps[..|steps|-1]) + (if step.Push? || step.SoonPush? then [Item(step.id, true)] else [])
  }

  /** In every run nothing else is run from the ready queue or waits in it. */
  lemma {:induction false} PushesAreKept(gil: bool, steps: seq<Step>)
    requires IsRun(gil, steps)
    ensures var s := After(gil, steps);
            ReadyOnly(s.done) + ReadyOnly(s.batch) + s.queue == Pushed(steps)
  {
    ScheduledIsPushed(gil, steps);
    HandlesRunInOrder(gil, steps);
  }

  lemma {:induction false} ScheduledIsPushed(gil: bool, steps: seq<Step>)
    requires IsRun(gil, steps)
    ensures After(gil, steps).scheduled == Pushed(steps)
  {
    if steps != [] {
      var init, step := steps[..|steps|-1], steps[|steps|-1];
      ScheduledIsPushed(gil, init);
      StepPushes(After(gil, init), step);
      assert After(gil, steps) == Apply(After(gil, init), step);
    }
  }

  lemma {:induction false} StepPushes(s: State, step: Step)
    requires Enabled(s, step)
    ensures Apply(s, step).scheduled == s.scheduled + (if step.Push? || step.SoonPush? then [Item(step.id, true)] else [])
  {
  }

  /** What the loop took: the ready queue at each swap, then the handles collected from I/O events and timers. */
  function Batched(gil: bool, steps: seq<Step>): seq<Item>
    requires IsRun(gil, steps)
  {
    if steps == [] then []
    else
      var init, step := steps[..|steps|-1], steps[|steps|-1];
      Batched(gil, init) + (match step
                            case Swap => After(gil, init).queue
                            case Collect(items) => items
                            case _ => [])
  }

  /** The poller holds a wake-up: one was sent while the loop said it was idle, and poll has not returned since. */
  predicate Woken(gil: bool, steps: seq<Step>)
    requires IsRun(gil, steps)
  {
    && steps != []
    && var init, step := steps[..|steps|-1], steps[|steps|-1];
       var pc := After(gil, init).pc;
       match step
       case Wake(_) => Woken(gil, init) || pc == Entering || pc == Polling(true) || pc == Returned(true)
       case PollReturn => false
       case _ => Woken(gil, init)
  }

  lemma {:induction false} StepTakes(s: State, step: Step)
    requires Enabled(s, step) && (s.batch != [] ==> s.pc.Subtracting? || s.pc == Collecting || s.pc == Running || s.pc == Adding)
    ensures var t := Apply(s, step);
            t.done + t.batch == (s.done + s.batch) + (match step case Swap => s.queue case Collect(items) => items case _ => [])
  {
    match step
    case Collect(items) => assert s.done + (s.batch + items) == (s.done + s.batch) + items;
    case RunNext => assert s.done + [s.batch[0]] + s.batch[1..] == s.done + s.batch;
    case Swap => assert s.batch == [];
    case _ => assert (s.done + s.batch) + [] == s.done + s.batch;
  }

  /** In every run each handle that the loop took, from the queue, from I/O or from a timer, is run or skipped in its turn
      or is still to come; and a wake-up is pending exactly if one was sent to an idle loop since poll last returned. */
  lemma {:induction false} TakenIsDone(gil: bool, steps: seq<Step>)
    requires IsRun(gil, steps)
    ensures var s := After(gil, steps);
            s.done + s.batch == Batched(gil, steps) && (s.wake <==> Woken(gil, steps))
  {
    if steps != [] {
      var init, step := steps[..|steps|-1], steps[|steps|-1];
      TakenIsDone(gil, init);
      RunKeeps(gil, init);
      RunMinds(gil, init);
      StepTakes(After(gil, init), step);
      assert After(gil, steps) == Apply(After(gil, init), step);
    }
  }

  // ----- a step's callbacks come to an end -----

  function RunsIn(steps: seq<Step>): nat {
    if steps == [] then 0 else RunsIn(steps[..|steps|-1]) + (if steps[|steps|-1] == RunNext then 1 else 0)
  }

  /** `steps` lead from `s` to `t` without leaving the callback phase of one loop step. */
  ghost predicate CallbackPhase(s: State, steps: seq<Step>, t: State)
    decreases steps
  {
    if steps == [] then s == t
    else
      exists m ::
        && CallbackPhase(s, steps[..|steps|-1], m)
        && (m.pc == Running || m.pc == Adding) && steps[|steps|-1] != Finish
        && Enabled(m, steps[|steps|-1]) && t == Apply(m, steps[|steps|-1])
  }

  lemma {:induction false} CallbackStep(m: State, step: Step)
    requires (m.pc == Running || m.pc == Adding) && step != Finish && Enabled(m, step)
    ensures var t := Apply(m, step);
            && (t.pc == Running || t.pc == Adding)
            && t.batch == (if step == RunNext then m.batch[1..] else m.batch)
  {
  }

  /** Whatever callbacks and other threads schedule meanwhile, a step runs exactly the batch it took: what is left
      of the batch is its initial length less the callbacks run, and nothing ever joins it. */
  lemma {:induction false} BatchIsBounded(s: State, steps: seq<Step>, t: State)
    requires (s.pc == Running || s.pc == Adding) && CallbackPhase(s, steps, t)
    ensures t.pc == Running || t.pc == Adding
    ensures RunsIn(steps) + |t.batch| == |s.batch| && t.batch == s.batch[RunsIn(steps)..]
    decreases steps
  {
    if steps != [] {
      var init, step := steps[..|steps|-1], steps[|steps|-1];
      var m :| CallbackPhase(s, init, m) && (m.pc == Running || m.pc == Adding) && step != Finish
               && Enabled(m, step) && t == Apply(m, step);
      BatchIsBounded(s, init, m);
      CallbackStep(m, step);
    }
  }
}
