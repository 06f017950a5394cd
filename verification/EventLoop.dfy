/**
 Handing functors to the thread of an event loop, as a machine of atomic steps.  Other threads push
 under the mutex and then, in a separate step, write the eventfd; the loop thread polls, handles its
 channels, swaps the queue and runs what it took.  Any interleaving is a run.
 */
module EventLoops {

  /** A functor and what it does when it runs. */
  datatype Functor = Functor(id: nat, does: seq<Action>)
  datatype Action = Queues(f: Functor) | Quits

  datatype Phase =
    | Before                       // not in loop()
    | Checking                     // at the loop's condition
    | AtPoll
    | Handling(wakeActive: bool)   // calling channels; whether the eventfd's is still to be called
    | Swapping                     // in doPendingFunctors, before the swap
    | Running
    | Stopped

  const EVENTFD_MAX: nat := 0xffff_ffff_ffff_fffe

  /**
   `owing` counts the other threads between their push, or their setting of `quit`, and their
   wakeup; `loopOwes` is the same for the loop thread.  `pushed` and `ran` are histories; `polledAt`
   and `swappedAt` are how many functors had been pushed at the last poll and the last swap, and
   `polledQuit` counts the polls made with `quit` set.
   */
  datatype Loop = Loop(
    phase: Phase,
    quit: bool,
    calling: bool,
    pending: seq<Functor>,
    batch: seq<Functor>,
    count: nat,
    owing: nat,
    loopOwes: bool,
    early: bool,
    pushed: seq<Functor>,
    ran: seq<Functor>,
    polledAt: nat,
    swappedAt: nat,
    polledQuit: nat)

  const NEW := Loop(Before, false, false, [], [], 0, 0, false, false, [], [], 0, 0, 0)

  datatype Step =
    // other threads
    | Push(f: Functor)
    | Wake
    | OtherQuit
    // the loop thread
    | EarlyQueue(f: Functor)
    | Start
    | Check
    | Poll
    | ReadWakeup
    | CallbackQueue(f: Functor)
    | CallbackQuit
    | EndHandling
    | Swap
    | RunNext
    | FunctorQueue(f: Functor)
    | FunctorWake
    | FunctorQuit
    | EndRun

  predicate Enabled(c: Loop, s: Step) {
    match s
    case Push(_) => true
    case Wake => c.owing > 0
    case OtherQuit => true
    case EarlyQueue(_) => c.phase.Before? || c.phase.Stopped?
    case Start => c.phase.Before? || c.phase.Stopped?
    case Check => c.phase.Checking?
    case Poll => c.phase.AtPoll?
    case ReadWakeup => c.phase.Handling? && c.phase.wakeActive
    case CallbackQueue(_) => c.phase.Handling?
    case CallbackQuit => c.phase.Handling?
    case EndHandling => c.phase.Handling? && !c.phase.wakeActive
    case Swap => c.phase.Swapping?
    case RunNext => c.phase.Running? && !c.loopOwes && c.batch != []
    case FunctorQueue(_) => c.phase.Running? && !c.loopOwes
    case FunctorWake => c.phase.Running? && c.loopOwes
    case FunctorQuit => c.phase.Running? && !c.loopOwes
    case EndRun => c.phase.Running? && !c.loopOwes && c.batch == []
  }

  /** The eventfd adds one; a full counter refuses and stays as it is. */
  function Bump(count: nat): (n: nat)
    ensures n > 0
  {
    if count < EVENTFD_MAX then count + 1 else count
  }

  function Queue(c: Loop, f: Functor): Loop {
    c.(pending := c.pending + [f], pushed := c.pushed + [f])
  }

  function Next(c: Loop, s: Step): Loop
    requires Enabled(c, s)
  {
    match s
    case Push(f) => Queue(c, f).(owing := c.owing + 1)
    case Wake => c.(count := Bump(c.count), owing := c.owing - 1)
    case OtherQuit => c.(quit := true, owing := c.owing + 1)
    case EarlyQueue(f) => Queue(c, f).(early := true)
    case Start => c.(phase := Checking, quit := false, polledQuit := 0)
    case Check => c.(phase := if c.quit then Stopped else AtPoll)
    case Poll =>
      c.(phase := Handling(c.count > 0), polledAt := |c.pushed|,
         polledQuit := if c.quit then c.polledQuit + 1 else c.polledQuit)
    case ReadWakeup => c.(phase := Handling(false), count := 0)
    case CallbackQueue(f) => Queue(c, f)
    case CallbackQuit => c.(quit := true)
    case EndHandling => c.(phase := Swapping, calling := true)
    case Swap => c.(phase := Running, batch := c.pending, pending := [], early := false, swappedAt := |c.pushed|)
    case RunNext => c.(batch := c.batch[1..], ran := c.ran + [c.batch[0]])
    case FunctorQueue(f) => Queue(c, f).(loopOwes := true)
    case FunctorWake => c.(count := Bump(c.count), loopOwes := false)
    case FunctorQuit => c.(quit := true)
    case EndRun => c.(phase := Checking, calling := false)
  }

  ghost predicate Possible(c: Loop, steps: seq<Step>)
    decreases |steps|
  {
    steps != [] ==> Enabled(c, steps[0]) && Possible(Next(c, steps[0]), steps[1..])
  }

  ghost function Run(c: Loop, steps: seq<Step>): Loop
    requires Possible(c, steps)
    decreases |steps|
  {
    if steps == [] then c else Run(Next(c, steps[0]), steps[1..])
  }

  // ---------- what every step keeps ----------

  /** Someone has written the eventfd or is about to. */
  ghost predicate Covered(c: Loop) {
    c.count > 0 || c.owing > 0 || c.loopOwes
  }

  /** Outside the stretch from a poll to its swap, waiting functors have a wakeup to their name. */
  ghost predicate Awake(c: Loop) {
    && (c.pending != [] && !c.phase.Handling? && !c.phase.Swapping? ==> Covered(c) || c.early)
    && (c.quit && c.phase.AtPoll? ==> Covered(c))
    && (c.loopOwes ==> c.phase.Running?)
    && (c.phase.Handling? && c.phase.wakeActive ==> c.count > 0)
    && (c.early ==> c.pending != [])
  }

  /** Functors are run once, in the order they were pushed. */
  ghost predicate Fifo(c: Loop) {
    c.ran + c.batch + c.pending == c.pushed && (!c.phase.Running? ==> c.batch == [])
  }

  ghost predicate Rounds(c: Loop) {
    && c.polledAt <= |c.pushed| && c.swappedAt <= |c.pushed|
    && (!c.phase.Handling? && !c.phase.Swapping? ==> c.polledAt <= c.swappedAt)
    && |c.ran| + |c.batch| == c.swappedAt
  }

  ghost predicate Stopping(c: Loop) {
    && c.polledQuit <= 1
    && (c.polledQuit > 0 ==> c.quit)
    && (c.phase.AtPoll? ==> c.polledQuit == 0)
    && (c.phase.Stopped? ==> c.quit)
  }

  ghost predicate Good(c: Loop) {
    Awake(c) && Fifo(c) && Rounds(c) && Stopping(c) && (c.calling <==> c.phase.Swapping? || c.phase.Running?)
  }

  lemma FifoKept(c: Loop, s: Step)
    requires Fifo(c) && Enabled(c, s)
    ensures Fifo(Next(c, s))
  {
  }

  lemma StepKeeps(c: Loop, s: Step)
    requires Good(c) && Enabled(c, s)
    ensures Good(Next(c, s))
  {
    hide Fifo;
    FifoKept(c, s);
    assert Rounds(Next(c, s)) by { RoundsKept(c, s); }
  }

  lemma RoundsKept(c: Loop, s: Step)
    requires Fifo(c) && Rounds(c) && Enabled(c, s)
    ensures Rounds(Next(c, s))
  {
  }

  lemma {:induction false} RunKeeps(c: Loop, steps: seq<Step>)
    requires Good(c) && Possible(c, steps)
    ensures Good(Run(c, steps))
    decreases |steps|
  {
    hide Good, Enabled, Next;
    if steps != [] {
      StepKeeps(c, steps[0]);
      RunKeeps(Next(c, steps[0]), steps[1..]);
    }
  }

  /** Some steps take `c` to `d`. */
  ghost predicate Leads(c: Loop, d: Loop) {
    exists steps :: Possible(c, steps) && d == Run(c, steps)
  }

  lemma LeadsKeeps(c: Loop, d: Loop)
    requires Good(c) && Leads(c, d)
    ensures Good(d)
  {
    hide Good;
    var steps :| Possible(c, steps) && d == Run(c, steps);
    RunKeeps(c, steps);
  }

  ghost predicate Reachable(c: Loop) {
    Leads(NEW, c)
  }

  lemma ReachableIsGood(c: Loop)
    requires Reachable(c)
    ensures Good(c)
  {
    assert NEW.ran + NEW.batch + NEW.pending == [];
    LeadsKeeps(NEW, c);
  }

  // ---------- theorems ----------

  /** The poll would block: nothing written to the eventfd, and no thread on its way to write. */
  predicate Asleep(c: Loop) {
    c.phase.AtPoll? && c.count == 0 && c.owing == 0
  }

  /**
   No lost wakeup: a loop is asleep over waiting functors exactly when its own thread has queued one
   before loop() and none has been taken since; it never sleeps over a quit.
   */
  lemma NoLostWakeup(c: Loop)
    requires Reachable(c) && Asleep(c)
    ensures c.early <==> c.pending != []
    ensures !c.quit
  {
    ReachableIsGood(c);
  }

  /** Such a functor is stranded until something else ends the poll. */
  lemma EarlyQueueIsStranded(f: Functor)
    ensures
      var steps := [EarlyQueue(f), Start, Check];
      Possible(NEW, steps) && Asleep(Run(NEW, steps)) && Run(NEW, steps).pending == [f]
  {
    var steps := [EarlyQueue(f), Start, Check];
    var c1 := Next(NEW, steps[0]);
    var c2 := Next(c1, steps[1]);
    var c3 := Next(c2, steps[2]);
    assert steps[2..][1..] == [] && steps[1..][1..] == steps[2..];
    assert Possible(c3, []) && Run(c3, []) == c3;
    assert Possible(c2, steps[2..]) && Run(c2, steps[2..]) == c3;
    assert Possible(c1, steps[1..]) && Run(c1, steps[1..]) == c3;
  }

  /** What has run is a prefix of what was pushed; the rest is in the batch or the queue, in order. */
  lemma OnceInOrder(c: Loop)
    requires Reachable(c)
    ensures c.ran + c.batch + c.pending == c.pushed
    ensures !c.phase.Running? ==> c.batch == []
  {
    ReachableIsGood(c);
  }

  /** Everything pushed before a poll has run by the time the loop is back at its condition. */
  lemma RoundRunsAll(c: Loop)
    requires Reachable(c) && (c.phase.Checking? || c.phase.AtPoll? || c.phase.Stopped?)
    ensures c.polledAt <= |c.ran| <= |c.pushed|
    ensures c.ran == c.pushed[..|c.ran|]
  {
    ReachableIsGood(c);
    assert c.ran + c.batch + c.pending == c.pushed;
  }

  /** A batch is what was waiting at the swap: what its functors queue is left for the next round. */
  lemma BatchIsFixed(c: Loop)
    requires Reachable(c) && c.phase.Running?
    ensures |c.ran| + |c.batch| == c.swappedAt <= |c.pushed|
    ensures c.pending == c.pushed[c.swappedAt..]
  {
    ReachableIsGood(c);
    assert c.pushed == (c.ran + c.batch) + c.pending;
  }

  /** After a quit inside loop(), the loop polls at most once more. */
  lemma QuitStops(c: Loop)
    requires Reachable(c)
    ensures c.polledQuit <= 1
    ensures c.phase.Checking? && c.quit ==> Next(c, Check).phase.Stopped?
  {
    ReachableIsGood(c);
  }

  /** How often the eventfd has been written since it was last read. */
  function WritesSinceRead(steps: seq<Step>, before: nat): nat
    decreases |steps|
  {
    if steps == [] then before
    else
      WritesSinceRead(steps[1..], if steps[0].Wake? || steps[0].FunctorWake? then before + 1
                                  else if steps[0].ReadWakeup? then 0 else before)
  }

  function Capped(n: nat): nat { if n < EVENTFD_MAX then n else EVENTFD_MAX }

  lemma {:induction false} CountFrom(c: Loop, steps: seq<Step>, before: nat)
    requires Possible(c, steps) && c.count == Capped(before)
    ensures Run(c, steps).count == Capped(WritesSinceRead(steps, before))
    decreases |steps|
  {
    if steps != [] {
      var now := if steps[0].Wake? || steps[0].FunctorWake? then before + 1
                 else if steps[0].ReadWakeup? then 0 else before;
      CountFrom(Next(c, steps[0]), steps[1..], now);
    }
  }

  /**
   The counter of the eventfd is how often it was written since it was last read, up to its maximum; so it
   is 0 exactly when it was not.
   */
  lemma CountExactly(steps: seq<Step>)
    requires Possible(NEW, steps)
    ensures Run(NEW, steps).count == Capped(WritesSinceRead(steps, 0))
    ensures Run(NEW, steps).count == 0 <==> WritesSinceRead(steps, 0) == 0
  {
    CountFrom(NEW, steps, 0);
  }

  /** By the steps alone: somebody has quit the loop since it was last entered. */
  function QuitSinceStart(steps: seq<Step>, before: bool): bool
    decreases |steps|
  {
    if steps == [] then before
    else
      QuitSinceStart(steps[1..], if steps[0].OtherQuit? || steps[0].CallbackQuit? || steps[0].FunctorQuit? then true
                                 else if steps[0].Start? then false else before)
  }

  lemma {:induction false} QuitFrom(c: Loop, steps: seq<Step>)
    requires Possible(c, steps)
    ensures Run(c, steps).quit == QuitSinceStart(steps, c.quit)
    decreases |steps|
  {
    if steps != [] { QuitFrom(Next(c, steps[0]), steps[1..]); }
  }

  /** The flag is set exactly when somebody has quit since loop() was entered, and exactly then the loop ends. */
  lemma QuitExactly(steps: seq<Step>)
    requires Possible(NEW, steps)
    ensures
      var c := Run(NEW, steps);
      && (c.quit <==> QuitSinceStart(steps, false))
      && (c.phase.Checking? ==> (Next(c, Check).phase.Stopped? <==> QuitSinceStart(steps, false)))
      && (c.phase.Checking? ==> Next(c, Check).phase.Stopped? || Next(c, Check).phase.AtPoll?)
  {
    QuitFrom(NEW, steps);
  }

  /** The eventfd is read only when it has been written, so the read does not block. */
  lemma ReadDoesNotBlock(c: Loop)
    requires Reachable(c) && Enabled(c, ReadWakeup)
    ensures c.count > 0
  {
    ReachableIsGood(c);
  }

  /** A quit that comes before loop() is forgotten. */
  lemma QuitBeforeLoopIsLost(c: Loop)
    requires Enabled(c, Start)
    ensures !Next(c, Start).quit && Next(Next(c, Start), Check).phase.AtPoll?
  {
  }

  // ---------- composing runs ----------

  lemma {:induction false} RunSplits(c: Loop, a: seq<Step>, b: seq<Step>)
    requires Possible(c, a) && Possible(Run(c, a), b)
    ensures Possible(c, a + b) && Run(c, a + b) == Run(Run(c, a), b)
    decreases |a|
  {
    hide Enabled, Next;
    if a == [] {
      assert a + b == b;
    } else {
      assert (a + b)[1..] == a[1..] + b;
      RunSplits(Next(c, a[0]), a[1..], b);
    }
  }

  lemma OneStep(c: Loop, s: Step)
    requires Enabled(c, s)
    ensures Possible(c, [s]) && Run(c, [s]) == Next(c, s)
  {
  }

  lemma Stays(c: Loop)
    ensures Leads(c, c)
  {
    assert Possible(c, []) && c == Run(c, []);
  }

  lemma LeadsOn(c: Loop, d: Loop, e: Loop)
    requires Leads(c, d) && Leads(d, e)
    ensures Leads(c, e)
  {
    var a :| Possible(c, a) && d == Run(c, a);
    var b :| Possible(d, b) && e == Run(d, b);
    RunSplits(c, a, b);
  }

  lemma LeadsNext(c: Loop, d: Loop, s: Step)
    requires Leads(c, d) && Enabled(d, s)
    ensures Leads(c, Next(d, s))
  {
    OneStep(d, s);
    LeadsOn(c, d, Next(d, s));
  }

  // ---------- progress ----------

  function RunAll(n: nat): (steps: seq<Step>)
    ensures |steps| == n
  {
    if n == 0 then [] else [RunNext] + RunAll(n - 1)
  }

  /** What the loop thread does from a poll on when neither channels nor functors add anything. */
  function Round(c: Loop): seq<Step> {
    [Poll] + (if c.count > 0 then [ReadWakeup] else []) + [EndHandling] + [Swap] + RunAll(|c.pending|) + [EndRun]
  }

  lemma {:induction false} BatchRuns(c: Loop)
    requires c.phase.Running? && !c.loopOwes
    ensures Possible(c, RunAll(|c.batch|))
    ensures Run(c, RunAll(|c.batch|)) == c.(batch := [], ran := c.ran + c.batch)
    decreases |c.batch|
  {
    if c.batch == [] {
      assert c.ran + [] == c.ran;
    } else {
      var d := Next(c, RunNext);
      BatchRuns(d);
      assert c.ran + c.batch == (c.ran + [c.batch[0]]) + c.batch[1..];
      assert RunAll(|c.batch|)[1..] == RunAll(|d.batch|);
    }
  }

  lemma PollToSwap(c: Loop) returns (d: Loop)
    requires Good(c) && c.phase.AtPoll?
    ensures
      var steps := [Poll] + (if c.count > 0 then [ReadWakeup] else []) + [EndHandling] + [Swap];
      Possible(c, steps) && Run(c, steps) == d
    ensures d.phase.Running? && !d.loopOwes && d.batch == c.pending && d.ran == c.ran && d.pending == []
    ensures d.pushed == c.pushed && d.quit == c.quit && d.owing == c.owing && d.count == 0
  {
    OneStep(c, Poll);
    d := Next(c, Poll);
    var steps := [Poll];
    if c.count > 0 {
      OneStep(d, ReadWakeup);
      RunSplits(c, steps, [ReadWakeup]);
      d, steps := Next(d, ReadWakeup), steps + [ReadWakeup];
    } else {
      assert steps + [] == steps;
    }
    OneStep(d, EndHandling);
    RunSplits(c, steps, [EndHandling]);
    d, steps := Next(d, EndHandling), steps + [EndHandling];
    OneStep(d, Swap);
    RunSplits(c, steps, [Swap]);
    d := Next(d, Swap);
  }

  /** The state at the end of the batch of an undisturbed round. */
  lemma RoundEnds(c: Loop) returns (e: Loop)
    requires Good(c) && c.phase.AtPoll?
    ensures e.phase.Running? && !e.loopOwes && e.batch == [] && e.ran == c.ran + c.pending && e.pending == []
    ensures e.quit == c.quit && e.owing == c.owing && e.count == 0
    ensures Possible(c, Round(c)) && Run(c, Round(c)) == Next(e, EndRun)
  {
    hide Good, Possible, Run, Next;
    var steps := [Poll] + (if c.count > 0 then [ReadWakeup] else []) + [EndHandling] + [Swap];
    var d := PollToSwap(c);
    BatchRuns(d);
    RunSplits(c, steps, RunAll(|c.pending|));
    e := d.(batch := [], ran := d.ran + d.batch);
    OneStep(e, EndRun);
    RunSplits(c, steps + RunAll(|c.pending|), [EndRun]);
  }

  /** Left to itself, one round of the loop runs everything that has been pushed. */
  lemma RoundDrains(c: Loop)
    requires Reachable(c) && c.phase.AtPoll?
    ensures Possible(c, Round(c))
    ensures var d := Run(c, Round(c)); d.phase.Checking? && d.ran == c.pushed && d.pending == []
  {
    hide Possible, Run;
    ReachableIsGood(c);
    var e := RoundEnds(c);
  }

  /**
   The converse of `NoLostWakeup`: left to itself, a loop that has not been quit and that no thread owes a
   wakeup has run everything after one round, has drained the eventfd, and goes to sleep.
   */
  lemma RoundSleeps(c: Loop)
    requires Reachable(c) && c.phase.AtPoll? && !c.quit && c.owing == 0
    ensures Possible(c, Round(c) + [Check])
    ensures
      var d := Run(c, Round(c) + [Check]);
      Asleep(d) && d.pending == [] && d.ran == c.pushed
  {
    hide Possible, Run;
    ReachableIsGood(c);
    var e := RoundEnds(c);
    OneStep(Next(e, EndRun), Check);
    RunSplits(c, Round(c), [Check]);
  }
}
