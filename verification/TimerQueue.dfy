/**
 The reactor's timer queue.  Timers are allocated and deleted by hand, so the heap is explicit:
 a map from address to live timer, in which an address may be used again after a deletion.
 Reading or deleting through a stale address would be a failed precondition here.

 The queue lives in one loop thread.  `NewTimer` is the part of `addTimer` that any thread runs;
 everything else runs in the loop.  Callbacks of an expired batch may add and cancel timers
 while the batch is running; their calls are the `Action`s handed to `HandleRead`.
 */
module TimerQueues {
  import opened Basics
  import opened OrderedSet

  const MIN_DELAY := 100  // microseconds

  datatype Timer = Timer(sequence: nat, expiration: int, interval: real) {
    predicate Repeat() { interval > 0.0 }

    /** A repeating timer expires next one interval from now; any other becomes invalid. */
    function Restart(now: int): Timer {
      this.(expiration := if Repeat() then now + (interval * 1000000.0).Floor else 0)
    }
  }

  datatype TimerId = TimerId(addr: nat, sequence: nat)

  datatype TimeSpec = TimeSpec(sec: int, nsec: int)

  /** The timerfd: stopped, counting down to `deadline` since `at`, or fired and not yet read. */
  datatype Alarm = Disarmed | Armed(deadline: int, at: int) | Fired

  /**
   What happens to the queue while a callback runs: its own calls of `addTimer` and `cancel`, and
   `addTimer` in other threads.  `hint` is where the allocator would put the timer.
   */
  datatype Action =
    | Add(when: int, interval: real, hint: nat, clock: int)
    | Cancel(id: TimerId)
    | AddElsewhere(when: int, interval: real, hint: nat)

  /** Where a timer that has been created is now. */
  datatype Place = Created(addr: nat) | Queued(addr: nat) | InBatch(addr: nat) | Deleted

  function Max(a: int, b: int): int { if a < b then b else a }

  /** The relative time for `timerfd_settime`: never zero, which would stop the timer instead. */
  function HowMuchTimeFromNow(when: int, now: int): (ts: TimeSpec)
    ensures 0 <= ts.sec && 0 <= ts.nsec < 1_000_000_000
    ensures ts.sec * 1_000_000_000 + ts.nsec == 1000 * Max(MIN_DELAY, when - now)
  {
    var micros := if when - now < MIN_DELAY then MIN_DELAY else when - now;
    TimeSpec(micros / 1_000_000, micros % 1_000_000 * 1000)
  }

  /** `timerfd_settime` with no interval: zero stops the timer. */
  function SetTime(ts: TimeSpec, clock: int): Alarm {
    if ts == TimeSpec(0, 0) then Disarmed
    else Armed(clock + (ts.sec * 1_000_000_000 + ts.nsec) / 1000, clock)
  }

  /** Some address that is free, and `hint` when that is. */
  function Allocate(hint: nat, used: set<nat>): (a: nat)
    ensures a !in used && hint <= a
    ensures hint !in used ==> a == hint
    decreases |used|
  {
    if hint !in used then hint else Allocate(hint + 1, used - {hint})
  }

  /** The entries due at `now`, earliest first. */
  function Due(timers: seq<Entry>, now: int): seq<Entry>
    requires Sorted(timers)
  {
    timers[..FirstAfter(timers, now)]
  }

  lemma DueIsExact(timers: seq<Entry>, now: int)
    requires Sorted(timers)
    ensures Sorted(Due(timers, now))
    ensures forall e :: e in Due(timers, now) <==> e in timers && e.when <= now
  {
  }

  /**
   The state of the queue (the first eight fields) and of its history.  `expired` is the part of
   the running batch that `reset` has not dealt with, `waiting` the part whose callback has not
   run; `place` goes by sequence number; `barred` gives, for a cancelled timer, the number of
   callbacks that had run when the cancellation took hold.
   */
  datatype Queue = Queue(
    heap: map<nat, Timer>,
    sumCreated: nat,
    pendingAdds: set<nat>,
    timers: seq<Entry>,
    active: set<TimerId>,
    callingExpired: bool,
    canceling: set<TimerId>,
    alarm: Alarm,
    batching: bool,
    expired: seq<Entry>,
    waiting: seq<Entry>,
    place: map<nat, Place>,
    repeating: set<nat>,
    ran: seq<nat>,
    deletions: seq<nat>,
    barred: map<nat, nat>)

  // ---------- what always holds ----------

  type Heap = map<nat, Timer>
  type Places = map<nat, Place>

  /** Timer `a` is alive and is where `p` says. */
  predicate At(heap: Heap, place: Places, a: nat, p: Place) {
    a in heap && heap[a].sequence in place && place[heap[a].sequence] == p
  }

  /** Sequence numbers and addresses of live timers determine each other. */
  ghost predicate Alive(heap: Heap, place: Places, sumCreated: nat) {
    && (forall s: nat :: s in place <==> s < sumCreated)
    && (forall a :: a in heap ==> heap[a].sequence in place)
    && (forall a :: a in heap ==> !place[heap[a].sequence].Deleted? && place[heap[a].sequence].addr == a)
    && (forall s :: s in place && !place[s].Deleted? ==> place[s].addr in heap)
    && (forall s :: s in place && !place[s].Deleted? ==> heap[place[s].addr].sequence == s)
  }

  /**
   Each container holds exactly the timers whose place it is, under the expiry they have now;
   the timers in `loose` are on their way from one container to another.
   */
  ghost predicate Placed(heap: Heap, place: Places, pendingAdds: set<nat>, timers: seq<Entry>,
                         active: set<TimerId>, expired: seq<Entry>, loose: set<nat>)
  {
    && Sorted(timers) && Sorted(expired)
    && |timers| == |active|
    && (forall a :: a in pendingAdds <==> At(heap, place, a, Created(a)) && a !in loose)
    && (forall e :: e in timers <==>
          At(heap, place, e.addr, Queued(e.addr)) && heap[e.addr].expiration == e.when && e.addr !in loose)
    && (forall id :: id in active <==>
          At(heap, place, id.addr, Queued(id.addr)) && heap[id.addr].sequence == id.sequence && id.addr !in loose)
    && (forall e :: e in expired <==>
          At(heap, place, e.addr, InBatch(e.addr)) && heap[e.addr].expiration == e.when && e.addr !in loose)
  }

  /** Each timer is deleted once at most, and a cancelled one never runs again once barred. */
  ghost predicate Freed(place: Places, deletions: seq<nat>, barred: map<nat, nat>, ran: seq<nat>) {
    && Distinct(deletions)
    && (forall s :: s in deletions <==> s in place && place[s].Deleted?)
    && (forall s :: s in barred ==> s in place && place[s].Deleted?)
    && (forall s :: s in barred ==> barred[s] <= |ran| && s !in ran[barred[s]..])
  }

  /** A timer that does not repeat has run once at most, and not at all before its batch. */
  ghost predicate Ran(heap: Heap, place: Places, repeating: set<nat>, ran: seq<nat>) {
    && (forall s :: s in ran || s in repeating ==> s in place)
    && (forall a :: a in heap ==> (heap[a].Repeat() <==> heap[a].sequence in repeating))
    && (forall i, j :: 0 <= i < j < |ran| && ran[i] == ran[j] ==> ran[i] in repeating)
    && (forall a :: a in heap && !heap[a].Repeat() && !At(heap, place, a, InBatch(a)) ==> heap[a].sequence !in ran)
  }

  /** The callbacks still to run belong to timers of the batch, and none of them is a second run. */
  ghost predicate Awaited(heap: Heap, expired: seq<Entry>, waiting: seq<Entry>, ran: seq<nat>) {
    && Sorted(waiting)
    && (forall e :: e in waiting ==> e in expired && e.addr in heap)
    && (forall e :: e in waiting && !heap[e.addr].Repeat() ==> heap[e.addr].sequence !in ran)
  }

  /** The timerfd fires by `expiry`, or the shortest delay after it was set if that is later. */
  predicate Within(alarm: Alarm, expiry: int) {
    alarm.Fired? || (alarm.Armed? && alarm.deadline <= Max(expiry, alarm.at + MIN_DELAY))
  }

  /**
   Between loop steps the timerfd covers the earliest timer.  During a batch it need not, except
   for expiries that `reset` takes to be invalid and for which it will not set the timerfd.
   */
  predicate InTime(q: Queue) {
    q.timers != [] && (q.batching ==> q.timers[0].when <= 0) ==> Within(q.alarm, q.timers[0].when)
  }

  ghost predicate InPlace(q: Queue) {
    Placed(q.heap, q.place, q.pendingAdds, q.timers, q.active, q.expired, {})
  }

  ghost predicate Coherent(q: Queue) {
    && Alive(q.heap, q.place, q.sumCreated)
    && InPlace(q)
    && Freed(q.place, q.deletions, q.barred, q.ran)
    && Ran(q.heap, q.place, q.repeating, q.ran)
    && Awaited(q.heap, q.expired, q.waiting, q.ran)
  }

  ghost predicate Idle(q: Queue) {
    !q.batching && !q.callingExpired && q.expired == [] && q.waiting == []
  }

  const Empty := Queue(map[], 0, {}, [], {}, false, {}, Disarmed, false, [], [], map[], {}, [], [], map[])

  // ---------- the operations ----------

  /** The first half of `addTimer`, in any thread: allocate, and leave the rest to the loop. */
  function Create(q: Queue, when: int, interval: real, hint: nat): Queue {
    var a := Allocate(hint, q.heap.Keys);
    var s := q.sumCreated;
    q.(heap := q.heap[a := Timer(s, when, interval)], sumCreated := s + 1, pendingAdds := q.pendingAdds + {a},
       place := q.place[s := Created(a)], repeating := if interval > 0.0 then q.repeating + {s} else q.repeating)
  }

  /** `insert`: into both indexes. */
  function Enter(q: Queue, a: nat): Queue
    requires a in q.heap && Sorted(q.timers) && Entry(q.heap[a].expiration, a) !in q.timers
  {
    var t := q.heap[a];
    q.(timers := Insert(q.timers, Entry(t.expiration, a)), active := q.active + {TimerId(a, t.sequence)},
       place := q.place[t.sequence := Queued(a)])
  }

  /** `delete`. */
  function Free(q: Queue, a: nat): Queue
    requires a in q.heap
  {
    var s := q.heap[a].sequence;
    q.(heap := q.heap - {a}, place := q.place[s := Deleted], deletions := q.deletions + [s])
  }

  /** A new timer at `when` becomes the earliest. */
  predicate EarliestChanges(q: Queue, when: int) {
    q.timers == [] || when < q.timers[0].when
  }

  function AddInLoop(q: Queue, a: nat, clock: int): Queue
    requires a in q.pendingAdds && InPlace(q)
  {
    var when := q.heap[a].expiration;
    var q1 := Enter(q.(pendingAdds := q.pendingAdds - {a}), a);
    if EarliestChanges(q, when) then q1.(alarm := SetTime(HowMuchTimeFromNow(when, clock), clock)) else q1
  }

  function Unlink(q: Queue, id: TimerId): Queue
    requires InPlace(q) && id in q.active
  {
    var q1 := q.(timers := Erase(q.timers, Entry(q.heap[id.addr].expiration, id.addr)), active := q.active - {id});
    Free(q1, id.addr).(barred := q.barred[id.sequence := |q.ran|])
  }

  function CancelInLoop(q: Queue, id: TimerId): Queue
    requires InPlace(q)
  {
    if id in q.active then Unlink(q, id)
    else if q.callingExpired then q.(canceling := q.canceling + {id})
    else q
  }

  /** `getExpired` for one timer: out of both indexes and into the batch. */
  function Take(q: Queue): Queue
    requires q.timers != [] && q.timers[0].addr in q.heap
  {
    var e := q.timers[0];
    var s := q.heap[e.addr].sequence;
    q.(timers := q.timers[1..], active := q.active - {TimerId(e.addr, s)}, place := q.place[s := InBatch(e.addr)],
       expired := q.expired + [e], waiting := q.waiting + [e])
  }

  function RunNext(q: Queue): Queue
    requires q.waiting != [] && q.waiting[0].addr in q.heap
  {
    q.(ran := q.ran + [q.heap[q.waiting[0].addr].sequence], waiting := q.waiting[1..])
  }

  /** `reset` for one timer of the batch. */
  function Settle(q: Queue, now: int): Queue
    requires q.expired != [] && InPlace(q)
  {
    var a := q.expired[0].addr;
    assert q.expired[0] in q.expired;
    var t := q.heap[a];
    var q1 := q.(expired := q.expired[1..]);
    if t.Repeat() && TimerId(a, t.sequence) !in q.canceling then
      assert forall e :: e in q.timers ==> e.addr != a;
      Enter(q1.(heap := q.heap[a := t.Restart(now)]), a)
    else
      Free(q1, a).(barred :=
        if TimerId(a, t.sequence) in q.canceling then q.barred[t.sequence := |q.ran|] else q.barred)
  }

  /** The end of `reset`: arm for the earliest timer, if there is one and its expiry is valid. */
  function EndBatch(q: Queue, clock: int): Queue {
    var q1 := q.(batching := false);
    if q.timers != [] && 0 < q.timers[0].when
    then q1.(alarm := SetTime(HowMuchTimeFromNow(q.timers[0].when, clock), clock))
    else q1
  }

  // ---------- every operation keeps what always holds ----------

  lemma CreateKeeps(q: Queue, when: int, interval: real, hint: nat)
    requires Coherent(q)
    ensures Coherent(Create(q, when, interval, hint))
  {
    hide Alive, Placed, Freed, Ran, Awaited;
    var a := Allocate(hint, q.heap.Keys);
    CreatePlaced(q, a, Create(q, when, interval, hint).heap[a]);
    CreateHistory(q, when, interval, hint);
  }

  lemma CreateHistory(q: Queue, when: int, interval: real, hint: nat)
    requires Alive(q.heap, q.place, q.sumCreated)
    requires Freed(q.place, q.deletions, q.barred, q.ran) && Ran(q.heap, q.place, q.repeating, q.ran)
    requires Awaited(q.heap, q.expired, q.waiting, q.ran)
    ensures
      var q1 := Create(q, when, interval, hint);
      && Freed(q1.place, q1.deletions, q1.barred, q1.ran) && Ran(q1.heap, q1.place, q1.repeating, q1.ran)
      && Awaited(q1.heap, q1.expired, q1.waiting, q1.ran)
  {
    var q1 := Create(q, when, interval, hint);
    var a := Allocate(hint, q.heap.Keys);
    assert forall b :: b != a ==> (At(q1.heap, q1.place, b, InBatch(b)) <==> At(q.heap, q.place, b, InBatch(b)));
  }

  lemma CreatePlaced(q: Queue, a: nat, t: Timer)
    requires Alive(q.heap, q.place, q.sumCreated) && InPlace(q) && a !in q.heap && t.sequence == q.sumCreated
    ensures
      var heap, place := q.heap[a := t], q.place[t.sequence := Created(a)];
      && Alive(heap, place, q.sumCreated + 1)
      && Placed(heap, place, q.pendingAdds + {a}, q.timers, q.active, q.expired, {})
  {
    var heap, place := q.heap[a := t], q.place[t.sequence := Created(a)];
    assert forall b, p :: b != a ==> (At(heap, place, b, p) <==> At(q.heap, q.place, b, p));
    assert forall p :: At(heap, place, a, p) <==> p == Created(a);
  }

  /** `Enter` for a timer that is in no container. */
  lemma EnterPlaced(q: Queue, a: nat)
    requires Alive(q.heap, q.place, q.sumCreated) && a in q.heap
    requires Placed(q.heap, q.place, q.pendingAdds, q.timers, q.active, q.expired, {a})
    ensures Alive(Enter(q, a).heap, Enter(q, a).place, q.sumCreated) && InPlace(Enter(q, a))
  {
    var q1 := Enter(q, a);
    assert forall b, p :: b != a ==> (At(q1.heap, q1.place, b, p) <==> At(q.heap, q.place, b, p));
    assert forall p :: At(q1.heap, q1.place, a, p) <==> p == Queued(a);
  }

  lemma EnterKeeps(q: Queue, a: nat)
    requires a in q.heap && Sorted(q.timers) && Entry(q.heap[a].expiration, a) !in q.timers
    requires Alive(q.heap, q.place, q.sumCreated)
    requires Freed(q.place, q.deletions, q.barred, q.ran) && Ran(q.heap, q.place, q.repeating, q.ran)
    requires q.heap[a].Repeat() || q.heap[a].sequence !in q.ran
    ensures
      var place := Enter(q, a).place;
      Freed(place, q.deletions, q.barred, q.ran) && Ran(q.heap, place, q.repeating, q.ran)
  {
  }

  lemma FreePlaced(q: Queue, a: nat)
    requires Alive(q.heap, q.place, q.sumCreated) && a in q.heap
    requires Placed(q.heap, q.place, q.pendingAdds, q.timers, q.active, q.expired, {a})
    ensures Alive(Free(q, a).heap, Free(q, a).place, q.sumCreated) && InPlace(Free(q, a))
  {
    var q1 := Free(q, a);
    assert forall b, p :: b != a ==> (At(q1.heap, q1.place, b, p) <==> At(q.heap, q.place, b, p));
  }

  lemma FreeKeeps(q: Queue, a: nat)
    requires Alive(q.heap, q.place, q.sumCreated) && a in q.heap
    requires Freed(q.place, q.deletions, q.barred, q.ran) && Ran(q.heap, q.place, q.repeating, q.ran)
    ensures
      var q1 := Free(q, a);
      && Freed(q1.place, q1.deletions, q1.barred, q1.ran)
      && Freed(q1.place, q1.deletions, q1.barred[q.heap[a].sequence := |q.ran|], q1.ran)
      && Ran(q1.heap, q1.place, q1.repeating, q1.ran)
  {
    var q1 := Free(q, a);
    assert forall b :: b != a ==> (At(q1.heap, q1.place, b, InBatch(b)) <==> At(q.heap, q.place, b, InBatch(b)));
  }

  lemma AddLoose(q: Queue, a: nat)
    requires Alive(q.heap, q.place, q.sumCreated) && InPlace(q) && a in q.pendingAdds
    requires Ran(q.heap, q.place, q.repeating, q.ran)
    ensures a in q.heap && Entry(q.heap[a].expiration, a) !in q.timers
    ensures q.heap[a].Repeat() || q.heap[a].sequence !in q.ran
    ensures Placed(q.heap, q.place, q.pendingAdds - {a}, q.timers, q.active, q.expired, {a})
  {
  }

  lemma AddKeeps(q: Queue, a: nat, clock: int)
    requires Coherent(q) && a in q.pendingAdds
    ensures Coherent(AddInLoop(q, a, clock))
  {
    hide Placed, Freed, Ran, Awaited;
    var q0 := q.(pendingAdds := q.pendingAdds - {a});
    AddLoose(q, a);
    EnterPlaced(q0, a);
    EnterKeeps(q0, a);
  }

  lemma UnlinkLoose(q: Queue, id: TimerId)
    requires Alive(q.heap, q.place, q.sumCreated) && InPlace(q) && id in q.active
    ensures
      var timers := Erase(q.timers, Entry(q.heap[id.addr].expiration, id.addr));
      Placed(q.heap, q.place, q.pendingAdds, timers, q.active - {id}, q.expired, {id.addr})
    ensures forall e :: e in q.expired ==> e.addr != id.addr
  {
  }

  lemma CancelKeeps(q: Queue, id: TimerId)
    requires Coherent(q)
    ensures Coherent(CancelInLoop(q, id))
  {
    if id in q.active {
      var timers := Erase(q.timers, Entry(q.heap[id.addr].expiration, id.addr));
      var q0 := q.(timers := timers, active := q.active - {id});
      UnlinkLoose(q, id);
      FreePlaced(q0, id.addr);
      FreeKeeps(q0, id.addr);
    }
  }

  /** The batch so far lies before everything still queued. */
  ghost predicate Ahead(expired: seq<Entry>, timers: seq<Entry>) {
    forall i, j :: 0 <= i < |expired| && 0 <= j < |timers| ==> Before(expired[i], timers[j])
  }

  lemma TakeAlive(q: Queue)
    requires Alive(q.heap, q.place, q.sumCreated) && InPlace(q) && q.timers != []
    ensures At(q.heap, q.place, q.timers[0].addr, Queued(q.timers[0].addr))
    ensures Alive(Take(q).heap, Take(q).place, Take(q).sumCreated)
  {
  }

  lemma TakeSorted(q: Queue)
    requires q.timers != [] && Sorted(q.timers) && Sorted(q.expired) && Ahead(q.expired, q.timers)
    requires q.timers[0].addr in q.heap
    ensures Sorted(Take(q).timers) && Sorted(Take(q).expired) && Ahead(Take(q).expired, Take(q).timers)
    ensures forall x :: x in Take(q).timers <==> x in q.timers && x != q.timers[0]
  {
  }

  lemma TakePlaced(q: Queue)
    requires Alive(q.heap, q.place, q.sumCreated) && InPlace(q) && q.timers != [] && Ahead(q.expired, q.timers)
    ensures q.timers[0].addr in q.heap && InPlace(Take(q))
  {
    TakeAlive(q);
    TakeSorted(q);
    var q1 := Take(q);
    var a := q.timers[0].addr;
    assert q.timers[0] in q.timers;
    assert forall b, p :: b != a ==> (At(q1.heap, q1.place, b, p) <==> At(q.heap, q.place, b, p));
    assert forall p :: At(q1.heap, q1.place, a, p) <==> p == InBatch(a);
  }

  lemma TakeKeeps(q: Queue)
    requires Coherent(q) && q.timers != [] && Ahead(q.expired, q.timers) && q.waiting == q.expired
    ensures Coherent(Take(q)) && Ahead(Take(q).expired, Take(q).timers)
  {
    var q1 := Take(q);
    var a := q.timers[0].addr;
    assert q.timers[0] in q.timers;
    TakeAlive(q);
    TakeSorted(q);
    TakePlaced(q);
    assert forall b :: b != a ==> (At(q1.heap, q1.place, b, InBatch(b)) <==> At(q.heap, q.place, b, InBatch(b)));
    assert Ran(q1.heap, q1.place, q1.repeating, q1.ran);
  }

  lemma RunKeeps(q: Queue)
    requires Coherent(q) && q.waiting != []
    ensures q.waiting[0].addr in q.heap && Coherent(RunNext(q))
  {
    assert q.waiting[0] in q.waiting;
  }

  lemma SettleLoose(q: Queue, t: Timer)
    requires Alive(q.heap, q.place, q.sumCreated) && InPlace(q) && q.expired != []
    requires q.expired[0].addr in q.heap ==> t.sequence == q.heap[q.expired[0].addr].sequence
    ensures
      var a := q.expired[0].addr;
      && At(q.heap, q.place, a, InBatch(a))
      && Sorted(q.timers) && (forall e :: e in q.timers ==> e.addr != a)
      && Alive(q.heap[a := t], q.place, q.sumCreated)
      && Placed(q.heap[a := t], q.place, q.pendingAdds, q.timers, q.active, q.expired[1..], {a})
  {
    assert q.expired[0] in q.expired;
  }

  /** The timer that `reset` is about to put back, with its next expiry. */
  lemma RestartKeeps(q: Queue, a: nat, now: int)
    requires Alive(q.heap, q.place, q.sumCreated) && Ran(q.heap, q.place, q.repeating, q.ran) && a in q.heap
    ensures Ran(q.heap[a := q.heap[a].Restart(now)], q.place, q.repeating, q.ran)
  {
    var heap := q.heap[a := q.heap[a].Restart(now)];
    assert forall b :: At(heap, q.place, b, InBatch(b)) <==> At(q.heap, q.place, b, InBatch(b));
  }

  lemma SettleKeeps(q: Queue, now: int)
    requires Coherent(q) && q.expired != [] && q.waiting == []
    ensures Coherent(Settle(q, now))
  {
    hide Alive, Placed, Freed, Ran;
    var a := q.expired[0].addr;
    HeadIsAlive(q);
    var t := q.heap[a];
    var q1 := q.(expired := q.expired[1..]);
    if t.Repeat() && TimerId(a, t.sequence) !in q.canceling {
      var heap := q.heap[a := t.Restart(now)];
      SettleLoose(q, t.Restart(now));
      RestartKeeps(q, a, now);
      EnterPlaced(q1.(heap := heap), a);
      EnterKeeps(q1.(heap := heap), a);
    } else {
      SettleLoose(q, t);
      assert q.heap[a := t] == q.heap;
      FreePlaced(q1, a);
      FreeKeeps(q1, a);
    }
  }

  lemma HeadIsAlive(q: Queue)
    requires InPlace(q) && q.expired != []
    ensures q.expired[0].addr in q.heap
  {
    assert q.expired[0] in q.expired;
  }

  // ---------- a whole batch ----------

  /** One call that a callback makes. */
  function Act(q: Queue, x: Action): (r: Queue)
    requires Coherent(q)
    ensures Coherent(r)
    ensures r.expired == q.expired && r.waiting == q.waiting && r.ran == q.ran
    ensures r.batching == q.batching && r.callingExpired == q.callingExpired
  {
    match x
    case AddElsewhere(when, interval, hint) =>
      CreateKeeps(q, when, interval, hint);
      Create(q, when, interval, hint)
    case Add(when, interval, hint, clock) =>
      CreateKeeps(q, when, interval, hint);
      var q1 := Create(q, when, interval, hint);
      var a := Allocate(hint, q.heap.Keys);
      AddKeeps(q1, a, clock);
      AddInLoop(q1, a, clock)
    case Cancel(id) =>
      CancelKeeps(q, id);
      CancelInLoop(q, id)
  }

  function Perform(q: Queue, xs: seq<Action>): (r: Queue)
    requires Coherent(q)
    ensures Coherent(r)
    ensures r.expired == q.expired && r.waiting == q.waiting && r.ran == q.ran
    ensures r.batching == q.batching && r.callingExpired == q.callingExpired
    decreases |xs|
  {
    if xs == [] then q else Perform(Act(q, xs[0]), xs[1..])
  }

  function First(callbacks: seq<seq<Action>>): seq<Action> {
    if callbacks == [] then [] else callbacks[0]
  }

  function Rest(callbacks: seq<seq<Action>>): seq<seq<Action>> {
    if callbacks == [] then [] else callbacks[1..]
  }

  /** Run the callbacks of the batch, each followed by what it does to the queue. */
  function RunAll(q: Queue, callbacks: seq<seq<Action>>): (r: Queue)
    requires Coherent(q)
    ensures Coherent(r) && r.waiting == [] && r.expired == q.expired
    ensures r.batching == q.batching && r.callingExpired == q.callingExpired
    decreases |q.waiting|
  {
    if q.waiting == [] then q
    else
      RunKeeps(q);
      RunAll(Perform(RunNext(q), First(callbacks)), Rest(callbacks))
  }

  /**
   The queue in the middle of a batch: `n` callbacks have done all their calls, and the next one, if
   there is one, its first `k`.
   */
  function Midway(q: Queue, callbacks: seq<seq<Action>>, n: nat, k: nat): (r: Queue)
    requires Coherent(q)
    ensures Coherent(r)
    decreases |q.waiting|
  {
    if q.waiting == [] then q
    else
      RunKeeps(q);
      var calls := First(callbacks);
      if n == 0 then Perform(RunNext(q), if k < |calls| then calls[..k] else calls)
      else Midway(Perform(RunNext(q), calls), Rest(callbacks), n - 1, k)
  }

  function SettleAll(q: Queue, now: int): (r: Queue)
    requires Coherent(q) && q.waiting == []
    ensures Coherent(r) && r.waiting == [] && r.expired == []
    ensures r.ran == q.ran && r.batching == q.batching && r.callingExpired == q.callingExpired
    decreases |q.expired|
  {
    hide Alive, Placed, Freed, Ran, Awaited;
    if q.expired == [] then q
    else
      SettleKeeps(q, now);
      SettleAll(Settle(q, now), now)
  }

  /** Take out the first `n` timers. */
  function TakeFirst(q: Queue, n: nat): (r: Queue)
    requires n <= |q.timers| && forall e :: e in q.timers ==> e.addr in q.heap
    ensures r.timers == q.timers[n..]
    ensures r.expired == q.expired + q.timers[..n] && r.waiting == q.waiting + q.timers[..n]
    ensures r.heap == q.heap && r.ran == q.ran
    decreases n
  {
    if n == 0 then q else Take(TakeFirst(q, n - 1))
  }

  lemma ListIsSorted(q: Queue)
    requires Coherent(q)
    ensures Sorted(q.timers) && forall e :: e in q.timers ==> e.addr in q.heap
  {
  }

  lemma TakeFirstKeeps(q: Queue, n: nat)
    requires Coherent(q) && q.expired == [] && q.waiting == [] && n <= |q.timers|
    ensures forall e :: e in q.timers ==> e.addr in q.heap
    ensures Coherent(TakeFirst(q, n)) && Ahead(q.timers[..n], q.timers[n..])
  {
    hide Alive, Placed, Freed, Ran, Awaited;
    ListIsSorted(q);
    if n > 0 {
      TakeFirstKeeps(q, n - 1);
      TakeKeeps(TakeFirst(q, n - 1));
    }
  }

  /** `handleRead` up to the first callback. */
  function BeginBatch(q: Queue, now: int): (r: Queue)
    requires Coherent(q) && Idle(q)
    ensures Coherent(r) && r.callingExpired && r.expired == r.waiting == Due(q.timers, now)
    ensures r.heap == q.heap && r.ran == q.ran && r.canceling == {} && r.timers == q.timers[|r.expired|..]
  {
    var n := FirstAfter(q.timers, now);
    TakeFirstKeeps(q, n);
    hide Alive, Placed, Freed, Ran, Awaited;
    TakeFirst(q, n).(
      alarm := if q.alarm.Fired? then Disarmed else q.alarm,
      batching := true, callingExpired := true, canceling := {})
  }

  function HandleRead(q: Queue, now: int, callbacks: seq<seq<Action>>, clock: int): (r: Queue)
    requires Coherent(q) && Idle(q)
    ensures Coherent(r) && Idle(r)
  {
    hide Alive, Placed, Freed, Ran, Awaited;
    var q1 := RunAll(BeginBatch(q, now), callbacks).(callingExpired := false);
    EndBatch(SettleAll(q1, now), clock)
  }
}
