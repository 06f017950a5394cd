/**
 The timer queue as the object it is: fields updated in place, loops over the expired batch.
 Each method is tied to the operation on `Queue` that it carries out; `model` is the state the
 object stands for, and its history.  The asserts of the C++ code are asserts here.
 */
module TimerQueueObject {
  import opened OrderedSet
  import opened TimerQueues
  import opened TimerArming
  import opened TimerOutcomes
  import opened TimerRuns
  import opened TimerDeadlines

  class TimerQueue {
    var heap: Heap
    var sumCreated: nat
    var pendingAdds: set<nat>  // timers whose addTimerInLoop waits in the loop's functor queue
    var timers: seq<Entry>
    var active: set<TimerId>
    var callingExpired: bool
    var canceling: set<TimerId>
    var alarm: Alarm
    ghost var model: Queue

    ghost predicate Represents()
      reads this
    {
      && model.heap == heap && model.sumCreated == sumCreated && model.pendingAdds == pendingAdds
      && model.timers == timers && model.active == active
      && model.callingExpired == callingExpired && model.canceling == canceling && model.alarm == alarm
    }

    ghost predicate Valid()
      reads this
    {
      Represents() && Coherent(model)
    }

    constructor ()
      ensures Valid() && model == Empty
    {
      heap, sumCreated, pendingAdds := map[], 0, {};
      timers, active, callingExpired, canceling, alarm := [], {}, false, {}, Disarmed;
      model := Empty;
      new;
      EmptyIsFine();
    }

    method NewTimer(when: int, interval: real, hint: nat) returns (id: TimerId)
      requires Valid()
      modifies this
      ensures Valid() && model == Create(old(model), when, interval, hint)
      ensures id.addr in heap && heap[id.addr] == Timer(id.sequence, when, interval) && id.addr in pendingAdds
      ensures id.addr == Allocate(hint, old(heap).Keys)
    {
      CreateKeeps(model, when, interval, hint);
      var a := Allocate(hint, heap.Keys);
      id := TimerId(a, sumCreated);
      heap := heap[a := Timer(sumCreated, when, interval)];
      sumCreated := sumCreated + 1;
      pendingAdds := pendingAdds + {a};
      model := Create(model, when, interval, hint);
    }

    method ResetTimerfd(expiration: int, clock: int)
      modifies this`alarm
      ensures alarm == Armed(Max(expiration, clock + MIN_DELAY), clock)
    {
      ArmedFor(expiration, clock);
      alarm := SetTime(HowMuchTimeFromNow(expiration, clock), clock);
    }

    /** `insert`, for a timer that is in neither index. */
    method InsertTimer(a: nat) returns (earliestChanged: bool)
      requires a in heap && Sorted(timers) && |timers| == |active|
      requires Entry(heap[a].expiration, a) !in timers && TimerId(a, heap[a].sequence) !in active
      modifies this`timers, this`active
      ensures timers == Insert(old(timers), Entry(heap[a].expiration, a))
      ensures active == old(active) + {TimerId(a, heap[a].sequence)}
      ensures earliestChanged <==> old(timers) == [] || heap[a].expiration < old(timers)[0].when
      ensures |timers| == |active|
    {
      assert |timers| == |active|;
      earliestChanged := false;
      var when := heap[a].expiration;
      if timers == [] || when < timers[0].when {
        earliestChanged := true;
      }
      timers := Insert(timers, Entry(when, a));
      active := active + {TimerId(a, heap[a].sequence)};
      assert |timers| == |active|;
    }

    method AddTimerInLoop(a: nat, clock: int)
      requires Valid() && a in pendingAdds
      modifies this
      ensures Valid() && model == AddInLoop(old(model), a, clock)
    {
      hide Alive, Placed, Freed, Ran, Awaited, AddInLoop;
      AddFields(model, a, clock);
      pendingAdds := pendingAdds - {a};
      var earliestChanged := InsertTimer(a);
      if earliestChanged {
        ResetTimerfd(heap[a].expiration, clock);
      }
      model := AddInLoop(model, a, clock);
    }

    method CancelTimerInLoop(id: TimerId)
      requires Valid()
      modifies this
      ensures Valid() && model == CancelInLoop(old(model), id)
    {
      hide Alive, Placed, Freed, Ran, Awaited, CancelInLoop;
      CancelFields(model, id);
      assert |timers| == |active|;
      if id in active {
        var entry := Entry(heap[id.addr].expiration, id.addr);
        assert entry in timers;  // erase returns 1
        timers := Erase(timers, entry);
        heap := heap - {id.addr};
        active := active - {id};
      } else if callingExpired {
        canceling := canceling + {id};
      }
      model := CancelInLoop(model, id);
      assert |timers| == |active|;
    }

    /** The part of `getExpired` that takes the expired timers out of the second index. */
    method EraseActive(expired: seq<Entry>)
      requires Coherent(model) && Idle(model) && model.heap == heap && active == model.active
      requires expired <= model.timers
      modifies this`active
      ensures forall e :: e in model.timers ==> e.addr in heap
      ensures active == TakeFirst(model, |expired|).active
    {
      hide Coherent, Take;
      IndexesAgree(model);
      for i := 0 to |expired|
        invariant active == TakeFirst(model, i).active
      {
        var id := TimerId(expired[i].addr, heap[expired[i].addr].sequence);
        TakeFirstFields(model, i);
        assert id in active;  // erase returns 1
        active := active - {id};
      }
    }

    method GetExpired(now: int) returns (expired: seq<Entry>)
      requires Coherent(model) && Idle(model)
      requires model.heap == heap && timers == model.timers && active == model.active
      modifies this`timers, this`active
      ensures Sorted(old(timers)) && expired == Due(old(timers), now)
      ensures forall e :: e in old(timers) ==> e.addr in heap
      ensures timers == TakeFirst(model, |expired|).timers && active == TakeFirst(model, |expired|).active
    {
      hide Alive, Placed, Freed, Ran, Awaited, Take;
      IndexesAgree(model);
      assert |timers| == |active|;
      var end := FirstAfter(timers, now);
      assert end == |timers| || now < timers[end].when;
      expired := timers[..end];
      timers := timers[end..];
      EraseActive(expired);
      TakeFirstKeeps(model, end);
      IndexesAgree(TakeFirst(model, end));
      assert |timers| == |active|;
    }

    /** One callback: what it calls, and what other threads do meanwhile. */
    method RunCallback(actions: seq<Action>)
      requires Valid()
      modifies this
      ensures Valid() && model == Perform(old(model), actions)
    {
      hide Coherent;
      for j := 0 to |actions|
        invariant Valid() && Perform(model, actions[j..]) == Perform(old(model), actions)
      {
        ghost var before := model;
        match actions[j]
        case AddElsewhere(when, interval, hint) =>
          var _ := NewTimer(when, interval, hint);
        case Add(when, interval, hint, clock) =>
          var id := NewTimer(when, interval, hint);
          AddTimerInLoop(id.addr, clock);
        case Cancel(id) =>
          CancelTimerInLoop(id);
        assert model == Act(before, actions[j]);
        assert actions[j..][1..] == actions[j + 1..];
      }
    }

    /** The loop of `reset`, for one timer. */
    method SettleTimer(a: nat, now: int)
      requires Valid() && model.waiting == [] && model.expired != [] && a == model.expired[0].addr
      modifies this
      ensures Valid() && model == Settle(old(model), now)
      ensures model.waiting == [] && model.expired == old(model).expired[1..] && alarm == old(alarm)
    {
      hide Alive, Placed, Freed, Ran, Awaited, Settle;
      SettleFields(model, now);
      var id := TimerId(a, heap[a].sequence);
      if heap[a].Repeat() && id !in canceling {
        heap := heap[a := heap[a].Restart(now)];
        var _ := InsertTimer(a);
      } else {
        heap := heap - {a};
      }
      model := Settle(model, now);
    }

    method Reset(expired: seq<Entry>, now: int, clock: int)
      requires Valid() && model.waiting == [] && model.expired == expired
      modifies this
      ensures Valid() && model == EndBatch(SettleAll(old(model), now), clock)
      ensures timers != [] && 0 < timers[0].when ==> alarm == Armed(Max(timers[0].when, clock + MIN_DELAY), clock)
      ensures timers == [] || timers[0].when <= 0 ==> alarm == old(alarm)
    {
      hide Alive, Placed, Freed, Ran, Awaited, Settle;
      for i := 0 to |expired|
        invariant Valid() && model.waiting == [] && model.expired == expired[i..]
        invariant SettleAll(model, now) == SettleAll(old(model), now) && alarm == old(alarm)
      {
        SettleTimer(expired[i].addr, now);
      }
      var nextExpire := 0;
      if timers != [] {
        nextExpire := timers[0].when;
      }
      if 0 < nextExpire {
        ResetTimerfd(nextExpire, clock);
      }
      EndArms(model, clock);
      model := EndBatch(model, clock);
    }

    /** The loop of `handleRead` over the expired timers. */
    method RunCallbacks(expired: seq<Entry>, callbacks: seq<seq<Action>>)
      requires Valid() && model.waiting == expired
      modifies this
      ensures Valid() && model == RunAll(old(model), callbacks)
    {
      hide Coherent, RunNext;
      var rest := callbacks;
      for i := 0 to |expired|
        invariant Valid() && model.waiting == expired[i..]
        invariant RunAll(model, rest) == RunAll(old(model), callbacks)
      {
        RunFields(model);
        assert expired[i].addr in heap;  // the callback's timer is alive
        model := RunNext(model);
        RunCallback(First(rest));
        rest := Rest(rest);
      }
    }

    method HandleTimerfd(now: int, callbacks: seq<seq<Action>>, clock: int)
      requires Valid() && Idle(model)
      modifies this
      ensures Valid() && Idle(model) && model == HandleRead(old(model), now, callbacks, clock)
      ensures timers != [] && 0 < timers[0].when ==> alarm == Armed(Max(timers[0].when, clock + MIN_DELAY), clock)
    {
      hide Alive, Placed, Freed, Ran, Awaited, TakeFirst, BeginBatch, RunAll, SettleAll;
      BeginFields(model, now);
      if alarm.Fired? {
        alarm := Disarmed;
      }
      var expired := GetExpired(now);
      callingExpired := true;
      canceling := {};
      model := BeginBatch(model, now);
      RunCallbacks(expired, callbacks);
      callingExpired := false;
      model := model.(callingExpired := false);
      Reset(expired, now, clock);
    }
  }

  // ---------- the operations, field by field ----------

  lemma AddFields(q: Queue, a: nat, clock: int)
    requires Coherent(q) && a in q.pendingAdds
    ensures a in q.heap && Sorted(q.timers) && |q.timers| == |q.active|
    ensures Entry(q.heap[a].expiration, a) !in q.timers && TimerId(a, q.heap[a].sequence) !in q.active
    ensures
      var r, t := AddInLoop(q, a, clock), q.heap[a];
      && Coherent(r)
      && r.heap == q.heap && r.sumCreated == q.sumCreated && r.pendingAdds == q.pendingAdds - {a}
      && r.timers == Insert(q.timers, Entry(t.expiration, a)) && r.active == q.active + {TimerId(a, t.sequence)}
      && r.callingExpired == q.callingExpired && r.canceling == q.canceling
      && r.alarm ==
         (if EarliestChanges(q, t.expiration) then SetTime(HowMuchTimeFromNow(t.expiration, clock), clock) else q.alarm)
  {
    AddKeeps(q, a, clock);
    AddLoose(q, a);
  }

  lemma CancelFields(q: Queue, id: TimerId)
    requires Coherent(q)
    ensures Sorted(q.timers) && |q.timers| == |q.active|
    ensures id in q.active ==> id.addr in q.heap && Entry(q.heap[id.addr].expiration, id.addr) in q.timers
    ensures
      var r := CancelInLoop(q, id);
      && Coherent(r) && |r.timers| == |r.active|
      && r.sumCreated == q.sumCreated && r.pendingAdds == q.pendingAdds
      && r.heap == (if id in q.active then q.heap - {id.addr} else q.heap)
      && r.timers ==
         (if id in q.active then Erase(q.timers, Entry(q.heap[id.addr].expiration, id.addr)) else q.timers)
      && r.active == (if id in q.active then q.active - {id} else q.active)
      && r.callingExpired == q.callingExpired && r.alarm == q.alarm
      && r.canceling == (if id !in q.active && q.callingExpired then q.canceling + {id} else q.canceling)
  {
    CancelKeeps(q, id);
    IndexesAgree(CancelInLoop(q, id));
  }

  lemma TakeFirstFields(q: Queue, n: nat)
    requires Coherent(q) && Idle(q) && n < |q.timers|
    ensures forall e :: e in q.timers ==> e.addr in q.heap
    ensures
      var id := TimerId(q.timers[n].addr, q.heap[q.timers[n].addr].sequence);
      id in TakeFirst(q, n).active && TakeFirst(q, n + 1).active == TakeFirst(q, n).active - {id}
  {
    hide Alive, Placed, Freed, Ran, Awaited;
    TakeFirstKeeps(q, n);
    var r := TakeFirst(q, n);
    assert r.timers[0] in r.timers;
    ListedIsQueued(r, r.timers[0]);
    IndexesAgree(r);
  }

  lemma RunFields(q: Queue)
    requires Coherent(q) && q.waiting != []
    ensures q.waiting[0].addr in q.heap && Coherent(RunNext(q))
    ensures RunNext(q).(ran := q.ran, waiting := q.waiting) == q && RunNext(q).waiting == q.waiting[1..]
  {
    RunKeeps(q);
  }

  lemma SettleFields(q: Queue, now: int)
    requires Coherent(q) && q.expired != [] && q.waiting == []
    ensures Sorted(q.timers) && |q.timers| == |q.active|
    ensures
      var r, a := Settle(q, now), q.expired[0].addr;
      && Coherent(r) && r.waiting == [] && r.expired == q.expired[1..] && a in q.heap
      && r.sumCreated == q.sumCreated && r.pendingAdds == q.pendingAdds
      && r.callingExpired == q.callingExpired && r.canceling == q.canceling && r.alarm == q.alarm
      && var t, t' := q.heap[a], q.heap[a].Restart(now);
      if t.Repeat() && TimerId(a, t.sequence) !in q.canceling then
        && Entry(t'.expiration, a) !in q.timers && TimerId(a, t.sequence) !in q.active
        && r.heap == q.heap[a := t']
        && r.timers == Insert(q.timers, Entry(t'.expiration, a)) && r.active == q.active + {TimerId(a, t.sequence)}
      else
        r.heap == q.heap - {a} && r.timers == q.timers && r.active == q.active
  {
    hide Alive, Placed, Freed, Ran, Awaited;
    IndexesAgree(q);
    SettleKeeps(q, now);
    HeadIsAlive(q);
    SettleLoose(q, q.heap[q.expired[0].addr]);
    NotListed(q, q.expired[0]);
  }

  lemma NotListed(q: Queue, e: Entry)
    requires Coherent(q) && e in q.expired
    ensures forall id :: id in q.active ==> id.addr != e.addr
  {
  }

  lemma BeginFields(q: Queue, now: int)
    requires Coherent(q) && Idle(q)
    ensures Sorted(q.timers) && forall e :: e in q.timers ==> e.addr in q.heap
    ensures
      var r, n := BeginBatch(q, now), |Due(q.timers, now)|;
      && r.heap == q.heap && r.sumCreated == q.sumCreated && r.pendingAdds == q.pendingAdds
      && r.timers == TakeFirst(q, n).timers && r.active == TakeFirst(q, n).active
      && r.callingExpired && r.batching && r.canceling == {}
      && r.alarm == (if q.alarm.Fired? then Disarmed else q.alarm)
  {
    hide Alive, Placed, Freed, Ran, Awaited;
    IndexesAgree(q);
    TakeFirstKeepsRest(q, FirstAfter(q.timers, now));
  }

  lemma TakeFirstKeepsRest(q: Queue, n: nat)
    requires n <= |q.timers| && forall e :: e in q.timers ==> e.addr in q.heap
    ensures TakeFirst(q, n).sumCreated == q.sumCreated && TakeFirst(q, n).pendingAdds == q.pendingAdds
  {
  }
}
