/**
 The way of an order from the queue into the tables: consumers take entries from Redis, place them in
 MySQL and acknowledge them, and may stop between any two of these.  Both models run side by side.
 */
module OrderPipeline {
  import opened Basics
  import opened OrderTables
  import Queue = OrderQueues
  import Shop = OrderInvariants
  import OrderRuns

  /** Where a consumer is with a message: it has it, or it also knows that its order exists. */
  datatype Consumer = Holding(m: Queue.Message) | Sure(m: Queue.Message)

  datatype Pipeline = Pipeline(redis: Queue.Redis, db: Tables, consumers: map<nat, Consumer>)

  const START := Pipeline(Queue.EMPTY, NoTables, map[])

  ghost predicate Ordered(db: Tables, request: string) {
    exists r :: 0 <= r < |db.reservations| && db.reservations[r].requestId == request
  }

  datatype Step =
    | Enqueued(ticket: nat, quantity: int, user: nat, request: string)
    | StockSet(ticket: nat, seats: nat, onlyNew: bool)
    | StockReturned(ticket: nat, quantity: int)
    | InShop(step: Shop.Step)  // any transaction of the service, by anyone
    | Consumed(c: nat, idle: Option<nat>)
    | LookedUp(c: nat)
    | Ordering(c: nat, user: nat, ticket: nat, quantity: int, seatIds: seq<nat>, now: int, told: bool)
    | Acknowledged(c: nat)
    | FailedForGood(c: nat, ticket: nat, quantity: int)
    | Left(c: nat)  // the consumer stops, or its process dies

  /** `findByRequestId`, before the transaction and after it has failed. */
  ghost function LookUp(p: Pipeline, c: nat): Pipeline {
    if c in p.consumers && Ordered(p.db, p.consumers[c].m.request)
    then p.(consumers := p.consumers[c := Sure(p.consumers[c].m)])
    else p
  }

  /** The transaction takes effect; a consumer that is not told so by the COMMIT does not know. */
  ghost function Order(
      p: Pipeline, c: nat, user: nat, ticket: nat, quantity: int, seatIds: seq<nat>, now: int, told: bool): Pipeline
    requires Shop.Consistent(p.db)
  {
    if c in p.consumers && ValidOrder(quantity, seatIds)
      && CanPlace(p.db, ticket, quantity, p.consumers[c].m.request, seatIds)
    then
      var m := p.consumers[c].m;
      p.(db := Place(p.db, user, ticket, quantity, m.request, seatIds, now),
         consumers := if told then p.consumers[c := Sure(m)] else p.consumers)
    else p
  }

  ghost function Consume(p: Pipeline, c: nat, idle: Option<nat>): Pipeline {
    var (redis, m) := Queue.Deliver(p.redis, idle);
    p.(redis := redis, consumers := if m.Some? then p.consumers[c := Holding(m.value)] else p.consumers)
  }

  ghost function Next(p: Pipeline, s: Step): Pipeline
    requires Shop.Consistent(p.db)
  {
    match s
    case Enqueued(ticket, q, user, request) => p.(redis := Queue.Enqueue(p.redis, ticket, q, user, request).0)
    case StockSet(ticket, seats, onlyNew) =>
      p.(redis := if onlyNew then Queue.InitializeStock(p.redis, ticket, seats) else Queue.Set(p.redis, ticket, seats))
    case StockReturned(ticket, q) => p.(redis := Queue.Incr(p.redis, ticket, q))
    case InShop(step) => p.(db := Shop.Apply(p.db, step))
    case Consumed(c, idle) => Consume(p, c, idle)
    case LookedUp(c) => LookUp(p, c)
    case Ordering(c, user, ticket, q, seatIds, now, told) => Order(p, c, user, ticket, q, seatIds, now, told)
    case Acknowledged(c) =>
      if c in p.consumers && p.consumers[c].Sure?
      then Pipeline(Queue.Acknowledge(p.redis, p.consumers[c].m.id).0, p.db, p.consumers - {c})
      else p
    case FailedForGood(c, ticket, q) =>
      if c in p.consumers && p.consumers[c].Holding?
      then Pipeline(Queue.TerminalFailure(p.redis, p.consumers[c].m, ticket, q).0, p.db, p.consumers - {c})
      else p
    case Left(c) => p.(consumers := p.consumers - {c})
  }

  // ---------- what every step keeps ----------

  /** The consumers hold entries that were delivered, and are sure only of orders that exist. */
  ghost predicate ConsumersOk(stream: seq<Queue.Entry>, next: nat, consumers: map<nat, Consumer>, db: Tables) {
    && next <= |stream|
    && (forall c :: c in consumers ==>
          && consumers[c].m.id < next && stream[consumers[c].m.id].request == consumers[c].m.request
          && (consumers[c].Sure? ==> Ordered(db, consumers[c].m.request)))
  }

  ghost predicate Cared(redis: Queue.Redis, db: Tables, id: nat)
    requires id < |redis.stream|
  {
    id >= redis.next || id in redis.waiting
    || Ordered(db, redis.stream[id].request) || redis.stream[id].request in redis.dead
  }

  ghost predicate AllCared(redis: Queue.Redis, db: Tables) {
    forall id: nat :: id < |redis.stream| ==> Cared(redis, db, id)
  }

  ghost predicate WaitingOk(redis: Queue.Redis) {
    forall id: nat :: id in redis.waiting ==> id < redis.next
  }

  ghost predicate Good(p: Pipeline) {
    && Shop.Consistent(p.db)
    && ConsumersOk(p.redis.stream, p.redis.next, p.consumers, p.db)
    && AllCared(p.redis, p.db) && WaitingOk(p.redis)
  }

  /** Orders are never deleted and keep their request. */
  ghost predicate OrdersStay(a: Tables, b: Tables) {
    && |a.reservations| <= |b.reservations|
    && (forall r :: 0 <= r < |a.reservations| ==> b.reservations[r].requestId == a.reservations[r].requestId)
  }

  lemma ShopKeepsOrders(db: Tables, step: Shop.Step)
    requires Shop.Consistent(db)
    ensures OrdersStay(db, Shop.Apply(db, step))
  {
    hide Shop.Consistent, Amount, SucceededFor;
  }

  lemma OrderedStays(a: Tables, b: Tables)
    requires OrdersStay(a, b)
    ensures forall request :: Ordered(a, request) ==> Ordered(b, request)
  {
  }

  lemma PlacedIsOrdered(db: Tables, user: nat, ticket: nat, q: int, request: string, seatIds: seq<nat>, now: int)
    requires Shop.Consistent(db) && ValidOrder(q, seatIds) && CanPlace(db, ticket, q, request, seatIds)
    ensures
      var after := Place(db, user, ticket, q, request, seatIds, now);
      Shop.Consistent(after) && OrdersStay(db, after) && Ordered(after, request)
  {
    hide Shop.Consistent;
    Shop.PlaceKeeps(db, user, ticket, q, request, seatIds, now);
    var after := Place(db, user, ticket, q, request, seatIds, now);
    assert after.reservations[|db.reservations|].requestId == request;
  }

  lemma ShopStepKeeps(p: Pipeline, db: Tables)
    requires Good(p) && Shop.Consistent(db) && OrdersStay(p.db, db)
    ensures Good(p.(db := db))
  {
    hide Shop.Consistent, Ordered;
    OrderedStays(p.db, db);
    forall id: nat | id < |p.redis.stream| ensures Cared(p.redis, db, id) {
      assert Cared(p.redis, p.db, id);
    }
  }

  lemma QueueStepKeeps(p: Pipeline, redis: Queue.Redis)
    requires Good(p) && p.redis.stream <= redis.stream && redis.next == p.redis.next
    requires redis.waiting == p.redis.waiting && redis.dead == p.redis.dead
    ensures Good(p.(redis := redis))
  {
    hide Shop.Consistent, Ordered;
    forall id: nat | id < |redis.stream| ensures Cared(redis, p.db, id) {
      if id < |p.redis.stream| { assert Cared(p.redis, p.db, id); }
    }
  }

  lemma ConsumeKeeps(p: Pipeline, c: nat, idle: Option<nat>)
    requires Good(p)
    ensures Good(Consume(p, c, idle))
  {
    hide Shop.Consistent, Ordered;
    var after := Consume(p, c, idle);
    forall id: nat | id < |after.redis.stream| ensures Cared(after.redis, p.db, id) {
      assert Cared(p.redis, p.db, id);
    }
  }

  /** An entry leaves the group only when its order exists or it is among the dead letters. */
  lemma DropKeeps(p: Pipeline, c: nat, redis: Queue.Redis)
    requires Good(p) && c in p.consumers
    requires redis.stream == p.redis.stream && redis.next == p.redis.next && p.redis.dead <= redis.dead
    requires redis.waiting == p.redis.waiting - {p.consumers[c].m.id}
    requires Ordered(p.db, p.consumers[c].m.request) || p.consumers[c].m.request in redis.dead
    ensures Good(Pipeline(redis, p.db, p.consumers - {c}))
  {
    hide Shop.Consistent, Ordered;
    forall id: nat | id < |redis.stream| ensures Cared(redis, p.db, id) {
      assert Cared(p.redis, p.db, id);
    }
  }

  lemma StepKeeps(p: Pipeline, s: Step)
    requires Good(p)
    ensures Good(Next(p, s))
  {
    hide Shop.Consistent, Shop.Apply, Ordered, AllCared;
    match s
    case InShop(step) =>
      Shop.StepKeeps(p.db, step);
      ShopKeepsOrders(p.db, step);
      ShopStepKeeps(p, Shop.Apply(p.db, step));
    case Consumed(c, idle) => ConsumeKeeps(p, c, idle);
    case LookedUp(c) =>
    case Ordering(c, user, ticket, q, seatIds, now, told) =>
      if Order(p, c, user, ticket, q, seatIds, now, told) != p {
        PlacedIsOrdered(p.db, user, ticket, q, p.consumers[c].m.request, seatIds, now);
        ShopStepKeeps(p, Place(p.db, user, ticket, q, p.consumers[c].m.request, seatIds, now));
      }
    case Acknowledged(c) =>
      if c in p.consumers && p.consumers[c].Sure? {
        DropKeeps(p, c, Queue.Acknowledge(p.redis, p.consumers[c].m.id).0);
      }
    case FailedForGood(c, ticket, q) =>
      if c in p.consumers && p.consumers[c].Holding? {
        DropKeeps(p, c, Queue.TerminalFailure(p.redis, p.consumers[c].m, ticket, q).0);
      }
    case Left(c) =>
    case _ => QueueStepKeeps(p, Next(p, s).redis);
  }

  ghost function Run(p: Pipeline, steps: seq<Step>): Pipeline
    requires Good(p)
    decreases |steps|
  {
    hide Good, Next;
    if steps == [] then p
    else
      StepKeeps(p, steps[0]);
      ConsistentNow(p);
      Run(Next(p, steps[0]), steps[1..])
  }

  lemma {:induction false} RunKeeps(p: Pipeline, steps: seq<Step>)
    requires Good(p)
    ensures Good(Run(p, steps))
    decreases |steps|
  {
    hide Good, Next;
    if steps != [] {
      StepKeeps(p, steps[0]);
      ConsistentNow(p);
      RunKeeps(Next(p, steps[0]), steps[1..]);
    }
  }

  lemma ConsistentNow(p: Pipeline)
    requires Good(p)
    ensures Shop.Consistent(p.db)
  {
  }

  lemma StartIsGood()
    ensures Good(START)
  {
    hide Shop.Consistent;
    OrderRuns.NoTablesConsistent();
  }

  ghost function Reached(steps: seq<Step>): Pipeline {
    hide Good, Run;
    StartIsGood();
    Run(START, steps)
  }

  lemma ReachedIsGood(steps: seq<Step>)
    ensures Good(Reached(steps))
  {
    hide Good, Run;
    StartIsGood();
    RunKeeps(START, steps);
  }

  /**
   No accepted request is lost, whatever consumers crash where: its entry is still to be delivered, or
   waits for an acknowledgement, or its order exists, or it is among the dead letters.
   */
  lemma NoRequestLost(steps: seq<Step>, id: nat)
    requires id < |Reached(steps).redis.stream|
    ensures
      var p := Reached(steps);
      id >= p.redis.next || id in p.redis.waiting || Ordered(p.db, p.redis.stream[id].request)
        || p.redis.stream[id].request in p.redis.dead
  {
    hide Shop.Consistent, Ordered;
    ReachedIsGood(steps);
    assert Cared(Reached(steps).redis, Reached(steps).db, id);
  }

  /** However often an entry is delivered and by however many consumers, a request has one order at most. */
  lemma OrderedOnce(steps: seq<Step>, r: nat, r': nat)
    requires r < r' < |Reached(steps).db.reservations|
    ensures Reached(steps).db.reservations[r].requestId != Reached(steps).db.reservations[r'].requestId
  {
    ReachedIsGood(steps);
    assert Shop.RequestsOk(Reached(steps).db.reservations);
  }

  // ---------- progress ----------

  /**
   The next entry, given to a consumer that nothing disturbs, becomes an order if it can be placed, is
   acknowledged, and waits no more.
   */
  lemma EntryBecomesOrder(
      p: Pipeline, c: nat, user: nat, ticket: nat, quantity: int, seatIds: seq<nat>, now: int) returns (q: Pipeline)
    requires Good(p) && p.redis.next < |p.redis.stream| && ValidOrder(quantity, seatIds)
    requires CanPlace(p.db, ticket, quantity, p.redis.stream[p.redis.next].request, seatIds)
    ensures q ==
      Run(p, [Consumed(c, None)] + ([Ordering(c, user, ticket, quantity, seatIds, now, true)] + [Acknowledged(c)]))
    ensures Ordered(q.db, p.redis.stream[p.redis.next].request)
    ensures q.redis.next == p.redis.next + 1 && q.redis.waiting == p.redis.waiting - {p.redis.next}
    ensures c !in q.consumers
  {
    hide Good, Shop.Consistent, Next;
    var consumed, acked := Consumed(c, None), Acknowledged(c);
    var ordering := Ordering(c, user, ticket, quantity, seatIds, now, true);
    var p1 := OneStep(p, consumed, [ordering] + [acked]);
    IsConsumed(p, c);
    var p2 := OneStep(p1, ordering, [acked]);
    IsOrdered(p1, c, user, ticket, quantity, seatIds, now);
    assert [acked] + [] == [acked];
    q := OneStep(p2, acked, []);
    NoSteps(q);
    IsAcknowledged(p2, c);
  }

  lemma NoSteps(p: Pipeline)
    requires Good(p)
    ensures Run(p, []) == p
  {
  }

  lemma OneStep(p: Pipeline, s: Step, rest: seq<Step>) returns (q: Pipeline)
    requires Good(p)
    ensures Shop.Consistent(p.db) && q == Next(p, s) && Good(q) && Run(p, [s] + rest) == Run(q, rest)
  {
    hide Good, Next;
    StepKeeps(p, s);
    ConsistentNow(p);
    q := Next(p, s);
    assert ([s] + rest)[1..] == rest;
  }

  lemma IsConsumed(p: Pipeline, c: nat)
    requires Good(p) && Shop.Consistent(p.db) && p.redis.next < |p.redis.stream|
    ensures
      var q, id := Next(p, Consumed(c, None)), p.redis.next;
      && q.db == p.db && q.consumers == p.consumers[c := Holding(Queue.Message(id, p.redis.stream[id].request))]
      && q.redis.next == id + 1 && q.redis.waiting == p.redis.waiting[id := 1]
      && id !in p.redis.waiting && q.redis.stream == p.redis.stream
  {
    hide Shop.Consistent;
  }

  lemma IsOrdered(p: Pipeline, c: nat, user: nat, ticket: nat, q: int, seatIds: seq<nat>, now: int)
    requires Good(p) && Shop.Consistent(p.db) && c in p.consumers && ValidOrder(q, seatIds)
    requires CanPlace(p.db, ticket, q, p.consumers[c].m.request, seatIds)
    ensures
      var r := Next(p, Ordering(c, user, ticket, q, seatIds, now, true));
      && r.redis == p.redis && r.consumers == p.consumers[c := Sure(p.consumers[c].m)]
      && Ordered(r.db, p.consumers[c].m.request)
  {
    hide Good, Shop.Consistent, Ordered;
    PlacedIsOrdered(p.db, user, ticket, q, p.consumers[c].m.request, seatIds, now);
  }

  lemma IsAcknowledged(p: Pipeline, c: nat)
    requires Shop.Consistent(p.db) && c in p.consumers && p.consumers[c].Sure?
    ensures
      var q := Next(p, Acknowledged(c));
      && q.db == p.db && q.redis == p.redis.(waiting := p.redis.waiting - {p.consumers[c].m.id})
      && c !in q.consumers
  {
  }

  /** A consumer that finds the order of its entry placed already acknowledges the entry. */
  lemma PlacedIsAcknowledged(p: Pipeline, c: nat) returns (q: Pipeline)
    requires Good(p) && c in p.consumers && Ordered(p.db, p.consumers[c].m.request)
    ensures q == Run(p, [LookedUp(c)] + [Acknowledged(c)])
    ensures q.redis.waiting == p.redis.waiting - {p.consumers[c].m.id} && c !in q.consumers && q.db == p.db
  {
    hide Good, Shop.Consistent, Next, Ordered;
    var p1 := OneStep(p, LookedUp(c), [Acknowledged(c)]);
    IsLookedUp(p, c);
    assert [Acknowledged(c)] + [] == [Acknowledged(c)];
    q := OneStep(p1, Acknowledged(c), []);
    NoSteps(q);
    IsAcknowledged(p1, c);
  }

  lemma IsLookedUp(p: Pipeline, c: nat)
    requires Shop.Consistent(p.db) && c in p.consumers && Ordered(p.db, p.consumers[c].m.request)
    ensures
      var q := Next(p, LookedUp(c));
      && q.redis == p.redis && q.db == p.db && c in q.consumers && q.consumers[c] == Sure(p.consumers[c].m)
  {
    hide Shop.Consistent;
  }

  /** An entry whose consumer dies is given to the next one that reclaims it. */
  lemma CrashedIsRedelivered(p: Pipeline, c: nat, d: nat) returns (q: Pipeline)
    requires Good(p) && p.redis.next < |p.redis.stream|
    ensures q == Run(p, [Consumed(c, None)] + ([Left(c)] + [Consumed(d, Some(p.redis.next))]))
    ensures d in q.consumers && q.consumers[d] ==
      Holding(Queue.Message(p.redis.next, p.redis.stream[p.redis.next].request))
  {
    hide Good, Shop.Consistent, Next;
    var id := p.redis.next;
    var p1 := OneStep(p, Consumed(c, None), [Left(c)] + [Consumed(d, Some(id))]);
    IsConsumed(p, c);
    var p2 := OneStep(p1, Left(c), [Consumed(d, Some(id))]);
    IsReclaimed(p1, c, d, id);
    assert [Consumed(d, Some(id))] + [] == [Consumed(d, Some(id))];
    q := OneStep(p2, Consumed(d, Some(id)), []);
    NoSteps(q);
  }

  lemma IsReclaimed(p: Pipeline, c: nat, d: nat, id: nat)
    requires Shop.Consistent(p.db) && id in p.redis.waiting && id < |p.redis.stream|
    ensures
      var left := Next(p, Left(c));
      && Shop.Consistent(left.db)
      && var q := Next(left, Consumed(d, Some(id)));
      d in q.consumers && q.consumers[d] == Holding(Queue.Message(id, p.redis.stream[id].request))
  {
    hide Shop.Consistent;
  }
}
