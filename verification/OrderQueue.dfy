/**
 The order queue in Redis: the stock of each ticket, the stream of accepted requests, its consumer
 group and the status of every request.  A Lua script runs as one step.
 */
module OrderQueues {
  import opened Basics

  type Request = string

  datatype Status = Queued | FailedRequest | Reported(state: string)

  /** One entry of the stream; its id is its index. */
  datatype Entry = Entry(request: Request, ticket: nat, quantity: int, user: int)

  /** What a consumer is given: the id is the claim, the rest is what it read from the payload. */
  datatype Message = Message(id: nat, request: Request)

  datatype EnqueueResult = Accepted(id: nat) | Duplicate | Unavailable | SoldOut
  datatype DecrResult = Decreased | NoKey | TooFew

  /**
   `next` entries have been delivered to the group; `waiting` has the delivery counts of those not
   yet acknowledged.  `base` is the history of what was put into a ticket's stock or taken out of it
   other than by the queue, `compensated` the entries whose stock was given back.
   */
  datatype Redis = Redis(
    stock: map<nat, int>,
    stream: seq<Entry>,
    status: map<Request, Status>,
    next: nat,
    waiting: map<nat, nat>,
    dead: seq<Request>,
    base: map<nat, int>,
    compensated: set<nat>)

  const EMPTY := Redis(map[], [], map[], 0, map[], [], map[], {})

  // ---------- scripts ----------

  function Enqueue(db: Redis, ticket: nat, q: int, user: int, request: Request): (Redis, EnqueueResult) {
    if request in db.status then (db, Duplicate)
    else if ticket !in db.stock then (db, Unavailable)
    else if db.stock[ticket] < q then (db, SoldOut)
    else
      (db.(stock := db.stock[ticket := db.stock[ticket] - q],
           stream := db.stream + [Entry(request, ticket, q, user)],
           status := db.status[request := Queued]),
       Accepted(|db.stream|))
  }

  function InitializeStock(db: Redis, ticket: nat, seats: int): Redis {
    if ticket in db.stock then db
    else db.(stock := db.stock[ticket := seats], base := db.base[ticket := seats])
  }

  /** XAUTOCLAIM of an entry left idle, or else XREADGROUP of the next one. */
  function Deliver(db: Redis, idle: Option<nat>): (Redis, Option<Message>) {
    if idle.Some? && idle.value in db.waiting && idle.value < |db.stream|
    then (db.(waiting := db.waiting[idle.value := db.waiting[idle.value] + 1]),
          Some(Message(idle.value, db.stream[idle.value].request)))
    else if db.next < |db.stream|
    then (db.(waiting := db.waiting[db.next := 1], next := db.next + 1),
          Some(Message(db.next, db.stream[db.next].request)))
    else (db, None)
  }

  function Acknowledge(db: Redis, id: nat): (Redis, bool) {
    (db.(waiting := db.waiting - {id}), id in db.waiting)
  }

  predicate GivesBack(db: Redis, ticket: nat, q: int) {
    q > 0 && ticket in db.stock
  }

  /** Stock first, and only then the acknowledgement whose reply is returned. */
  function TerminalFailure(db: Redis, m: Message, ticket: nat, q: int): (Redis, bool) {
    (db.(stock := if GivesBack(db, ticket, q) then db.stock[ticket := db.stock[ticket] + q] else db.stock,
         dead := db.dead + [m.request],
         status := db.status[m.request := FailedRequest],
         waiting := db.waiting - {m.id},
         compensated :=
           if GivesBack(db, ticket, q) && m.id in db.waiting then db.compensated + {m.id} else db.compensated),
     m.id in db.waiting)
  }

  function SetStatus(db: Redis, request: Request, state: string): Redis {
    db.(status := db.status[request := Reported(state)])
  }

  function TryDecr(db: Redis, ticket: int, q: int): (Redis, DecrResult) {
    if ticket <= 0 || q <= 0 || ticket !in db.stock then (db, NoKey)
    else if db.stock[ticket] < q then (db, TooFew)
    else
      (db.(stock := db.stock[ticket := db.stock[ticket] - q],
           base := db.base[ticket := Base(db, ticket) - q]), Decreased)
  }

  function Incr(db: Redis, ticket: int, delta: int): Redis {
    if ticket <= 0 || delta <= 0 || ticket !in db.stock then db
    else db.(stock := db.stock[ticket := db.stock[ticket] + delta],
             base := db.base[ticket := Base(db, ticket) + delta])
  }

  /** An unconditional SET: whatever is queued stays owed on top of the new stock. */
  function Set(db: Redis, ticket: nat, seats: int): Redis {
    db.(stock := db.stock[ticket := seats],
        base := db.base[ticket := seats + Held(db.stream, db.compensated, ticket)])
  }

  function Base(db: Redis, ticket: nat): int {
    if ticket in db.base then db.base[ticket] else 0
  }

  // ---------- accounts ----------

  /** How much of a ticket the accepted and uncompensated entries hold. */
  function Held(stream: seq<Entry>, compensated: set<nat>, ticket: nat): int {
    if stream == [] then 0
    else
      var last := |stream| - 1;
      Held(stream[..last], compensated, ticket)
        + (if stream[last].ticket == ticket && last !in compensated then stream[last].quantity else 0)
  }

  /** Per ticket, stock plus what requests hold is what was put in. */
  ghost predicate Conserved(db: Redis) {
    forall t: nat :: t in db.stock ==> db.stock[t] + Held(db.stream, db.compensated, t) == Base(db, t)
  }

  ghost predicate NeverNegative(stock: map<nat, int>) {
    forall t: nat :: t in stock ==> stock[t] >= 0
  }

  ghost predicate KnownTickets(db: Redis) {
    forall i :: 0 <= i < |db.stream| ==> db.stream[i].ticket in db.stock
  }

  /** A request is in the stream once, and its status key says so. */
  ghost predicate AcceptedOnce(stream: seq<Entry>, status: map<Request, Status>) {
    && (forall i :: 0 <= i < |stream| ==> stream[i].request in status)
    && (forall i, j :: 0 <= i < j < |stream| ==> stream[i].request != stream[j].request)
  }

  ghost predicate GroupOk(stream: seq<Entry>, next: nat, waiting: map<nat, nat>, compensated: set<nat>) {
    && next <= |stream|
    && (forall id: nat :: id in waiting ==> id < next && id !in compensated)
    && (forall id: nat :: id in compensated ==> id < next)
  }

  ghost predicate Good(db: Redis) {
    && Conserved(db) && NeverNegative(db.stock) && KnownTickets(db)
    && AcceptedOnce(db.stream, db.status) && GroupOk(db.stream, db.next, db.waiting, db.compensated)
  }

  /** Compensating an entry frees what it held. */
  lemma {:induction false} HeldLess(stream: seq<Entry>, compensated: set<nat>, id: nat, t: nat)
    requires id !in compensated
    ensures Held(stream, compensated + {id}, t) == Held(stream, compensated, t)
      - (if id < |stream| && stream[id].ticket == t then stream[id].quantity else 0)
  {
    if stream != [] {
      HeldLess(stream[..|stream| - 1], compensated, id, t);
    }
  }

  /** With no entry of a ticket, nothing of it is held. */
  lemma {:induction false} HeldNothing(stream: seq<Entry>, compensated: set<nat>, t: nat)
    requires forall i :: 0 <= i < |stream| ==> stream[i].ticket != t
    ensures Held(stream, compensated, t) == 0
  {
    if stream != [] { HeldNothing(stream[..|stream| - 1], compensated, t); }
  }

  // ---------- what every step keeps ----------

  lemma EnqueueHeld(db: Redis, e: Entry, t: nat)
    requires GroupOk(db.stream, db.next, db.waiting, db.compensated)
    ensures Held(db.stream + [e], db.compensated, t) ==
      Held(db.stream, db.compensated, t) + (if e.ticket == t then e.quantity else 0)
  {
    assert (db.stream + [e])[..|db.stream|] == db.stream;
  }

  lemma EnqueueAccepted(stream: seq<Entry>, status: map<Request, Status>, e: Entry)
    requires AcceptedOnce(stream, status) && e.request !in status
    ensures AcceptedOnce(stream + [e], status[e.request := Queued])
  {
  }

  lemma EnqueueKeeps(db: Redis, ticket: nat, q: int, user: int, request: Request)
    requires Good(db)
    ensures Good(Enqueue(db, ticket, q, user, request).0)
  {
    hide Held, AcceptedOnce;
    if request !in db.status && ticket in db.stock && db.stock[ticket] >= q {
      var e := Entry(request, ticket, q, user);
      EnqueueAccepted(db.stream, db.status, e);
      forall t: nat { EnqueueHeld(db, e, t); }
    }
  }

  lemma InitializeStockKeeps(db: Redis, ticket: nat, seats: nat)
    requires Good(db)
    ensures Good(InitializeStock(db, ticket, seats))
  {
    if ticket !in db.stock { HeldNothing(db.stream, db.compensated, ticket); }
  }

  lemma DeliverKeeps(db: Redis, idle: Option<nat>)
    requires Good(db)
    ensures Good(Deliver(db, idle).0)
  {
  }

  lemma AcknowledgeKeeps(db: Redis, id: nat)
    requires Good(db)
    ensures Good(Acknowledge(db, id).0)
  {
  }

  /** The message names a waiting entry, and the ticket and quantity are that entry's. */
  predicate Matches(db: Redis, m: Message, ticket: nat, q: int) {
    && m.id in db.waiting && m.id < |db.stream|
    && db.stream[m.id].ticket == ticket && db.stream[m.id].quantity == q
  }

  /**
   A terminal failure conserves stock exactly when it gives none back, or gives back what a waiting
   entry holds: on an entry that is no longer waiting the script would add stock from nothing.
   */
  lemma TerminalFailureExactly(db: Redis, m: Message, ticket: nat, q: int)
    requires Good(db)
    ensures Conserved(TerminalFailure(db, m, ticket, q).0) <==>
      !GivesBack(db, ticket, q) || Matches(db, m, ticket, q)
  {
    var after := TerminalFailure(db, m, ticket, q).0;
    if GivesBack(db, ticket, q) && m.id in db.waiting {
      forall t: nat { HeldLess(db.stream, db.compensated, m.id, t); }
    }
    if GivesBack(db, ticket, q) {
      assert after.stock[ticket] == db.stock[ticket] + q && Base(after, ticket) == Base(db, ticket);
      if !Matches(db, m, ticket, q) {
        assert after.stock[ticket] + Held(after.stream, after.compensated, ticket) != Base(after, ticket);
      }
    }
  }

  lemma TerminalFailureKeeps(db: Redis, m: Message, ticket: nat, q: int)
    requires Good(db) && (!GivesBack(db, ticket, q) || Matches(db, m, ticket, q))
    ensures Good(TerminalFailure(db, m, ticket, q).0)
  {
    hide Conserved;
    TerminalFailureExactly(db, m, ticket, q);
  }

  lemma TryDecrKeeps(db: Redis, ticket: int, q: int)
    requires Good(db)
    ensures Good(TryDecr(db, ticket, q).0)
  {
  }

  lemma IncrKeeps(db: Redis, ticket: int, delta: int)
    requires Good(db)
    ensures Good(Incr(db, ticket, delta))
  {
  }

  lemma SetKeeps(db: Redis, ticket: nat, seats: nat)
    requires Good(db)
    ensures Good(Set(db, ticket, seats))
  {
  }

  // ---------- runs ----------

  datatype Step =
    | DoEnqueue(ticket: nat, quantity: int, user: int, request: Request)
    | DoInitializeStock(ticket: nat, seats: nat)
    | DoDeliver(idle: Option<nat>)
    | DoAcknowledge(id: nat)
    | DoTerminalFailure(m: Message, ticket: nat, quantity: int)
    | DoSetStatus(request: Request, state: string)
    | DoTryDecr(ticket: nat, quantity: int)
    | DoIncr(ticket: nat, quantity: int)
    | DoSet(ticket: nat, seats: nat)

  function Apply(db: Redis, s: Step): Redis {
    match s
    case DoEnqueue(ticket, q, user, request) => Enqueue(db, ticket, q, user, request).0
    case DoInitializeStock(ticket, seats) => InitializeStock(db, ticket, seats)
    case DoDeliver(idle) => Deliver(db, idle).0
    case DoAcknowledge(id) => Acknowledge(db, id).0
    case DoTerminalFailure(m, ticket, q) => TerminalFailure(db, m, ticket, q).0
    case DoSetStatus(request, state) => SetStatus(db, request, state)
    case DoTryDecr(ticket, q) => TryDecr(db, ticket, q).0
    case DoIncr(ticket, q) => Incr(db, ticket, q)
    case DoSet(ticket, seats) => Set(db, ticket, seats)
  }

  function Run(db: Redis, steps: seq<Step>): Redis
    decreases |steps|
  {
    if steps == [] then db else Run(Apply(db, steps[0]), steps[1..])
  }

  /** Every terminal failure that gives stock back is for an entry that is still waiting, with its own numbers. */
  ghost predicate Proper(db: Redis, steps: seq<Step>)
    decreases |steps|
  {
    steps != [] ==>
      && (steps[0].DoTerminalFailure? && GivesBack(db, steps[0].ticket, steps[0].quantity) ==>
            Matches(db, steps[0].m, steps[0].ticket, steps[0].quantity))
      && Proper(Apply(db, steps[0]), steps[1..])
  }

  lemma StepKeeps(db: Redis, s: Step)
    requires Good(db)
    requires s.DoTerminalFailure? && GivesBack(db, s.ticket, s.quantity) ==> Matches(db, s.m, s.ticket, s.quantity)
    ensures Good(Apply(db, s))
  {
    match s
    case DoEnqueue(ticket, q, user, request) => EnqueueKeeps(db, ticket, q, user, request);
    case DoInitializeStock(ticket, seats) => InitializeStockKeeps(db, ticket, seats);
    case DoDeliver(idle) => DeliverKeeps(db, idle);
    case DoAcknowledge(id) => AcknowledgeKeeps(db, id);
    case DoTerminalFailure(m, ticket, q) => TerminalFailureKeeps(db, m, ticket, q);
    case DoSetStatus(request, state) =>
    case DoTryDecr(ticket, q) => TryDecrKeeps(db, ticket, q);
    case DoIncr(ticket, q) => IncrKeeps(db, ticket, q);
    case DoSet(ticket, seats) => SetKeeps(db, ticket, seats);
  }

  lemma {:induction false} RunKeeps(db: Redis, steps: seq<Step>)
    requires Good(db) && Proper(db, steps)
    ensures Good(Run(db, steps))
    decreases |steps|
  {
    hide Good, Apply;
    if steps != [] {
      StepKeeps(db, steps[0]);
      RunKeeps(Apply(db, steps[0]), steps[1..]);
    }
  }

  /** Stock is conserved per ticket and never negative. */
  lemma StockConserved(steps: seq<Step>, t: nat)
    requires Proper(EMPTY, steps) && t in Run(EMPTY, steps).stock
    ensures
      var db := Run(EMPTY, steps);
      && db.stock[t] >= 0
      && db.stock[t] + Held(db.stream, db.compensated, t) == Base(db, t)
  {
    RunKeeps(EMPTY, steps);
  }

  /** No step but the queue's own touches the stock of ticket t. */
  predicate QueueOnly(steps: seq<Step>, t: nat) {
    forall i :: 0 <= i < |steps| && (steps[i].DoSet? || steps[i].DoIncr? || steps[i].DoTryDecr?) ==>
      steps[i].ticket != t
  }

  /** What the first initialisation of ticket t puts in. */
  function FirstSeats(steps: seq<Step>, t: nat): Option<nat>
    decreases |steps|
  {
    if steps == [] then None
    else if steps[0].DoInitializeStock? && steps[0].ticket == t then Some(steps[0].seats)
    else FirstSeats(steps[1..], t)
  }

  lemma StepBase(db: Redis, s: Step, t: nat)
    requires QueueOnly([s], t)
    ensures
      var after := Apply(db, s);
      if s.DoInitializeStock? && s.ticket == t && t !in db.stock
      then t in after.stock && Base(after, t) == s.seats
      else (t in after.stock <==> t in db.stock) && Base(after, t) == Base(db, t)
  {
    hide Held;
    assert [s][0] == s;
  }

  lemma {:induction false} RunBase(db: Redis, steps: seq<Step>, t: nat)
    requires QueueOnly(steps, t)
    ensures
      var after := Run(db, steps);
      if t in db.stock then t in after.stock && Base(after, t) == Base(db, t)
      else
        && (t in after.stock <==> FirstSeats(steps, t).Some?)
        && (t in after.stock ==> Base(after, t) == FirstSeats(steps, t).value)
    decreases |steps|
  {
    hide Apply, Base;
    if steps != [] {
      StepBase(db, steps[0], t);
      RunBase(Apply(db, steps[0]), steps[1..], t);
    }
  }

  /** What is in stock and what the accepted entries hold are together the seats first put in. */
  lemma StockIsFirstSeats(steps: seq<Step>, t: nat)
    requires Proper(EMPTY, steps) && QueueOnly(steps, t)
    ensures
      var db := Run(EMPTY, steps);
      && (t in db.stock <==> FirstSeats(steps, t).Some?)
      && (t in db.stock ==>
            db.stock[t] >= 0 && db.stock[t] + Held(db.stream, db.compensated, t) == FirstSeats(steps, t).value)
  {
    RunBase(EMPTY, steps, t);
    if t in Run(EMPTY, steps).stock { StockConserved(steps, t); }
  }

  lemma FirstStep(db: Redis, s: Step, rest: seq<Step>)
    ensures Run(db, [s] + rest) == Run(Apply(db, s), rest)
  {
    assert ([s] + rest)[1..] == rest;
  }

  /**
   Two consumers get the same entry, the second by reclaiming it from the first, and both report a
   terminal failure: two seats are given back twice, and the stock exceeds the ten that were put in.
   */
  lemma ReclaimedTwiceOversells() returns (delivered: Redis, m: Message, steps: seq<Step>)
    ensures steps == [DoInitializeStock(1, 10), DoEnqueue(1, 2, 5, "r"), DoDeliver(None), DoDeliver(Some(0)),
                      DoTerminalFailure(m, 1, 2), DoTerminalFailure(m, 1, 2)]
    ensures delivered == Run(EMPTY, steps[..2])
    ensures Deliver(delivered, None).1 == Some(m) == Deliver(Deliver(delivered, None).0, Some(0)).1
    ensures
      var db := Run(EMPTY, steps);
      1 in db.stock && db.stock[1] == 12 && !Conserved(db) && QueueOnly(steps, 1) && FirstSeats(steps, 1) == Some(10)
  {
    m := Message(0, "r");
    steps := [DoInitializeStock(1, 10), DoEnqueue(1, 2, 5, "r"), DoDeliver(None), DoDeliver(Some(0)),
              DoTerminalFailure(m, 1, 2), DoTerminalFailure(m, 1, 2)];
    var held := EMPTY.(stock := map[1 := 8], stream := [Entry("r", 1, 2, 5)], status := map["r" := Queued],
                       base := map[1 := 10]);
    delivered := held;
    assert Apply(EMPTY, steps[0]).stock == map[1 := 10] && Apply(EMPTY, steps[0]).base == map[1 := 10];
    assert Apply(Apply(EMPTY, steps[0]), steps[1]) == held;
    assert steps == [steps[0]] + ([steps[1]] + steps[2..]) && steps[..2] == [steps[0]] + ([steps[1]] + []);
    FirstStep(EMPTY, steps[0], [steps[1]] + steps[2..]);
    FirstStep(Apply(EMPTY, steps[0]), steps[1], steps[2..]);
    FirstStep(EMPTY, steps[0], [steps[1]] + []);
    FirstStep(Apply(EMPTY, steps[0]), steps[1], []);
    FailsTwice(held, m, steps[2..]);
  }

  lemma FailsTwice(held: Redis, m: Message, steps: seq<Step>)
    requires held == EMPTY.(stock := map[1 := 8], stream := [Entry("r", 1, 2, 5)], status := map["r" := Queued],
                            base := map[1 := 10])
    requires m == Message(0, "r")
    requires steps == [DoDeliver(None), DoDeliver(Some(0)), DoTerminalFailure(m, 1, 2), DoTerminalFailure(m, 1, 2)]
    ensures var db := Run(held, steps); 1 in db.stock && db.stock[1] == 12 && !Conserved(db)
  {
    var first := Apply(held, steps[0]);
    var second := Apply(first, steps[1]);
    var failed := Apply(second, steps[2]);
    var again := Apply(failed, steps[3]);
    assert steps == [steps[0]] + ([steps[1]] + ([steps[2]] + ([steps[3]] + [])));
    FirstStep(held, steps[0], [steps[1]] + ([steps[2]] + ([steps[3]] + [])));
    FirstStep(first, steps[1], [steps[2]] + ([steps[3]] + []));
    FirstStep(second, steps[2], [steps[3]] + []);
    FirstStep(failed, steps[3], []);
    assert 0 in second.waiting && failed.stock == map[1 := 10] && 0 in failed.compensated;
    assert again.stream[..0] == [] && again.stream == held.stream;
    assert Held(again.stream, again.compensated, 1) == 0;
  }

  /** A request is accepted at most once, however often it is sent. */
  lemma RequestsAcceptedOnce(steps: seq<Step>, i: nat, j: nat)
    requires Proper(EMPTY, steps) && i < j < |Run(EMPTY, steps).stream|
    ensures Run(EMPTY, steps).stream[i].request != Run(EMPTY, steps).stream[j].request
  {
    RunKeeps(EMPTY, steps);
  }

  ghost predicate Grows(a: Redis, b: Redis) {
    && a.stream <= b.stream && a.next <= b.next
    && (forall id: nat :: id < a.next && id !in a.waiting ==> id !in b.waiting)
  }

  lemma StepGrows(db: Redis, s: Step)
    ensures Grows(db, Apply(db, s))
  {
  }

  lemma {:induction false} OnlyGrows(db: Redis, steps: seq<Step>)
    ensures Grows(db, Run(db, steps))
    decreases |steps|
  {
    hide Apply;
    if steps != [] {
      StepGrows(db, steps[0]);
      OnlyGrows(Apply(db, steps[0]), steps[1..]);
    }
  }

  /** The group is done with an entry once: whoever gets a positive reply is the only one. */
  lemma DoneOnce(db: Redis, id: nat, steps: seq<Step>)
    requires Good(db) && id < db.next && Acknowledge(db, id).1
    ensures !Acknowledge(Run(Acknowledge(db, id).0, steps), id).1
  {
    OnlyGrows(Acknowledge(db, id).0, steps);
  }

  /** No accepted entry is lost: it is still to be delivered, or waiting, or was acknowledged. */
  lemma DeliveryIsTotal(db: Redis)
    requires Good(db) && db.next < |db.stream|
    ensures
      var (after, m) := Deliver(db, None);
      m == Some(Message(db.next, db.stream[db.next].request)) && after.waiting == db.waiting[db.next := 1]
  {
  }

  // ---------- what the clients of the queue are told ----------

  /**
   The reply to a request, over every proper run in which only the queue touches the stock of ticket t: it is a
   duplicate if the request has a status; else the ticket is unavailable if its stock was never put in; else it
   is sold out exactly when the seats put in, less what accepted requests hold, do not cover it; else it is
   accepted, as the next entry of the stream.
   */
  lemma ReplyExactly(steps: seq<Step>, t: nat, q: int, user: int, request: Request)
    requires Proper(EMPTY, steps) && QueueOnly(steps, t)
    ensures
      var db := Run(EMPTY, steps);
      var (after, reply) := Enqueue(db, t, q, user, request);
      if request in db.status then reply == Duplicate && after == db
      else if FirstSeats(steps, t).None? then reply == Unavailable && after == db
      else if FirstSeats(steps, t).value - Held(db.stream, db.compensated, t) < q then reply == SoldOut && after == db
      else
        && reply == Accepted(|db.stream|)
        && after.stream == db.stream + [Entry(request, t, q, user)]
        && t in after.stock && t in db.stock && after.stock == db.stock[t := db.stock[t] - q]
        && after.status == db.status[request := Queued]
        && after.next == db.next && after.waiting == db.waiting && after.dead == db.dead
  {
    hide Proper, QueueOnly, Held;
    StockIsFirstSeats(steps, t);
  }

  lemma StatusStays(db: Redis, s: Step, request: Request)
    requires request in db.status
    ensures request in Apply(db, s).status
  {
  }

  /** A request that has been accepted once is a duplicate ever after. */
  lemma {:induction false} AcceptedThenDuplicate(
      db: Redis, steps: seq<Step>, request: Request, t: nat, q: int, user: int)
    requires request in db.status
    ensures Enqueue(Run(db, steps), t, q, user, request) == (Run(db, steps), Duplicate)
    decreases |steps|
  {
    hide Apply;
    if steps != [] {
      StatusStays(db, steps[0], request);
      AcceptedThenDuplicate(Apply(db, steps[0]), steps[1..], request, t, q, user);
    }
  }

  /** An entry that a consumer has been given is acknowledged by it with success. */
  lemma DeliveredIsAcknowledged(db: Redis, idle: Option<nat>)
    requires Deliver(db, idle).1.Some?
    ensures
      var (given, m) := Deliver(db, idle);
      var (after, done) := Acknowledge(given, m.value.id);
      && m.value.id < |db.stream| && m.value.request == db.stream[m.value.id].request
      && done && after == given.(waiting := given.waiting - {m.value.id})
  {
  }

  /** Nothing is delivered only when every entry has been, and none that is idle waits. */
  lemma NothingDelivered(db: Redis, idle: Option<nat>)
    requires GroupOk(db.stream, db.next, db.waiting, db.compensated)
    ensures Deliver(db, idle).1.None? <==> db.next == |db.stream| && (idle.None? || idle.value !in db.waiting)
  {
  }

  /**
   A round trip: an order that is accepted, delivered and then given up for good leaves the stock as it was; its
   request has failed and is a dead letter, and its entry is done with.
   */
  lemma FailureUndoesEnqueue(db: Redis, t: nat, q: int, user: int, request: Request)
    requires Good(db) && db.next == |db.stream| && q > 0
    requires request !in db.status && t in db.stock && q <= db.stock[t]
    ensures
      var accepted := Enqueue(db, t, q, user, request).0;
      var (given, m) := Deliver(accepted, None);
      && m == Some(Message(|db.stream|, request))
      && var (after, done) := TerminalFailure(given, m.value, t, q);
         && done && after.stock == db.stock && after.waiting == db.waiting
         && after.dead == db.dead + [request] && after.status == db.status[request := FailedRequest]
  {
    hide Conserved, NeverNegative, KnownTickets, AcceptedOnce;
    var accepted := Enqueue(db, t, q, user, request).0;
    var given := Deliver(accepted, None).0;
    assert given.stock[t] == db.stock[t] - q;
    assert |db.stream| !in db.waiting;
  }

  /** `tryDecr`: what it answers, and that it takes the quantity off exactly when there is enough. */
  lemma TryDecrExactly(db: Redis, t: int, q: int)
    ensures
      var (after, reply) := TryDecr(db, t, q);
      if t > 0 && q > 0 && t in db.stock && q <= db.stock[t]
      then reply == Decreased && after.stock == db.stock[t := db.stock[t] - q] && after.stream == db.stream
      else after == db && (reply == TooFew <==> t > 0 && q > 0 && t in db.stock) && reply != Decreased
  {
  }

  /** Giving back what was taken restores the stock. */
  lemma IncrUndoesTryDecr(db: Redis, t: int, q: int)
    requires TryDecr(db, t, q).1 == Decreased
    ensures Incr(TryDecr(db, t, q).0, t, q).stock == db.stock
  {
  }

  predicate Names(s: Step, request: Request) {
    (s.DoSetStatus? && s.request == request) || (s.DoTerminalFailure? && s.m.request == request)
  }

  lemma StatusUnchanged(db: Redis, s: Step, request: Request)
    requires request in db.status && !Names(s, request)
    ensures request in Apply(db, s).status && Apply(db, s).status[request] == db.status[request]
  {
  }

  lemma {:induction false} StatusKept(db: Redis, steps: seq<Step>, request: Request)
    requires request in db.status && forall i :: 0 <= i < |steps| ==> !Names(steps[i], request)
    ensures request in Run(db, steps).status && Run(db, steps).status[request] == db.status[request]
    decreases |steps|
  {
    hide Apply, Names;
    if steps != [] {
      StatusUnchanged(db, steps[0], request);
      StatusKept(Apply(db, steps[0]), steps[1..], request);
    }
  }

  /** What a consumer reports of a request is what the client reads, until it is reported on again. */
  lemma ReportIsRead(db: Redis, request: Request, state: string, steps: seq<Step>)
    requires forall i :: 0 <= i < |steps| ==> !Names(steps[i], request)
    ensures
      var after := Run(SetStatus(db, request, state), steps);
      request in after.status && after.status[request] == Reported(state)
  {
    StatusKept(SetStatus(db, request, state), steps, request);
  }

  lemma FailureIsGoodExactly(db: Redis, m: Message, ticket: nat, q: int)
    requires Good(db)
    ensures Good(TerminalFailure(db, m, ticket, q).0) <==>
      !GivesBack(db, ticket, q) || Matches(db, m, ticket, q)
  {
    hide Conserved;
    TerminalFailureExactly(db, m, ticket, q);
  }
}
