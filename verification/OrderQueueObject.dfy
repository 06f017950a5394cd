/**
 The Redis server's keys of the order queue and of the stock cache, updated in place by the commands
 and scripts that the queue sends.
 */
module OrderQueueObject {
  import opened Basics
  import opened OrderQueues

  class RedisServer {
    var stock: map<nat, int>
    var stream: seq<Entry>
    var status: map<Request, Status>
    var next: nat
    var waiting: map<nat, nat>
    var dead: seq<Request>
    ghost var base: map<nat, int>
    ghost var compensated: set<nat>

    ghost function State(): Redis
      reads this
    {
      Redis(stock, stream, status, next, waiting, dead, base, compensated)
    }

    constructor ()
      ensures State() == EMPTY && Good(State())
    {
      stock, stream, status, next, waiting, dead := map[], [], map[], 0, map[], [];
      base, compensated := map[], {};
    }

    method Enqueue(ticket: nat, quantity: int, user: int, request: Request) returns (r: EnqueueResult)
      requires Good(State())
      modifies this`stock, this`stream, this`status
      ensures Good(State())
      ensures (State(), r) == OrderQueues.Enqueue(old(State()), ticket, quantity, user, request)
    {
      hide Good;
      EnqueueKeeps(State(), ticket, quantity, user, request);
      if request in status { return Duplicate; }
      if ticket !in stock { return Unavailable; }
      var v := stock[ticket];
      if v < quantity { return SoldOut; }
      stock := stock[ticket := v - quantity];
      var id := |stream|;
      stream := stream + [Entry(request, ticket, quantity, user)];
      status := status[request := Queued];
      return Accepted(id);
    }

    method InitializeStock(ticket: nat, availableSeats: nat)
      requires Good(State())
      modifies this`stock, this`base
      ensures Good(State()) && State() == OrderQueues.InitializeStock(old(State()), ticket, availableSeats)
    {
      InitializeStockKeeps(State(), ticket, availableSeats);
      if ticket !in stock {
        stock := stock[ticket := availableSeats];
        base := base[ticket := availableSeats];
      }
    }

    method Consume(idle: Option<nat>) returns (message: Option<Message>)
      requires Good(State())
      modifies this`waiting, this`next
      ensures Good(State()) && (State(), message) == Deliver(old(State()), idle)
    {
      hide Good;
      DeliverKeeps(State(), idle);
      message := None;
      match idle {
        case Some(id) =>
          if id in waiting && id < |stream| {
            waiting := waiting[id := waiting[id] + 1];
            return Some(Message(id, stream[id].request));
          }
        case None =>
      }
      if next < |stream| {
        message := Some(Message(next, stream[next].request));
        waiting := waiting[next := 1];
        next := next + 1;
      }
    }

    method Acknowledge(id: nat) returns (ok: bool)
      requires Good(State())
      modifies this`waiting
      ensures Good(State()) && (State(), ok) == OrderQueues.Acknowledge(old(State()), id)
    {
      AcknowledgeKeeps(State(), id);
      ok := id in waiting;
      waiting := waiting - {id};
    }

    /** The script does not ask whether the entry still waits; only then are the accounts kept. */
    method TerminalFailure(message: Message, ticket: nat, quantity: int) returns (ok: bool)
      requires Good(State())
      modifies this`stock, this`dead, this`status, this`waiting, this`compensated
      ensures (State(), ok) == OrderQueues.TerminalFailure(old(State()), message, ticket, quantity)
      ensures Good(State()) <==>
        !GivesBack(old(State()), ticket, quantity) || Matches(old(State()), message, ticket, quantity)
    {
      hide Good;
      FailureIsGoodExactly(State(), message, ticket, quantity);
      if quantity > 0 && ticket in stock {
        stock := stock[ticket := stock[ticket] + quantity];
        if message.id in waiting { compensated := compensated + {message.id}; }
      }
      dead := dead + [message.request];
      status := status[message.request := FailedRequest];
      ok := message.id in waiting;
      waiting := waiting - {message.id};
    }

    method TryDecr(ticket: int, qty: int) returns (r: DecrResult)
      requires Good(State())
      modifies this`stock, this`base
      ensures Good(State()) && (State(), r) == OrderQueues.TryDecr(old(State()), ticket, qty)
    {
      hide Good, Held;
      TryDecrKeeps(State(), ticket, qty);
      if ticket <= 0 || qty <= 0 { return NoKey; }
      if ticket !in stock { return NoKey; }
      if stock[ticket] < qty { return TooFew; }
      base := base[ticket := Base(State(), ticket) - qty];
      stock := stock[ticket := stock[ticket] - qty];
      return Decreased;
    }

    method Incr(ticket: int, delta: int)
      requires Good(State())
      modifies this`stock, this`base
      ensures Good(State()) && State() == OrderQueues.Incr(old(State()), ticket, delta)
    {
      hide Good, Held;
      IncrKeeps(State(), ticket, delta);
      if ticket <= 0 || delta <= 0 { return; }
      if ticket in stock {
        base := base[ticket := Base(State(), ticket) + delta];
        stock := stock[ticket := stock[ticket] + delta];
      }
    }

    method Set(ticket: nat, availableSeats: nat)
      requires Good(State())
      modifies this`stock, this`base
      ensures Good(State()) && State() == OrderQueues.Set(old(State()), ticket, availableSeats)
    {
      hide Good, Held;
      SetKeeps(State(), ticket, availableSeats);
      stock := stock[ticket := availableSeats];
      base := base[ticket := availableSeats + Held(stream, compensated, ticket)];
    }

    method SetStatus(request: Request, state: string)
      requires Good(State())
      modifies this`status
      ensures Good(State()) && State() == OrderQueues.SetStatus(old(State()), request, state)
    {
      status := status[request := Reported(state)];
    }
  }
}
