/**
 The tables of the ticket shop and what each transaction of the order service does to them.
 Rows are never deleted, so a table is a sequence and a row's id is its index.  The effect of a
 transaction is stated as one change of the tables; `OrderService` carries it out statement by
 statement.
 */
module OrderTables {
  import opened Basics

  datatype OrderStatus = Pending | Confirmed | Cancelled | Expired
  datatype PaymentStatus =
    Created | Processing | Succeeded | Failed | Closed | Refunding | PartiallyRefunded | Refunded
  datatype RefundStatus = RefundCreated | RefundProcessing | RefundSucceeded | RefundFailed

  predicate CanTransitionPayment(from: PaymentStatus, to: PaymentStatus) {
    match from
    case Created => to == Processing || to == Failed || to == Closed
    case Processing => to == Succeeded || to == Failed || to == Closed
    case Succeeded => to == Refunding
    case Refunding => to == PartiallyRefunded || to == Refunded
    case PartiallyRefunded => to == Refunding || to == Refunded
    case _ => false
  }

  datatype Ticket = Ticket(total: nat, available: int, price: int, onSale: bool)

  /** `seatIds` is what the request named; the row itself does not keep it. */
  datatype Reservation = Reservation(
    user: nat, ticket: nat, quantity: int, status: OrderStatus, expireAt: Option<int>,
    requestId: string, seatIds: seq<nat>)

  datatype Seat = Seat(ticket: nat, price: int, sold: bool, reservation: Option<nat>)

  /** `token` 0 is the empty action token. */
  datatype Payment = Payment(
    reservation: nat, user: nat, amountMinor: int, key: string, status: PaymentStatus,
    token: nat, nextActionAt: int)

  datatype Refund = Refund(
    payment: nat, amountMinor: int, status: RefundStatus, attempts: nat, maxAttempts: nat,
    token: nat, nextActionAt: int)

  /** One row of payment_events; a payment's first event comes from no status. */
  datatype Change = Change(from: Option<PaymentStatus>, to: PaymentStatus)

  /**
   The tables; `trails` has the payment_events of each payment in order.  `nextToken` is the
   source of fresh action tokens, and `views` has, for each worker in the middle of creating a payment,
   the payments as they were at its first plain read.

   The rest is history: `finished` has the tokens that have ended a claim, `doubled` tells whether some
   payment was created for an order that had an active one, and `overlooked` has the payments that a
   cancellation failed to look up.
   */
  datatype Tables = Tables(
    tickets: seq<Ticket>,
    reservations: seq<Reservation>,
    seats: seq<Seat>,
    payments: seq<Payment>,
    refunds: seq<Refund>,
    trails: seq<seq<Change>>,
    nextToken: nat,
    views: map<nat, seq<Payment>>,
    finished: seq<nat>,
    doubled: bool,
    overlooked: set<nat>)

  const NoTables := Tables([], [], [], [], [], [], 1, map[], [], false, {})

  const MAX_ATTEMPTS: nat := 5
  const PAYMENT_WINDOW := 15 * 60 * 1000  // milliseconds

  predicate Live(s: OrderStatus) { s.Pending? || s.Confirmed? }
  predicate Active(s: PaymentStatus) { s.Created? || s.Processing? }
  predicate Open(s: RefundStatus) { s.RefundCreated? || s.RefundProcessing? }

  // ---------- catalogue ----------

  function AddTicket(db: Tables, total: nat, price: int): Tables {
    db.(tickets := db.tickets + [Ticket(total, total, price, true)])
  }

  /** The seats generated for a ticket, one price each; this is a statement of its own. */
  function AddSeats(db: Tables, t: nat, seatPrices: seq<int>): Tables {
    db.(seats := db.seats + seq(|seatPrices|, i requires 0 <= i < |seatPrices| => Seat(t, seatPrices[i], false, None)))
  }

  /** `setOffline`, and the periodic closing of past events. */
  function TakeOffline(db: Tables, t: nat): Tables
    requires t < |db.tickets|
  {
    db.(tickets := db.tickets[t := db.tickets[t].(onSale := false)])
  }

  // ---------- placing, cancelling and expiring an order ----------

  /** What the consumer of the order queue checks before it opens a transaction. */
  predicate ValidOrder(quantity: int, seatIds: seq<nat>) {
    1 <= quantity <= 6 && Distinct(seatIds) && (seatIds != [] ==> |seatIds| == quantity)
  }

  predicate SeatFree(db: Tables, s: nat, ticket: nat) {
    s < |db.seats| && db.seats[s].ticket == ticket && !db.seats[s].sold
  }

  predicate CanPlace(db: Tables, ticket: nat, quantity: int, request: string, seatIds: seq<nat>) {
    && ticket < |db.tickets| && db.tickets[ticket].onSale && quantity <= db.tickets[ticket].available
    && (forall r :: 0 <= r < |db.reservations| ==> db.reservations[r].requestId != request)
    && (forall i :: 0 <= i < |seatIds| ==> SeatFree(db, seatIds[i], ticket))
  }

  function SellAll(seats: seq<Seat>, seatIds: seq<nat>, r: nat): (r': seq<Seat>)
    ensures |r'| == |seats|
  {
    seq(|seats|, s requires 0 <= s < |seats| =>
      if s in seatIds then seats[s].(sold := true, reservation := Some(r)) else seats[s])
  }

  function Adjust(tickets: seq<Ticket>, t: nat, delta: int): seq<Ticket>
    requires t < |tickets|
  {
    tickets[t := tickets[t].(available := tickets[t].available + delta)]
  }

  function Place(
      db: Tables, user: nat, ticket: nat, quantity: int, request: string, seatIds: seq<nat>, now: int): Tables
    requires CanPlace(db, ticket, quantity, request, seatIds)
  {
    var row := Reservation(user, ticket, quantity, Pending, Some(now + PAYMENT_WINDOW), request, seatIds);
    db.(tickets := Adjust(db.tickets, ticket, -quantity),
        reservations := db.reservations + [row],
        seats := SellAll(db.seats, seatIds, |db.reservations|))
  }

  function ReleaseAll(seats: seq<Seat>, r: nat): (r': seq<Seat>)
    ensures |r'| == |seats|
  {
    seq(|seats|, s requires 0 <= s < |seats| =>
      if seats[s].reservation == Some(r) && seats[s].sold then seats[s].(sold := false, reservation := None)
      else seats[s])
  }

  /** A live order ends as `status`: its stock and its seats go back. */
  function EndOrder(db: Tables, r: nat, status: OrderStatus): Tables
    requires r < |db.reservations| && db.reservations[r].ticket < |db.tickets|
  {
    var row := db.reservations[r];
    db.(reservations := db.reservations[r := row.(status := status)],
        tickets := Adjust(db.tickets, row.ticket, row.quantity),
        seats := ReleaseAll(db.seats, r))
  }

  /** The latest successful payment of an order. */
  function SucceededFor(payments: seq<Payment>, r: nat): (p: Option<nat>)
    ensures p.Some? ==>
      p.value < |payments| && payments[p.value].status.Succeeded? && payments[p.value].reservation == r
    ensures p.None? ==>
      forall i :: 0 <= i < |payments| && payments[i].status.Succeeded? ==> payments[i].reservation != r
  {
    if payments == [] then None
    else
      var last := |payments| - 1;
      if payments[last].status.Succeeded? && payments[last].reservation == r then Some(last)
      else SucceededFor(payments[..last], r)
  }

  /** The refund of a whole payment that has succeeded. */
  function BeginRefund(db: Tables, p: nat, now: int): Tables
    requires p < |db.payments| && p < |db.trails|
  {
    db.(payments := db.payments[p := db.payments[p].(status := Refunding, nextActionAt := now)],
        refunds := db.refunds + [Refund(p, db.payments[p].amountMinor, RefundCreated, 0, MAX_ATTEMPTS, 0, now)],
        trails := db.trails[p := db.trails[p] + [Change(Some(Succeeded), Refunding)]])
  }

  predicate CanCancel(db: Tables, user: nat, r: nat) {
    r < |db.reservations| && db.reservations[r].user == user && Live(db.reservations[r].status)
  }

  /**
   The successful payment of a confirmed order is looked up to be refunded.  A look-up that fails reads
   like one that finds nothing: `missed` says that it did.
   */
  function Cancel(db: Tables, user: nat, r: nat, now: int, missed: bool): Tables
    requires CanCancel(db, user, r) && db.reservations[r].ticket < |db.tickets| && |db.trails| == |db.payments|
  {
    var db1 := EndOrder(db, r, Cancelled);
    var p := SucceededFor(db.payments, r);
    if !db.reservations[r].status.Confirmed? || p.None? then db1
    else if missed then db1.(overlooked := db1.overlooked + {p.value})
    else BeginRefund(db1, p.value, now)
  }

  predicate Overdue(row: Reservation, now: int) {
    row.status.Pending? && row.expireAt.Some? && row.expireAt.value <= now
  }

  function Expire(db: Tables, r: nat, now: int): Tables
    requires r < |db.reservations| && Overdue(db.reservations[r], now) && db.reservations[r].ticket < |db.tickets|
  {
    EndOrder(db, r, Expired)
  }

  // ---------- paying ----------

  function SeatSum(seats: seq<Seat>, r: nat): int {
    if seats == [] then 0
    else SeatSum(seats[..|seats| - 1], r) +
         (if seats[|seats| - 1].reservation == Some(r) then seats[|seats| - 1].price else 0)
  }

  predicate HasSeats(seats: seq<Seat>, r: nat) {
    exists s :: 0 <= s < |seats| && seats[s].reservation == Some(r)
  }

  /** The price of an order: of its seats if it has any, and otherwise per ticket. */
  function Amount(db: Tables, r: nat): int
    requires r < |db.reservations| && db.reservations[r].ticket < |db.tickets|
  {
    var row := db.reservations[r];
    if HasSeats(db.seats, r) then SeatSum(db.seats, r) * 100
    else db.tickets[row.ticket].price * row.quantity * 100
  }

  predicate ActiveFor(payments: seq<Payment>, r: nat) {
    exists p :: 0 <= p < |payments| && payments[p].reservation == r && Active(payments[p].status)
  }

  predicate KeyUsed(payments: seq<Payment>, user: nat, key: string) {
    exists p :: 0 <= p < |payments| && payments[p].user == user && payments[p].key == key
  }

  /** The isolation level of the server decides what a second plain read of a transaction sees. */
  datatype Isolation = ReadCommitted | RepeatableRead

  /** The first plain read of a transaction that may create a payment. */
  function TakeView(db: Tables, w: nat): Tables {
    db.(views := db.views[w := db.payments])
  }

  /** What worker w sees of the payments when it looks for an active one, with the order's row locked. */
  function Seen(db: Tables, w: nat, level: Isolation): seq<Payment>
    requires w in db.views
  {
    if level.ReadCommitted? then db.payments else db.views[w]
  }

  /** A look-up of the active payment that fails reads like one that finds nothing: `failed` says that it did. */
  predicate CanPay(db: Tables, w: nat, level: Isolation, user: nat, r: nat, key: string, failed: bool) {
    && w in db.views
    && r < |db.reservations| && db.reservations[r].user == user && db.reservations[r].status.Pending?
    && !KeyUsed(db.payments, user, key)
    && (failed || !ActiveFor(Seen(db, w, level), r))
  }

  function CreatePayment(db: Tables, w: nat, user: nat, r: nat, key: string, now: int): Tables
    requires r < |db.reservations| && db.reservations[r].ticket < |db.tickets|
  {
    db.(payments := db.payments + [Payment(r, user, Amount(db, r), key, Created, 0, now)],
        trails := db.trails + [[Change(None, Created)]],
        views := db.views - {w},
        doubled := db.doubled || ActiveFor(db.payments, r))
  }

  // ---------- settling ----------

  /** The first transaction of a settlement on a payment that is due. */
  datatype Claim = NoClaim | ClosedUnpayable | Claimed(status: PaymentStatus, order: OrderStatus, token: nat)

  function ClaimOutcome(db: Tables, p: nat, now: int): Claim
    requires p < |db.payments| && db.payments[p].reservation < |db.reservations|
  {
    var row, order := db.payments[p], db.reservations[db.payments[p].reservation].status;
    if !Active(row.status) then NoClaim
    else if row.status.Created? && !order.Pending? then ClosedUnpayable
    else if now < row.nextActionAt then NoClaim
    else Claimed(row.status, order, db.nextToken)
  }

  function ClaimPayment(db: Tables, p: nat, now: int, lease: int): Tables
    requires p < |db.payments| && db.payments[p].reservation < |db.reservations| && |db.trails| == |db.payments|
  {
    var row := db.payments[p];
    match ClaimOutcome(db, p, now)
    case NoClaim => db
    case ClosedUnpayable =>
      db.(payments := db.payments[p := row.(status := Closed, nextActionAt := now)],
          trails := db.trails[p := db.trails[p] + [Change(Some(Created), Closed)]])
    case Claimed(_, _, token) =>
      db.(payments := db.payments[p := row.(token := token, nextActionAt := now + lease)],
          nextToken := db.nextToken + 1)
  }

  /** What the provider answered: an exception, or a state that it may not have accepted. */
  datatype Reply = Raised | Replied(accepted: bool, state: PaymentStatus)

  function NextStatus(reply: Reply): PaymentStatus
    requires reply.Replied?
  {
    if reply.accepted then reply.state else Failed
  }

  /** A claim ends: the token is cleared and the payment is where the worker puts it. */
  function EndClaim(db: Tables, p: nat, next: PaymentStatus, at: int, changes: seq<Change>): Tables
    requires p < |db.payments| && |db.trails| == |db.payments|
  {
    var row := db.payments[p];
    db.(payments := db.payments[p := row.(status := next, token := 0, nextActionAt := at)],
        trails := db.trails[p := db.trails[p] + changes],
        finished := db.finished + [row.token])
  }

  predicate CanConfirm(db: Tables, r: nat, user: nat, now: int) {
    && r < |db.reservations| && db.reservations[r].user == user && db.reservations[r].status.Pending?
    && db.reservations[r].expireAt.Some? && now < db.reservations[r].expireAt.value
  }

  function Confirm(db: Tables, r: nat): Tables
    requires r < |db.reservations|
  {
    db.(reservations := db.reservations[r := db.reservations[r].(status := Confirmed, expireAt := None)])
  }

  /** The worker that saw `seen` and holds `token` may end the claim. */
  predicate HoldsClaim(db: Tables, p: nat, seen: PaymentStatus, token: nat) {
    p < |db.payments| && db.payments[p].status == seen && db.payments[p].token == token
  }

  /**
   The second transaction of a settlement, after the provider has been asked.  `unpaid` says that the
   statement that confirms the order failed, which reads like an order that can no longer be paid for.
   */
  function FinishPayment(
      db: Tables, p: nat, seen: PaymentStatus, token: nat, reply: Reply, now: int, delay: int, unpaid: bool): Tables
    requires HoldsClaim(db, p, seen, token) ==> |db.trails| == |db.payments|
  {
    if !HoldsClaim(db, p, seen, token) then db
    else if reply.Raised? then EndClaim(db, p, seen, now + delay, [Change(Some(seen), seen)])
    else
      var next := NextStatus(reply);
      var moves := [Change(Some(seen), next)];
      if seen.Created? then
        if CanTransitionPayment(Created, next) then EndClaim(db, p, next, now + delay, moves) else db
      else if next.Processing? then EndClaim(db, p, Processing, now + delay, [])
      else if !CanTransitionPayment(Processing, next) then db
      else
        var db1 := EndClaim(db, p, next, now, moves);
        var row := db.payments[p];
        if !next.Succeeded? then db1
        else if CanConfirm(db1, row.reservation, row.user, now) && !unpaid then Confirm(db1, row.reservation)
        else BeginRefund(db1, p, now)
  }

  // ---------- refunding ----------

  predicate CanClaimRefund(db: Tables, f: nat, expected: RefundStatus, now: int) {
    f < |db.refunds| && db.refunds[f].status == expected && db.refunds[f].nextActionAt <= now
  }

  function ClaimRefund(db: Tables, f: nat, expected: RefundStatus, now: int, lease: int): Tables {
    if !CanClaimRefund(db, f, expected, now) then db
    else
      db.(refunds := db.refunds[f := db.refunds[f].(token := db.nextToken, nextActionAt := now + lease)],
          nextToken := db.nextToken + 1)
  }

  predicate HoldsRefund(db: Tables, f: nat, seen: RefundStatus, token: nat) {
    f < |db.refunds| && db.refunds[f].status == seen && db.refunds[f].token == token
  }

  function FinishRefund(db: Tables, f: nat, seen: RefundStatus, token: nat, succeeded: bool, at: int): Tables
    requires HoldsRefund(db, f, seen, token) ==> db.refunds[f].payment < |db.payments| == |db.trails|
  {
    if !HoldsRefund(db, f, seen, token) then db
    else
      var row := db.refunds[f];
      if succeeded then
        if !db.payments[row.payment].status.Refunding? then db  // the whole transaction is rolled back
        else
          var pay := db.payments[row.payment];
          db.(refunds := db.refunds[f :=
                row.(status := RefundSucceeded, attempts := row.attempts + 1, token := 0, nextActionAt := at)],
              payments := db.payments[row.payment := pay.(status := Refunded, nextActionAt := at)],
              trails := db.trails[row.payment :=
                db.trails[row.payment] + [Change(Some(Refunding), Refunded)]],
              finished := db.finished + [token])
      else
        var next := if row.attempts + 1 >= row.maxAttempts then RefundFailed else RefundProcessing;
        db.(refunds := db.refunds[f :=
              row.(status := next, attempts := row.attempts + 1, token := 0, nextActionAt := at)],
            finished := db.finished + [token])
  }
}
