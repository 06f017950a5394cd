/**
 What every run of the order service keeps, whatever the interleaving of its transactions and
 however late a worker acts on what it read before.
 */
module OrderInvariants {
  import opened Basics
  import opened OrderTables

  // ---------- stock ----------

  function LiveQuantity(row: Reservation, t: nat): int {
    if row.ticket == t && Live(row.status) then row.quantity else 0
  }

  /** The tickets for event `t` that live orders hold. */
  function Held(rs: seq<Reservation>, t: nat): int {
    if rs == [] then 0 else Held(rs[..|rs| - 1], t) + LiveQuantity(rs[|rs| - 1], t)
  }

  lemma {:induction false} HeldSet(rs: seq<Reservation>, r: nat, row: Reservation, t: nat)
    requires r < |rs|
    ensures Held(rs[r := row], t) == Held(rs, t) - LiveQuantity(rs[r], t) + LiveQuantity(row, t)
  {
    var n := |rs| - 1;
    if r == n {
      assert rs[r := row][..n] == rs[..n];
    } else {
      HeldSet(rs[..n], r, row, t);
      assert rs[r := row][..n] == rs[..n][r := row];
    }
  }

  ghost predicate StockOk(tickets: seq<Ticket>, rs: seq<Reservation>) {
    && (forall r :: 0 <= r < |rs| ==> rs[r].ticket < |tickets| && 1 <= rs[r].quantity)
    && (forall t :: 0 <= t < |tickets| ==>
          0 <= tickets[t].available && tickets[t].available + Held(rs, t) == tickets[t].total)
  }

  lemma HeldNothing(rs: seq<Reservation>, t: nat)
    requires forall r :: 0 <= r < |rs| ==> rs[r].ticket < t
    ensures Held(rs, t) == 0
  {
  }

  lemma StockEnd(tickets: seq<Ticket>, rs: seq<Reservation>, r: nat, status: OrderStatus)
    requires StockOk(tickets, rs) && r < |rs| && Live(rs[r].status) && !Live(status)
    ensures StockOk(Adjust(tickets, rs[r].ticket, rs[r].quantity), rs[r := rs[r].(status := status)])
  {
    forall t: nat { HeldSet(rs, r, rs[r].(status := status), t); }
  }

  lemma StockPlace(tickets: seq<Ticket>, rs: seq<Reservation>, row: Reservation)
    requires StockOk(tickets, rs) && row.ticket < |tickets| && Live(row.status)
    requires 1 <= row.quantity <= tickets[row.ticket].available
    ensures StockOk(Adjust(tickets, row.ticket, -row.quantity), rs + [row])
  {
  }

  lemma StockAdd(tickets: seq<Ticket>, rs: seq<Reservation>, ticket: Ticket)
    requires StockOk(tickets, rs) && ticket.available == ticket.total
    ensures StockOk(tickets + [ticket], rs)
  {
    HeldNothing(rs, |tickets|);
  }

  // ---------- seats ----------

  /** A seat is sold exactly to the live order that asked for it. */
  ghost predicate SeatsOk(seats: seq<Seat>, rs: seq<Reservation>) {
    && (forall s :: 0 <= s < |seats| ==> (seats[s].sold <==> seats[s].reservation.Some?))
    && (forall s :: 0 <= s < |seats| && seats[s].reservation.Some? ==> seats[s].reservation.value < |rs|)
    && (forall s, r :: 0 <= s < |seats| && 0 <= r < |rs| ==>
          (seats[s].reservation == Some(r) <==> Live(rs[r].status) && s in rs[r].seatIds))
    && (forall r, i :: 0 <= r < |rs| && 0 <= i < |rs[r].seatIds| ==>
          rs[r].seatIds[i] < |seats| && seats[rs[r].seatIds[i]].ticket == rs[r].ticket)
    && (forall r :: 0 <= r < |rs| ==> ValidOrder(rs[r].quantity, rs[r].seatIds))
  }

  lemma SeatsEnd(seats: seq<Seat>, rs: seq<Reservation>, r: nat, status: OrderStatus)
    requires SeatsOk(seats, rs) && r < |rs| && Live(rs[r].status) && !Live(status)
    ensures SeatsOk(ReleaseAll(seats, r), rs[r := rs[r].(status := status)])
  {
  }

  lemma SeatsPlace(seats: seq<Seat>, rs: seq<Reservation>, row: Reservation)
    requires SeatsOk(seats, rs) && Live(row.status) && ValidOrder(row.quantity, row.seatIds)
    requires forall i :: 0 <= i < |row.seatIds| ==>
      row.seatIds[i] < |seats| && seats[row.seatIds[i]].ticket == row.ticket && !seats[row.seatIds[i]].sold
    ensures SeatsOk(SellAll(seats, row.seatIds, |rs|), rs + [row])
  {
    var seats', rs' := SellAll(seats, row.seatIds, |rs|), rs + [row];
    forall s, r | 0 <= s < |seats| && 0 <= r < |rs'|
      ensures seats'[s].reservation == Some(r) <==> Live(rs'[r].status) && s in rs'[r].seatIds
    {
      if s in row.seatIds && r < |rs| {
        assert seats[s].reservation != Some(r);
      }
    }
    forall r, i | 0 <= r < |rs'| && 0 <= i < |rs'[r].seatIds|
      ensures rs'[r].seatIds[i] < |seats'| && seats'[rs'[r].seatIds[i]].ticket == rs'[r].ticket
    {
      if r == |rs| { assert rs'[r] == row; }
    }
  }

  lemma SeatsConfirm(seats: seq<Seat>, rs: seq<Reservation>, r: nat, row: Reservation)
    requires SeatsOk(seats, rs) && r < |rs| && Live(rs[r].status) && Live(row.status)
    requires row == rs[r].(status := row.status, expireAt := row.expireAt)
    ensures SeatsOk(seats, rs[r := row])
  {
  }

  // ---------- requests, keys and claims ----------

  ghost predicate RequestsOk(rs: seq<Reservation>) {
    forall r, r' :: 0 <= r < r' < |rs| ==> rs[r].requestId != rs[r'].requestId
  }

  ghost predicate PaymentsOk(rs: seq<Reservation>, ps: seq<Payment>) {
    && (forall p :: 0 <= p < |ps| ==> ps[p].reservation < |rs| && ps[p].user == rs[ps[p].reservation].user)
    && (forall p, p' :: 0 <= p < p' < |ps| && ps[p].user == ps[p'].user ==> ps[p].key != ps[p'].key)
  }

  /** An order has one active payment at most. */
  ghost predicate OneActive(ps: seq<Payment>) {
    forall p, p' :: 0 <= p < p' < |ps| && Active(ps[p].status) && Active(ps[p'].status) ==>
      ps[p].reservation != ps[p'].reservation
  }

  /** Payments are never deleted, stay with their order, and never become active again. */
  ghost predicate Outdated(view: seq<Payment>, ps: seq<Payment>) {
    && |view| <= |ps|
    && (forall p :: 0 <= p < |view| ==>
          view[p].reservation == ps[p].reservation && (Active(ps[p].status) ==> Active(view[p].status)))
  }

  ghost predicate ActiveOk(ps: seq<Payment>, views: map<nat, seq<Payment>>, doubled: bool) {
    && (!doubled ==> OneActive(ps))
    && (forall w :: w in views ==> Outdated(views[w], ps))
  }

  /** A token is on one row at most, and one that has ended a claim is on none and not repeated. */
  ghost predicate TokensOk(ps: seq<Payment>, fs: seq<Refund>, finished: seq<nat>, next: nat) {
    && 1 <= next
    && (forall p :: 0 <= p < |ps| ==> ps[p].token < next && ps[p].token !in finished)
    && (forall f :: 0 <= f < |fs| ==> fs[f].token < next && fs[f].token !in finished)
    && (forall p, p' :: 0 <= p < p' < |ps| && ps[p].token != 0 ==> ps[p].token != ps[p'].token)
    && (forall f, f' :: 0 <= f < f' < |fs| && fs[f].token != 0 ==> fs[f].token != fs[f'].token)
    && (forall p, f :: 0 <= p < |ps| && 0 <= f < |fs| && ps[p].token != 0 ==> ps[p].token != fs[f].token)
    && Distinct(finished)
    && (forall i :: 0 <= i < |finished| ==> 1 <= finished[i] < next)
  }

  // ---------- money ----------

  predicate Captured(ps: seq<Payment>, overlooked: set<nat>, p: nat) {
    p < |ps| && ps[p].status.Succeeded? && p !in overlooked
  }

  /**
   A confirmed order has a successful payment, which is its own and the only one.  An overlooked one
   stands behind an order that was cancelled.
   */
  ghost predicate CapturedOk(rs: seq<Reservation>, ps: seq<Payment>, overlooked: set<nat>) {
    && (forall p :: 0 <= p < |ps| && Captured(ps, overlooked, p) ==>
          ps[p].reservation < |rs| && rs[ps[p].reservation].status.Confirmed?)
    && (forall p, p' :: 0 <= p < p' < |ps| && Captured(ps, overlooked, p) && Captured(ps, overlooked, p') ==>
          ps[p].reservation != ps[p'].reservation)
    && (forall p :: p in overlooked ==>
          p < |ps| && ps[p].status.Succeeded? && ps[p].reservation < |rs| && rs[ps[p].reservation].status.Cancelled?)
    && (forall r :: 0 <= r < |rs| && rs[r].status.Confirmed? ==> SucceededFor(ps, r).Some?)
  }

  /** A payment that is being or has been refunded has one refund, of the whole amount. */
  ghost predicate RefundsOk(ps: seq<Payment>, fs: seq<Refund>) {
    && (forall f :: 0 <= f < |fs| ==> fs[f].payment < |ps| && fs[f].amountMinor == ps[fs[f].payment].amountMinor)
    && (forall f, f' :: 0 <= f < f' < |fs| ==> fs[f].payment != fs[f'].payment)
    && (forall f :: 0 <= f < |fs| ==>
          ps[fs[f].payment].status == if fs[f].status.RefundSucceeded? then Refunded else Refunding)
    && (forall p :: 0 <= p < |ps| && (ps[p].status.Refunding? || ps[p].status.Refunded?) ==> Refunds(fs, p))
    && (forall p :: 0 <= p < |ps| ==> !ps[p].status.PartiallyRefunded?)
  }

  ghost predicate Refunds(fs: seq<Refund>, p: nat) {
    exists f :: 0 <= f < |fs| && fs[f].payment == p
  }

  /** Attempts count up to the maximum; a refund is open exactly while it has neither failed nor succeeded. */
  ghost predicate AttemptsOk(fs: seq<Refund>) {
    forall f :: 0 <= f < |fs| ==>
      && fs[f].attempts <= fs[f].maxAttempts
      && (Open(fs[f].status) ==> fs[f].attempts < fs[f].maxAttempts)
      && (fs[f].status.RefundFailed? ==> fs[f].attempts == fs[f].maxAttempts)
  }

  // ---------- audit trail ----------

  ghost predicate Chain(trail: seq<Change>) {
    && trail != [] && trail[0] == Change(None, Created)
    && (forall i :: 1 <= i < |trail| ==>
          && trail[i].from == Some(trail[i - 1].to)
          && (trail[i].to == trail[i - 1].to || CanTransitionPayment(trail[i - 1].to, trail[i].to)))
  }

  ghost predicate TrailsOk(ps: seq<Payment>, trails: seq<seq<Change>>) {
    && |trails| == |ps|
    && (forall p :: 0 <= p < |ps| ==> Chain(trails[p]) && trails[p][|trails[p]| - 1].to == ps[p].status)
  }

  ghost predicate Consistent(db: Tables) {
    && StockOk(db.tickets, db.reservations)
    && SeatsOk(db.seats, db.reservations)
    && RequestsOk(db.reservations)
    && PaymentsOk(db.reservations, db.payments)
    && ActiveOk(db.payments, db.views, db.doubled)
    && TokensOk(db.payments, db.refunds, db.finished, db.nextToken)
    && CapturedOk(db.reservations, db.payments, db.overlooked)
    && RefundsOk(db.payments, db.refunds)
    && AttemptsOk(db.refunds)
    && TrailsOk(db.payments, db.trails)
  }

  // ---------- every transaction keeps it ----------

  /** One transaction of the service, with what its worker believes. */
  datatype Step =
    | Added(total: nat, price: int)
    | Seated(ticket: nat, seatPrices: seq<int>)
    | TakenOffline(ticket: nat)
    | Placed(user: nat, ticket: nat, quantity: int, request: string, seatIds: seq<nat>, now: int)
    | CancelledBy(user: nat, reservation: nat, now: int, missed: bool)
    | ExpiredAt(reservation: nat, now: int)
    | ViewTaken(worker: nat)
    | PaymentCreated(
        worker: nat, level: Isolation, user: nat, reservation: nat, key: string, failed: bool, now: int)
    | PaymentClaimed(payment: nat, now: int, lease: int)
    | PaymentFinished(
        payment: nat, seen: PaymentStatus, token: nat, reply: Reply, now: int, delay: int, unpaid: bool)
    | RefundClaimed(refund: nat, expected: RefundStatus, now: int, lease: int)
    | RefundFinished(refund: nat, was: RefundStatus, token: nat, succeeded: bool, at: int)

  lemma StillPaid(ps: seq<Payment>, ps': seq<Payment>, r: nat)
    requires SucceededFor(ps, r).Some? && |ps| <= |ps'|
    requires forall p :: 0 <= p < |ps| && ps[p].status.Succeeded? && ps[p].reservation == r ==> ps'[p] == ps[p]
    ensures SucceededFor(ps', r).Some?
  {
  }

  /** The successful payment of a confirmed order stops being one together with the order. */
  lemma CapturedRefund(
      rs: seq<Reservation>, ps: seq<Payment>, overlooked: set<nat>, r: nat, row: Reservation, p: nat, pay: Payment)
    requires CapturedOk(rs, ps, overlooked) && r < |rs| && rs[r].status.Confirmed? && row.status.Cancelled?
    requires p < |ps| && ps[p].status.Succeeded? && ps[p].reservation == r && !pay.status.Succeeded?
    ensures CapturedOk(rs[r := row], ps[p := pay], overlooked)
  {
    forall i | 0 <= i < |rs| && i != r && rs[i].status.Confirmed? ensures SucceededFor(ps[p := pay], i).Some? {
      StillPaid(ps, ps[p := pay], i);
    }
  }

  /** Or it stays as it is, overlooked. */
  lemma CapturedMissed(rs: seq<Reservation>, ps: seq<Payment>, overlooked: set<nat>, r: nat, row: Reservation, p: nat)
    requires CapturedOk(rs, ps, overlooked) && r < |rs| && rs[r].status.Confirmed? && row.status.Cancelled?
    requires p < |ps| && ps[p].status.Succeeded? && ps[p].reservation == r
    ensures CapturedOk(rs[r := row], ps, overlooked + {p})
  {
  }

  lemma CapturedMove(rs: seq<Reservation>, ps: seq<Payment>, overlooked: set<nat>, p: nat, pay: Payment)
    requires CapturedOk(rs, ps, overlooked) && p < |ps| && !ps[p].status.Succeeded? && !pay.status.Succeeded?
    ensures CapturedOk(rs, ps[p := pay], overlooked)
  {
    forall i | 0 <= i < |rs| && rs[i].status.Confirmed? ensures SucceededFor(ps[p := pay], i).Some? {
      StillPaid(ps, ps[p := pay], i);
    }
  }

  lemma CapturedConfirm(
      rs: seq<Reservation>, ps: seq<Payment>, overlooked: set<nat>, r: nat, row: Reservation, p: nat, pay: Payment)
    requires CapturedOk(rs, ps, overlooked) && r < |rs| && rs[r].status.Pending? && row.status.Confirmed?
    requires p < |ps| && !ps[p].status.Succeeded? && pay.status.Succeeded? && pay.reservation == r
    ensures CapturedOk(rs[r := row], ps[p := pay], overlooked)
  {
    var ps' := ps[p := pay];
    forall i | 0 <= i < |rs| && rs[r := row][i].status.Confirmed? ensures SucceededFor(ps', i).Some? {
      if i == r {
        assert ps'[p].status.Succeeded?;
      } else {
        StillPaid(ps, ps', i);
      }
    }
  }

  lemma CapturedMore(rs: seq<Reservation>, ps: seq<Payment>, overlooked: set<nat>, pay: Payment)
    requires CapturedOk(rs, ps, overlooked) && !pay.status.Succeeded?
    ensures CapturedOk(rs, ps + [pay], overlooked)
  {
  }

  lemma RefundsMove(ps: seq<Payment>, fs: seq<Refund>, p: nat, pay: Payment)
    requires RefundsOk(ps, fs) && p < |ps| && pay.amountMinor == ps[p].amountMinor
    requires ps[p].status == pay.status ||
      (!ps[p].status.Refunding? && !ps[p].status.Refunded? && !pay.status.Refunding? &&
       !pay.status.Refunded? && !pay.status.PartiallyRefunded?)
    ensures RefundsOk(ps[p := pay], fs)
  {
  }

  lemma RefundsBegin(ps: seq<Payment>, fs: seq<Refund>, p: nat, pay: Payment, f: Refund)
    requires RefundsOk(ps, fs) && p < |ps| && pay.amountMinor == ps[p].amountMinor
    requires !ps[p].status.Refunding? && !ps[p].status.Refunded? && pay.status.Refunding?
    requires f.payment == p && f.amountMinor == pay.amountMinor && !f.status.RefundSucceeded?
    ensures RefundsOk(ps[p := pay], fs + [f])
  {
    var ps', fs' := ps[p := pay], fs + [f];
    forall i | 0 <= i < |ps'| && (ps'[i].status.Refunding? || ps'[i].status.Refunded?)
      ensures Refunds(fs', i)
    {
      if i == p {
        assert fs'[|fs|].payment == p;
      } else {
        var g :| 0 <= g < |fs| && fs[g].payment == i;
        assert fs'[g].payment == i;
      }
    }
  }

  lemma RefundsSet(ps: seq<Payment>, fs: seq<Refund>, f: nat, row: Refund, pay: Payment)
    requires RefundsOk(ps, fs) && f < |fs| && row.payment == fs[f].payment && row.amountMinor == fs[f].amountMinor
    requires pay.amountMinor == row.amountMinor
    requires pay.status == if row.status.RefundSucceeded? then Refunded else Refunding
    ensures RefundsOk(ps[row.payment := pay], fs[f := row])
  {
    var ps', fs' := ps[row.payment := pay], fs[f := row];
    forall i | 0 <= i < |ps'| && (ps'[i].status.Refunding? || ps'[i].status.Refunded?)
      ensures Refunds(fs', i)
    {
      if i != row.payment {
        var g :| 0 <= g < |fs| && fs[g].payment == i;
        assert fs'[g].payment == i;
      } else {
        assert fs'[f].payment == i;
      }
    }
  }

  lemma TrailMove(ps: seq<Payment>, trails: seq<seq<Change>>, p: nat, pay: Payment)
    requires TrailsOk(ps, trails) && p < |ps|
    requires pay.status == ps[p].status || CanTransitionPayment(ps[p].status, pay.status)
    ensures TrailsOk(ps[p := pay], trails[p := trails[p] + [Change(Some(ps[p].status), pay.status)]])
  {
  }

  lemma TokensUse(ps: seq<Payment>, fs: seq<Refund>, finished: seq<nat>, next: nat, p: nat, pay: Payment)
    requires TokensOk(ps, fs, finished, next) && p < |ps|
    ensures pay.token == next ==> TokensOk(ps[p := pay], fs, finished, next + 1)
    ensures pay.token == 0 && ps[p].token != 0 ==> TokensOk(ps[p := pay], fs, finished + [ps[p].token], next)
    ensures pay.token == ps[p].token ==> TokensOk(ps[p := pay], fs, finished, next)
  {
  }

  lemma TokensUseRefund(ps: seq<Payment>, fs: seq<Refund>, finished: seq<nat>, next: nat, f: nat, row: Refund)
    requires TokensOk(ps, fs, finished, next) && f < |fs|
    ensures row.token == next ==> TokensOk(ps, fs[f := row], finished, next + 1)
    ensures row.token == 0 && fs[f].token != 0 ==> TokensOk(ps, fs[f := row], finished + [fs[f].token], next)
  {
  }

  lemma TokensMore(ps: seq<Payment>, fs: seq<Refund>, finished: seq<nat>, next: nat, pay: Payment, f: Refund)
    requires TokensOk(ps, fs, finished, next) && pay.token == 0 && f.token == 0
    ensures TokensOk(ps + [pay], fs, finished, next) && TokensOk(ps, fs + [f], finished, next)
  {
  }

  function Apply(db: Tables, step: Step): Tables
    requires Consistent(db)
  {
    match step
    case Added(total, price) => AddTicket(db, total, price)
    case Seated(t, seatPrices) => AddSeats(db, t, seatPrices)
    case TakenOffline(t) => if t < |db.tickets| then TakeOffline(db, t) else db
    case Placed(user, ticket, quantity, request, seatIds, now) =>
      if ValidOrder(quantity, seatIds) && CanPlace(db, ticket, quantity, request, seatIds)
      then Place(db, user, ticket, quantity, request, seatIds, now) else db
    case CancelledBy(user, r, now, missed) =>
      if CanCancel(db, user, r) then Cancel(db, user, r, now, missed) else db
    case ExpiredAt(r, now) =>
      if r < |db.reservations| && Overdue(db.reservations[r], now) then Expire(db, r, now) else db
    case ViewTaken(w) => TakeView(db, w)
    case PaymentCreated(w, level, user, r, key, failed, now) =>
      if CanPay(db, w, level, user, r, key, failed) then CreatePayment(db, w, user, r, key, now) else db
    case PaymentClaimed(p, now, lease) => if p < |db.payments| then ClaimPayment(db, p, now, lease) else db
    case PaymentFinished(p, seen, token, reply, now, delay, unpaid) =>
      if token != 0 && Active(seen) then FinishPayment(db, p, seen, token, reply, now, delay, unpaid) else db
    case RefundClaimed(f, expected, now, lease) =>
      if Open(expected) then ClaimRefund(db, f, expected, now, lease) else db
    case RefundFinished(f, was, token, succeeded, at) =>
      if token != 0 && Open(was) then FinishRefund(db, f, was, token, succeeded, at) else db
  }

  // Facts about single rows, and the tables for which a change says little.

  lemma RowsExist(db: Tables)
    requires Consistent(db)
    ensures |db.trails| == |db.payments|
    ensures forall r :: 0 <= r < |db.reservations| ==>
      db.reservations[r].ticket < |db.tickets| && 1 <= db.reservations[r].quantity
    ensures forall p :: 0 <= p < |db.payments| ==>
      && db.payments[p].reservation < |db.reservations|
      && db.payments[p].user == db.reservations[db.payments[p].reservation].user
    ensures forall f :: 0 <= f < |db.refunds| ==> db.refunds[f].payment < |db.payments|
    ensures forall f :: 0 <= f < |db.refunds| ==>
      && db.payments[db.refunds[f].payment].amountMinor == db.refunds[f].amountMinor
      && db.payments[db.refunds[f].payment].status ==
         if db.refunds[f].status.RefundSucceeded? then Refunded else Refunding
  {
  }

  lemma PaymentsMove(rs: seq<Reservation>, ps: seq<Payment>, p: nat, pay: Payment)
    requires PaymentsOk(rs, ps) && p < |ps|
    requires pay.reservation == ps[p].reservation && pay.user == ps[p].user && pay.key == ps[p].key
    ensures PaymentsOk(rs, ps[p := pay])
  {
  }

  lemma PaymentsKeep(rs: seq<Reservation>, ps: seq<Payment>, r: nat, row: Reservation)
    requires PaymentsOk(rs, ps) && RequestsOk(rs) && r < |rs|
    requires row.user == rs[r].user && row.requestId == rs[r].requestId
    ensures PaymentsOk(rs[r := row], ps) && RequestsOk(rs[r := row])
  {
  }

  lemma ActiveMove(ps: seq<Payment>, views: map<nat, seq<Payment>>, doubled: bool, p: nat, pay: Payment)
    requires ActiveOk(ps, views, doubled) && p < |ps|
    requires pay.reservation == ps[p].reservation && (Active(pay.status) ==> Active(ps[p].status))
    ensures ActiveOk(ps[p := pay], views, doubled)
  {
  }

  lemma AttemptsMore(fs: seq<Refund>, f: Refund)
    requires AttemptsOk(fs) && f.attempts < f.maxAttempts && Open(f.status)
    ensures AttemptsOk(fs + [f])
  {
  }

  lemma AttemptsUse(fs: seq<Refund>, f: nat, row: Refund)
    requires AttemptsOk(fs) && f < |fs| && Open(fs[f].status) && row.maxAttempts == fs[f].maxAttempts
    requires if row.attempts == fs[f].attempts then row.status == fs[f].status else
      && row.attempts == fs[f].attempts + 1
      && (row.status.RefundSucceeded? ||
          row.status == if row.attempts >= row.maxAttempts then RefundFailed else RefundProcessing)
    ensures AttemptsOk(fs[f := row])
  {
  }

  lemma SucceededIs(rs: seq<Reservation>, ps: seq<Payment>, overlooked: set<nat>, r: nat)
    requires CapturedOk(rs, ps, overlooked) && r < |rs| && rs[r].status.Confirmed?
    ensures SucceededFor(ps, r).Some?
  {
  }

  lemma PlaceKeeps(db: Tables, user: nat, ticket: nat, quantity: int, request: string, seatIds: seq<nat>, now: int)
    requires Consistent(db)
    requires ValidOrder(quantity, seatIds) && CanPlace(db, ticket, quantity, request, seatIds)
    ensures Consistent(Place(db, user, ticket, quantity, request, seatIds, now))
  {
    hide StockOk, SeatsOk, RequestsOk, PaymentsOk, ActiveOk, TokensOk, CapturedOk, RefundsOk, AttemptsOk, TrailsOk;
    var row := Reservation(user, ticket, quantity, Pending, Some(now + PAYMENT_WINDOW), request, seatIds);
    StockPlace(db.tickets, db.reservations, row);
    SeatsPlace(db.seats, db.reservations, row);
    OrdersMore(db.reservations, db.payments, db.overlooked, row);
  }

  lemma OrdersMore(rs: seq<Reservation>, ps: seq<Payment>, overlooked: set<nat>, row: Reservation)
    requires RequestsOk(rs) && PaymentsOk(rs, ps) && CapturedOk(rs, ps, overlooked) && row.status.Pending?
    requires forall r :: 0 <= r < |rs| ==> rs[r].requestId != row.requestId
    ensures RequestsOk(rs + [row]) && PaymentsOk(rs + [row], ps) && CapturedOk(rs + [row], ps, overlooked)
  {
  }

  lemma EndKeeps(db: Tables, r: nat, status: OrderStatus)
    requires Consistent(db) && r < |db.reservations| && Live(db.reservations[r].status) && !Live(status)
    ensures
      var db1 := EndOrder(db, r, status);
      && StockOk(db1.tickets, db1.reservations)
      && SeatsOk(db1.seats, db1.reservations)
      && RequestsOk(db1.reservations)
      && PaymentsOk(db1.reservations, db1.payments)
      && (db.reservations[r].status.Pending? ==> CapturedOk(db1.reservations, db1.payments, db1.overlooked))
  {
    StockEnd(db.tickets, db.reservations, r, status);
    SeatsEnd(db.seats, db.reservations, r, status);
  }

  lemma CancelKeeps(db: Tables, user: nat, r: nat, now: int, missed: bool)
    requires Consistent(db) && CanCancel(db, user, r)
    ensures db.reservations[r].ticket < |db.tickets| && |db.trails| == |db.payments|
    ensures Consistent(Cancel(db, user, r, now, missed))
  {
    hide StockOk, SeatsOk, RequestsOk, PaymentsOk, ActiveOk, TokensOk, CapturedOk, RefundsOk, AttemptsOk, TrailsOk;
    RowsExist(db);
    EndKeeps(db, r, Cancelled);
    if db.reservations[r].status.Confirmed? {
      SucceededIs(db.reservations, db.payments, db.overlooked, r);
      var p := SucceededFor(db.payments, r).value;
      if missed {
        CapturedMissed(db.reservations, db.payments, db.overlooked, r, EndOrder(db, r, Cancelled).reservations[r], p);
      } else {
        CancelRefunds(db, r, p, now);
      }
    }
  }

  lemma CancelRefunds(db: Tables, r: nat, p: nat, now: int)
    requires Consistent(db) && r < |db.reservations| && db.reservations[r].status.Confirmed?
    requires p < |db.payments| && db.payments[p].status.Succeeded? && db.payments[p].reservation == r
    ensures db.reservations[r].ticket < |db.tickets| && |db.trails| == |db.payments|
    ensures Consistent(BeginRefund(EndOrder(db, r, Cancelled), p, now))
  {
    hide StockOk, SeatsOk, RequestsOk, PaymentsOk, ActiveOk, TokensOk, CapturedOk, RefundsOk, AttemptsOk, TrailsOk;
    RowsExist(db);
    EndKeeps(db, r, Cancelled);
    var db1 := EndOrder(db, r, Cancelled);
    var db2 := BeginRefund(db1, p, now);
    var pay, f := db2.payments[p], db2.refunds[|db.refunds|];
    CapturedRefund(db.reservations, db.payments, db.overlooked, r, db1.reservations[r], p, pay);
    PaymentsMove(db1.reservations, db.payments, p, pay);
    ActiveMove(db.payments, db.views, db.doubled, p, pay);
    RefundsBegin(db.payments, db.refunds, p, pay, f);
    AttemptsMore(db.refunds, f);
    TrailMove(db.payments, db.trails, p, pay);
    TokensUse(db.payments, db.refunds, db.finished, db.nextToken, p, pay);
    TokensMore(db2.payments, db.refunds, db.finished, db.nextToken, pay.(token := 0), f);
  }

  lemma CreateKeeps(
      db: Tables, w: nat, level: Isolation, user: nat, r: nat, key: string, failed: bool, now: int)
    requires Consistent(db) && CanPay(db, w, level, user, r, key, failed)
    ensures db.reservations[r].ticket < |db.tickets| && Consistent(CreatePayment(db, w, user, r, key, now))
  {
    hide StockOk, SeatsOk, RequestsOk, PaymentsOk, ActiveOk, TokensOk, CapturedOk, RefundsOk, AttemptsOk, TrailsOk;
    RowsExist(db);
    var db1 := CreatePayment(db, w, user, r, key, now);
    var pay := db1.payments[|db.payments|];
    CapturedMore(db.reservations, db.payments, db.overlooked, pay);
    TokensMore(db.payments, db.refunds, db.finished, db.nextToken, pay, Refund(0, 0, RefundCreated, 0, 0, 0, 0));
    PaymentsMore(db, pay);
    ActiveMore(db.payments, db.views, db.doubled, w, pay);
  }

  lemma PaymentsMore(db: Tables, pay: Payment)
    requires PaymentsOk(db.reservations, db.payments)
    requires RefundsOk(db.payments, db.refunds) && TrailsOk(db.payments, db.trails)
    requires pay.reservation < |db.reservations| && db.reservations[pay.reservation].user == pay.user
    requires pay.status.Created? && !KeyUsed(db.payments, pay.user, pay.key)
    ensures PaymentsOk(db.reservations, db.payments + [pay]) && RefundsOk(db.payments + [pay], db.refunds)
    ensures TrailsOk(db.payments + [pay], db.trails + [[Change(None, Created)]])
  {
  }

  lemma ActiveMore(ps: seq<Payment>, views: map<nat, seq<Payment>>, doubled: bool, w: nat, pay: Payment)
    requires ActiveOk(ps, views, doubled)
    ensures ActiveOk(ps + [pay], views - {w}, doubled || ActiveFor(ps, pay.reservation))
  {
  }

  lemma ViewKeeps(db: Tables, w: nat)
    requires Consistent(db)
    ensures Consistent(TakeView(db, w))
  {
  }

  /** A payment moves on without becoming or ceasing to be a successful one. */
  lemma MoveKeeps(db: Tables, p: nat, pay: Payment, trail: seq<Change>)
    requires Consistent(db) && p < |db.payments|
    requires pay == db.payments[p].(status := pay.status, token := pay.token, nextActionAt := pay.nextActionAt)
    requires Active(db.payments[p].status)
    requires pay.status == db.payments[p].status || CanTransitionPayment(db.payments[p].status, pay.status)
    requires !pay.status.Succeeded?
    requires trail == [Change(Some(db.payments[p].status), pay.status)] ||
      (trail == [] && pay.status == db.payments[p].status)
    ensures PaymentsOk(db.reservations, db.payments[p := pay]) && ActiveOk(db.payments[p := pay], db.views, db.doubled)
    ensures CapturedOk(db.reservations, db.payments[p := pay], db.overlooked)
    ensures RefundsOk(db.payments[p := pay], db.refunds)
    ensures TrailsOk(db.payments[p := pay], db.trails[p := db.trails[p] + trail])
  {
    hide StockOk, SeatsOk, RequestsOk, PaymentsOk, ActiveOk, TokensOk, CapturedOk, RefundsOk, AttemptsOk;
    PaymentsMove(db.reservations, db.payments, p, pay);
    ActiveMove(db.payments, db.views, db.doubled, p, pay);
    CapturedMove(db.reservations, db.payments, db.overlooked, p, pay);
    RefundsMove(db.payments, db.refunds, p, pay);
    if trail != [] {
      TrailMove(db.payments, db.trails, p, pay);
    } else {
      assert db.trails[p] + trail == db.trails[p];
    }
  }

  lemma ClaimKeeps(db: Tables, p: nat, now: int, lease: int)
    requires Consistent(db) && p < |db.payments|
    ensures db.payments[p].reservation < |db.reservations| && |db.trails| == |db.payments|
    ensures Consistent(ClaimPayment(db, p, now, lease))
  {
    hide StockOk, SeatsOk, RequestsOk, PaymentsOk, ActiveOk, TokensOk, CapturedOk, RefundsOk, AttemptsOk, TrailsOk;
    RowsExist(db);
    var pay := ClaimPayment(db, p, now, lease).payments[p];
    TokensUse(db.payments, db.refunds, db.finished, db.nextToken, p, pay);
    match ClaimOutcome(db, p, now)
    case NoClaim =>
    case ClosedUnpayable => MoveKeeps(db, p, pay, [Change(Some(Created), Closed)]);
    case Claimed(_, _, _) =>
      MoveKeeps(db, p, pay, []);
      assert db.trails[p] + [] == db.trails[p];
      assert db.trails[p := db.trails[p]] == db.trails;
  }

  lemma EndClaimKeeps(db: Tables, p: nat, next: PaymentStatus, at: int, changes: seq<Change>)
    requires Consistent(db) && p < |db.payments| && db.payments[p].token != 0
    requires Active(db.payments[p].status) && !next.Succeeded?
    requires next == db.payments[p].status || CanTransitionPayment(db.payments[p].status, next)
    requires changes == [Change(Some(db.payments[p].status), next)] || (changes == [] && next == db.payments[p].status)
    ensures |db.trails| == |db.payments| && Consistent(EndClaim(db, p, next, at, changes))
  {
    hide StockOk, SeatsOk, RequestsOk, PaymentsOk, ActiveOk, TokensOk, CapturedOk, RefundsOk, AttemptsOk, TrailsOk;
    RowsExist(db);
    var pay := EndClaim(db, p, next, at, changes).payments[p];
    TokensUse(db.payments, db.refunds, db.finished, db.nextToken, p, pay);
    MoveKeeps(db, p, pay, changes);
  }

  /** The provider reports success and the order can still be paid for. */
  lemma ConfirmKeeps(db: Tables, p: nat, now: int)
    requires Consistent(db) && p < |db.payments| && db.payments[p].token != 0 && db.payments[p].status.Processing?
    requires CanConfirm(db, db.payments[p].reservation, db.payments[p].user, now)
    ensures |db.trails| == |db.payments|
    ensures
      var db1 := EndClaim(db, p, Succeeded, now, [Change(Some(Processing), Succeeded)]);
      Consistent(Confirm(db1, db.payments[p].reservation))
  {
    hide StockOk, SeatsOk, RequestsOk, PaymentsOk, ActiveOk, TokensOk, CapturedOk, RefundsOk, AttemptsOk, TrailsOk;
    RowsExist(db);
    var r := db.payments[p].reservation;
    var db1 := EndClaim(db, p, Succeeded, now, [Change(Some(Processing), Succeeded)]);
    var pay, row := db1.payments[p], Confirm(db1, r).reservations[r];
    TokensUse(db.payments, db.refunds, db.finished, db.nextToken, p, pay);
    TrailMove(db.payments, db.trails, p, pay);
    RefundsMove(db.payments, db.refunds, p, pay);
    PaymentsMove(db.reservations, db.payments, p, pay);
    PaymentsKeep(db.reservations, db1.payments, r, row);
    ActiveMove(db.payments, db.views, db.doubled, p, pay);
    CapturedConfirm(db.reservations, db.payments, db.overlooked, r, row, p, pay);
    SeatsConfirm(db.seats, db.reservations, r, row);
    StockConfirm(db.tickets, db.reservations, r, row);
  }

  lemma StockConfirm(tickets: seq<Ticket>, rs: seq<Reservation>, r: nat, row: Reservation)
    requires StockOk(tickets, rs) && r < |rs| && Live(rs[r].status) && Live(row.status)
    requires row.ticket == rs[r].ticket && row.quantity == rs[r].quantity
    ensures StockOk(tickets, rs[r := row])
  {
    forall t: nat { HeldSet(rs, r, row, t); }
  }

  /** The provider reports success, but the order is no longer payable: the money goes back. */
  lemma ReturnKeeps(db: Tables, p: nat, now: int)
    requires Consistent(db) && p < |db.payments| && db.payments[p].token != 0 && db.payments[p].status.Processing?
    ensures |db.trails| == |db.payments|
    ensures
      var db1 := EndClaim(db, p, Succeeded, now, [Change(Some(Processing), Succeeded)]);
      Consistent(BeginRefund(db1, p, now))
  {
    hide StockOk, SeatsOk, RequestsOk, PaymentsOk, ActiveOk, TokensOk, CapturedOk, RefundsOk, AttemptsOk, TrailsOk;
    RowsExist(db);
    var db1 := EndClaim(db, p, Succeeded, now, [Change(Some(Processing), Succeeded)]);
    var db2 := BeginRefund(db1, p, now);
    var pay, f := db2.payments[p], db2.refunds[|db.refunds|];
    assert db1.payments[p := pay] == db.payments[p := pay] == db2.payments;
    TokensUse(db.payments, db.refunds, db.finished, db.nextToken, p, pay);
    TokensMore(db2.payments, db.refunds, db2.finished, db.nextToken, pay, f);
    TrailMove(db.payments, db.trails, p, db1.payments[p]);
    TrailMove(db1.payments, db1.trails, p, pay);
    RefundsBegin(db.payments, db.refunds, p, pay, f);
    AttemptsMore(db.refunds, f);
    PaymentsMove(db.reservations, db.payments, p, pay);
    ActiveMove(db.payments, db.views, db.doubled, p, pay);
    CapturedMove(db.reservations, db.payments, db.overlooked, p, pay);
  }

  lemma FinishKeeps(
      db: Tables, p: nat, seen: PaymentStatus, token: nat, reply: Reply, now: int, delay: int, unpaid: bool)
    requires Consistent(db) && token != 0 && Active(seen)
    ensures |db.trails| == |db.payments| && Consistent(FinishPayment(db, p, seen, token, reply, now, delay, unpaid))
  {
    hide Consistent, EndClaim, Confirm, BeginRefund;
    RowsExist(db);
    if HoldsClaim(db, p, seen, token) {
      if reply.Raised? {
        EndClaimKeeps(db, p, seen, now + delay, [Change(Some(seen), seen)]);
      } else {
        var next := NextStatus(reply);
        if seen.Created? {
          if CanTransitionPayment(Created, next) {
            EndClaimKeeps(db, p, next, now + delay, [Change(Some(seen), next)]);
          }
        } else if next.Processing? {
          EndClaimKeeps(db, p, next, now + delay, []);
        } else if CanTransitionPayment(Processing, next) {
          if !next.Succeeded? {
            EndClaimKeeps(db, p, next, now, [Change(Some(seen), next)]);
          } else {
            EndClaimSameOrders(db, p, next, now, [Change(Some(seen), next)]);
            if CanConfirm(db, db.payments[p].reservation, db.payments[p].user, now) && !unpaid {
              ConfirmKeeps(db, p, now);
            } else {
              ReturnKeeps(db, p, now);
            }
          }
        }
      }
    }
  }

  lemma EndClaimSameOrders(db: Tables, p: nat, next: PaymentStatus, at: int, changes: seq<Change>)
    requires p < |db.payments| == |db.trails|
    ensures EndClaim(db, p, next, at, changes).reservations == db.reservations
  {
  }

  lemma ClaimRefundKeeps(db: Tables, f: nat, expected: RefundStatus, now: int, lease: int)
    requires Consistent(db) && Open(expected)
    ensures Consistent(ClaimRefund(db, f, expected, now, lease))
  {
    if CanClaimRefund(db, f, expected, now) {
      hide StockOk, SeatsOk, RequestsOk, PaymentsOk, ActiveOk, TokensOk, CapturedOk, RefundsOk, AttemptsOk, TrailsOk;
      RowsExist(db);
      var row := ClaimRefund(db, f, expected, now, lease).refunds[f];
      AttemptsUse(db.refunds, f, row);
      assert db.payments[row.payment := db.payments[row.payment]] == db.payments;
      TokensUseRefund(db.payments, db.refunds, db.finished, db.nextToken, f, row);
      RefundsSet(db.payments, db.refunds, f, row, db.payments[row.payment]);
    }
  }

  lemma FinishRefundKeeps(db: Tables, f: nat, was: RefundStatus, token: nat, succeeded: bool, at: int)
    requires Consistent(db) && token != 0 && Open(was)
    ensures HoldsRefund(db, f, was, token) ==> db.refunds[f].payment < |db.payments| == |db.trails|
    ensures Consistent(FinishRefund(db, f, was, token, succeeded, at))
  {
    hide StockOk, SeatsOk, RequestsOk, PaymentsOk, ActiveOk, TokensOk, CapturedOk, RefundsOk, AttemptsOk, TrailsOk;
    RowsExist(db);
    if HoldsRefund(db, f, was, token) {
      var db1 := FinishRefund(db, f, was, token, succeeded, at);
      var row := db1.refunds[f];
      var pay := db1.payments[row.payment];
      assert db1.payments == db.payments[row.payment := pay];
      RefundsSet(db.payments, db.refunds, f, row, pay);
      AttemptsUse(db.refunds, f, row);
      TokensUseRefund(db.payments, db.refunds, db.finished, db.nextToken, f, row);
      TokensUse(db.payments, db1.refunds, db1.finished, db.nextToken, row.payment, pay);
      PaymentsMove(db.reservations, db.payments, row.payment, pay);
      ActiveMove(db.payments, db.views, db.doubled, row.payment, pay);
      CapturedMove(db.reservations, db.payments, db.overlooked, row.payment, pay);
      if succeeded {
        TrailMove(db.payments, db.trails, row.payment, pay);
      }
    }
  }

  lemma AddKeeps(db: Tables, total: nat, price: int)
    requires Consistent(db)
    ensures Consistent(AddTicket(db, total, price))
  {
    hide StockOk, SeatsOk, RequestsOk, PaymentsOk, ActiveOk, TokensOk, CapturedOk, RefundsOk, AttemptsOk, TrailsOk;
    StockAdd(db.tickets, db.reservations, AddTicket(db, total, price).tickets[|db.tickets|]);
  }

  lemma SeatedKeeps(db: Tables, t: nat, seatPrices: seq<int>)
    requires Consistent(db)
    ensures Consistent(AddSeats(db, t, seatPrices))
  {
  }

  lemma OfflineKeeps(db: Tables, t: nat)
    requires Consistent(db) && t < |db.tickets|
    ensures Consistent(TakeOffline(db, t))
  {
  }

  lemma ExpireKeeps(db: Tables, r: nat, now: int)
    requires Consistent(db) && r < |db.reservations| && Overdue(db.reservations[r], now)
    ensures db.reservations[r].ticket < |db.tickets| && Consistent(Expire(db, r, now))
  {
    hide StockOk, SeatsOk, RequestsOk, PaymentsOk, ActiveOk, TokensOk, CapturedOk, RefundsOk, AttemptsOk, TrailsOk;
    RowsExist(db);
    EndKeeps(db, r, Expired);
  }

  lemma StepKeeps(db: Tables, step: Step)
    requires Consistent(db)
    ensures Consistent(Apply(db, step))
  {
    hide Consistent;
    match step
    case Added(total, price) => AddKeeps(db, total, price);
    case Seated(t, seatPrices) => SeatedKeeps(db, t, seatPrices);
    case TakenOffline(t) => if t < |db.tickets| { OfflineKeeps(db, t); }
    case Placed(user, ticket, quantity, request, seatIds, now) =>
      if ValidOrder(quantity, seatIds) && CanPlace(db, ticket, quantity, request, seatIds) {
        PlaceKeeps(db, user, ticket, quantity, request, seatIds, now);
      }
    case CancelledBy(user, r, now, missed) =>
      if CanCancel(db, user, r) { CancelKeeps(db, user, r, now, missed); }
    case ExpiredAt(r, now) =>
      if r < |db.reservations| && Overdue(db.reservations[r], now) {
        ExpireKeeps(db, r, now);
      }
    case ViewTaken(w) => ViewKeeps(db, w);
    case PaymentCreated(w, level, user, r, key, failed, now) =>
      if CanPay(db, w, level, user, r, key, failed) { CreateKeeps(db, w, level, user, r, key, failed, now); }
    case PaymentClaimed(p, now, lease) =>
      if p < |db.payments| { ClaimKeeps(db, p, now, lease); }
    case PaymentFinished(p, seen, token, reply, now, delay, unpaid) =>
      if token != 0 && Active(seen) { FinishKeeps(db, p, seen, token, reply, now, delay, unpaid); }
    case RefundClaimed(f, expected, now, lease) =>
      if Open(expected) { ClaimRefundKeeps(db, f, expected, now, lease); }
    case RefundFinished(f, was, token, succeeded, at) =>
      if token != 0 && Open(was) { FinishRefundKeeps(db, f, was, token, succeeded, at); }
  }
}
