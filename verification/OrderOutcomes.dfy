/**
 What each transaction does to the rows it is about, written out in terms of the rows before: when an order
 is placed, paid for, cancelled or expired, what it costs, and what a claim leaves behind.
 */
module OrderOutcomes {
  import opened Basics
  import opened OrderTables
  import opened OrderInvariants
  import opened OrderRuns

  // ---------- settling a payment ----------

  /** The order can still be paid for: pending, of that user, and its payment window is open. */
  predicate StillPayable(row: Reservation, user: nat, now: int) {
    row.status == Pending && row.user == user && row.expireAt.Some? && now < row.expireAt.value
  }

  /** Only the rows of payment p and of its order, the refunds and the history may differ. */
  predicate OnlyThat(db: Tables, after: Tables, p: nat)
    requires p < |db.payments| && p < |after.payments|
  {
    && after.tickets == db.tickets && after.seats == db.seats
    && after.payments == db.payments[p := after.payments[p]]
  }

  /**
   The provider reports success to the worker that holds the claim on a payment in process.  The order is
   confirmed and the money kept exactly when it can still be paid for and the confirming statement does
   not fail; otherwise one refund of the whole amount begins.
   */
  lemma SuccessOutcome(db: Tables, p: nat, token: nat, now: int, delay: int, unpaid: bool)
    requires Consistent(db) && token != 0 && p < |db.payments|
    requires db.payments[p].status == Processing && db.payments[p].token == token
    ensures |db.trails| == |db.payments| && db.payments[p].reservation < |db.reservations|
    ensures
      var after := FinishPayment(db, p, Processing, token, Replied(true, Succeeded), now, delay, unpaid);
      var pay, r := db.payments[p], db.payments[p].reservation;
      var row := db.reservations[r];
      && p < |after.payments| && OnlyThat(db, after, p)
      && if StillPayable(row, pay.user, now) && !unpaid then
           && after.reservations == db.reservations[r := row.(status := Confirmed, expireAt := None)]
           && after.payments[p] == pay.(status := Succeeded, token := 0, nextActionAt := now)
           && after.refunds == db.refunds
         else
           && after.reservations == db.reservations
           && after.payments[p] == pay.(status := Refunding, token := 0, nextActionAt := now)
           && after.refunds == db.refunds + [Refund(p, pay.amountMinor, RefundCreated, 0, 5, 0, now)]
  {
    RowsExist(db);
    hide Consistent;
  }

  /** Any other answer ends the claim with the status it calls for, or, if that is not one it may, changes nothing. */
  lemma ReplyOutcome(
      db: Tables, p: nat, seen: PaymentStatus, token: nat, reply: Reply, now: int, delay: int, unpaid: bool)
    requires Consistent(db) && token != 0 && p < |db.payments| && (seen == Created || seen == Processing)
    requires db.payments[p].status == seen && db.payments[p].token == token
    requires !(seen == Processing && reply == Replied(true, Succeeded))
    ensures |db.trails| == |db.payments|
    ensures
      var after := FinishPayment(db, p, seen, token, reply, now, delay, unpaid);
      var pay := db.payments[p];
      var next := if reply.Raised? then seen else if reply.accepted then reply.state else Failed;
      && after.reservations == db.reservations && after.refunds == db.refunds
      && if reply.Raised? || (seen == Processing && next == Processing) || (seen == Created && next == Processing)
         then p < |after.payments| && OnlyThat(db, after, p)
           && after.payments[p] == pay.(status := next, token := 0, nextActionAt := now + delay)
         else if next == Failed || next == Closed
         then p < |after.payments| && OnlyThat(db, after, p)
           && after.payments[p] ==
              pay.(status := next, token := 0, nextActionAt := if seen == Created then now + delay else now)
         else after == db
  {
    RowsExist(db);
    hide Consistent;
  }

  /** A worker that no longer holds the claim changes nothing. */
  lemma LostClaim(
      db: Tables, p: nat, seen: PaymentStatus, token: nat, reply: Reply, now: int, delay: int, unpaid: bool)
    requires p < |db.payments| ==> db.payments[p].status != seen || db.payments[p].token != token
    ensures FinishPayment(db, p, seen, token, reply, now, delay, unpaid) == db
  {
  }

  /**
   The first transaction: a payment not yet begun whose order is no longer pending is closed; otherwise one that
   is due is claimed, with a token that no row has, until the lease is over.
   */
  lemma ClaimsExactly(db: Tables, p: nat, now: int, lease: int)
    requires Consistent(db) && p < |db.payments|
    ensures db.payments[p].reservation < |db.reservations| && |db.trails| == |db.payments|
    ensures
      var after, pay := ClaimPayment(db, p, now, lease), db.payments[p];
      var order := db.reservations[pay.reservation].status;
      && after.reservations == db.reservations && after.refunds == db.refunds
      && if pay.status == Created && order != Pending then
           && ClaimOutcome(db, p, now).ClosedUnpayable?
           && after.payments == db.payments[p := pay.(status := Closed, nextActionAt := now)]
         else if (pay.status == Created || pay.status == Processing) && pay.nextActionAt <= now then
           exists token ::
             && ClaimOutcome(db, p, now) == Claimed(pay.status, order, token)
             && after.payments == db.payments[p := pay.(token := token, nextActionAt := now + lease)]
             && token != 0 && (forall q :: 0 <= q < |db.payments| ==> db.payments[q].token != token)
             && (forall f :: 0 <= f < |db.refunds| ==> db.refunds[f].token != token)
         else ClaimOutcome(db, p, now).NoClaim? && after == db
  {
    RowsExist(db);
    assert TokensOk(db.payments, db.refunds, db.finished, db.nextToken);
    hide Consistent;
    var pay := db.payments[p];
    if (pay.status == Created || pay.status == Processing) && pay.nextActionAt <= now {
      assert ClaimOutcome(db, p, now).Claimed? ==> ClaimOutcome(db, p, now).token == db.nextToken;
    }
  }

  /** A due refund of the expected status is claimed with a token that no row has; any other is left alone. */
  lemma RefundClaimsExactly(db: Tables, f: nat, expected: RefundStatus, now: int, lease: int)
    requires Consistent(db)
    ensures
      var after := ClaimRefund(db, f, expected, now, lease);
      && after.payments == db.payments && after.reservations == db.reservations
      && if f < |db.refunds| && db.refunds[f].status == expected && db.refunds[f].nextActionAt <= now then
           && f < |after.refunds| && after.refunds[f].token != 0
           && after.refunds ==
                db.refunds[f := db.refunds[f].(token := after.refunds[f].token, nextActionAt := now + lease)]
           && (forall p :: 0 <= p < |db.payments| ==> db.payments[p].token != after.refunds[f].token)
           && (forall g :: 0 <= g < |db.refunds| ==> db.refunds[g].token != after.refunds[f].token)
         else after == db
  {
  }

  /**
   The end of a refund attempt by the worker that holds it.  A success refunds the payment with it; a failure
   uses up one attempt, and the fifth fails the refund for good.
   */
  lemma RefundAttemptExactly(db: Tables, f: nat, seen: RefundStatus, token: nat, succeeded: bool, at: int)
    requires Consistent(db) && token != 0 && Open(seen) && HoldsRefund(db, f, seen, token)
    ensures db.refunds[f].payment < |db.payments| == |db.trails|
    ensures
      var after, row := FinishRefund(db, f, seen, token, succeeded, at), db.refunds[f];
      var left := row.(attempts := row.attempts + 1, token := 0, nextActionAt := at);
      && after.reservations == db.reservations
      && if succeeded then
           && after.refunds == db.refunds[f := left.(status := RefundSucceeded)]
           && after.payments == db.payments[row.payment :=
                db.payments[row.payment].(status := Refunded, nextActionAt := at)]
         else
           && after.payments == db.payments
           && after.refunds == db.refunds[f := left.(status :=
                if row.attempts + 1 < row.maxAttempts then RefundProcessing else RefundFailed)]
  {
    RowsExist(db);
    hide Consistent;
  }

  // ---------- the catalogue ----------

  /** A ticket is added with all of it available and on sale; its seats come after, free, at their prices. */
  lemma AddedExactly(db: Tables, total: nat, price: int, seatPrices: seq<int>)
    requires Consistent(db)
    ensures
      var added := AddTicket(db, total, price);
      var seated := AddSeats(added, |db.tickets|, seatPrices);
      && seated.tickets == db.tickets + [Ticket(total, total, price, true)]
      && |seated.seats| == |db.seats| + |seatPrices| && db.seats <= seated.seats
      && (forall i :: 0 <= i < |seatPrices| ==>
            seated.seats[|db.seats| + i] == Seat(|db.tickets|, seatPrices[i], false, None))
      && seated.reservations == db.reservations && seated.payments == db.payments
  {
    hide Consistent;
  }

  /** A ticket taken off sale is on sale no more; nothing else changes. */
  lemma TakenOfflineExactly(db: Tables, t: nat)
    requires t < |db.tickets|
    ensures
      var after := TakeOffline(db, t);
      && !after.tickets[t].onSale && after == db.(tickets := db.tickets[t := db.tickets[t].(onSale := false)])
  {
  }

  // ---------- placing, cancelling and expiring ----------

  /** Who has a seat. */
  predicate HeldBy(seats: seq<Seat>, s: nat, r: Option<nat>) {
    s < |seats| && seats[s].reservation == r && (seats[s].sold <==> r.Some?)
  }

  /**
   An order is placed exactly when there are at most six different seats or tickets, the ticket is on sale with
   enough available, no order has that request id, and the seats are seats of that ticket nobody has.  Then it
   is pending for fifteen minutes, its tickets are taken off the stock, and exactly its seats become its own.
   */
  lemma PlacedExactly(db: Tables, user: nat, ticket: nat, quantity: int, request: string, seatIds: seq<nat>, now: int)
    requires Consistent(db)
    ensures
      var after := Apply(db, Placed(user, ticket, quantity, request, seatIds, now));
      var n := |db.reservations|;
      if 1 <= quantity <= 6 && Distinct(seatIds) && (seatIds == [] || |seatIds| == quantity)
        && ticket < |db.tickets| && db.tickets[ticket].onSale && quantity <= db.tickets[ticket].available
        && (forall r :: 0 <= r < n ==> db.reservations[r].requestId != request)
        && (forall s :: s in seatIds ==> HeldBy(db.seats, s, None) && db.seats[s].ticket == ticket)
      then
        && after.reservations == db.reservations +
             [Reservation(user, ticket, quantity, Pending, Some(now + 900000), request, seatIds)]
        && after.tickets == db.tickets[ticket :=
             db.tickets[ticket].(available := db.tickets[ticket].available - quantity)]
        && (forall s :: s in seatIds ==> HeldBy(after.seats, s, Some(n)))
        && |after.seats| == |db.seats|
        && (forall s :: 0 <= s < |db.seats| && s !in seatIds ==> after.seats[s] == db.seats[s])
        && after.payments == db.payments && after.refunds == db.refunds
      else after == db
  {
    SeatsAreSound(db);
    hide Consistent;
    FreeSeats(db, ticket, seatIds);
  }

  lemma FreeSeats(db: Tables, ticket: nat, seatIds: seq<nat>)
    requires forall s :: 0 <= s < |db.seats| ==> (db.seats[s].sold <==> db.seats[s].reservation.Some?)
    ensures (forall i :: 0 <= i < |seatIds| ==> SeatFree(db, seatIds[i], ticket)) <==>
      forall s :: s in seatIds ==> HeldBy(db.seats, s, None) && db.seats[s].ticket == ticket
  {
    forall i | 0 <= i < |seatIds|
      ensures SeatFree(db, seatIds[i], ticket) <==>
        HeldBy(db.seats, seatIds[i], None) && db.seats[seatIds[i]].ticket == ticket
    {
      assert seatIds[i] in seatIds;
    }
  }

  lemma SeatsAreSound(db: Tables)
    requires Consistent(db)
    ensures forall s :: 0 <= s < |db.seats| ==> (db.seats[s].sold <==> db.seats[s].reservation.Some?)
  {
  }

  /** The order ended: its tickets are back in stock and its seats are nobody's, and no other row of these changed. */
  predicate GivenBack(db: Tables, after: Tables, r: nat, status: OrderStatus)
    requires r < |db.reservations| && db.reservations[r].ticket < |db.tickets|
  {
    var row, t := db.reservations[r], db.reservations[r].ticket;
    && after.reservations == db.reservations[r := row.(status := status)]
    && after.tickets == db.tickets[t := db.tickets[t].(available := db.tickets[t].available + row.quantity)]
    && |after.seats| == |db.seats|
    && (forall s :: 0 <= s < |db.seats| ==>
          if db.seats[s].reservation == Some(r) then HeldBy(after.seats, s, None) else after.seats[s] == db.seats[s])
  }

  lemma EndGivesBack(db: Tables, r: nat, status: OrderStatus)
    requires Consistent(db) && r < |db.reservations|
    ensures db.reservations[r].ticket < |db.tickets|
    ensures GivenBack(db, EndOrder(db, r, status), r, status)
  {
    RowsExist(db);
    SeatsAreSound(db);
    hide Consistent;
  }

  lemma OthersAside(db: Tables, after: Tables, r: nat, status: OrderStatus)
    requires r < |db.reservations| && db.reservations[r].ticket < |db.tickets| && GivenBack(db, after, r, status)
    ensures forall other: Tables ::
      other.reservations == after.reservations && other.tickets == after.tickets && other.seats == after.seats ==>
        GivenBack(db, other, r, status)
  {
  }

  /**
   A user cancels exactly an own order that is pending or confirmed.  If it was confirmed, the money is on its
   way back, by one refund of the whole of its payment, unless the look-up of the payment failed.
   */
  lemma CancelledExactly(db: Tables, user: nat, r: nat, now: int, missed: bool)
    requires Consistent(db)
    ensures r < |db.reservations| ==> db.reservations[r].ticket < |db.tickets|
    ensures
      var after := Apply(db, CancelledBy(user, r, now, missed));
      if r < |db.reservations| && db.reservations[r].user == user
        && (db.reservations[r].status == Pending || db.reservations[r].status == Confirmed)
      then
        && GivenBack(db, after, r, Cancelled)
        && if db.reservations[r].status == Pending || missed then
             after.payments == db.payments && after.refunds == db.refunds
           else
             exists p :: 0 <= p < |db.payments|
               && db.payments[p].reservation == r && db.payments[p].status == Succeeded
               && after.payments == db.payments[p := db.payments[p].(status := Refunding, nextActionAt := now)]
               && after.refunds == db.refunds + [Refund(p, db.payments[p].amountMinor, RefundCreated, 0, 5, 0, now)]
      else after == db
  {
    hide Consistent, GivenBack, EndOrder;
    RowsExist(db);
    if CanCancel(db, user, r) {
      EndGivesBack(db, r, Cancelled);
      OthersAside(db, EndOrder(db, r, Cancelled), r, Cancelled);
      EndAside(db, r, Cancelled);
      if db.reservations[r].status.Confirmed? { HasPayment(db, r); }
    }
  }

  lemma HasPayment(db: Tables, r: nat)
    requires Consistent(db) && r < |db.reservations| && db.reservations[r].status.Confirmed?
    ensures SucceededFor(db.payments, r).Some?
  {
    SucceededIs(db.reservations, db.payments, db.overlooked, r);
  }

  lemma EndAside(db: Tables, r: nat, status: OrderStatus)
    requires r < |db.reservations| && db.reservations[r].ticket < |db.tickets|
    ensures
      var after := EndOrder(db, r, status);
      after.payments == db.payments && after.refunds == db.refunds && after.trails == db.trails
  {
  }

  /** An order expires exactly when it is pending and its time is up. */
  lemma ExpiredExactly(db: Tables, r: nat, now: int)
    requires Consistent(db)
    ensures r < |db.reservations| ==> db.reservations[r].ticket < |db.tickets|
    ensures
      var after := Apply(db, ExpiredAt(r, now));
      if r < |db.reservations| && db.reservations[r].status == Pending
        && db.reservations[r].expireAt.Some? && db.reservations[r].expireAt.value <= now
      then GivenBack(db, after, r, Expired) && after.payments == db.payments && after.refunds == db.refunds
      else after == db
  {
    hide Consistent, GivenBack, EndOrder;
    RowsExist(db);
    if r < |db.reservations| {
      EndGivesBack(db, r, Expired);
      EndAside(db, r, Expired);
    }
  }

  // ---------- the payment window ----------

  /** The row of a pending order does not change while it is pending. */
  lemma PendingKept(db: Tables, step: Step, r: nat)
    requires Consistent(db) && r < |db.reservations| && db.reservations[r].status.Pending?
    ensures
      var after := Apply(db, step);
      && r < |after.reservations|
      && (after.reservations[r].status.Pending? ==> after.reservations[r] == db.reservations[r])
      && (after.reservations[r].status.Expired? ==>
            step.ExpiredAt? && step.reservation == r
            && db.reservations[r].expireAt.Some? && db.reservations[r].expireAt.value <= step.now)
      && (after.reservations[r].status.Confirmed? ==>
            step.PaymentFinished? && db.reservations[r].expireAt.Some? && step.now < db.reservations[r].expireAt.value)
  {
    hide Consistent, Amount, SucceededFor;
  }

  /** An ended order is not expired later, nor a confirmed one. */
  lemma NotPendingKept(db: Tables, step: Step, r: nat)
    requires Consistent(db) && r < |db.reservations| && !db.reservations[r].status.Pending?
    ensures
      var after := Apply(db, step);
      && r < |after.reservations| && !after.reservations[r].status.Pending?
      && (after.reservations[r].status.Expired? ==> db.reservations[r].status.Expired?)
      && (after.reservations[r].status.Confirmed? ==> db.reservations[r].status.Confirmed?)
  {
    StepMoves(db, step, r);
  }

  /** Some step expires order r, no earlier than `end`. */
  predicate ExpiresAfter(steps: seq<Step>, r: nat, end: int) {
    exists i :: 0 <= i < |steps| && steps[i].ExpiredAt? && steps[i].reservation == r && end <= steps[i].now
  }

  /** Some worker settles a payment before `end`. */
  predicate SettlesBefore(steps: seq<Step>, end: int) {
    exists i :: 0 <= i < |steps| && steps[i].PaymentFinished? && steps[i].now < end
  }

  lemma LaterStep(step: Step, rest: seq<Step>, steps: seq<Step>, r: nat, end: int)
    requires steps != [] && step == steps[0] && rest == steps[1..]
    ensures ExpiresAfter(rest, r, end) ==> ExpiresAfter(steps, r, end)
    ensures SettlesBefore(rest, end) ==> SettlesBefore(steps, end)
  {
    if ExpiresAfter(rest, r, end) {
      var i :| 0 <= i < |rest| && rest[i].ExpiredAt? && rest[i].reservation == r && end <= rest[i].now;
      assert steps[i + 1] == rest[i];
    }
    if SettlesBefore(rest, end) {
      var i :| 0 <= i < |rest| && rest[i].PaymentFinished? && rest[i].now < end;
      assert steps[i + 1] == rest[i];
    }
  }

  lemma {:induction false} NotPendingStays(db: Tables, steps: seq<Step>, r: nat)
    requires Consistent(db) && r < |db.reservations| && !db.reservations[r].status.Pending?
    ensures r < |Run(db, steps).reservations|
    ensures Run(db, steps).reservations[r].status.Expired? ==> db.reservations[r].status.Expired?
    ensures Run(db, steps).reservations[r].status.Confirmed? ==> db.reservations[r].status.Confirmed?
    decreases |steps|
  {
    hide Consistent, Apply;
    if steps != [] {
      StepKeeps(db, steps[0]);
      NotPendingKept(db, steps[0], r);
      NotPendingStays(Apply(db, steps[0]), steps[1..], r);
    }
  }

  /**
   An order that is to end at `end` is expired only by a run of the reclaiming job at or after it, and
   confirmed only by a settlement before it.
   */
  lemma {:induction false} WindowIsKept(db: Tables, steps: seq<Step>, r: nat, end: int)
    requires Consistent(db) && r < |db.reservations|
    requires db.reservations[r].status.Pending? && db.reservations[r].expireAt == Some(end)
    ensures r < |Run(db, steps).reservations|
    ensures Run(db, steps).reservations[r].status.Expired? ==> ExpiresAfter(steps, r, end)
    ensures Run(db, steps).reservations[r].status.Confirmed? ==> SettlesBefore(steps, end)
    decreases |steps|
  {
    hide Consistent, Apply;
    if steps != [] {
      var next := Apply(db, steps[0]);
      StepKeeps(db, steps[0]);
      PendingKept(db, steps[0], r);
      if next.reservations[r].status.Pending? {
        WindowIsKept(next, steps[1..], r, end);
        LaterStep(steps[0], steps[1..], steps, r, end);
      } else {
        NotPendingStays(next, steps[1..], r);
      }
    }
  }

  /** An order has its fifteen minutes: placed at `now`, it is expired no earlier, and confirmed only before. */
  lemma FifteenMinutes(
      db: Tables, user: nat, ticket: nat, quantity: int, request: string, seatIds: seq<nat>, now: int, steps: seq<Step>)
    requires Consistent(db) && ValidOrder(quantity, seatIds) && CanPlace(db, ticket, quantity, request, seatIds)
    ensures
      var placed, r := Apply(db, Placed(user, ticket, quantity, request, seatIds, now)), |db.reservations|;
      && Consistent(placed) && r < |Run(placed, steps).reservations|
      && (Run(placed, steps).reservations[r].status.Expired? ==> ExpiresAfter(steps, r, now + 900000))
      && (Run(placed, steps).reservations[r].status.Confirmed? ==> SettlesBefore(steps, now + 900000))
  {
    var step := Placed(user, ticket, quantity, request, seatIds, now);
    StepKeeps(db, step);
    var placed, r := Apply(db, step), |db.reservations|;
    assert placed.reservations[r].expireAt == Some(now + 900000);
    hide Consistent, Apply;
    WindowIsKept(placed, steps, r, now + 900000);
  }

  // ---------- off sale ----------

  lemma StaysOffSale(db: Tables, step: Step, t: nat)
    requires Consistent(db) && t < |db.tickets| && !db.tickets[t].onSale
    ensures t < |Apply(db, step).tickets| && !Apply(db, step).tickets[t].onSale
  {
    hide Consistent, Amount, SucceededFor, CanPay;
    RowsExist(db);
    match step
    case PaymentFinished(_, _, _, _, _, _, _) => assert Apply(db, step).tickets == db.tickets;
    case RefundFinished(_, _, _, _, _) => assert Apply(db, step).tickets == db.tickets;
    case _ =>
  }

  /** Once a ticket has been taken off sale, no order for it is placed any more, in any run. */
  lemma {:induction false} OfflineIsFinal(db: Tables, steps: seq<Step>, t: nat)
    requires Consistent(db) && t < |db.tickets| && !db.tickets[t].onSale
    ensures t < |Run(db, steps).tickets| && !Run(db, steps).tickets[t].onSale
    ensures forall q: int, request: string, seatIds: seq<nat> :: !CanPlace(Run(db, steps), t, q, request, seatIds)
    decreases |steps|
  {
    hide Consistent, Apply;
    if steps != [] {
      StepKeeps(db, steps[0]);
      StaysOffSale(db, steps[0], t);
      OfflineIsFinal(Apply(db, steps[0]), steps[1..], t);
    }
  }

  // ---------- the price of an order ----------

  /** The sum of the prices of the named seats. */
  function PriceOf(seats: seq<Seat>, ids: seq<nat>): int
    requires forall i :: 0 <= i < |ids| ==> ids[i] < |seats|
  {
    if ids == [] then 0 else PriceOf(seats, ids[..|ids| - 1]) + seats[ids[|ids| - 1]].price
  }

  /** The same sum, row by row of the table. */
  function PriceWithin(seats: seq<Seat>, ids: seq<nat>, n: nat): int
    requires n <= |seats|
  {
    if n == 0 then 0 else PriceWithin(seats, ids, n - 1) + (if n - 1 in ids then seats[n - 1].price else 0)
  }

  lemma {:induction false} OneSeatMore(seats: seq<Seat>, ids: seq<nat>, s: nat, n: nat)
    requires n <= |seats| && s < |seats| && s !in ids
    ensures PriceWithin(seats, ids + [s], n) == PriceWithin(seats, ids, n) + (if s < n then seats[s].price else 0)
  {
    if n > 0 { OneSeatMore(seats, ids, s, n - 1); }
  }

  lemma {:induction false} NoSeats(seats: seq<Seat>, n: nat)
    requires n <= |seats|
    ensures PriceWithin(seats, [], n) == 0
  {
    if n > 0 { NoSeats(seats, n - 1); }
  }

  lemma {:induction false} SameSum(seats: seq<Seat>, ids: seq<nat>)
    requires Distinct(ids) && forall i :: 0 <= i < |ids| ==> ids[i] < |seats|
    ensures PriceWithin(seats, ids, |seats|) == PriceOf(seats, ids)
  {
    if ids == [] {
      NoSeats(seats, |seats|);
    } else {
      var last := |ids| - 1;
      SameSum(seats, ids[..last]);
      OneSeatMore(seats, ids[..last], ids[last], |seats|);
      assert ids[..last] + [ids[last]] == ids;
    }
  }

  lemma {:induction false} SumOfOwn(seats: seq<Seat>, ids: seq<nat>, r: nat, n: nat)
    requires n <= |seats| && forall s :: 0 <= s < n ==> (seats[s].reservation == Some(r) <==> s in ids)
    ensures SeatSum(seats[..n], r) == PriceWithin(seats, ids, n)
  {
    if n > 0 {
      SumOfOwn(seats, ids, r, n - 1);
      assert seats[..n][..n - 1] == seats[..n - 1];
    }
  }

  /**
   A live order costs a hundred times the prices of the seats it named, or, if it named none, a hundred times
   the price of the ticket for each.
   */
  lemma AmountExactly(db: Tables, r: nat)
    requires Consistent(db) && r < |db.reservations| && Live(db.reservations[r].status)
    ensures
      var row := db.reservations[r];
      && row.ticket < |db.tickets| && (forall i :: 0 <= i < |row.seatIds| ==> row.seatIds[i] < |db.seats|)
      && Amount(db, r) ==
           100 * (if row.seatIds == [] then db.tickets[row.ticket].price * row.quantity
                  else PriceOf(db.seats, row.seatIds))
  {
    RowsExist(db);
    var ids := db.reservations[r].seatIds;
    OwnSeats(db, r);
    hide Consistent;
    SumOfOwn(db.seats, ids, r, |db.seats|);
    assert db.seats[..|db.seats|] == db.seats;
    SameSum(db.seats, ids);
    if ids != [] { assert db.seats[ids[0]].reservation == Some(r); }
  }

  lemma OwnSeats(db: Tables, r: nat)
    requires Consistent(db) && r < |db.reservations| && Live(db.reservations[r].status)
    ensures
      var ids := db.reservations[r].seatIds;
      && Distinct(ids) && (forall i :: 0 <= i < |ids| ==> ids[i] < |db.seats|)
      && (forall s :: 0 <= s < |db.seats| ==> (db.seats[s].reservation == Some(r) <==> s in ids))
  {
  }

  /**
   A payment is created exactly for an own pending order, under a key the user has not used, when the look-up fails
   or sees no payment of the order that is created or in process.
   */
  lemma PaidForExactly(
      db: Tables, w: nat, level: Isolation, user: nat, r: nat, key: string, failed: bool, now: int)
    requires Consistent(db) && w in db.views
    ensures
      var after := Apply(db, PaymentCreated(w, level, user, r, key, failed, now));
      var seen := if level.ReadCommitted? then db.payments else db.views[w];
      if r < |db.reservations| && db.reservations[r].user == user && db.reservations[r].status == Pending
        && (forall p :: 0 <= p < |db.payments| ==> db.payments[p].user != user || db.payments[p].key != key)
        && (failed || forall p :: 0 <= p < |seen| && seen[p].reservation == r ==>
              seen[p].status != Created && seen[p].status != Processing)
      then
        && |after.payments| == |db.payments| + 1 && db.payments <= after.payments
        && after.payments[|db.payments|].reservation == r && after.payments[|db.payments|].status == Created
        && after.reservations == db.reservations && after.refunds == db.refunds
      else after == db
  {
    hide Consistent, Amount;
    RowsExist(db);
  }

  /** That is what a payment for it is created with. */
  lemma ChargedExactly(
      db: Tables, w: nat, level: Isolation, user: nat, r: nat, key: string, failed: bool, now: int)
    requires Consistent(db) && CanPay(db, w, level, user, r, key, failed)
    ensures
      var row := db.reservations[r];
      && row.ticket < |db.tickets| && (forall i :: 0 <= i < |row.seatIds| ==> row.seatIds[i] < |db.seats|)
      && var price := if row.seatIds == [] then db.tickets[row.ticket].price * row.quantity
                      else PriceOf(db.seats, row.seatIds);
      Apply(db, PaymentCreated(w, level, user, r, key, failed, now)).payments ==
        db.payments + [Payment(r, user, 100 * price, key, Created, 0, now)]
  {
    hide Consistent, CanPay, Amount, PriceOf, ActiveFor;
    CanPayPending(db, w, level, user, r, key, failed);
    AmountExactly(db, r);
    assert CreatePayment(db, w, user, r, key, now).payments ==
      db.payments + [Payment(r, user, Amount(db, r), key, Created, 0, now)];
  }

  lemma CanPayPending(db: Tables, w: nat, level: Isolation, user: nat, r: nat, key: string, failed: bool)
    requires CanPay(db, w, level, user, r, key, failed)
    ensures r < |db.reservations| && db.reservations[r].status.Pending?
  {
  }
}
