/**
 The transactions of the ticket service, statement by statement.  However statements and commits fail,
 each leaves the tables as they were or changes them by the transaction it carries out; and when none
 fails, it does the latter exactly when it may.
 */
module OrderServices {
  import opened Basics
  import opened OrderTables
  import opened OrderInvariants
  import opened OrderRuns
  import opened OrderDatabase

  class TicketService {
    const db: Database

    constructor (db: Database)
      ensures this.db == db
    {
      this.db := db;
    }

    ghost predicate Ready()
      reads this, db
    {
      db.saved == None && Consistent(db.tables)
    }

    // ---------- the catalogue ----------

    /** Two statements outside any transaction; the second may fail without harm. */
    method AdminAddTicket(total: nat, price: int, seatPrices: seq<int>) returns (ok: bool)
      requires Ready()
      modifies db
      ensures Ready()
      ensures !ok ==> db.tables == old(db.tables)
      ensures ok ==>
        var added := AddTicket(old(db.tables), total, price);
        db.tables == added || db.tables == AddSeats(added, |old(db.tables).tickets|, seatPrices)
      ensures old(db.faults) <= db.faults
      ensures db.faults == old(db.faults) ==>
        ok && db.tables == AddSeats(AddTicket(old(db.tables), total, price), |old(db.tables).tickets|, seatPrices)
    {
      hide Consistent;
      AddKeeps(db.tables, total, price);
      var id := |db.tables.tickets|;
      ok := db.InsertTicket(total, price);
      if !ok { return; }
      SeatedKeeps(db.tables, id, seatPrices);
      var seated := db.InsertSeats(id, seatPrices);
    }

    method AdminDeleteTicket(t: nat) returns (ok: bool)
      requires Ready()
      modifies db
      ensures Ready()
      ensures db.tables == if ok && t < |old(db.tables).tickets| then TakeOffline(old(db.tables), t) else old(db.tables)
      ensures old(db.faults) <= db.faults
      ensures db.faults == old(db.faults) ==> ok
    {
      hide Consistent;
      if t < |db.tables.tickets| { OfflineKeeps(db.tables, t); }
      ok := db.SetOffline(t);
    }

    // ---------- placing an order from the queue ----------

    method PlaceQueued(user: nat, ticket: nat, quantity: int, request: string, seatIds: seq<nat>, now: int)
        returns (ok: bool)
      requires Ready() && ValidOrder(quantity, seatIds)
      modifies db
      ensures Ready()
      ensures db.tables == old(db.tables) ||
        (CanPlace(old(db.tables), ticket, quantity, request, seatIds) &&
         db.tables == Place(old(db.tables), user, ticket, quantity, request, seatIds, now))
      ensures ok ==>
        && CanPlace(old(db.tables), ticket, quantity, request, seatIds)
        && db.tables == Place(old(db.tables), user, ticket, quantity, request, seatIds, now)
      ensures old(db.faults) <= db.faults
      ensures db.faults == old(db.faults) ==> (ok <==> CanPlace(old(db.tables), ticket, quantity, request, seatIds))
    {
      hide Consistent;
      ghost var was := db.tables;
      RowsExist(was);
      var txn := new Txn(db);
      if !txn.began { return false; }
      ok := PlaceWithin(user, ticket, quantity, request, seatIds, now);
      if ok { PlaceKeeps(was, user, ticket, quantity, request, seatIds, now); }
      if ok { ok := txn.Commit(); }
      if !ok { txn.Rollback(); }
      txn.Close();
    }

    method PlaceWithin(user: nat, ticket: nat, quantity: int, request: string, seatIds: seq<nat>, now: int)
        returns (ok: bool)
      requires Distinct(seatIds)
      modifies db`tables, db`faults
      ensures old(db.faults) <= db.faults
      ensures ok ==>
        && CanPlace(old(db.tables), ticket, quantity, request, seatIds)
        && db.tables == Place(old(db.tables), user, ticket, quantity, request, seatIds, now)
      ensures db.faults == old(db.faults) ==> (ok <==> CanPlace(old(db.tables), ticket, quantity, request, seatIds))
    {
      ghost var was := db.tables;
      var row := db.LockTicket(ticket);
      if row.None? || !row.value.onSale || row.value.available < quantity { return false; }
      ok := db.AdjustSeats(ticket, -quantity);
      if !ok { return; }
      ok := db.InsertReservation(user, ticket, quantity, request, seatIds, now);
      if !ok { return; }
      ok := SellSeats(seatIds, ticket, |db.tables.reservations| - 1);
    }

    method SellSeats(seatIds: seq<nat>, ticket: nat, r: nat) returns (ok: bool)
      requires Distinct(seatIds)
      modifies db`tables, db`faults
      ensures old(db.faults) <= db.faults
      ensures ok ==>
        && (forall i :: 0 <= i < |seatIds| ==> SeatFree(old(db.tables), seatIds[i], ticket))
        && db.tables == old(db.tables).(seats := SellAll(old(db.tables).seats, seatIds, r))
      ensures db.faults == old(db.faults) ==> (ok <==>
        forall i :: 0 <= i < |seatIds| ==> SeatFree(old(db.tables), seatIds[i], ticket))
    {
      ghost var was := db.tables;
      ok := true;
      assert SellAll(was.seats, [], r) == was.seats;
      for i := 0 to |seatIds|
        invariant ok && old(db.faults) <= db.faults
        invariant forall j :: 0 <= j < i ==> SeatFree(was, seatIds[j], ticket)
        invariant db.tables == was.(seats := SellAll(was.seats, seatIds[..i], r))
      {
        OthersSold(was, seatIds, i, ticket, r);
        ok := db.LockAndSell(seatIds[i], ticket, r);
        if !ok { return; }
        SellOneMore(was.seats, seatIds, i, r);
      }
      assert seatIds[..|seatIds|] == seatIds;
    }

    // ---------- cancelling an order ----------

    method CancelTicket(r: nat, user: nat, now: int) returns (ok: bool, ghost missed: bool)
      requires Ready()
      modifies db
      ensures Ready()
      ensures db.tables == old(db.tables) ||
        (CanCancel(old(db.tables), user, r) && old(db.tables).reservations[r].ticket < |old(db.tables).tickets| &&
         |old(db.tables).trails| == |old(db.tables).payments| &&
         db.tables == OrderTables.Cancel(old(db.tables), user, r, now, missed))
      ensures ok ==>
        && CanCancel(old(db.tables), user, r) && old(db.tables).reservations[r].ticket < |old(db.tables).tickets|
        && |old(db.tables).trails| == |old(db.tables).payments|
        && db.tables == OrderTables.Cancel(old(db.tables), user, r, now, missed)
      ensures old(db.faults) <= db.faults
      ensures db.faults == old(db.faults) ==>
        if CanCancel(old(db.tables), user, r)
        then ok && db.tables == OrderTables.Cancel(old(db.tables), user, r, now, false)
        else !ok && db.tables == old(db.tables)
    {
      hide Consistent;
      ghost var was := db.tables;
      RowsExist(was);
      missed := false;
      var txn := new Txn(db);
      if !txn.began { return false, missed; }
      ok, missed := CancelWithin(r, user, now);
      if ok { CancelKeeps(was, user, r, now, missed); }
      if ok { ok := txn.Commit(); }
      if !ok { txn.Rollback(); }
      txn.Close();
    }

    method CancelWithin(r: nat, user: nat, now: int) returns (ok: bool, ghost missed: bool)
      requires |db.tables.trails| == |db.tables.payments|
      requires forall i :: 0 <= i < |db.tables.reservations| ==>
        db.tables.reservations[i].ticket < |db.tables.tickets| && 1 <= db.tables.reservations[i].quantity
      modifies db`tables, db`faults
      ensures old(db.faults) <= db.faults
      ensures ok ==>
        && CanCancel(old(db.tables), user, r)
        && db.tables == OrderTables.Cancel(old(db.tables), user, r, now, missed)
        && db.tables.reservations[r].status.Cancelled?
      ensures db.faults == old(db.faults) ==>
        && (ok <==> CanCancel(old(db.tables), user, r))
        && (ok ==> db.tables == OrderTables.Cancel(old(db.tables), user, r, now, false))
    {
      hide SucceededFor;
      missed := false;
      ghost var was := db.tables;
      var row := db.LockOwned(r, user);
      if row.None? || (row.value.status != Confirmed && row.value.status != Pending) { return false, missed; }
      ok := db.SetStatus(r, Cancelled);
      if !ok { return; }
      ok := db.AdjustSeats(row.value.ticket, row.value.quantity);
      if !ok { return; }
      ok := db.ReleaseByReservation(r);
      if !ok { return; }
      assert db.tables == EndOrder(was, r, Cancelled);
      if row.value.status == Confirmed {
        var p := db.LockSucceededByResv(r);
        if p.Some? {
          ok := db.BeginFullRefund(p.value, now);
        } else {
          missed := true;
        }
      }
    }

    // ---------- expiring orders ----------

    method ExpirePendingOrders(now: int, limit: nat) returns (ok: bool, expired: seq<nat>)
      requires Ready()
      modifies db
      ensures Ready() && |expired| <= limit && Distinct(expired)
      ensures db.tables == old(db.tables) || db.tables == Run(old(db.tables), ExpireSteps(expired, now))
      ensures ok ==> db.tables == Run(old(db.tables), ExpireSteps(expired, now))
      ensures old(db.faults) <= db.faults
      ensures db.faults == old(db.faults) ==> ok && Earliest(old(db.tables).reservations, expired, now, limit)
    {
      hide Consistent;
      ghost var was := db.tables;
      expired := [];
      var txn := new Txn(db);
      if !txn.began { return false, expired; }
      expired := db.LockExpiredPending(now, limit);
      if expired == [] {
        txn.Rollback();
        NoSteps(was);
        assert ExpireSteps(expired, now) == [];
        return true, expired;
      }
      ok := ExpireWithin(expired, now);
      if ok { ok := txn.Commit(); }
      if !ok { txn.Rollback(); }
      txn.Close();
    }

    method ExpireWithin(rows: seq<nat>, now: int) returns (ok: bool)
      requires Consistent(db.tables) && Distinct(rows)
      requires forall i :: 0 <= i < |rows| ==>
        rows[i] < |db.tables.reservations| && Overdue(db.tables.reservations[rows[i]], now)
      modifies db`tables, db`faults
      ensures old(db.faults) <= db.faults
      ensures ok ==> Consistent(db.tables) && db.tables == Run(old(db.tables), ExpireSteps(rows, now))
      ensures db.faults == old(db.faults) ==> ok
    {
      hide Consistent, Overdue, Run;
      ghost var was := db.tables;
      ok := true;
      NoSteps(was);
      assert ExpireSteps(rows[..0], now) == [];
      for i := 0 to |rows|
        invariant old(db.faults) <= db.faults
        invariant ok && Consistent(db.tables) && db.tables == Run(was, ExpireSteps(rows[..i], now))
        invariant forall j :: i <= j < |rows| ==>
          rows[j] < |db.tables.reservations| && Overdue(db.tables.reservations[rows[j]], now)
      {
        ghost var before := db.tables;
        ok := ExpireOne(rows[i], now);
        if !ok { return; }
        ExpireKeeps(before, rows[i], now);
        assert ExpireSteps(rows[..i + 1], now) == ExpireSteps(rows[..i], now) + [ExpiredAt(rows[i], now)];
        RunOneMore(was, ExpireSteps(rows[..i], now), ExpiredAt(rows[i], now));
        assert db.tables == Apply(before, ExpiredAt(rows[i], now));
      }
      assert rows[..|rows|] == rows;
    }

    method ExpireOne(r: nat, now: int) returns (ok: bool)
      requires Consistent(db.tables) && r < |db.tables.reservations| && Overdue(db.tables.reservations[r], now)
      modifies db`tables, db`faults
      ensures old(db.faults) <= db.faults
      ensures ok ==>
        && old(db.tables).reservations[r].ticket < |old(db.tables).tickets|
        && db.tables == OrderTables.Expire(old(db.tables), r, now)
        && |db.tables.reservations| == |old(db.tables).reservations|
        && (forall i :: 0 <= i < |db.tables.reservations| && i != r ==>
              db.tables.reservations[i] == old(db.tables).reservations[i])
      ensures db.faults == old(db.faults) ==> ok
    {
      hide Consistent;
      RowsExist(db.tables);
      var row := db.tables.reservations[r];
      ok := db.SetStatus(r, Expired);
      if !ok { return; }
      ok := db.AdjustSeats(row.ticket, row.quantity);
      if !ok { return; }
      ok := db.ReleaseByReservation(r);
    }

    // ---------- paying for an order ----------

    /**
     Worker w serves a request to pay.  After its first read, and before it has the row of the order,
     others commit whatever they do.
     */
    method PayOrder(w: nat, r: nat, user: nat, key: string, now: int, others: seq<Step>)
        returns (ok: bool, failed: bool)
      requires Ready() && ByOthers(others, w)
      modifies db
      ensures Ready() && Consistent(TakeView(old(db.tables), w))
      ensures
        var met := Run(TakeView(old(db.tables), w), others);
        var paid := PaymentCreated(w, db.level, user, r, key, failed, now);
        && Consistent(met) && w in met.views && met.views[w] == old(db.tables).payments
        && (db.tables == old(db.tables) || db.tables == TakeView(old(db.tables), w) || db.tables == met
            || db.tables == Apply(met, paid))
        && (ok ==> CanPay(met, w, db.level, user, r, key, failed) && db.tables == Apply(met, paid))
        && (db.faults == old(db.faults) ==> !failed)
        && (db.faults == old(db.faults) ==>
              (ok <==> !KeyUsed(old(db.tables).payments, user, key) && CanPay(met, w, db.level, user, r, key, false)))
      ensures old(db.faults) <= db.faults
    {
      hide Consistent, CanPay, Run, Apply;
      ghost var viewed := TakeView(db.tables, w);
      ViewKeeps(db.tables, w);
      RunKeeps(viewed, others);
      ViewStays(viewed, others, w);
      failed := false;
      var txn := new Txn(db);
      if !txn.began { return false, failed; }
      var existing := db.FindByIdempotencyKey(w, user, key);
      if existing {
        txn.Rollback();
        return false, failed;
      }
      db.OthersCommit(others);
      ghost var met := db.tables;
      ok, failed := PayWithin(w, r, user, key, now);
      if ok { StepKeeps(met, PaymentCreated(w, db.level, user, r, key, failed, now)); }
      if ok { ok := txn.Commit(); }
      if !ok { txn.Rollback(); }
      txn.Close();
    }

    method PayWithin(w: nat, r: nat, user: nat, key: string, now: int) returns (ok: bool, failed: bool)
      requires Consistent(db.tables) && w in db.tables.views
      modifies db`tables, db`faults
      ensures old(db.faults) <= db.faults
      ensures ok ==>
        && CanPay(old(db.tables), w, db.level, user, r, key, failed)
        && db.tables == Apply(old(db.tables), PaymentCreated(w, db.level, user, r, key, failed, now))
      ensures db.faults == old(db.faults) ==>
        !failed && (ok <==> CanPay(old(db.tables), w, db.level, user, r, key, false))
    {
      hide Consistent, Amount, ActiveFor, KeyUsed;
      failed := false;
      ghost var was := db.tables;
      RowsExist(was);
      var row := db.LockOwned(r, user);
      if row.None? || row.value.status != Pending { return false, failed; }
      var active;
      active, failed := db.FindActiveByResv(w, r);
      if active { return false, failed; }
      var hidden := ActiveFor(db.tables.payments, r);
      ok := db.InsertForReservation(r, user, key, now);
      if !ok { return; }
      ghost var inserted := db.tables;
      ok := db.AppendEvent(|db.tables.payments| - 1, Change(None, Created));
      if !ok { return; }
      assert inserted.trails[|was.trails|] + [Change(None, Created)] == [Change(None, Created)];
      assert db.tables.trails == was.trails + [[Change(None, Created)]];
      db.EndView(w, hidden);
    }

    // ---------- settling payments and refunds ----------

    /** The first transaction on a due payment, which other workers may have moved on meanwhile. */
    method ClaimDue(p: nat, now: int, lease: int) returns (claim: Claim)
      requires Ready() && p < |db.tables.payments|
      modifies db
      ensures Ready()
      ensures db.tables.reservations == old(db.tables).reservations && |db.tables.payments| == |old(db.tables).payments|
      ensures old(db.tables).payments[p].reservation < |old(db.tables).reservations| &&
        |old(db.tables).trails| == |old(db.tables).payments|
      ensures db.tables == old(db.tables) || db.tables == ClaimPayment(old(db.tables), p, now, lease)
      ensures !claim.NoClaim? ==>
        db.tables == ClaimPayment(old(db.tables), p, now, lease) && claim == ClaimOutcome(old(db.tables), p, now)
      ensures old(db.faults) <= db.faults
      ensures db.faults == old(db.faults) ==> claim == ClaimOutcome(old(db.tables), p, now)
    {
      hide Consistent;
      ghost var was := db.tables;
      RowsExist(was);
      ClaimKeeps(was, p, now, lease);
      var txn := new Txn(db);
      if !txn.began { return NoClaim; }
      claim := ClaimWithin(p, now, lease);
      var ok := !claim.NoClaim?;
      if ok { ok := txn.Commit(); }
      if !ok {
        txn.Rollback();
        claim := NoClaim;
      }
      txn.Close();
    }

    method ClaimWithin(p: nat, now: int, lease: int) returns (claim: Claim)
      requires p < |db.tables.payments| == |db.tables.trails|
      requires db.tables.payments[p].reservation < |db.tables.reservations|
      requires db.tables.reservations[db.tables.payments[p].reservation].user == db.tables.payments[p].user
      modifies db`tables, db`faults
      ensures old(db.faults) <= db.faults
      ensures !claim.NoClaim? ==>
        db.tables == ClaimPayment(old(db.tables), p, now, lease) && claim == ClaimOutcome(old(db.tables), p, now)
      ensures db.faults == old(db.faults) ==> claim == ClaimOutcome(old(db.tables), p, now)
    {
      claim := NoClaim;
      ghost var was := db.tables;
      var order := db.LockOwned(db.tables.payments[p].reservation, db.tables.payments[p].user);
      if order.None? { return; }
      var payment := db.LockById(p);
      if payment.None? || (payment.value.status != Created && payment.value.status != Processing) { return; }
      if payment.value.status == Created && order.value.status != Pending {
        var ok := db.Transition(p, Created, Closed, now);
        if !ok { return; }
        ok := db.AppendEvent(p, Change(Some(Created), Closed));
        if !ok { return; }
        return ClosedUnpayable;
      }
      var token := db.ClaimPaymentAction(p, payment.value.status, now, lease);
      if token.None? { return; }
      return Claimed(payment.value.status, order.value.status, token.value);
    }

    /** The second transaction, by a worker that read `payment` and `token` in the first. */
    method FinishDue(p: nat, payment: Payment, token: nat, reply: Reply, now: int, delay: int)
        returns (ok: bool, unpaid: bool)
      requires Ready() && token != 0 && Active(payment.status) && p < |db.tables.payments|
      requires payment.reservation == db.tables.payments[p].reservation && payment.user == db.tables.payments[p].user
      modifies db
      ensures Ready()
      ensures |old(db.tables).trails| == |old(db.tables).payments|
      ensures db.tables == old(db.tables) ||
        db.tables == FinishPayment(old(db.tables), p, payment.status, token, reply, now, delay, unpaid)
      ensures ok ==> db.tables == FinishPayment(old(db.tables), p, payment.status, token, reply, now, delay, unpaid)
      ensures old(db.faults) <= db.faults
      ensures db.faults == old(db.faults) ==>
        db.tables == FinishPayment(old(db.tables), p, payment.status, token, reply, now, delay, false)
    {
      hide Consistent, FinishPayment;
      ghost var was := db.tables;
      RowsExist(was);
      unpaid := false;
      var txn := new Txn(db);
      if !txn.began { return false, unpaid; }
      ok, unpaid := FinishWithin(p, payment, token, reply, now, delay);
      if ok { FinishKeeps(was, p, payment.status, token, reply, now, delay, unpaid); }
      if ok { ok := txn.Commit(); }
      if !ok { txn.Rollback(); }
      txn.Close();
    }

    method FinishWithin(p: nat, payment: Payment, token: nat, reply: Reply, now: int, delay: int)
        returns (ok: bool, unpaid: bool)
      requires p < |db.tables.payments| == |db.tables.trails| && Active(payment.status)
      requires payment.reservation == db.tables.payments[p].reservation && payment.user == db.tables.payments[p].user
      requires payment.reservation < |db.tables.reservations|
      requires db.tables.reservations[payment.reservation].user == payment.user
      modifies db`tables, db`faults
      ensures old(db.faults) <= db.faults
      ensures ok ==>
        db.tables == FinishPayment(old(db.tables), p, payment.status, token, reply, now, delay, unpaid)
      ensures db.faults == old(db.faults) ==>
        FinishPayment(old(db.tables), p, payment.status, token, reply, now, delay, false) ==
          if ok then db.tables else old(db.tables)
    {
      hide BeginRefund, Confirm;
      unpaid := false;
      ghost var was := db.tables;
      var order := db.LockOwned(payment.reservation, payment.user);
      var current := db.LockById(p);
      if order.None? || current.None? || current.value.status != payment.status { return false, unpaid; }
      var seen := payment.status;
      if reply.Raised? {
        ok := EndWith(p, seen, token, seen, now + delay, [Change(Some(seen), seen)]);
        return;
      }
      var next := NextStatus(reply);
      if seen == Created {
        if !CanTransitionPayment(Created, next) { return false, unpaid; }
        ok := EndWith(p, Created, token, next, now + delay, [Change(Some(Created), next)]);
        return;
      }
      if next == Processing {
        ok := EndWith(p, Processing, token, Processing, now + delay, []);
        return;
      }
      if !CanTransitionPayment(Processing, next) { return false, unpaid; }
      ok := EndWith(p, Processing, token, next, now, [Change(Some(Processing), next)]);
      if ok && next == Succeeded {
        ghost var ended := db.tables;
        var paid := db.Pay(payment.reservation, payment.user, now);
        if !paid {
          unpaid := true;
          ok := db.BeginFullRefund(p, now);
        }
      }
    }

    /** Ends a claim and writes its events. */
    method EndWith(p: nat, seen: PaymentStatus, token: nat, next: PaymentStatus, at: int, changes: seq<Change>)
        returns (ok: bool)
      requires p < |db.tables.payments| == |db.tables.trails| && |changes| <= 1
      modifies db`tables, db`faults
      ensures old(db.faults) <= db.faults
      ensures ok ==>
        HoldsClaim(old(db.tables), p, seen, token) && db.tables == EndClaim(old(db.tables), p, next, at, changes)
      ensures db.faults == old(db.faults) ==> (ok <==> HoldsClaim(old(db.tables), p, seen, token))
    {
      ghost var was := db.tables;
      ok := db.TransitionClaimed(p, seen, token, next, at);
      if ok && changes != [] {
        ok := db.AppendEvent(p, changes[0]);
        assert changes == [changes[0]];
      } else {
        assert was.trails[p] + [] == was.trails[p];
        assert was.trails[p := was.trails[p]] == was.trails;
      }
    }

    method ClaimDueRefund(f: nat, expected: RefundStatus, now: int, lease: int) returns (token: Option<nat>)
      requires Ready() && Open(expected)
      modifies db
      ensures Ready()
      ensures db.tables == old(db.tables) || db.tables == ClaimRefund(old(db.tables), f, expected, now, lease)
      ensures token.Some? ==>
        && token.value == old(db.tables).nextToken && CanClaimRefund(old(db.tables), f, expected, now)
        && db.tables == ClaimRefund(old(db.tables), f, expected, now, lease)
      ensures old(db.faults) <= db.faults
      ensures db.faults == old(db.faults) ==> (token.Some? <==> CanClaimRefund(old(db.tables), f, expected, now))
    {
      hide Consistent, ClaimRefund;
      ghost var was := db.tables;
      ClaimRefundKeeps(was, f, expected, now, lease);
      var txn := new Txn(db);
      if !txn.began { return None; }
      token := db.ClaimRefundAction(f, expected, now, lease);
      var ok := token.Some?;
      if ok { ok := txn.Commit(); }
      if !ok {
        txn.Rollback();
        token := None;
      }
      txn.Close();
    }

    method FinishDueRefund(f: nat, seen: RefundStatus, token: nat, succeeded: bool, at: int) returns (ok: bool)
      requires Ready() && token != 0 && Open(seen)
      modifies db
      ensures Ready()
      ensures HoldsRefund(old(db.tables), f, seen, token) ==>
        old(db.tables).refunds[f].payment < |old(db.tables).payments| == |old(db.tables).trails|
      ensures db.tables == old(db.tables) || db.tables == FinishRefund(old(db.tables), f, seen, token, succeeded, at)
      ensures ok ==> db.tables == FinishRefund(old(db.tables), f, seen, token, succeeded, at)
      ensures old(db.faults) <= db.faults
      ensures db.faults == old(db.faults) ==> db.tables == FinishRefund(old(db.tables), f, seen, token, succeeded, at)
    {
      hide Consistent, FinishRefund;
      ghost var was := db.tables;
      FinishRefundKeeps(was, f, seen, token, succeeded, at);
      var txn := new Txn(db);
      if !txn.began { return false; }
      ok := RefundWithin(f, seen, token, succeeded, at);
      if ok { ok := txn.Commit(); }
      if !ok { txn.Rollback(); }
      txn.Close();
    }

    method RefundWithin(f: nat, seen: RefundStatus, token: nat, succeeded: bool, at: int) returns (ok: bool)
      requires HoldsRefund(db.tables, f, seen, token) ==>
        db.tables.refunds[f].payment < |db.tables.payments| == |db.tables.trails|
      modifies db`tables, db`faults
      ensures old(db.faults) <= db.faults
      ensures ok ==> db.tables == FinishRefund(old(db.tables), f, seen, token, succeeded, at)
      ensures db.faults == old(db.faults) ==>
        FinishRefund(old(db.tables), f, seen, token, succeeded, at) == if ok then db.tables else old(db.tables)
    {
      ghost var was := db.tables;
      if succeeded {
        ok := db.CompleteRefund(f, seen, token, at);
        if !ok { return; }
        var p := db.tables.refunds[f].payment;
        ok := db.Transition(p, Refunding, Refunded, at);
        if !ok { return; }
        ok := db.AppendEvent(p, Change(Some(Refunding), Refunded));
      } else {
        ok := db.RetryRefund(f, seen, token, at);
      }
    }
  }

  ghost function ExpireSteps(rows: seq<nat>, now: int): seq<Step> {
    seq(|rows|, i requires 0 <= i < |rows| => ExpiredAt(rows[i], now))
  }

  lemma NoSteps(db: Tables)
    requires Consistent(db)
    ensures Run(db, []) == db
  {
  }

  lemma {:induction false} RunOneMore(db: Tables, steps: seq<Step>, step: Step)
    requires Consistent(db)
    ensures Consistent(Run(db, steps)) && Run(db, steps + [step]) == Apply(Run(db, steps), step)
    decreases |steps|
  {
    hide Consistent, Apply;
    if steps == [] {
      assert ([] + [step])[1..] == [];
    } else {
      StepKeeps(db, steps[0]);
      RunOneMore(Apply(db, steps[0]), steps[1..], step);
      assert (steps + [step])[1..] == steps[1..] + [step];
    }
  }

  /** None of the steps is a part of worker w's own transaction. */
  predicate ByOthers(steps: seq<Step>, w: nat) {
    forall i :: 0 <= i < |steps| ==>
      (steps[i].ViewTaken? ==> steps[i].worker != w) && (steps[i].PaymentCreated? ==> steps[i].worker != w)
  }

  lemma OthersLeaveView(db: Tables, step: Step, w: nat)
    requires Consistent(db) && w in db.views && ByOthers([step], w)
    ensures w in Apply(db, step).views && Apply(db, step).views[w] == db.views[w]
  {
    hide Consistent, Amount, SucceededFor;
    assert [step][0] == step;
  }

  /** What worker w saw at its first read stays what it sees, whatever others commit. */
  lemma {:induction false} ViewStays(db: Tables, steps: seq<Step>, w: nat)
    requires Consistent(db) && w in db.views && ByOthers(steps, w)
    ensures w in Run(db, steps).views && Run(db, steps).views[w] == db.views[w]
    decreases |steps|
  {
    hide Consistent, Apply;
    if steps != [] {
      StepKeeps(db, steps[0]);
      OthersLeaveView(db, steps[0], w);
      ViewStays(Apply(db, steps[0]), steps[1..], w);
    }
  }

  /** Selling the seats before it does not take seat i. */
  lemma OthersSold(db: Tables, seatIds: seq<nat>, i: nat, ticket: nat, r: nat)
    requires Distinct(seatIds) && i < |seatIds|
    ensures SeatFree(db.(seats := SellAll(db.seats, seatIds[..i], r)), seatIds[i], ticket) <==>
      SeatFree(db, seatIds[i], ticket)
  {
  }

  lemma SellOneMore(seats: seq<Seat>, seatIds: seq<nat>, i: nat, r: nat)
    requires i < |seatIds| && seatIds[i] < |seats|
    ensures seatIds[i] < |SellAll(seats, seatIds[..i], r)|
    ensures
      var sold := SellAll(seats, seatIds[..i], r);
      sold[seatIds[i] := sold[seatIds[i]].(sold := true, reservation := Some(r))] == SellAll(seats, seatIds[..i + 1], r)
  {
  }
}
