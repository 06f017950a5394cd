/**
 The MySQL connection as the service sees it: transactions, and the statements of the repositories as
 single guarded changes of the tables.  Any statement may fail and then changes nothing; a COMMIT that
 reports failure may or may not have taken effect.  `faults` counts the failures, so that what happens
 when nothing fails can be said exactly.
 */
module OrderDatabase {
  import opened Basics
  import opened OrderTables
  import opened OrderInvariants
  import opened OrderRuns

  /** No overdue order that is left out was to end earlier than one that is not. */
  predicate Foremost(rs: seq<Reservation>, rows: seq<nat>, now: int) {
    forall i, r: nat :: 0 <= i < |rows| && r < |rs| && Overdue(rs[r], now) && r !in rows ==>
      rows[i] < |rs| && rs[rows[i]].expireAt.Some? && rs[rows[i]].expireAt.value <= rs[r].expireAt.value
  }

  /** The first `limit` overdue orders, or all of them if there are fewer. */
  predicate Earliest(rs: seq<Reservation>, rows: seq<nat>, now: int, limit: nat) {
    && Foremost(rs, rows, now)
    && (|rows| < limit ==> forall r: nat :: r < |rs| && Overdue(rs[r], now) ==> r in rows)
  }

  class Database {
    const level: Isolation
    var tables: Tables
    var saved: Option<Tables>  // what a ROLLBACK restores; none outside a transaction
    ghost var faults: nat  // how many statements have failed

    constructor (level: Isolation)
      ensures this.level == level && tables == NoTables && saved == None
    {
      this.level := level;
      tables, saved := NoTables, None;
    }

    /** Whether the statement that is about to be carried out fails. */
    method Fails() returns (fails: bool)
      modifies this`faults
      ensures faults == if fails then old(faults) + 1 else old(faults)
    {
      fails := *;
      if fails { faults := faults + 1; }
    }

    /** Other workers commit transactions while this one has written nothing yet and waits for a row. */
    method OthersCommit(others: seq<Step>)
      requires saved == Some(tables) && Consistent(tables)
      modifies this`tables, this`saved
      ensures Consistent(tables) && saved == Some(tables) && tables == Run(old(tables), others)
    {
      hide Consistent;
      RunKeeps(tables, others);
      tables := Run(tables, others);
      saved := Some(tables);
    }

    method Begin() returns (ok: bool)
      modifies this`saved, this`faults
      ensures saved == if ok then Some(tables) else old(saved)
      ensures faults == if ok then old(faults) else old(faults) + 1
    {
      var fails := Fails();
      ok := !fails;
      if ok { saved := Some(tables); }
    }

    method Commit() returns (ok: bool)
      modifies this`saved, this`faults
      ensures saved == None || (!ok && saved == old(saved))
      ensures faults == if ok then old(faults) else old(faults) + 1
    {
      var fails := Fails();
      ok := !fails;
      var lost: bool := *;
      if ok || lost { saved := None; }
    }

    method Rollback()
      modifies this`tables, this`saved
      ensures saved == None && tables == if old(saved).Some? then old(saved).value else old(tables)
    {
      if saved.Some? { tables := saved.value; }
      saved := None;
    }

    // ---------- tickets and seats ----------

    method InsertTicket(total: nat, price: int) returns (ok: bool)
      modifies this`tables, this`faults
      ensures faults == if ok then old(faults) else old(faults) + 1
      ensures tables == if ok then AddTicket(old(tables), total, price) else old(tables)
    {
      var fails := Fails();
      ok := !fails;
      if ok { tables := AddTicket(tables, total, price); }
    }

    /** The batch of `generate`. */
    method InsertSeats(t: nat, seatPrices: seq<int>) returns (ok: bool)
      modifies this`tables, this`faults
      ensures faults == if ok then old(faults) else old(faults) + 1
      ensures tables == if ok then AddSeats(old(tables), t, seatPrices) else old(tables)
    {
      var fails := Fails();
      ok := !fails;
      if ok { tables := AddSeats(tables, t, seatPrices); }
    }

    method SetOffline(t: nat) returns (ok: bool)
      modifies this`tables, this`faults
      ensures faults == if ok then old(faults) else old(faults) + 1
      ensures tables == if ok && t < |old(tables).tickets| then TakeOffline(old(tables), t) else old(tables)
    {
      var fails := Fails();
      ok := !fails;
      if ok && t < |tables.tickets| { tables := TakeOffline(tables, t); }
    }

    method LockTicket(t: nat) returns (row: Option<Ticket>)
      modifies this`faults
      ensures old(faults) <= faults
      ensures faults == old(faults) ==> (row.Some? <==> t < |tables.tickets|)
      ensures row.Some? ==> t < |tables.tickets| && row.value == tables.tickets[t]
    {
      var fails := Fails();
      row := if fails || t >= |tables.tickets| then None else Some(tables.tickets[t]);
    }

    method AdjustSeats(t: nat, delta: int) returns (ok: bool)
      modifies this`tables, this`faults
      ensures old(faults) <= faults
      ensures !ok ==> tables == old(tables)
      ensures ok ==>
        && t < |old(tables).tickets| && (delta >= 0 || old(tables).tickets[t].available >= -delta)
        && tables == old(tables).(tickets := Adjust(old(tables).tickets, t, delta))
      ensures faults == old(faults) ==> (ok <==>
        t < |old(tables).tickets| && (delta >= 0 || old(tables).tickets[t].available >= -delta))
    {
      var fails := Fails();
      ok := !fails && t < |tables.tickets| && (delta >= 0 || tables.tickets[t].available >= -delta);
      if ok { tables := tables.(tickets := Adjust(tables.tickets, t, delta)); }
    }

    /** Reads the row under a lock and marks it sold if it is available. */
    method LockAndSell(s: nat, ticket: nat, r: nat) returns (ok: bool)
      modifies this`tables, this`faults
      ensures old(faults) <= faults
      ensures !ok ==> tables == old(tables)
      ensures ok ==>
        && SeatFree(old(tables), s, ticket)
        && tables == old(tables).(
             seats := old(tables).seats[s := old(tables).seats[s].(sold := true, reservation := Some(r))])
      ensures faults == old(faults) ==> (ok <==> SeatFree(old(tables), s, ticket))
    {
      var fails := Fails();
      ok := !fails && SeatFree(tables, s, ticket);
      if ok {
        tables := tables.(seats := tables.seats[s := tables.seats[s].(sold := true, reservation := Some(r))]);
      }
    }

    method ReleaseByReservation(r: nat) returns (ok: bool)
      modifies this`tables, this`faults
      ensures faults == if ok then old(faults) else old(faults) + 1
      ensures tables == if ok then old(tables).(seats := ReleaseAll(old(tables).seats, r)) else old(tables)
    {
      var fails := Fails();
      ok := !fails;
      if ok { tables := tables.(seats := ReleaseAll(tables.seats, r)); }
    }

    // ---------- reservations ----------

    /** The unique key on the request id refuses a second row. */
    method InsertReservation(user: nat, ticket: nat, quantity: int, request: string, seatIds: seq<nat>, now: int)
        returns (ok: bool)
      modifies this`tables, this`faults
      ensures old(faults) <= faults
      ensures !ok ==> tables == old(tables)
      ensures ok ==>
        && (forall r :: 0 <= r < |old(tables).reservations| ==> old(tables).reservations[r].requestId != request)
        && tables == old(tables).(reservations := old(tables).reservations +
             [Reservation(user, ticket, quantity, Pending, Some(now + PAYMENT_WINDOW), request, seatIds)])
      ensures faults == old(faults) ==> (ok <==>
        forall r :: 0 <= r < |old(tables).reservations| ==> old(tables).reservations[r].requestId != request)
    {
      var fails := Fails();
      ok := !fails && forall r :: 0 <= r < |tables.reservations| ==> tables.reservations[r].requestId != request;
      if ok {
        var row := Reservation(user, ticket, quantity, Pending, Some(now + PAYMENT_WINDOW), request, seatIds);
        tables := tables.(reservations := tables.reservations + [row]);
      }
    }

    method LockOwned(r: nat, user: nat) returns (row: Option<Reservation>)
      modifies this`faults
      ensures old(faults) <= faults
      ensures faults == old(faults) ==>
        (row.Some? <==> r < |tables.reservations| && tables.reservations[r].user == user)
      ensures row.Some? ==>
        r < |tables.reservations| && row.value == tables.reservations[r] && row.value.user == user
    {
      var fails := Fails();
      row := if fails || r >= |tables.reservations| || tables.reservations[r].user != user then None
      else Some(tables.reservations[r]);
    }

    /** Sets the status of a row by its id alone. */
    method SetStatus(r: nat, status: OrderStatus) returns (ok: bool)
      requires r < |tables.reservations|
      modifies this`tables, this`faults
      ensures faults == if ok then old(faults) else old(faults) + 1
      ensures tables == if ok
        then old(tables).(reservations := old(tables).reservations[r := old(tables).reservations[r].(status := status)])
        else old(tables)
    {
      var fails := Fails();
      ok := !fails;
      if ok { tables := tables.(reservations := tables.reservations[r := tables.reservations[r].(status := status)]); }
    }

    method Pay(r: nat, user: nat, now: int) returns (ok: bool)
      modifies this`tables, this`faults
      ensures old(faults) <= faults
      ensures !ok ==> tables == old(tables)
      ensures ok ==> CanConfirm(old(tables), r, user, now) && tables == Confirm(old(tables), r)
      ensures faults == old(faults) ==> (ok <==> CanConfirm(old(tables), r, user, now))
    {
      var fails := Fails();
      ok := !fails && CanConfirm(tables, r, user, now);
      if ok { tables := Confirm(tables, r); }
    }

    /** The orders whose time is up, earliest first, at most `limit`; none when the statement fails. */
    method LockExpiredPending(now: int, limit: nat) returns (rows: seq<nat>)
      modifies this`faults
      ensures |rows| <= limit && Distinct(rows) && old(faults) <= faults
      ensures forall i :: 0 <= i < |rows| ==>
        rows[i] < |tables.reservations| && Overdue(tables.reservations[rows[i]], now)
      ensures faults == old(faults) ==> Earliest(tables.reservations, rows, now, limit)
    {
      rows := [];
      var fails := Fails();
      if fails { return; }
      var done := false;
      while |rows| < limit && !done
        invariant |rows| <= limit && Distinct(rows) && faults == old(faults)
        invariant forall i :: 0 <= i < |rows| ==>
          rows[i] < |tables.reservations| && Overdue(tables.reservations[rows[i]], now)
        invariant Foremost(tables.reservations, rows, now)
        invariant done ==>
          forall r: nat :: r < |tables.reservations| && Overdue(tables.reservations[r], now) ==> r in rows
        decreases limit - |rows|, !done
      {
        var next := NextExpired(rows, now);
        if next.Some? { rows := rows + [next.value]; } else { done := true; }
      }
    }

    /** The earliest of those that are not in `rows`. */
    method NextExpired(rows: seq<nat>, now: int) returns (next: Option<nat>)
      ensures next.Some? ==>
        && next.value < |tables.reservations| && next.value !in rows && Overdue(tables.reservations[next.value], now)
        && forall r: nat :: r < |tables.reservations| && r !in rows && Overdue(tables.reservations[r], now) ==>
             tables.reservations[next.value].expireAt.value <= tables.reservations[r].expireAt.value
      ensures next.None? ==>
        forall r: nat :: r < |tables.reservations| && Overdue(tables.reservations[r], now) ==> r in rows
    {
      next := None;
      for r := 0 to |tables.reservations|
        invariant next.Some? ==>
          && next.value < r && next.value !in rows && Overdue(tables.reservations[next.value], now)
          && forall i: nat :: i < r && i !in rows && Overdue(tables.reservations[i], now) ==>
               tables.reservations[next.value].expireAt.value <= tables.reservations[i].expireAt.value
        invariant next.None? ==> forall i: nat :: i < r && Overdue(tables.reservations[i], now) ==> i in rows
      {
        var row := tables.reservations[r];
        if r !in rows && Overdue(row, now)
          && (next.None? || row.expireAt.value < tables.reservations[next.value].expireAt.value)
        {
          next := Some(r);
        }
      }
    }

    // ---------- payments ----------

    /** The first plain read of worker w's transaction, which fixes what it sees at REPEATABLE READ. */
    method FindByIdempotencyKey(w: nat, user: nat, key: string) returns (found: bool)
      requires saved == Some(tables)
      modifies this
      ensures tables == TakeView(old(tables), w) && saved == Some(tables)
      ensures found ==> KeyUsed(tables.payments, user, key)
      ensures old(faults) <= faults && (faults == old(faults) ==> (found <==> KeyUsed(tables.payments, user, key)))
    {
      tables := TakeView(tables, w);
      saved := Some(tables);
      var fails := Fails();
      found := !fails && KeyUsed(tables.payments, user, key);
    }

    /** A plain read later in the transaction; a look-up that fails answers like one that finds nothing. */
    method FindActiveByResv(w: nat, r: nat) returns (found: bool, failed: bool)
      requires w in tables.views
      modifies this`faults
      ensures found <==> !failed && ActiveFor(Seen(tables, w, level), r)
      ensures faults == if failed then old(faults) + 1 else old(faults)
    {
      failed := Fails();
      found := !failed && ActiveFor(Seen(tables, w, level), r);
    }

    /** Takes amount and owner from the order; the unique key on user and idempotency key refuses a second row. */
    method InsertForReservation(r: nat, user: nat, key: string, now: int) returns (ok: bool)
      requires r < |tables.reservations| ==> tables.reservations[r].ticket < |tables.tickets|
      modifies this`tables, this`faults
      ensures old(faults) <= faults
      ensures !ok ==> tables == old(tables)
      ensures ok ==>
        && r < |old(tables).reservations| && old(tables).reservations[r].user == user
        && !KeyUsed(old(tables).payments, user, key)
        && tables == old(tables).(payments := old(tables).payments +
             [Payment(r, user, Amount(old(tables), r), key, Created, 0, now)],
             trails := old(tables).trails + [[]])
      ensures faults == old(faults) ==> (ok <==>
        r < |old(tables).reservations| && old(tables).reservations[r].user == user
        && !KeyUsed(old(tables).payments, user, key))
    {
      var fails := Fails();
      ok := !fails && r < |tables.reservations| && tables.reservations[r].user == user;
      ok := ok && !KeyUsed(tables.payments, user, key);
      if ok {
        var row := Payment(r, user, Amount(tables, r), key, Created, 0, now);
        tables := tables.(payments := tables.payments + [row], trails := tables.trails + [[]]);
      }
    }

    /** No statement: the view of worker w has served, and the history keeps whether it hid an active payment. */
    method EndView(w: nat, hid: bool)
      modifies this`tables
      ensures tables == old(tables).(views := old(tables).views - {w}, doubled := old(tables).doubled || hid)
    {
      tables := tables.(views := tables.views - {w}, doubled := tables.doubled || hid);
    }

    method LockById(p: nat) returns (row: Option<Payment>)
      modifies this`faults
      ensures old(faults) <= faults
      ensures faults == old(faults) ==> (row.Some? <==> p < |tables.payments|)
      ensures row.Some? ==> p < |tables.payments| && row.value == tables.payments[p]
    {
      var fails := Fails();
      row := if fails || p >= |tables.payments| then None else Some(tables.payments[p]);
    }

    /** A look-up that fails answers like one that finds nothing; the history keeps what it passed over. */
    method LockSucceededByResv(r: nat) returns (p: Option<nat>)
      modifies this`tables, this`faults
      ensures old(faults) <= faults
      ensures faults == old(faults) ==> p == SucceededFor(old(tables).payments, r)
      ensures p.Some? ==> p == SucceededFor(old(tables).payments, r) && tables == old(tables)
      ensures p.None? ==>
        var there := SucceededFor(old(tables).payments, r);
        tables == if there.None? then old(tables)
                  else old(tables).(overlooked := old(tables).overlooked + {there.value})
    {
      var fails := Fails();
      p := SucceededFor(tables.payments, r);
      if fails && p.Some? {
        tables := tables.(overlooked := tables.overlooked + {p.value});
        p := None;
      }
    }

    method AppendEvent(p: nat, change: Change) returns (ok: bool)
      requires p < |tables.trails|
      modifies this`tables, this`faults
      ensures faults == if ok then old(faults) else old(faults) + 1
      ensures tables == if ok
        then old(tables).(trails := old(tables).trails[p := old(tables).trails[p] + [change]])
        else old(tables)
    {
      var fails := Fails();
      ok := !fails;
      if ok { tables := tables.(trails := tables.trails[p := tables.trails[p] + [change]]); }
    }

    /** The transition that asks for the status only, and leaves the token where it is. */
    method Transition(p: nat, expected: PaymentStatus, next: PaymentStatus, at: int) returns (ok: bool)
      modifies this`tables, this`faults
      ensures old(faults) <= faults
      ensures !ok ==> tables == old(tables)
      ensures ok ==>
        && p < |old(tables).payments| && old(tables).payments[p].status == expected
        && tables == old(tables).(payments :=
             old(tables).payments[p := old(tables).payments[p].(status := next, nextActionAt := at)])
      ensures faults == old(faults) ==>
        (ok <==> p < |old(tables).payments| && old(tables).payments[p].status == expected)
    {
      var fails := Fails();
      ok := !fails && p < |tables.payments| && tables.payments[p].status == expected;
      if ok {
        tables := tables.(payments := tables.payments[p := tables.payments[p].(status := next, nextActionAt := at)]);
      }
    }

    /** UPDATE of the token under a guard, then a SELECT of it, both under the row's lock. */
    method ClaimPaymentAction(p: nat, expected: PaymentStatus, now: int, lease: int) returns (token: Option<nat>)
      modifies this`tables, this`faults
      ensures old(faults) <= faults
      ensures faults == old(faults) ==> (token.Some? <==>
        p < |old(tables).payments| && old(tables).payments[p].status == expected
        && old(tables).payments[p].nextActionAt <= now)
      ensures token.Some? ==>
        && p < |old(tables).payments| && old(tables).payments[p].status == expected
        && old(tables).payments[p].nextActionAt <= now && token.value == old(tables).nextToken
        && tables == old(tables).(
             payments := old(tables).payments[p :=
               old(tables).payments[p].(token := old(tables).nextToken, nextActionAt := now + lease)],
             nextToken := old(tables).nextToken + 1)
    {
      var fails := Fails();
      if fails || p >= |tables.payments| { return None; }
      if tables.payments[p].status != expected || tables.payments[p].nextActionAt > now { return None; }
      var row := tables.payments[p].(token := tables.nextToken, nextActionAt := now + lease);
      tables := tables.(payments := tables.payments[p := row], nextToken := tables.nextToken + 1);
      var unread := Fails();
      if unread { return None; }
      return Some(tables.payments[p].token);
    }

    /** Both `transitionClaimed` and, with the same status, `retryClaimedPayment`. */
    method TransitionClaimed(p: nat, expected: PaymentStatus, token: nat, next: PaymentStatus, at: int)
        returns (ok: bool)
      modifies this`tables, this`faults
      ensures old(faults) <= faults
      ensures !ok ==> tables == old(tables)
      ensures ok ==>
        && HoldsClaim(old(tables), p, expected, token)
        && tables == old(tables).(
             payments := old(tables).payments[p :=
               old(tables).payments[p].(status := next, token := 0, nextActionAt := at)],
             finished := old(tables).finished + [token])
      ensures faults == old(faults) ==> (ok <==> HoldsClaim(old(tables), p, expected, token))
    {
      var fails := Fails();
      ok := !fails && HoldsClaim(tables, p, expected, token);
      if ok {
        var row := tables.payments[p].(status := next, token := 0, nextActionAt := at);
        tables := tables.(payments := tables.payments[p := row], finished := tables.finished + [token]);
      }
    }

    // ---------- refunds ----------

    method InsertRefund(p: nat, amountMinor: int, now: int) returns (ok: bool)
      modifies this`tables, this`faults
      ensures faults == if ok then old(faults) else old(faults) + 1
      ensures tables == if ok
        then old(tables).(refunds :=
               old(tables).refunds + [Refund(p, amountMinor, RefundCreated, 0, MAX_ATTEMPTS, 0, now)])
        else old(tables)
    {
      var fails := Fails();
      ok := !fails;
      if ok {
        tables := tables.(refunds := tables.refunds + [Refund(p, amountMinor, RefundCreated, 0, MAX_ATTEMPTS, 0, now)]);
      }
    }

    /** Three statements; the caller rolls back when it fails half-way. */
    method BeginFullRefund(p: nat, now: int) returns (ok: bool)
      requires p < |tables.payments| == |tables.trails|
      modifies this`tables, this`faults
      ensures old(faults) <= faults
      ensures faults == old(faults) ==> (ok <==> old(tables).payments[p].status.Succeeded?)
      ensures ok ==> old(tables).payments[p].status.Succeeded? && tables == BeginRefund(old(tables), p, now)
    {
      ok := Transition(p, Succeeded, Refunding, now);
      if !ok { return; }
      ok := InsertRefund(p, tables.payments[p].amountMinor, now);
      if !ok { return; }
      ok := AppendEvent(p, Change(Some(Succeeded), Refunding));
    }

    method ClaimRefundAction(f: nat, expected: RefundStatus, now: int, lease: int) returns (token: Option<nat>)
      modifies this`tables, this`faults
      ensures old(faults) <= faults
      ensures faults == old(faults) ==> (token.Some? <==> CanClaimRefund(old(tables), f, expected, now))
      ensures token.Some? ==>
        && CanClaimRefund(old(tables), f, expected, now) && token.value == old(tables).nextToken
        && tables == ClaimRefund(old(tables), f, expected, now, lease)
    {
      var fails := Fails();
      if fails || !CanClaimRefund(tables, f, expected, now) { return None; }
      var row := tables.refunds[f].(token := tables.nextToken, nextActionAt := now + lease);
      tables := tables.(refunds := tables.refunds[f := row], nextToken := tables.nextToken + 1);
      var unread := Fails();
      if unread { return None; }
      return Some(tables.refunds[f].token);
    }

    method CompleteRefund(f: nat, expected: RefundStatus, token: nat, now: int) returns (ok: bool)
      modifies this`tables, this`faults
      ensures old(faults) <= faults
      ensures !ok ==> tables == old(tables)
      ensures ok ==>
        && HoldsRefund(old(tables), f, expected, token)
        && tables == old(tables).(
             refunds := old(tables).refunds[f := old(tables).refunds[f].(status := RefundSucceeded,
               attempts := old(tables).refunds[f].attempts + 1, token := 0, nextActionAt := now)],
             finished := old(tables).finished + [token])
      ensures faults == old(faults) ==> (ok <==> HoldsRefund(old(tables), f, expected, token))
    {
      var fails := Fails();
      ok := !fails && HoldsRefund(tables, f, expected, token);
      if ok {
        var row := tables.refunds[f];
        row := row.(status := RefundSucceeded, attempts := row.attempts + 1, token := 0, nextActionAt := now);
        tables := tables.(refunds := tables.refunds[f := row], finished := tables.finished + [token]);
      }
    }

    method RetryRefund(f: nat, expected: RefundStatus, token: nat, at: int) returns (ok: bool)
      modifies this`tables, this`faults
      ensures old(faults) <= faults
      ensures !ok ==> tables == old(tables)
      ensures ok ==>
        && HoldsRefund(old(tables), f, expected, token)
        && tables == old(tables).(
             refunds := old(tables).refunds[f := old(tables).refunds[f].(
               status := if old(tables).refunds[f].attempts + 1 >= old(tables).refunds[f].maxAttempts
                         then RefundFailed else RefundProcessing,
               attempts := old(tables).refunds[f].attempts + 1, token := 0, nextActionAt := at)],
             finished := old(tables).finished + [token])
      ensures faults == old(faults) ==> (ok <==> HoldsRefund(old(tables), f, expected, token))
    {
      var fails := Fails();
      ok := !fails && HoldsRefund(tables, f, expected, token);
      if ok {
        var row := tables.refunds[f];
        var next := if row.attempts + 1 >= row.maxAttempts then RefundFailed else RefundProcessing;
        row := row.(status := next, attempts := row.attempts + 1, token := 0, nextActionAt := at);
        tables := tables.(refunds := tables.refunds[f := row], finished := tables.finished + [token]);
      }
    }
  }

  /** A transaction of a scope: begun on entry, and rolled back on leaving unless it is done. */
  class Txn {
    const conn: Database
    var began: bool
    var done: bool

    constructor (conn: Database)
      requires conn.saved == None
      modifies conn`saved, conn`faults
      ensures this.conn == conn && !done
      ensures conn.faults == if began then old(conn.faults) else old(conn.faults) + 1
      ensures conn.saved == if began then Some(conn.tables) else None
    {
      this.conn := conn;
      done := false;
      began := false;
      new;
      began := conn.Begin();
    }

    method Commit() returns (ok: bool)
      modifies this`done, conn`saved, conn`faults
      ensures conn.faults == if ok then old(conn.faults) else old(conn.faults) + 1
      ensures done == (old(done) || ok)
      ensures conn.saved == None || (!ok && conn.saved == old(conn.saved))
    {
      ok := conn.Commit();
      if ok { done := true; }
    }

    method Rollback()
      modifies this`done, conn`tables, conn`saved
      ensures done && conn.saved == None
      ensures conn.tables == if old(conn.saved).Some? then old(conn.saved).value else old(conn.tables)
    {
      conn.Rollback();
      done := true;
    }

    /** The destructor. */
    method Close()
      requires done ==> conn.saved == None
      requires !began ==> conn.saved == None
      modifies conn`tables, conn`saved
      ensures conn.saved == None
      ensures conn.tables == if old(conn.saved).Some? then old(conn.saved).value else old(conn.tables)
    {
      if began && !done { conn.Rollback(); }
    }
  }
}
