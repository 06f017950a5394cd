/**
 The theorems about every run of the order service: any sequence of its transactions, from empty
 tables, by any number of workers that act on what they read earlier.
 */
module OrderRuns {
  import opened Basics
  import opened OrderTables
  import opened OrderInvariants

  function Run(db: Tables, steps: seq<Step>): Tables
    requires Consistent(db)
    decreases |steps|
  {
    hide Consistent;
    if steps == [] then db
    else
      StepKeeps(db, steps[0]);
      Run(Apply(db, steps[0]), steps[1..])
  }

  lemma {:induction false} RunKeeps(db: Tables, steps: seq<Step>)
    requires Consistent(db)
    ensures Consistent(Run(db, steps))
    decreases |steps|
  {
    hide Consistent, Apply;
    if steps != [] {
      StepKeeps(db, steps[0]);
      RunKeeps(Apply(db, steps[0]), steps[1..]);
    }
  }

  lemma NoTablesConsistent()
    ensures Consistent(NoTables)
  {
  }

  /** The tables after `steps`, from the start. */
  ghost function Reached(steps: seq<Step>): Tables {
    NoTablesConsistent();
    hide Consistent;
    Run(NoTables, steps)
  }

  /** Whatever the transactions were, the tables are consistent. */
  lemma ReachedIsConsistent(steps: seq<Step>)
    ensures Consistent(Reached(steps))
  {
    NoTablesConsistent();
    hide Consistent;
    RunKeeps(NoTables, steps);
  }

  // ---------- stock and seats ----------

  /** Nothing is oversold: live orders hold exactly the tickets that are not available. */
  lemma StockConserved(steps: seq<Step>, t: nat)
    requires t < |Reached(steps).tickets|
    ensures
      var db := Reached(steps);
      && 0 <= db.tickets[t].available
      && 0 <= Held(db.reservations, t) <= db.tickets[t].total
      && db.tickets[t].available + Held(db.reservations, t) == db.tickets[t].total
  {
    ReachedIsConsistent(steps);
    HeldIsNatural(Reached(steps).reservations, t);
  }

  lemma {:induction false} HeldIsNatural(rs: seq<Reservation>, t: nat)
    requires forall r :: 0 <= r < |rs| ==> 1 <= rs[r].quantity
    ensures 0 <= Held(rs, t)
  {
    if rs != [] { HeldIsNatural(rs[..|rs| - 1], t); }
  }

  /** A live order has all the seats it asked for, and no other live order has any of them. */
  lemma SeatsExclusive(steps: seq<Step>, r: nat)
    requires r < |Reached(steps).reservations| && Live(Reached(steps).reservations[r].status)
    ensures
      var db := Reached(steps);
      && (forall i :: 0 <= i < |db.reservations[r].seatIds| ==>
            && db.reservations[r].seatIds[i] < |db.seats|
            && db.seats[db.reservations[r].seatIds[i]].reservation == Some(r))
      && (forall r', s :: 0 <= r' < |db.reservations| && r' != r && Live(db.reservations[r'].status) ==>
            s in db.reservations[r].seatIds ==> s !in db.reservations[r'].seatIds)
  {
    ReachedIsConsistent(steps);
    SeatsHeld(Reached(steps).seats, Reached(steps).reservations, r);
  }

  lemma SeatsHeld(seats: seq<Seat>, rs: seq<Reservation>, r: nat)
    requires SeatsOk(seats, rs) && r < |rs| && Live(rs[r].status)
    ensures forall i :: 0 <= i < |rs[r].seatIds| ==>
      rs[r].seatIds[i] < |seats| && seats[rs[r].seatIds[i]].reservation == Some(r)
    ensures forall r', s :: 0 <= r' < |rs| && r' != r && Live(rs[r'].status) && s in rs[r].seatIds ==>
      s !in rs[r'].seatIds
  {
  }

  predicate OrderMoves(from: OrderStatus, to: OrderStatus) {
    from == to || from.Pending? || (from.Confirmed? && to.Cancelled?)
  }

  /** A step moves an order only forward; one that has ended keeps its row for good. */
  lemma StepMoves(db: Tables, step: Step, r: nat)
    requires Consistent(db) && r < |db.reservations|
    ensures r < |Apply(db, step).reservations|
    ensures OrderMoves(db.reservations[r].status, Apply(db, step).reservations[r].status)
    ensures !Live(db.reservations[r].status) ==> Apply(db, step).reservations[r] == db.reservations[r]
  {
    hide Consistent, Amount, SucceededFor;
  }

  /**
   An order that has ended stays as it is: it is never both paid for and expired, and its stock and
   seats are given back once, when it ends.
   */
  lemma {:induction false} EndedStays(db: Tables, steps: seq<Step>, r: nat)
    requires Consistent(db) && r < |db.reservations| && !Live(db.reservations[r].status)
    ensures r < |Run(db, steps).reservations| && Run(db, steps).reservations[r] == db.reservations[r]
    decreases |steps|
  {
    hide Consistent, Apply;
    if steps != [] {
      StepKeeps(db, steps[0]);
      StepMoves(db, steps[0], r);
      EndedStays(Apply(db, steps[0]), steps[1..], r);
    }
  }

  // ---------- money ----------

  ghost predicate OneRefund(fs: seq<Refund>, p: nat, amount: int, done: bool) {
    exists f :: 0 <= f < |fs| && fs[f].payment == p && fs[f].amountMinor == amount
      && (fs[f].status.RefundSucceeded? <==> done)
      && (forall g :: 0 <= g < |fs| && g != f ==> fs[g].payment != p)
  }

  /**
   A payment that took money either stands behind one confirmed order, as its only successful
   payment, or has exactly one refund, of the whole amount; it counts as refunded once that refund
   has succeeded.  Any other payment has no refund.
   */
  ghost predicate Accounted(db: Tables, p: nat)
    requires p < |db.payments|
  {
    var pay := db.payments[p];
    match pay.status
    case Succeeded =>
      && pay.reservation < |db.reservations| && db.reservations[pay.reservation].status.Confirmed?
      && (forall q :: 0 <= q < |db.payments| && q != p && db.payments[q].status.Succeeded? ==>
            db.payments[q].reservation != pay.reservation)
    case Refunding => OneRefund(db.refunds, p, pay.amountMinor, false)
    case Refunded => OneRefund(db.refunds, p, pay.amountMinor, true)
    case PartiallyRefunded => false
    case _ => forall f :: 0 <= f < |db.refunds| ==> db.refunds[f].payment != p
  }

  lemma MoneyAccounted(steps: seq<Step>, p: nat)
    requires p < |Reached(steps).payments|
    ensures Accounted(Reached(steps), p) <==> p !in Reached(steps).overlooked
  {
    ReachedIsConsistent(steps);
    RowAccounted(Reached(steps), p);
  }

  lemma RowAccounted(db: Tables, p: nat)
    requires p < |db.payments| && RefundsOk(db.payments, db.refunds)
    requires CapturedOk(db.reservations, db.payments, db.overlooked)
    ensures Accounted(db, p) <==> p !in db.overlooked
  {
  }

  /**
   A payment is overlooked exactly by the cancellation of the order it paid for when the look-up of the
   payment fails.
   */
  lemma OverlookedExactly(db: Tables, step: Step, p: nat)
    requires Consistent(db) && p !in db.overlooked
    ensures p in Apply(db, step).overlooked <==>
      && step.CancelledBy? && step.missed && CanCancel(db, step.user, step.reservation)
      && p < |db.payments| && db.payments[p].status.Succeeded? && db.payments[p].reservation == step.reservation
  {
    if step.CancelledBy? && CanCancel(db, step.user, step.reservation) {
      PaidIsFound(db, step.reservation, p);
    } else {
      OthersOverlookNothing(db, step);
    }
  }

  /** The successful payment of a live order is the one that a look-up finds. */
  lemma PaidIsFound(db: Tables, r: nat, p: nat)
    requires Consistent(db) && r < |db.reservations| && Live(db.reservations[r].status) && p !in db.overlooked
    ensures
      p < |db.payments| && db.payments[p].status.Succeeded? && db.payments[p].reservation == r <==>
      db.reservations[r].status.Confirmed? && SucceededFor(db.payments, r) == Some(p)
  {
  }

  lemma OthersOverlookNothing(db: Tables, step: Step)
    requires Consistent(db) && !(step.CancelledBy? && CanCancel(db, step.user, step.reservation))
    ensures Apply(db, step).overlooked == db.overlooked
  {
    hide Consistent, Amount, SucceededFor;
  }

  /** It then keeps its money for good: no transaction refunds it. */
  lemma {:induction false} OverlookedStays(db: Tables, steps: seq<Step>, p: nat)
    requires Consistent(db) && p in db.overlooked
    ensures
      var end := Run(db, steps);
      && p in end.overlooked && p < |end.payments| && end.payments[p].status.Succeeded?
      && (forall f :: 0 <= f < |end.refunds| ==> end.refunds[f].payment != p)
    decreases |steps|
  {
    hide Apply;
    if steps == [] {
      assert CapturedOk(db.reservations, db.payments, db.overlooked) && RefundsOk(db.payments, db.refunds);
    } else {
      StepKeeps(db, steps[0]);
      OverlookedMore(db, steps[0]);
      OverlookedStays(Apply(db, steps[0]), steps[1..], p);
    }
  }

  lemma OverlookedMore(db: Tables, step: Step)
    requires Consistent(db)
    ensures db.overlooked <= Apply(db, step).overlooked
  {
    hide Consistent, Amount, SucceededFor;
  }

  /** A confirmed order has been paid for. */
  lemma ConfirmedIsPaid(steps: seq<Step>, r: nat)
    requires r < |Reached(steps).reservations| && Reached(steps).reservations[r].status.Confirmed?
    ensures
      var ps := Reached(steps).payments;
      exists p :: 0 <= p < |ps| && ps[p].reservation == r && ps[p].status.Succeeded?
  {
    var db := Reached(steps);
    ReachedIsConsistent(steps);
    SucceededIs(db.reservations, db.payments, db.overlooked, r);
    var p := SucceededFor(db.payments, r).value;
    assert db.payments[p].reservation == r;
  }

  /** A user's idempotency key names one payment, and a request id one order. */
  lemma KeysAreUnique(steps: seq<Step>)
    ensures
      var db := Reached(steps);
      && (forall p, q :: 0 <= p < q < |db.payments| && db.payments[p].user == db.payments[q].user ==>
            db.payments[p].key != db.payments[q].key)
      && (forall r, s :: 0 <= r < s < |db.reservations| ==>
            db.reservations[r].requestId != db.reservations[s].requestId)
  {
    var db := Reached(steps);
    ReachedIsConsistent(steps);
    assert PaymentsOk(db.reservations, db.payments) && RequestsOk(db.reservations);
  }

  // ---------- one active payment ----------

  /** A payment of the order was committed after the first read of worker w, and is still active. */
  ghost predicate PaidSince(db: Tables, w: nat, r: nat)
    requires w in db.views
  {
    exists p :: |db.views[w]| <= p < |db.payments| && db.payments[p].reservation == r && Active(db.payments[p].status)
  }

  /**
   The look-up overlooks an active payment: it fails and there is one, or it reads the snapshot of the
   transaction and one has been committed since.
   */
  ghost predicate Misses(db: Tables, w: nat, level: Isolation, r: nat, failed: bool)
    requires w in db.views
  {
    if failed then ActiveFor(db.payments, r) else level.RepeatableRead? && PaidSince(db, w, r)
  }

  lemma MissesExactly(db: Tables, w: nat, level: Isolation, user: nat, r: nat, key: string, failed: bool)
    requires Consistent(db) && CanPay(db, w, level, user, r, key, failed)
    ensures ActiveFor(db.payments, r) <==> Misses(db, w, level, r, failed)
  {
    hide Consistent;
    if ActiveFor(db.payments, r) { ActiveInView(db, w, r); }
  }

  /** An active payment was already active in the view, or is newer. */
  lemma ActiveInView(db: Tables, w: nat, r: nat)
    requires Consistent(db) && w in db.views && ActiveFor(db.payments, r)
    ensures ActiveFor(db.views[w], r) || PaidSince(db, w, r)
  {
    var view := db.views[w];
    assert Outdated(view, db.payments);
    var p :| 0 <= p < |db.payments| && db.payments[p].reservation == r && Active(db.payments[p].status);
    if p < |view| { assert view[p].reservation == r && Active(view[p].status); }
  }

  /** Creating a payment keeps one active payment per order exactly unless the look-up overlooks one. */
  lemma OneActiveExactly(
      db: Tables, w: nat, level: Isolation, user: nat, r: nat, key: string, failed: bool, now: int)
    requires Consistent(db) && OneActive(db.payments) && CanPay(db, w, level, user, r, key, failed)
    ensures db.reservations[r].ticket < |db.tickets|
    ensures OneActive(CreatePayment(db, w, user, r, key, now).payments) <==> !Misses(db, w, level, r, failed)
  {
    hide Consistent, OneActive, ActiveFor, Misses;
    RowsExist(db);
    MissesExactly(db, w, level, user, r, key, failed);
    var ps := CreatePayment(db, w, user, r, key, now).payments;
    OneMore(db.payments, ps[|db.payments|]);
  }

  lemma OneMore(ps: seq<Payment>, pay: Payment)
    requires OneActive(ps) && Active(pay.status)
    ensures OneActive(ps + [pay]) <==> !ActiveFor(ps, pay.reservation)
  {
    if ActiveFor(ps, pay.reservation) {
      var p :| 0 <= p < |ps| && ps[p].reservation == pay.reservation && Active(ps[p].status);
      assert (ps + [pay])[p].reservation == (ps + [pay])[|ps|].reservation;
    }
  }

  ghost predicate MissesAt(db: Tables, step: Step) {
    && step.PaymentCreated?
    && CanPay(db, step.worker, step.level, step.user, step.reservation, step.key, step.failed)
    && Misses(db, step.worker, step.level, step.reservation, step.failed)
  }

  ghost predicate NeverMisses(db: Tables, steps: seq<Step>)
    requires Consistent(db)
    decreases |steps|
  {
    hide Consistent, MissesAt, Apply;
    steps != [] ==>
      && !MissesAt(db, steps[0])
      && (StepKeeps(db, steps[0]); NeverMisses(Apply(db, steps[0]), steps[1..]))
  }

  /** At every moment of the run, an order has one active payment at most. */
  ghost predicate AlwaysOneActive(db: Tables, steps: seq<Step>)
    requires Consistent(db)
    decreases |steps|
  {
    hide Consistent, Apply;
    && OneActive(db.payments)
    && (steps != [] ==> (StepKeeps(db, steps[0]); AlwaysOneActive(Apply(db, steps[0]), steps[1..])))
  }

  lemma StepDoubles(db: Tables, step: Step)
    requires Consistent(db) && !db.doubled
    ensures Apply(db, step).doubled <==> MissesAt(db, step)
    ensures MissesAt(db, step) ==> !OneActive(Apply(db, step).payments)
  {
    hide OneActive, ActiveFor, Misses;
    NotDoubled(db);
    if step.PaymentCreated? && CanPay(db, step.worker, step.level, step.user, step.reservation, step.key, step.failed) {
      var s := step;
      RowsExist(db);
      MissesExactly(db, s.worker, s.level, s.user, s.reservation, s.key, s.failed);
      OneActiveExactly(db, s.worker, s.level, s.user, s.reservation, s.key, s.failed, s.now);
    } else {
      OthersDoubleNothing(db, step);
    }
  }

  lemma OthersDoubleNothing(db: Tables, step: Step)
    requires Consistent(db)
    requires step.PaymentCreated? ==>
      !CanPay(db, step.worker, step.level, step.user, step.reservation, step.key, step.failed)
    ensures Apply(db, step).doubled == db.doubled
  {
    hide Consistent, CanPay, Amount, SucceededFor;
  }

  lemma NotDoubled(db: Tables)
    requires Consistent(db)
    ensures !db.doubled ==> OneActive(db.payments)
  {
  }

  lemma {:induction false} OneActiveFrom(db: Tables, steps: seq<Step>)
    requires Consistent(db) && !db.doubled
    ensures AlwaysOneActive(db, steps) <==> NeverMisses(db, steps)
    decreases |steps|
  {
    NotDoubled(db);
    hide Consistent, Apply, MissesAt, OneActive;
    if steps != [] {
      var after := Apply(db, steps[0]);
      StepKeeps(db, steps[0]);
      StepDoubles(db, steps[0]);
      if !after.doubled { OneActiveFrom(after, steps[1..]); }
    }
  }

  /** All through a run an order has one active payment at most, exactly when no look-up overlooks one. */
  lemma AlwaysOneActiveExactly(steps: seq<Step>)
    ensures Consistent(NoTables)
    ensures AlwaysOneActive(NoTables, steps) <==> NeverMisses(NoTables, steps)
  {
    NoTablesConsistent();
    hide Consistent;
    OneActiveFrom(NoTables, steps);
  }

  /** Every look-up of an active payment is at READ COMMITTED and succeeds. */
  predicate AllCurrent(steps: seq<Step>) {
    forall i :: 0 <= i < |steps| && steps[i].PaymentCreated? ==> steps[i].level.ReadCommitted? && !steps[i].failed
  }

  lemma {:induction false} StaysSingle(db: Tables, steps: seq<Step>)
    requires Consistent(db) && !db.doubled && AllCurrent(steps)
    ensures !Run(db, steps).doubled
    decreases |steps|
  {
    hide Consistent, Apply;
    if steps != [] {
      StepKeeps(db, steps[0]);
      StepDoubles(db, steps[0]);
      StaysSingle(Apply(db, steps[0]), steps[1..]);
    }
  }

  /** On a server that reads what is committed, an order has one active payment at most while look-ups succeed. */
  lemma ReadCommittedKeepsOne(steps: seq<Step>)
    requires AllCurrent(steps)
    ensures OneActive(Reached(steps).payments)
  {
    NoTablesConsistent();
    hide Consistent, OneActive;
    StaysSingle(NoTables, steps);
    RunKeeps(NoTables, steps);
    NotDoubled(Run(NoTables, steps));
  }

  lemma RunHead(db: Tables, step: Step, rest: seq<Step>)
    requires Consistent(db)
    ensures Consistent(Apply(db, step)) && Run(db, [step] + rest) == Run(Apply(db, step), rest)
  {
    hide Consistent, Apply;
    StepKeeps(db, step);
    assert ([step] + rest)[1..] == rest;
  }

  /** One ticket, and one order for it that can be paid for. */
  function Payable(): Tables {
    NoTables.(tickets := [Ticket(10, 9, 5, true)],
              reservations := [Reservation(1, 0, 1, Pending, Some(PAYMENT_WINDOW), "q", [])])
  }

  lemma PayableIsReached(rest: seq<Step>)
    ensures Consistent(Payable())
    ensures Reached([Added(10, 5)] + ([Placed(1, 0, 1, "q", [], 0)] + rest)) == Run(Payable(), rest)
  {
    NoTablesConsistent();
    hide Consistent, Run;
    var add, place := Added(10, 5), Placed(1, 0, 1, "q", [], 0);
    RunHead(NoTables, add, [place] + rest);
    RunHead(Apply(NoTables, add), place, rest);
    assert Apply(NoTables, add).tickets == [Ticket(10, 10, 5, true)];
    assert Apply(Apply(NoTables, add), place) == Payable();
  }

  /**
   Two workers serve one user who pays for one order under two keys.  Both read before either has the
   row of the order; at REPEATABLE READ the second then finds no active payment, and the order gets two.
   */
  lemma TwoActivePayments() returns (steps: seq<Step>)
    ensures steps ==
      [Added(10, 5), Placed(1, 0, 1, "q", [], 0), ViewTaken(1), ViewTaken(2),
       PaymentCreated(1, RepeatableRead, 1, 0, "a", false, 0),
       PaymentCreated(2, RepeatableRead, 1, 0, "b", false, 0)]
    ensures
      var ps := Reached(steps).payments;
      && |ps| == 2 && ps[0].reservation == ps[1].reservation && Active(ps[0].status) && Active(ps[1].status)
  {
    hide Reached, Run, Consistent;
    var first := PaymentCreated(1, RepeatableRead, 1, 0, "a", false, 0);
    var second := PaymentCreated(2, RepeatableRead, 1, 0, "b", false, 0);
    var rest := [ViewTaken(1)] + ([ViewTaken(2)] + ([first] + ([second] + [])));
    steps := [Added(10, 5)] + ([Placed(1, 0, 1, "q", [], 0)] + rest);
    PayableIsReached(rest);
    PaysTwice(first, second);
  }

  lemma PaysTwice(first: Step, second: Step)
    requires first == PaymentCreated(1, RepeatableRead, 1, 0, "a", false, 0)
    requires second == PaymentCreated(2, RepeatableRead, 1, 0, "b", false, 0)
    requires Consistent(Payable())
    ensures
      var ps := Run(Payable(), [ViewTaken(1)] + ([ViewTaken(2)] + ([first] + ([second] + [])))).payments;
      && |ps| == 2 && ps[0].reservation == ps[1].reservation && Active(ps[0].status) && Active(ps[1].status)
  {
    hide Consistent, Amount;
    var db0 := Payable();
    var db1 := Apply(db0, ViewTaken(1));
    RunHead(db0, ViewTaken(1), [ViewTaken(2)] + ([first] + ([second] + [])));
    var db2 := Apply(db1, ViewTaken(2));
    RunHead(db1, ViewTaken(2), [first] + ([second] + []));
    RunHead(db2, first, [second] + []);
    var db3 := Apply(db2, first);
    RunHead(db3, second, []);
    assert db2.views[1] == [] && db2.views[2] == [] && db2.payments == [];
    assert |db3.payments| == 1 && db3.views[2] == [];
  }

  // ---------- claims ----------

  /** Each action token ends at most one claim, however many workers hold it and in whatever order they act. */
  lemma TokensEndOnce(steps: seq<Step>)
    ensures Distinct(Reached(steps).finished)
  {
    var db := Reached(steps);
    ReachedIsConsistent(steps);
    assert TokensOk(db.payments, db.refunds, db.finished, db.nextToken);
  }

  /** A token that has ended a claim has no effect any more, whatever its holder believes. */
  lemma SpentTokenIsIdle(
      db: Tables, p: nat, seen: PaymentStatus, token: nat, reply: Reply, now: int, delay: int, unpaid: bool)
    requires Consistent(db) && token in db.finished
    ensures FinishPayment(db, p, seen, token, reply, now, delay, unpaid) == db
  {
  }

  /** A refund attempt that ends uses up one of finitely many attempts. */
  lemma AttemptsRunOut(db: Tables, f: nat, was: RefundStatus, token: nat, succeeded: bool, at: int)
    requires Consistent(db) && token != 0 && Open(was) && HoldsRefund(db, f, was, token)
    ensures db.refunds[f].payment < |db.payments| == |db.trails|
    ensures
      var before, after := db.refunds[f], FinishRefund(db, f, was, token, succeeded, at).refunds[f];
      && 0 <= after.maxAttempts - after.attempts < before.maxAttempts - before.attempts
      && (succeeded ==> after.status.RefundSucceeded?)
      && (!succeeded ==> (after.status.RefundFailed? <==> after.attempts == after.maxAttempts))
  {
  }

  // ---------- audit trails ----------

  function Rank(s: PaymentStatus): nat {
    match s
    case Created => 0
    case Processing => 1
    case Succeeded => 2
    case Refunding => 3
    case PartiallyRefunded => 3
    case _ => 4
  }

  lemma {:induction false} RankGrows(trail: seq<Change>, i: nat, j: nat)
    requires Chain(trail) && i <= j < |trail|
    ensures Rank(trail[i].to) <= Rank(trail[j].to)
    ensures Rank(trail[i].to) == 4 ==> trail[j].to == trail[i].to
    ensures Rank(trail[i].to) <= 2 && Rank(trail[i].to) == Rank(trail[j].to) ==> trail[i].to == trail[j].to
    decreases j - i
  {
    if i < j { RankGrows(trail, i, j - 1); }
  }

  /**
   The events of a payment form one chain of allowed changes that ends in its status.  CREATED,
   PROCESSING and SUCCEEDED are not entered again once left, and FAILED, CLOSED and REFUNDED are final.
   */
  lemma TrailsAreSound(steps: seq<Step>, p: nat, i: nat, k: nat, j: nat)
    requires p < |Reached(steps).payments| && p < |Reached(steps).trails| && i <= k <= j < |Reached(steps).trails[p]|
    ensures
      var trail := Reached(steps).trails[p];
      && Chain(trail) && trail[|trail| - 1].to == Reached(steps).payments[p].status
      && (Rank(trail[i].to) <= 2 && trail[k].to != trail[i].to ==> trail[j].to != trail[i].to)
      && (Rank(trail[i].to) == 4 ==> trail[j].to == trail[i].to)
  {
    var db := Reached(steps);
    ReachedIsConsistent(steps);
    assert TrailsOk(db.payments, db.trails);
    RankGrows(db.trails[p], i, k);
    RankGrows(db.trails[p], k, j);
    RankGrows(db.trails[p], i, j);
  }

  /** A payment begins to be refunded once at most. */
  lemma RefundBegunOnce(steps: seq<Step>, p: nat, i: nat, j: nat)
    requires p < |Reached(steps).trails| && i < j < |Reached(steps).trails[p]|
    requires Reached(steps).trails[p][i] == Change(Some(Succeeded), Refunding)
    ensures Reached(steps).trails[p][j] != Change(Some(Succeeded), Refunding)
  {
    var db := Reached(steps);
    ReachedIsConsistent(steps);
    assert TrailsOk(db.payments, db.trails);
    RankGrows(db.trails[p], i, j - 1);
  }
}
