/** A run for each thing that failures can leave of an order, and so the exact list of them. */
module LeftoverRuns {
  import opened Domain
  import opened Inventory
  import opened Ordering
  import opened Payments
  import opened OutboxRelay
  import opened Saga
  import opened ReserveTest
  import opened Dossiers
  import opened Safety
  import opened StockLaws
  import opened Invariants
  import opened Guarantees
  import opened Agreement
  import opened Leftovers
  import opened RepeatedDeliveries

  /** Status, state of the goods, and whether the customer has been charged. */
  datatype Leftover = Leftover(status: OrderStatus, goods: Option<ReservationStatus>, charged: bool)

  function Status(reservation: Option<Reservation>): Option<ReservationStatus> {
    if reservation.Some? then Some(reservation.value.status) else None
  }

  function LeftoverOf(s: Sys, o: OrderId): Leftover
    requires o in s.db.orders
  {
    Leftover(s.db.orders[o].status, Status(Get(s.db.store.reservations, o)), IsCharged(s.db, o))
  }

  /** Charged orders have their goods and are not CANCELLED; others have none confirmed and are not COMPLETED. */
  predicate Possible(l: Leftover) {
    if l.charged then
      && (l.goods == Some(Reserved) || l.goods == Some(Confirmed))
      && l.status != Cancelled && (l.status == Completed ==> l.goods == Some(Confirmed))
    else
      l.goods != Some(Confirmed) && l.status != Completed && (l.status == InventoryReserved ==> l.goods.Some?)
  }

  /** In every reachable state, drained or not. */
  lemma OnlyThePossible(seed: Stock, cfg: Config, run: seq<Action>, o: OrderId)
    requires IsSeed(seed) && Once(cfg) && o in Exec(cfg, Init(seed), run).db.orders
    ensures Possible(LeftoverOf(Exec(cfg, Init(seed), run), o))
  {
    var s := Exec(cfg, Init(seed), run);
    ReachedRecalls(seed, cfg, run, o);
    ReachableIsExclusive(seed, cfg, s);
    IsChargedMeansPaid(s, o);
    assert SafeDossier()(View(s, o), o);
  }

  /** A state of a run with these tasks, nothing left to relay, and this status, reservation and payments of ORDER. */
  ghost predicate Stands(
      cfg: Config, s: Sys, tasks: seq<Task>, status: OrderStatus, goods: Option<ReservationStatus>, rows: seq<Payment>)
  {
    && Reaches(cfg, Init(map[]), s) && s.tasks == tasks
    && s.relay.position == |s.db.outbox| && CommittedHere(s.relay) == s.relay
    && ORDER in s.db.orders && s.db.orders[ORDER].status == status
    && Status(Get(s.db.store.reservations, ORDER)) == goods && s.db.payments == rows
  }

  /** The only task takes a step. */
  lemma Onward(cfg: Config, s: Sys, t: Task, c: Choice) returns (next: Sys)
    requires Reaches(cfg, Init(map[]), s) && s.tasks == [t]
    ensures next.db == Advance(cfg, s.db, t, c).0 && next.tasks == Advance(cfg, s.db, t, c).1
    ensures next.relay == s.relay && Reaches(cfg, Init(map[]), next)
  {
    next := StepAt(cfg, Init(map[]), s, 0, c);
    assert [t][..0] + Advance(cfg, s.db, t, c).1 + [t][1..] == Advance(cfg, s.db, t, c).1;
  }

  /** The only task is lost, and nothing that it had sent is left. */
  lemma Dropped(
      cfg: Config, s: Sys, t: Task, status: OrderStatus, goods: Option<ReservationStatus>, rows: seq<Payment>)
    returns (next: Sys)
    requires Stands(cfg, s, [t], status, goods, rows) && InFlight(t) == []
    ensures Stands(cfg, next, [], status, goods, rows)
  {
    next := Onward(cfg, s, t, Vanish);
  }

  /** A terminal status is written and announced. */
  lemma Marked(
      cfg: Config, s: Sys, before: OrderStatus, status: OrderStatus,
      goods: Option<ReservationStatus>, rows: seq<Payment>)
    returns (next: Sys)
    requires Stands(cfg, s, [Marking(ORDER, status)], before, goods, rows)
    ensures Stands(cfg, next, [], status, goods, rows)
  {
    var s1 := Onward(cfg, s, Marking(ORDER, status), Proceed);
    next := Onward(cfg, s1, Announcing(ORDER, status), Proceed);
  }

  /** The reserve call has been executed, and its answer has arrived. */
  lemma Answered(cfg: Config) returns (s: Sys, e: OrderCreated)
    ensures Stands(cfg, s, [Reserving(e, Replied(Reply(true, NoReason)))], Pending, Some(Reserved), [])
    ensures e.order == ORDER
  {
    var s0;
    s0, e := Ordered(cfg);
    OneUnitFits();
    FreshReserve(Store(map[], map[]), ORDER, [ITEM]);
    var s1 := Onward(cfg, s0, Created(e), Proceed);
    s := Onward(cfg, s1, Reserving(e, Sent), Proceed);
  }

  /** The goods are reserved; whether INVENTORY_RESERVED has been written is up to the caller. */
  function StatusIf(written: bool): OrderStatus {
    if written then InventoryReserved else Pending
  }

  lemma AboutToRequest(cfg: Config, written: bool) returns (s: Sys, e: OrderCreated)
    ensures Stands(cfg, s, [Requesting(e)], StatusIf(written), Some(Reserved), []) && e.order == ORDER
  {
    var s0;
    s0, e := Answered(cfg);
    var s1 := Onward(cfg, s0, Reserving(e, Replied(Reply(true, NoReason))), Proceed);
    s := Onward(cfg, s1, MarkingReserved(e), if written then Proceed else Fault);
  }

  lemma AboutToReport(cfg: Config, written: bool, result: PaymentStatus)
    returns (s: Sys, r: PaymentRequested, row: Payment)
    ensures Stands(cfg, s, [Reporting(r, 0, result)], StatusIf(written), Some(Reserved), [row])
    ensures r.order == ORDER && row.order == ORDER && row.status == result
  {
    var s0, e := AboutToRequest(cfg, written);
    r := PaymentFor(e);
    row := Payment(ORDER, r.customer, r.total, result);
    var s1 := Onward(cfg, s0, Requesting(e), Proceed);
    var s2 := Onward(cfg, s1, Charging(r, InQueue(0)), Proceed);
    s := Onward(cfg, s2, Charging(r, AtGateway(0)), Roll(Gateway.Charged(result)));
    assert [] + [row] == [row];
  }

  /** The confirm call has been executed, and its answer has arrived. */
  lemma Settled(cfg: Config, written: bool) returns (s: Sys, row: Payment)
    ensures
      Stands(cfg, s, [Confirming(ORDER, Replied(Reply(true, NoReason)))], StatusIf(written), Some(Confirmed), [row])
    ensures row.order == ORDER && row.status == Success
  {
    var s0, r;
    s0, r, row := AboutToReport(cfg, written, Success);
    var s1 := Onward(cfg, s0, Reporting(r, 0, Success), Proceed);
    var s2 := Onward(cfg, s1, Result(ORDER, Success), Proceed);
    s := Onward(cfg, s2, Confirming(ORDER, Sent), Proceed);
  }

  /** The release call has been executed. */
  lemma Unreserved(cfg: Config, written: bool) returns (s: Sys, row: Payment)
    ensures Stands(cfg, s, [Releasing(ORDER, Replied(Reply(true, NoReason)))], StatusIf(written), Some(Released), [row])
    ensures row.order == ORDER && row.status == Failed
  {
    var s0, r;
    s0, r, row := AboutToReport(cfg, written, Failed);
    var s1 := Onward(cfg, s0, Reporting(r, 0, Failed), Proceed);
    var s2 := Onward(cfg, s1, Result(ORDER, Failed), Proceed);
    s := Onward(cfg, s2, Releasing(ORDER, Sent), Proceed);
  }

  /** The release call has been answered too, and CANCELLED is about to be written. */
  lemma Compensated(cfg: Config, written: bool) returns (s: Sys, row: Payment)
    ensures Stands(cfg, s, [Marking(ORDER, Cancelled)], StatusIf(written), Some(Released), [row])
    ensures row.order == ORDER && row.status == Failed
  {
    var s0;
    s0, row := Unreserved(cfg, written);
    s := Onward(cfg, s0, Releasing(ORDER, Replied(Reply(true, NoReason))), Proceed);
  }

  /**
   * One lost answer, under any assumption: the reserve call has been executed, its caller never hears of it
   * and cancels, and nothing is left to release the goods.
   */
  lemma CancelledWithGoods(cfg: Config) returns (s: Sys)
    ensures Stands(cfg, s, [], Cancelled, Some(Reserved), [])
  {
    var s0, e := Answered(cfg);
    var s1 := Onward(cfg, s0, Reserving(e, Replied(Reply(true, NoReason))), Fault);
    s := Marked(cfg, s1, Pending, Cancelled, Some(Reserved), []);
  }

  /**
   * One crash, under any assumption: the row is saved, the handler dies before it has sent the result, its
   * message comes back and is skipped. The customer has paid and nothing is left to complete the order.
   */
  lemma ChargedForNothing(cfg: Config) returns (s: Sys, row: Payment)
    ensures Stands(cfg, s, [], InventoryReserved, Some(Reserved), [row])
    ensures row.order == ORDER && row.status == Success
  {
    var s0, r;
    s0, r, row := AboutToReport(cfg, true, Success);
    var s1 := Onward(cfg, s0, Reporting(r, 0, Success), Redeliver);
    var s2 := StepAt(cfg, Init(map[]), s1, 1, Proceed);
    assert s1.db.payments[0].order == ORDER;
    assert s2.tasks == [Reporting(r, 0, Success)];
    s := Dropped(cfg, s2, Reporting(r, 0, Success), InventoryReserved, Some(Reserved), [row]);
  }

  /** What becomes of an order whose customer is charged. */
  lemma LeftCharged(cfg: Config, l: Leftover) returns (s: Sys, row: Payment)
    requires Possible(l) && l.charged
    ensures Stands(cfg, s, [], l.status, l.goods, [row]) && row.order == ORDER && row.status == Success
  {
    var written := l.status != Pending;
    if l.goods == Some(Reserved) {
      var s0, r;
      s0, r, row := AboutToReport(cfg, written, Success);
      s := Dropped(cfg, s0, Reporting(r, 0, Success), l.status, l.goods, [row]);
    } else {
      var s0;
      s0, row := Settled(cfg, written);
      var confirmed := Confirming(ORDER, Replied(Reply(true, NoReason)));
      if l.status == Completed {
        var s1 := Onward(cfg, s0, confirmed, Proceed);
        s := Marked(cfg, s1, InventoryReserved, Completed, l.goods, [row]);
      } else {
        s := Dropped(cfg, s0, confirmed, l.status, l.goods, [row]);
      }
    }
  }

  /** What becomes of an order without goods, and of one that has kept its goods without being charged. */
  lemma LeftUnpaid(cfg: Config, l: Leftover) returns (s: Sys)
    requires Possible(l) && !l.charged && l.goods != Some(Released)
    ensures Stands(cfg, s, [], l.status, l.goods, [])
  {
    match l.goods {
      case None =>
        var s0, e := Ordered(cfg);
        if l.status == Cancelled {
          var s1 := Onward(cfg, s0, Created(e), Fault);
          s := Marked(cfg, s1, Pending, Cancelled, None, []);
        } else {
          s := Dropped(cfg, s0, Created(e), Pending, None, []);
        }
      case Some(Reserved) =>
        if l.status == Cancelled {
          s := CancelledWithGoods(cfg);
        } else {
          var s0, e := AboutToRequest(cfg, l.status == InventoryReserved);
          s := Dropped(cfg, s0, Requesting(e), l.status, l.goods, []);
        }
      case _ => assert false;
    }
  }

  /** What becomes of an order whose payment is declined and whose goods are released. */
  lemma LeftReleased(cfg: Config, l: Leftover) returns (s: Sys, row: Payment)
    requires Possible(l) && !l.charged && l.goods == Some(Released)
    ensures Stands(cfg, s, [], l.status, l.goods, [row]) && row.order == ORDER && row.status == Failed
  {
    var s0;
    s0, row := Compensated(cfg, l.status != Pending);
    if l.status == Cancelled {
      s := Marked(cfg, s0, InventoryReserved, Cancelled, l.goods, [row]);
    } else {
      s := Dropped(cfg, s0, Marking(ORDER, Cancelled), l.status, l.goods, [row]);
    }
  }

  ghost predicate LeftAs(s: Sys, o: OrderId, l: Leftover) {
    Drained(s) && o in s.db.orders && LeftoverOf(s, o) == l
  }

  /** Some drained run ends with an order in this condition. */
  ghost predicate Leaves(cfg: Config, l: Leftover) {
    exists seed: Stock, run: seq<Action>, o: OrderId :: IsSeed(seed) && LeftAs(Exec(cfg, Init(seed), run), o, l)
  }

  /**
   * With each request handled once, failures can leave an order in exactly the possible conditions: five of a
   * charged order, eight of one that has not been charged.
   */
  lemma LeavesIffPossible(cfg: Config, l: Leftover)
    requires Once(cfg)
    ensures Leaves(cfg, l) <==> Possible(l)
  {
    if Leaves(cfg, l) {
      var seed: Stock, run: seq<Action>, o: OrderId :| IsSeed(seed) && LeftAs(Exec(cfg, Init(seed), run), o, l);
      OnlyThePossible(seed, cfg, run, o);
    }
    if Possible(l) {
      var s: Sys;
      if l.charged {
        var row;
        s, row := LeftCharged(cfg, l);
        assert s.db.payments[0] == row;
      } else if l.goods == Some(Released) {
        var row;
        s, row := LeftReleased(cfg, l);
      } else {
        s := LeftUnpaid(cfg, l);
      }
      assert LeftAs(s, ORDER, l);
      var seed: Stock := map[];
      var run :| Exec(cfg, Init(seed), run) == s;
      assert IsSeed(seed) && LeftAs(Exec(cfg, Init(seed), run), ORDER, l);
    }
  }
}
