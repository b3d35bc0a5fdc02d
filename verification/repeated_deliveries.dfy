/**
 * Why order.created and payment.requested have to be handled once. Each kind of repetition leads to two
 * payment requests at the gateway, and from there every guarantee of the system can be broken.
 */
module RepeatedDeliveries {
  import opened Domain
  import opened Inventory
  import opened Ordering
  import opened Payments
  import opened Saga
  import opened OutboxRelay
  import opened Safety
  import opened Invariants
  import opened StockLaws
  import opened ReserveTest
  import opened Guarantees
  import opened SingleRequest

  const ORDER: OrderId := "order"
  const ITEM := Item("product", 1.0)

  /** The task at index i takes one step; the others stay where they are. */
  lemma StepAt(cfg: Config, start: Sys, s: Sys, i: nat, c: Choice) returns (next: Sys)
    requires i < |s.tasks| && Reaches(cfg, start, s)
    ensures var (db, news) := Advance(cfg, s.db, s.tasks[i], c);
            next.db == db && next.relay == s.relay && next.tasks == s.tasks[..i] + news + s.tasks[i + 1..]
    ensures Reaches(cfg, start, next)
  {
    next := Apply(cfg, s, Run(i, c));
    Then(cfg, start, s, Run(i, c));
  }

  /** A step of the first task that leaves exactly one task in its place. */
  lemma StepFirst(cfg: Config, start: Sys, s: Sys, c: Choice, rest: seq<Task>, x: Task) returns (next: Sys)
    requires Reaches(cfg, start, s) && |s.tasks| > 0 && s.tasks[1..] == rest
    requires Advance(cfg, s.db, s.tasks[0], c).1 == [x]
    ensures next.db == Advance(cfg, s.db, s.tasks[0], c).0 && next.tasks == [x] + rest
    ensures Reaches(cfg, start, next)
  {
    next := StepAt(cfg, start, s, 0, c);
  }

  /** A catalog of one product and a relay that has joined. */
  lemma Opened(cfg: Config) returns (s: Sys)
    ensures Reaches(cfg, Init(map[]), s)
    ensures s.db == Init(map[]).db.(catalog := map[ITEM.product := 1.0])
    ensures s.relay == Relay(true, 0, 0, None, []) && s.tasks == []
  {
    var s0 := Init(map[]);
    assert Exec(cfg, s0, []) == s0;
    Then(cfg, s0, s0, AddProduct(ITEM.product, 1.0));
    s := Apply(cfg, s0, AddProduct(ITEM.product, 1.0));
    Then(cfg, s0, s, RelayJoin);
    s := Apply(cfg, s, RelayJoin);
  }

  lemma PlacedOne(cfg: Config, start: Sys, s: Sys) returns (next: Sys, e: OrderCreated)
    requires Reaches(cfg, start, s) && ORDER !in s.db.orders && ITEM.product in s.db.catalog
    ensures Reaches(cfg, start, next) && ORDER in next.db.orders && next.db.outbox == s.db.outbox + [e]
    ensures next.db.store == s.db.store && next.db.payments == s.db.payments
    ensures next.relay == s.relay && next.tasks == s.tasks
    ensures e.order == ORDER && Goods(e.items) == [ITEM] && next.db.orders[ORDER].status == Pending
  {
    PricingIsDirectLookUp(s.db.catalog, [ITEM]);
    Then(cfg, start, s, PlaceOrder(ORDER, "customer", [ITEM]));
    next := Apply(cfg, s, PlaceOrder(ORDER, "customer", [ITEM]));
    e := next.db.outbox[|s.db.outbox|];
    assert Goods(e.items) == [ITEM];
  }

  /** One order of one unit, relayed, the offset committed: its order.created waits in the queue. */
  lemma Ordered(cfg: Config) returns (s: Sys, e: OrderCreated)
    ensures Reaches(cfg, Init(map[]), s) && s.tasks == [Created(e)]
    ensures e.order == ORDER && Goods(e.items) == [ITEM]
    ensures s.db.store == Store(map[], map[]) && s.db.payments == []
    ensures ORDER in s.db.orders && s.db.orders[ORDER].status == Pending
    ensures s.relay.position == |s.db.outbox| && CommittedHere(s.relay) == s.relay
  {
    var start := Init(map[]);
    var s1 := Opened(cfg);
    var s2;
    s2, e := PlacedOne(cfg, start, s1);
    Then(cfg, start, s2, RelayNext);
    s := Apply(cfg, s2, RelayNext);
    Then(cfg, start, s, RelayCommit);
    s := Apply(cfg, s, RelayCommit);
  }

  /** From order.created at the head of the tasks to its payment.requested, with everything else waiting. */
  lemma Requested(cfg: Config, start: Sys, s: Sys, e: OrderCreated, rest: seq<Task>) returns (next: Sys)
    requires Reaches(cfg, start, s) && s.tasks == [Created(e)] + rest
    requires e.order == ORDER && Goods(e.items) == [ITEM] && ORDER in s.db.orders
    requires s.db.store == Store(map[], map[]) && s.db.payments == []
    ensures Reaches(cfg, start, next) && next.tasks == [Charging(PaymentFor(e), InQueue(0))] + rest
    ensures ORDER in next.db.orders && next.db.payments == [] && ReservationIs(next.db, ORDER, Reserved)
  {
    OneUnitFits();
    FreshReserve(Store(map[], map[]), ORDER, [ITEM]);
    var reply := Reserve(s.db.store, ORDER, [ITEM]).1;
    var s1 := StepFirst(cfg, start, s, Proceed, rest, Reserving(e, Sent));
    var s2 := StepFirst(cfg, start, s1, Proceed, rest, Reserving(e, Replied(reply)));
    var s3 := StepFirst(cfg, start, s2, Proceed, rest, MarkingReserved(e));
    var s4 := StepFirst(cfg, start, s3, Proceed, rest, Requesting(e));
    next := StepFirst(cfg, start, s4, Proceed, rest, Charging(PaymentFor(e), InQueue(0)));
  }

  lemma OneUnitFits()
    ensures Fits(map[], [ITEM])
  {
    assert [ITEM][..0] == [];
    assert Demand([ITEM], ITEM.product) == 1;
  }

  /** From payment.requested at the head to a saved SUCCESS row. */
  lemma PaidFor(cfg: Config, start: Sys, s: Sys, r: PaymentRequested, rest: seq<Task>) returns (next: Sys)
    requires Reaches(cfg, start, s) && s.tasks == [Charging(r, InQueue(0))] + rest && r.order == ORDER
    requires ORDER in s.db.orders && s.db.payments == [] && ReservationIs(s.db, ORDER, Reserved)
    ensures Reaches(cfg, start, next) && next.tasks == [Reporting(r, 0, Success)] + rest
    ensures ORDER in next.db.orders && IsCharged(next.db, ORDER) && ReservationIs(next.db, ORDER, Reserved)
    ensures |next.db.payments| == 1
  {
    var s1 := StepFirst(cfg, start, s, Proceed, rest, Charging(r, AtGateway(0)));
    next := StepFirst(cfg, start, s1, Roll(Gateway.Charged(Success)), rest, Reporting(r, 0, Success));
    assert next.db.payments[0].order == ORDER;
  }

  /** From the saved SUCCESS row to a COMPLETED order. */
  lemma CompletedAfter(cfg: Config, start: Sys, s: Sys, r: PaymentRequested, count: nat, rest: seq<Task>)
    returns (next: Sys)
    requires Reaches(cfg, start, s) && s.tasks == [Reporting(r, count, Success)] + rest && r.order == ORDER
    requires ORDER in s.db.orders && ReservationIs(s.db, ORDER, Reserved)
    ensures Reaches(cfg, start, next) && next.tasks == [Announcing(ORDER, Completed)] + rest
    ensures ORDER in next.db.orders && next.db.orders[ORDER].status == Completed
    ensures ReservationIs(next.db, ORDER, Confirmed)
  {
    var s1 := StepFirst(cfg, start, s, Proceed, rest, Result(ORDER, Success));
    var s2 := StepFirst(cfg, start, s1, Proceed, rest, Confirming(ORDER, Sent));
    var s3 := StepFirst(cfg, start, s2, Proceed, rest, Confirming(ORDER, Replied(Reply(true, NoReason))));
    var s4 := StepFirst(cfg, start, s3, Proceed, rest, Marking(ORDER, Completed));
    next := StepFirst(cfg, start, s4, Proceed, rest, Announcing(ORDER, Completed));
  }

  /** A step of the second of two tasks that leaves exactly one task in its place. */
  lemma StepSecond(cfg: Config, start: Sys, s: Sys, c: Choice, first: Task, x: Task) returns (next: Sys)
    requires Reaches(cfg, start, s) && |s.tasks| == 2 && s.tasks[0] == first
    requires Advance(cfg, s.db, s.tasks[1], c).1 == [x]
    ensures next.db == Advance(cfg, s.db, s.tasks[1], c).0 && next.tasks == [first, x]
    ensures Reaches(cfg, start, next)
  {
    next := StepAt(cfg, start, s, 1, c);
  }

  /** The order's payment.requested in the queue, its goods reserved. */
  lemma RequestedOnce(cfg: Config) returns (s: Sys, r: PaymentRequested)
    ensures Reaches(cfg, Init(map[]), s) && r.order == ORDER && s.tasks == [Charging(r, InQueue(0))]
    ensures ORDER in s.db.orders && s.db.payments == [] && ReservationIs(s.db, ORDER, Reserved)
  {
    var start := Init(map[]);
    var s0, e := Ordered(cfg);
    r := PaymentFor(e);
    assert [Created(e)] + [] == [Created(e)];
    s := Requested(cfg, start, s0, e, []);
  }

  /** Both requests in the queue, none at its limit, go to the gateway. */
  lemma BothReceived(cfg: Config, start: Sys, s: Sys, r: PaymentRequested, m: nat, n: nat) returns (next: Sys)
    requires Reaches(cfg, start, s) && s.tasks == [Charging(r, InQueue(m)), Charging(r, InQueue(n))]
    requires m < MAX_RETRIES && n < MAX_RETRIES && s.db.payments == []
    ensures Reaches(cfg, start, next) && next.db == s.db
    ensures next.tasks == [Charging(r, AtGateway(m)), Charging(r, AtGateway(n))]
  {
    var s1 := StepFirst(cfg, start, s, Proceed, [Charging(r, InQueue(n))], Charging(r, AtGateway(m)));
    next := StepSecond(cfg, start, s1, Proceed, Charging(r, AtGateway(m)), Charging(r, AtGateway(n)));
  }

  /** The broker delivers payment.requested twice. */
  lemma RequestedTwice(cfg: Config) returns (s: Sys, r: PaymentRequested)
    requires cfg.repeatRequested
    ensures Reaches(cfg, Init(map[]), s) && r.order == ORDER
    ensures s.tasks == [Charging(r, InQueue(0)), Charging(r, InQueue(0))]
    ensures ORDER in s.db.orders && s.db.payments == [] && ReservationIs(s.db, ORDER, Reserved)
  {
    var s0;
    s0, r := RequestedOnce(cfg);
    s := StepAt(cfg, Init(map[]), s0, 0, Copy);
    assert s.tasks == [Charging(r, InQueue(0)), Charging(r, InQueue(0))];
  }

  /** The order's payment.requested in the first retry queue. */
  lemma RetriedOnce(cfg: Config) returns (s: Sys, r: PaymentRequested)
    ensures Reaches(cfg, Init(map[]), s) && r.order == ORDER && s.tasks == [Charging(r, InRetry(1))]
    ensures ORDER in s.db.orders && s.db.payments == [] && ReservationIs(s.db, ORDER, Reserved)
  {
    var start := Init(map[]);
    var s0;
    s0, r := RequestedOnce(cfg);
    var s1 := StepFirst(cfg, start, s0, Proceed, [], Charging(r, AtGateway(0)));
    s := StepFirst(cfg, start, s1, Roll(Transient), [], Charging(r, InRetry(1)));
  }

  /** A handler dies between its publish to the retry queue and its acknowledgement. */
  lemma RetriedAndRedelivered(cfg: Config) returns (s: Sys, r: PaymentRequested)
    requires cfg.repeatRetried
    ensures Reaches(cfg, Init(map[]), s) && r.order == ORDER
    ensures s.tasks == [Charging(r, InQueue(1)), Charging(r, InQueue(0))]
    ensures ORDER in s.db.orders && s.db.payments == [] && ReservationIs(s.db, ORDER, Reserved)
  {
    var start := Init(map[]);
    var s2;
    s2, r := RetriedOnce(cfg);
    var s3 := StepAt(cfg, start, s2, 0, Redeliver);
    assert s3.tasks == [Charging(r, InRetry(1)), Charging(r, InQueue(0))];
    s := StepFirst(cfg, start, s3, Proceed, [Charging(r, InQueue(0))], Charging(r, InQueue(1)));
  }

  /** order.created is handled twice: reserve answers success for a RESERVED reservation. */
  lemma CreatedTwice(cfg: Config) returns (s: Sys, r: PaymentRequested)
    requires cfg.repeatCreated
    ensures Reaches(cfg, Init(map[]), s) && r.order == ORDER
    ensures s.tasks == [Charging(r, InQueue(0)), Charging(r, InQueue(0))]
    ensures ORDER in s.db.orders && s.db.payments == [] && ReservationIs(s.db, ORDER, Reserved)
  {
    var start := Init(map[]);
    var s0, e := Ordered(cfg);
    r := PaymentFor(e);
    var s1 := StepAt(cfg, start, s0, 0, Copy);
    assert s1.tasks == [Created(e)] + [Created(e)];
    var s2 := Requested(cfg, start, s1, e, [Created(e)]);
    s := RequestedAgain(cfg, start, s2, e);
  }

  /** The second copy of order.created becomes a second payment.requested. */
  lemma RequestedAgain(cfg: Config, start: Sys, s: Sys, e: OrderCreated) returns (next: Sys)
    requires Reaches(cfg, start, s) && s.tasks == [Charging(PaymentFor(e), InQueue(0)), Created(e)]
    requires e.order == ORDER && ORDER in s.db.orders && ReservationIs(s.db, ORDER, Reserved)
    ensures Reaches(cfg, start, next)
    ensures next.tasks == [Charging(PaymentFor(e), InQueue(0)), Charging(PaymentFor(e), InQueue(0))]
    ensures ORDER in next.db.orders && next.db.payments == s.db.payments && next.db.store == s.db.store
  {
    var one := Charging(PaymentFor(e), InQueue(0));
    var s1 := StepSecond(cfg, start, s, Proceed, one, Reserving(e, Sent));
    var s2 := StepSecond(cfg, start, s1, Proceed, one, Reserving(e, Replied(Reply(true, NoReason))));
    var s3 := StepSecond(cfg, start, s2, Proceed, one, MarkingReserved(e));
    var s4 := StepSecond(cfg, start, s3, Proceed, one, Requesting(e));
    next := StepSecond(cfg, start, s4, Proceed, one, one);
  }

  /** Every kind of repetition can bring two requests of one order to the gateway. */
  lemma BothAtGateway(cfg: Config) returns (s: Sys, r: PaymentRequested, m: nat, n: nat)
    requires !Once(cfg)
    ensures Reaches(cfg, Init(map[]), s) && r.order == ORDER
    ensures s.tasks == [Charging(r, AtGateway(m)), Charging(r, AtGateway(n))]
    ensures ORDER in s.db.orders && s.db.payments == [] && ReservationIs(s.db, ORDER, Reserved)
  {
    var s0;
    if cfg.repeatCreated {
      s0, r := CreatedTwice(cfg);
      m, n := 0, 0;
    } else if cfg.repeatRequested {
      s0, r := RequestedTwice(cfg);
      m, n := 0, 0;
    } else {
      s0, r := RetriedAndRedelivered(cfg);
      m, n := 1, 0;
    }
    s := BothReceived(cfg, Init(map[]), s0, r, m, n);
  }

  /** One is charged and the other declined. */
  lemma BothReported(cfg: Config) returns (s: Sys, r: PaymentRequested, m: nat, n: nat)
    requires !Once(cfg)
    ensures Reaches(cfg, Init(map[]), s) && r.order == ORDER
    ensures s.tasks == [Reporting(r, m, Success), Reporting(r, n, Failed)]
    ensures ORDER in s.db.orders && IsCharged(s.db, ORDER) && ReservationIs(s.db, ORDER, Reserved)
  {
    var start := Init(map[]);
    var s0;
    s0, r, m, n := BothAtGateway(cfg);
    var (paid, waiting) := (Reporting(r, m, Success), Charging(r, AtGateway(n)));
    var s1 := StepFirst(cfg, start, s0, Roll(Gateway.Charged(Success)), [waiting], paid);
    assert s1.db.payments[0].order == ORDER && s1.db.payments[0].status == Success;
    s := StepSecond(cfg, start, s1, Roll(Gateway.Charged(Failed)), paid, Reporting(r, n, Failed));
    assert s.db.payments[0] == s1.db.payments[0];
  }

  /** The order is CANCELLED although the customer has paid, and the result of the charge is still to come. */
  lemma TwoOutcomes(cfg: Config) returns (s: Sys, r: PaymentRequested, m: nat)
    requires !Once(cfg)
    ensures Reaches(cfg, Init(map[]), s) && r.order == ORDER
    ensures s.tasks == [Reporting(r, m, Success), Announcing(ORDER, Cancelled)]
    ensures ORDER in s.db.orders && s.db.orders[ORDER].status == Cancelled
    ensures IsCharged(s.db, ORDER) && ReservationIs(s.db, ORDER, Reserved)
  {
    var s0, n;
    s0, r, m, n := BothReported(cfg);
    var (start, paid) := (Init(map[]), Reporting(r, m, Success));
    var s1 := StepSecond(cfg, start, s0, Proceed, paid, Result(ORDER, Failed));
    var s2 := StepSecond(cfg, start, s1, Fault, paid, Marking(ORDER, Cancelled));
    s := StepSecond(cfg, start, s2, Proceed, paid, Announcing(ORDER, Cancelled));
  }

  /** payment.succeeded and payment.failed have both been sent. */
  lemma BothResults(cfg: Config) returns (s: Sys)
    requires !Once(cfg)
    ensures Reaches(cfg, Init(map[]), s) && Result(ORDER, Success) in s.tasks && Result(ORDER, Failed) in s.tasks
  {
    var start := Init(map[]);
    var s0, r, m, n := BothReported(cfg);
    var s1 := StepFirst(cfg, start, s0, Proceed, [Reporting(r, n, Failed)], Result(ORDER, Success));
    s := StepSecond(cfg, start, s1, Proceed, Result(ORDER, Success), Result(ORDER, Failed));
    assert s.tasks[0] == Result(ORDER, Success) && s.tasks[1] == Result(ORDER, Failed);
  }

  /** The goods have been released, and the call that confirms them is on its way. */
  lemma ReleasedAndToBeConfirmed(cfg: Config) returns (s: Sys)
    requires !Once(cfg)
    ensures Reaches(cfg, Init(map[]), s)
    ensures |s.tasks| == 2 && s.tasks[0] == Confirming(ORDER, Sent)
    ensures ReservationIs(s.db, ORDER, Released)
  {
    var s0, r, m, n := BothReported(cfg);
    var released := ReleasedAfter(cfg, Init(map[]), s0, Reporting(r, m, Success), r, n);
    var done := Releasing(ORDER, Replied(Reply(true, NoReason)));
    var s1 := StepFirst(cfg, Init(map[]), released, Proceed, [done], Result(ORDER, Success));
    s := StepFirst(cfg, Init(map[]), s1, Proceed, [done], Confirming(ORDER, Sent));
  }

  /** From the saved FAILED row to a RELEASED reservation. */
  lemma ReleasedAfter(cfg: Config, start: Sys, s: Sys, first: Task, r: PaymentRequested, n: nat) returns (next: Sys)
    requires Reaches(cfg, start, s) && s.tasks == [first, Reporting(r, n, Failed)] && r.order == ORDER
    requires ReservationIs(s.db, ORDER, Reserved)
    ensures Reaches(cfg, start, next) && ReservationIs(next.db, ORDER, Released)
    ensures next.tasks == [first, Releasing(ORDER, Replied(Reply(true, NoReason)))]
  {
    var s1 := StepSecond(cfg, start, s, Proceed, first, Result(ORDER, Failed));
    var s2 := StepSecond(cfg, start, s1, Proceed, first, Releasing(ORDER, Sent));
    next := StepSecond(cfg, start, s2, Proceed, first, Releasing(ORDER, Replied(Reply(true, NoReason))));
  }

  /** Under any assumption: a handler that dies after its row is saved gets its request back, and skips it. */
  lemma ChargedAndRedelivered(cfg: Config) returns (s: Sys, next: Sys, r: PaymentRequested)
    ensures Reaches(cfg, Init(map[]), s) && r.order == ORDER && IsCharged(s.db, ORDER)
    ensures s.tasks == [Reporting(r, 0, Success), Charging(r, Returned(0))]
    ensures next == Apply(cfg, s, Run(1, Proceed)) && next == s.(tasks := [Reporting(r, 0, Success)])
  {
    var s0;
    s0, r := RequestedOnce(cfg);
    assert s0.tasks == [Charging(r, InQueue(0))] + [];
    var s1 := PaidFor(cfg, Init(map[]), s0, r, []);
    s := StepAt(cfg, Init(map[]), s1, 0, Redeliver);
    assert s.tasks == [Reporting(r, 0, Success), Charging(r, Returned(0))];
    next := Apply(cfg, s, Run(1, Proceed));
  }

  /** order.created delivered twice, the first copy already charged for. */
  lemma PaidWithACopyLeft(cfg: Config) returns (s: Sys, e: OrderCreated)
    requires cfg.repeatCreated
    ensures Reaches(cfg, Init(map[]), s) && s.tasks == [Reporting(PaymentFor(e), 0, Success), Created(e)]
    ensures e.order == ORDER && ORDER in s.db.orders
    ensures IsCharged(s.db, ORDER) && ReservationIs(s.db, ORDER, Reserved) && |s.db.payments| == 1
  {
    var start := Init(map[]);
    var s0;
    s0, e := Ordered(cfg);
    var s1 := StepAt(cfg, start, s0, 0, Copy);
    assert s1.tasks == [Created(e)] + [Created(e)];
    var s2 := Requested(cfg, start, s1, e, [Created(e)]);
    s := PaidFor(cfg, start, s2, PaymentFor(e), [Created(e)]);
  }

  /**
   * A single payment request is not enough for charge safety: the second copy's reserve call fails, and
   * the order that was paid for is CANCELLED.
   */
  lemma PaidAndCancelled(cfg: Config) returns (s: Sys)
    requires cfg.repeatCreated
    ensures Reaches(cfg, Init(map[]), s)
    ensures ORDER in s.db.orders && s.db.orders[ORDER].status == Cancelled && IsCharged(s.db, ORDER)
    ensures forall t :: t in s.tasks ==> !t.Charging? && !t.Requesting?
    ensures |s.db.payments| == 1
  {
    var start := Init(map[]);
    var s0, e := PaidWithACopyLeft(cfg);
    var paid := Reporting(PaymentFor(e), 0, Success);
    var s1 := StepSecond(cfg, start, s0, Fault, paid, Marking(ORDER, Cancelled));
    s := StepSecond(cfg, start, s1, Proceed, paid, Announcing(ORDER, Cancelled));
  }

  /** reserve answers success for a CONFIRMED reservation, so the copy reopens a COMPLETED order. */
  lemma CompletedAndReopened(cfg: Config) returns (s: Sys, later: Sys)
    requires cfg.repeatCreated
    ensures Reaches(cfg, Init(map[]), s) && Reaches(cfg, s, later)
    ensures ORDER in s.db.orders && s.db.orders[ORDER].status == Completed
    ensures ORDER in later.db.orders && later.db.orders[ORDER].status == InventoryReserved
  {
    var s0, e := PaidWithACopyLeft(cfg);
    s := CompletedAfter(cfg, Init(map[]), s0, PaymentFor(e), 0, [Created(e)]);
    assert Exec(cfg, s, []) == s;
    var told := Announcing(ORDER, Completed);
    var s1 := StepSecond(cfg, s, s, Proceed, told, Reserving(e, Sent));
    var s2 := StepSecond(cfg, s, s1, Proceed, told, Reserving(e, Replied(Reply(true, NoReason))));
    var s3 := StepSecond(cfg, s, s2, Proceed, told, MarkingReserved(e));
    later := StepSecond(cfg, s, s3, Proceed, told, Requesting(e));
  }

  /** The customer has been told CANCELLED, and the order is COMPLETED. */
  lemma ToldWrongly(cfg: Config) returns (s: Sys)
    requires !Once(cfg)
    ensures Reaches(cfg, Init(map[]), s) && |s.db.notices| > 0
    ensures var notice := s.db.notices[|s.db.notices| - 1];
            && notice.order in s.db.orders
            && notice.status == Cancelled && s.db.orders[notice.order].status == Completed
  {
    var start := Init(map[]);
    var s0, r, m := TwoOutcomes(cfg);
    var s1 := CompletedAfter(cfg, start, s0, r, m, [Announcing(ORDER, Cancelled)]);
    s := StepAt(cfg, start, s1, 1, Proceed);
  }

  /** A property of the tables in every state that some run reaches. */
  ghost predicate Always(cfg: Config, good: Sys -> bool) {
    forall seed: Stock, run: seq<Action> :: IsSeed(seed) ==> good(Exec(cfg, Init(seed), run))
  }

  lemma NotAlways(cfg: Config, good: Sys -> bool, s: Sys)
    requires Reaches(cfg, Init(map[]), s) && !good(s)
    ensures !Always(cfg, good)
  {
    var seed: Stock := map[];
    var run :| Exec(cfg, Init(seed), run) == s;
    assert IsSeed(seed) && !good(Exec(cfg, Init(seed), run));
  }

  predicate IsChargeSafe(s: Sys) {
    ChargeSafe(s.db)
  }

  /** Charge safety holds in every reachable state exactly if both requests are handled once. */
  lemma ChargeSafetyIff(cfg: Config)
    ensures Always(cfg, IsChargeSafe) <==> Once(cfg)
  {
    if Once(cfg) {
      forall seed: Stock, run: seq<Action> | IsSeed(seed) ensures IsChargeSafe(Exec(cfg, Init(seed), run)) {
        ChargeSafety(seed, cfg, run);
      }
    } else {
      var s, r, m := TwoOutcomes(cfg);
      NotAlways(cfg, IsChargeSafe, s);
    }
  }

  ghost predicate OneResult(s: Sys) {
    forall o :: !(Result(o, Success) in s.tasks && Result(o, Failed) in s.tasks)
  }

  /** No order has both payment results, in every reachable state, exactly under the same condition. */
  lemma OneResultIff(cfg: Config)
    ensures Always(cfg, OneResult) <==> Once(cfg)
  {
    if Once(cfg) {
      forall seed: Stock, run: seq<Action> | IsSeed(seed) ensures OneResult(Exec(cfg, Init(seed), run)) {
        forall o ensures var s := Exec(cfg, Init(seed), run);
                         !(Result(o, Success) in s.tasks && Result(o, Failed) in s.tasks)
        {
          OnceIssuesOne(seed, cfg, run, o);
          OnePaymentOutcome(seed, cfg, run, o);
        }
      }
    } else {
      var s := BothResults(cfg);
      NotAlways(cfg, OneResult, s);
    }
  }

  /** No call in motion confirms released goods. */
  predicate ConfirmsNoneReleased(s: Sys) {
    forall t :: t in s.tasks && RpcOf(t) == Some(ConfirmRequest(OrderOf(t))) ==>
      !ReservationIs(s.db, OrderOf(t), Released)
  }

  /** inventory-service's unwritten precondition is met in every reachable state exactly under that condition. */
  lemma SagaDischargesConfirmIff(cfg: Config)
    ensures Always(cfg, ConfirmsNoneReleased) <==> Once(cfg)
  {
    if Once(cfg) {
      forall seed: Stock, run: seq<Action> | IsSeed(seed) ensures ConfirmsNoneReleased(Exec(cfg, Init(seed), run)) {
        var s := Exec(cfg, Init(seed), run);
        forall t | t in s.tasks && RpcOf(t) == Some(ConfirmRequest(OrderOf(t)))
          ensures !ReservationIs(s.db, OrderOf(t), Released)
        {
          var i :| 0 <= i < |s.tasks| && s.tasks[i] == t;
          OnceIssuesOne(seed, cfg, run, OrderOf(t));
          SagaDischargesConfirm(seed, cfg, run, i);
        }
      }
    } else {
      var s := ReleasedAndToBeConfirmed(cfg);
      assert s.tasks[0] in s.tasks && RpcOf(s.tasks[0]) == Some(ConfirmRequest(ORDER));
      NotAlways(cfg, ConfirmsNoneReleased, s);
    }
  }

  predicate ToldTheTruth(s: Sys) {
    forall i :: 0 <= i < |s.db.notices| ==>
      var notice := s.db.notices[i];
      notice.order in s.db.orders && s.db.orders[notice.order].status == notice.status
  }

  /** Every announcement agrees with its order, in every reachable state, exactly under that condition. */
  lemma CustomerIsToldTheTruthIff(cfg: Config)
    ensures Always(cfg, ToldTheTruth) <==> Once(cfg)
  {
    if Once(cfg) {
      forall seed: Stock, run: seq<Action> | IsSeed(seed) ensures ToldTheTruth(Exec(cfg, Init(seed), run)) {
        forall i | 0 <= i < |Exec(cfg, Init(seed), run).db.notices|
          ensures var db := Exec(cfg, Init(seed), run).db;
                  var notice := db.notices[i];
                  notice.order in db.orders && db.orders[notice.order].status == notice.status
        {
          CustomerIsToldTheTruth(seed, cfg, run, i);
        }
      }
    } else {
      var s := ToldWrongly(cfg);
      NotAlways(cfg, ToldTheTruth, s);
    }
  }

  ghost predicate AlwaysAbsorbs(cfg: Config) {
    forall seed: Stock, run: seq<Action>, more: seq<Action> :: IsSeed(seed) ==>
      Absorbs(Exec(cfg, Init(seed), run).db, Exec(cfg, Exec(cfg, Init(seed), run), more).db)
  }

  /** Terminal statuses absorb in every run exactly under that condition. */
  lemma TerminalStatusesAbsorbIff(cfg: Config)
    ensures AlwaysAbsorbs(cfg) <==> Once(cfg)
  {
    if Once(cfg) {
      forall seed: Stock, run: seq<Action>, more: seq<Action> | IsSeed(seed)
        ensures Absorbs(Exec(cfg, Init(seed), run).db, Exec(cfg, Exec(cfg, Init(seed), run), more).db)
      {
        TerminalStatusesAbsorb(seed, cfg, run, more);
      }
    } else {
      var s, r, m := TwoOutcomes(cfg);
      assert Exec(cfg, s, []) == s;
      var later := CompletedAfter(cfg, s, s, r, m, [Announcing(ORDER, Cancelled)]);
      assert !Absorbs(s.db, later.db);
      var seed: Stock := map[];
      var run :| Exec(cfg, Init(seed), run) == s;
      var more :| Exec(cfg, s, more) == later;
      assert IsSeed(seed) && !Absorbs(Exec(cfg, Init(seed), run).db, Exec(cfg, Exec(cfg, Init(seed), run), more).db);
    }
  }
}
