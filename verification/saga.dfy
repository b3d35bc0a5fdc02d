/**
 * The composed system. Its state is the databases of the services, the outbox relay, and everything
 * that is in motion: messages in queues, handlers suspended at an await, and requests whose caller has
 * given up. A step takes one task to its next await, with any outcome the environment can choose.
 */
module Saga {
  import opened Domain
  import opened Inventory
  import opened Ordering
  import opened Payments
  import opened OutboxRelay

  /** An order.status-changed message. */
  datatype Notice = Notice(order: OrderId, customer: CustomerId, status: OrderStatus)

  datatype Tables = Tables(
    catalog: Catalog.Prices,
    orders: map<OrderId, Order>,
    outbox: seq<OrderCreated>,
    store: Store,
    payments: seq<Payment>,
    dlq: seq<PaymentRequested>,
    notices: seq<Notice>)

  /** An inventory RPC as its caller sees it. */
  datatype Call = Sent | Replied(reply: Reply)

  /**
   * Where a payment request is: in the main queue, with a handler that awaits the gateway, in retry queue k,
   * or back in the main queue after its handler had saved a row or parked it and died unacknowledged.
   */
  datatype Place = InQueue(count: nat) | AtGateway(count: nat) | InRetry(k: nat) | Returned(count: nat)

  datatype Task =
    | Created(event: OrderCreated)                       // order.created message
    | Reserving(event: OrderCreated, call: Call)         // handleOrderCreated, awaiting inventory.reserve
    | MarkingReserved(event: OrderCreated)               // ... about to write INVENTORY_RESERVED
    | Requesting(event: OrderCreated)                    // ... about to publish payment.requested
    | Charging(request: PaymentRequested, place: Place)  // payment.requested message or its handler
    | Reporting(request: PaymentRequested, count: nat, result: PaymentStatus)  // ... about to publish the result
    | Result(order: OrderId, result: PaymentStatus)      // payment.succeeded or payment.failed message
    | Confirming(order: OrderId, call: Call)             // handlePaymentSucceeded, awaiting inventory.confirm
    | Releasing(order: OrderId, call: Call)              // handlePaymentFailed, awaiting inventory.release
    | Marking(order: OrderId, status: OrderStatus)       // about to write COMPLETED or CANCELLED
    | Announcing(order: OrderId, status: OrderStatus)    // about to publish order.status-changed
    | Late(rpc: Request)                                 // request in a queue, its caller gone

  function OrderOf(t: Task): OrderId {
    match t
    case Created(e) => e.order
    case Reserving(e, _) => e.order
    case MarkingReserved(e) => e.order
    case Requesting(e) => e.order
    case Charging(r, _) => r.order
    case Reporting(r, _, _) => r.order
    case Late(rpc) => rpc.order
    case _ => t.order
  }

  /**
   * Proceed: the awaited operation works. Fault: it fails, or the breaker or a Nack keeps it from ever
   * running. TimeOut: the caller gives up on a request that is still on its way. Vanish: the message is
   * lost or the handler's process dies. Copy: the broker delivers twice. Redeliver: the handler dies before
   * its acknowledgement and its message is back in the queue; what it had sent by then is still there, and
   * may vanish if it had not. Roll: the gateway's answer.
   */
  datatype Choice = Proceed | Fault | TimeOut | Vanish | Copy | Redeliver | Roll(gateway: Gateway)

  /**
   * What the broker may do, and the header model: deliver order.created again after its handler has gone as
   * far as requesting payment or cancelling; deliver a queued payment.requested twice; redeliver one that a
   * handler has already published to a retry queue.
   */
  datatype Config = Config(repeatCreated: bool, repeatRequested: bool, repeatRetried: bool, headers: HeaderModel)

  function MarkStatus(db: Tables, o: OrderId, status: OrderStatus): Tables {
    if o in db.orders then db.(orders := db.orders[o := db.orders[o].(status := status)]) else db
  }

  function PaymentFor(e: OrderCreated): PaymentRequested {
    PaymentRequested(e.order, e.customer, e.total)
  }

  /** What stays behind when the handler of t stops listening: its request, if one is in flight. */
  function InFlight(t: Task): seq<Task> {
    match t
    case Reserving(e, Sent) => [Late(ReserveRequest(e.order, Goods(e.items)))]
    case Confirming(o, Sent) => [Late(ConfirmRequest(o))]
    case Releasing(o, Sent) => [Late(ReleaseRequest(o))]
    case _ => []
  }

  predicate MayCopy(cfg: Config, t: Task) {
    match t
    case Created(_) => cfg.repeatCreated
    case Charging(_, InQueue(_)) => cfg.repeatRequested
    case Charging(_, Returned(_)) => true
    case Result(_, _) => true
    case Late(_) => true
    case _ => false
  }

  /** handleOrderCreated, from one await to the next. */
  function StartSaga(db: Tables, t: Task, c: Choice): (Tables, seq<Task>)
    requires t.Created? || t.Reserving? || t.MarkingReserved? || t.Requesting?
  {
    var e := t.event;
    match (t, c)
    case (Created(_), Proceed) => (db, [Reserving(e, Sent)])
    case (Created(_), Fault) => (db, [Marking(e.order, Cancelled)])
    case (Reserving(_, Sent), Proceed) =>
      var (store, reply) := Reserve(db.store, e.order, Goods(e.items));
      (db.(store := store), [Reserving(e, Replied(reply))])
    case (Reserving(_, Sent), Fault) => (db, [Marking(e.order, Cancelled)])
    case (Reserving(_, Sent), TimeOut) => (db, [Marking(e.order, Cancelled)] + InFlight(t))
    case (Reserving(_, _), Redeliver) => (db, [Created(e)] + InFlight(t))
    case (Reserving(_, Replied(reply)), Proceed) =>
      (db, if reply.success then [MarkingReserved(e)] else [Marking(e.order, Cancelled)])
    case (Reserving(_, Replied(_)), Fault) => (db, [Marking(e.order, Cancelled)])
    case (MarkingReserved(_), Proceed) => (MarkStatus(db, e.order, InventoryReserved), [Requesting(e)])
    case (MarkingReserved(_), Fault) => (db, [Requesting(e)])
    case (MarkingReserved(_), Redeliver) => (db, [Created(e)])
    case (Requesting(_), Proceed) => (db, [Charging(PaymentFor(e), InQueue(0))])
    case (Requesting(_), Fault) => (db, [])
    case (Requesting(_), Redeliver) => (db, [Created(e)])
    case _ => (db, [t])
  }

  /** processPaymentRequested up to the gateway call: idempotency check, then the retry limit. */
  function Receive(db: Tables, r: PaymentRequested, count: nat): (Tables, seq<Task>) {
    if HasRow(db.payments, r.order) then (db, [])
    else if count >= MAX_RETRIES then (db.(dlq := db.dlq + [r]), [Reporting(r, count, Failed)])
    else (db, [Charging(r, AtGateway(count))])
  }

  /** processPaymentRequested and publishResult, from one await to the next. */
  function Pay(cfg: Config, db: Tables, t: Task, c: Choice): (Tables, seq<Task>)
    requires t.Charging? || t.Reporting?
  {
    match (t, c)
    case (Charging(r, InQueue(count)), Proceed) => Receive(db, r, count)
    case (Charging(r, Returned(count)), Proceed) => Receive(db, r, count)
    case (Charging(r, AtGateway(count)), Roll(Charged(status))) =>
      (db.(payments := db.payments + [Payment(r.order, r.customer, r.total, status)]), [Reporting(r, count, status)])
    case (Charging(r, AtGateway(count)), Roll(Transient)) => (db, [Charging(r, InRetry(count + 1))])
    case (Charging(r, AtGateway(count)), Redeliver) => (db, [Charging(r, InQueue(count))])
    case (Charging(r, InRetry(k)), Proceed) => (db, [Charging(r, InQueue(ReturnCount(cfg.headers, k)))])
    case (Charging(r, InRetry(k)), Redeliver) =>
      (db, if cfg.repeatRetried && k > 0 then [t, Charging(r, InQueue(k - 1))] else [t])
    case (Reporting(r, _, result), Proceed) => (db, [Result(r.order, result)])
    case (Reporting(_, _, _), Fault) => (db, [])
    case (Reporting(r, count, _), Redeliver) => (db, [t, Charging(r, Returned(count))])
    case _ => (db, [t])
  }

  /** handlePaymentSucceeded and handlePaymentFailed, from one await to the next. */
  function Conclude(db: Tables, t: Task, c: Choice): (Tables, seq<Task>)
    requires t.Result? || t.Confirming? || t.Releasing?
  {
    var o := t.order;
    match (t, c)
    case (Result(_, Success), Proceed) => (db, [Confirming(o, Sent)])
    case (Result(_, Success), Fault) => (db, [])
    case (Result(_, Failed), Proceed) => (db, [Releasing(o, Sent)])
    case (Result(_, Failed), Fault) => (db, [Marking(o, Cancelled)])
    case (Confirming(_, Sent), Proceed) =>
      var (store, reply) := Confirm(db.store, o);
      (db.(store := store), [Confirming(o, Replied(reply))])
    case (Confirming(_, Sent), Fault) => (db, [])
    case (Confirming(_, Sent), TimeOut) => (db, InFlight(t))
    case (Confirming(_, Replied(reply)), Proceed) => (db, if reply.success then [Marking(o, Completed)] else [])
    case (Confirming(_, Replied(_)), Fault) => (db, [])
    case (Releasing(_, Sent), Proceed) =>
      var (store, reply) := Release(db.store, o);
      (db.(store := store), [Releasing(o, Replied(reply))])
    case (Releasing(_, Sent), Fault) => (db, [Marking(o, Cancelled)])
    case (Releasing(_, Sent), TimeOut) => (db, [Marking(o, Cancelled)] + InFlight(t))
    case (Releasing(_, Replied(_)), Proceed) => (db, [Marking(o, Cancelled)])
    case (Releasing(_, Replied(_)), Fault) => (db, [Marking(o, Cancelled)])
    case _ => (db, [t])
  }

  /** setStatus of a terminal status and publishStatusChanged. */
  function Notify(db: Tables, t: Task, c: Choice): (Tables, seq<Task>)
    requires t.Marking? || t.Announcing?
  {
    match (t, c)
    case (Marking(o, status), Proceed) => (MarkStatus(db, o, status), [Announcing(o, status)])
    case (Marking(_, _), Fault) => (db, [])
    case (Announcing(o, status), Proceed) =>
      (if o in db.orders
       then db.(notices := db.notices + [Notice(o, db.orders[o].customer, status)]) else db, [])
    case (Announcing(_, _), Fault) => (db, [])
    case _ => (db, [t])
  }

  /** One task, one choice: the tables afterwards and the tasks that take its place. */
  function Advance(cfg: Config, db: Tables, t: Task, c: Choice): (Tables, seq<Task>) {
    if c == Vanish then (db, InFlight(t))
    else if c == Copy then (db, if MayCopy(cfg, t) then [t, t] else [t])
    else
      match t
      case Late(rpc) => if c == Proceed then (db.(store := Serve(db.store, rpc).0), []) else (db, [t])
      case Created(_) => StartSaga(db, t, c)
      case Reserving(_, _) => StartSaga(db, t, c)
      case MarkingReserved(_) => StartSaga(db, t, c)
      case Requesting(_) => StartSaga(db, t, c)
      case Charging(_, _) => Pay(cfg, db, t, c)
      case Reporting(_, _, _) => Pay(cfg, db, t, c)
      case Result(_, _) => Conclude(db, t, c)
      case Confirming(_, _) => Conclude(db, t, c)
      case Releasing(_, _) => Conclude(db, t, c)
      case Marking(_, _) => Notify(db, t, c)
      case Announcing(_, _) => Notify(db, t, c)
  }

  datatype Sys = Sys(db: Tables, relay: Relay<OrderCreated>, tasks: seq<Task>)

  datatype Action =
    | AddProduct(product: ProductId, price: real)
    | PlaceOrder(order: OrderId, customer: CustomerId, items: seq<Item>)
    | RelayJoin
    | RelayNext
    | RelayCommit
    | Run(index: nat, choice: Choice)

  function Placed(db: Tables, o: OrderId, customer: CustomerId, items: seq<PricedItem>): Tables {
    var order := Order(customer, items, Total(items), Pending);
    db.(orders := db.orders[o := order], outbox := db.outbox + [EventOf(o, order)])
  }

  /**
   * An action that is not possible in s leaves s as it is, so every list of actions is a run. A relay that
   * joins again at a committed offset may publish rows once more; one without an offset never does.
   */
  function Apply(cfg: Config, s: Sys, a: Action): Sys {
    var relay := s.relay;
    match a
    case AddProduct(p, price) =>
      if p in s.db.catalog then s else s.(db := s.db.(catalog := s.db.catalog[p := price]))
    case PlaceOrder(o, customer, items) =>
      if o in s.db.orders then s
      else
        var quote := PriceItems(Catalog.LookUp(s.db.catalog, Ids(items)), items);
        if quote.Priced? then s.(db := Placed(s.db, o, customer, quote.items)) else s
    case RelayJoin =>
      if relay.committed.Some? && !cfg.repeatCreated then s else s.(relay := Connected(relay, |s.db.outbox|))
    case RelayNext =>
      if !relay.joined || relay.position >= |s.db.outbox| then s
      else
        var e := s.db.outbox[relay.position];
        s.(relay := Passed(relay, Some(e)), tasks := s.tasks + [Created(e)])
    case RelayCommit => s.(relay := CommittedHere(relay))
    case Run(i, c) =>
      if i >= |s.tasks| then s
      else
        var (db, news) := Advance(cfg, s.db, s.tasks[i], c);
        Sys(db, relay, s.tasks[..i] + news + s.tasks[i + 1..])
  }

  /**
   * Placing an order writes what CreateOrder of order-service writes, a PENDING order at catalog prices and
   * its outbox row, or nothing if a product is unknown.
   */
  lemma PlacingIsCreating(cfg: Config, s: Sys, o: OrderId, customer: CustomerId, items: seq<Item>)
    requires o !in s.db.orders
    ensures var s' := Apply(cfg, s, PlaceOrder(o, customer, items));
            if AllKnown(s.db.catalog, items) then
              var (priced, cost) := (WithPrices(s.db.catalog, items), Worth(s.db.catalog, items));
              s' == s.(db := s.db.(orders := s.db.orders[o := Order(customer, priced, cost, Pending)],
                                   outbox := s.db.outbox + [OrderCreated(o, customer, cost, priced)]))
            else s' == s
  {
    PricingIsDirectLookUp(s.db.catalog, items);
    if AllKnown(s.db.catalog, items) {
      CostOfPriced(s.db.catalog, items);
    }
  }

  function Exec(cfg: Config, s: Sys, run: seq<Action>): Sys
    decreases |run|
  {
    if run == [] then s else Exec(cfg, Apply(cfg, s, run[0]), run[1..])
  }

  lemma {:induction false} ExecConcat(cfg: Config, s: Sys, a: seq<Action>, b: seq<Action>)
    ensures Exec(cfg, s, a + b) == Exec(cfg, Exec(cfg, s, a), b)
    decreases |a|
  {
    if a == [] {
      assert a + b == b;
    } else {
      assert (a + b)[1..] == a[1..] + b;
      ExecConcat(cfg, Apply(cfg, s, a[0]), a[1..], b);
    }
  }

  /** Some run leads from s to s'. */
  ghost predicate Reaches(cfg: Config, s: Sys, s': Sys) {
    exists run :: Exec(cfg, s, run) == s'
  }

  lemma Then(cfg: Config, s: Sys, s': Sys, a: Action)
    requires Reaches(cfg, s, s')
    ensures Reaches(cfg, s, Apply(cfg, s', a))
  {
    var run :| Exec(cfg, s, run) == s';
    ExecConcat(cfg, s, run, [a]);
    assert [a][1..] == [];
    assert Exec(cfg, s, run + [a]) == Apply(cfg, s', a);
  }

  /** Empty databases but for the stock rows, and a relay that has not joined yet. */
  function Init(seed: Stock): Sys {
    Sys(Tables(map[], map[], [], Store(seed, map[]), [], [], []), Relay(false, 0, 0, None, []), [])
  }
}
