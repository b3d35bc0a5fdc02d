/**
 * order-service's saga handlers as they are written, and the proof that running one of them without
 * interruption is following its task through the composed system.
 */
module Orchestrator {
  import opened Domain
  import opened Inventory
  import opened Ordering
  import opened Payments
  import opened Saga

  /**
   * How an inventory RPC ends: executed and answered, answer lost, executed later if at all, sent but
   * never executed (a Nack), stopped by a fault of inventory-service's database, or not even sent (the
   * breaker is open).
   */
  datatype RpcFate = Replies | ReplyLost | StillQueued | NeverRuns | Errs(fault: DbFault) | NotSent

  /** A task followed through the choices, and the messages that it leaves behind. */
  function Follow(cfg: Config, db: Tables, t: Task, choices: seq<Choice>): (Tables, seq<Task>)
    decreases |choices|
  {
    if choices == [] then (db, [t])
    else
      var (next, news) := Advance(cfg, db, t, choices[0]);
      if news == [] || news[0].Late? then (next, news)
      else
        var (last, left) := Follow(cfg, next, news[0], choices[1..]);
        (last, left + news[1..])
  }

  function ChoiceOf(ok: bool): Choice {
    if ok then Proceed else Fault
  }

  /** The choices of the composed system that make up a handler run. */
  function Script(fate: RpcFate, written: bool, sent: bool): seq<Choice> {
    var rpc :=
      match fate
      case Replies => [Proceed, Proceed, Proceed]
      case ReplyLost => [Proceed, Proceed, Fault]
      case StillQueued => [Proceed, TimeOut]
      case NeverRuns => [Proceed, Fault]
      case Errs(_) => [Proceed, Fault]
      case NotSent => [Fault];
    rpc + [ChoiceOf(written), ChoiceOf(sent)]
  }

  /** One step of a handler, whatever comes after it. */
  lemma FollowStep(cfg: Config, db: Tables, t: Task, c: Choice, rest: seq<Choice>)
    ensures var (next, news) := Advance(cfg, db, t, c);
            var all := Follow(cfg, db, t, [c] + rest);
            && (news == [] ==> all == (next, []))
            && (|news| == 1 && news[0].Late? ==> all == (next, news))
            && (|news| == 1 && !news[0].Late? ==> all == Follow(cfg, next, news[0], rest))
            && (|news| == 2 && !news[0].Late? ==>
                  var (last, left) := Follow(cfg, next, news[0], rest); all == (last, left + [news[1]]))
  {
    assert ([c] + rest)[1..] == rest;
    var (next, news) := Advance(cfg, db, t, c);
    if |news| == 1 {
      assert Follow(cfg, next, news[0], rest).1 + news[1..] == Follow(cfg, next, news[0], rest).1;
    } else if |news| == 2 {
      assert news[1..] == [news[1]];
    }
  }

  class SagaOrchestrator {
    const inventory: InventoryService
    var orders: map<OrderId, Order>
    var notices: seq<Notice>
    var broker: seq<Task>  // messages handed over, and requests given up

    constructor (inventory: InventoryService, orders: map<OrderId, Order>)
      ensures this.inventory == inventory && this.orders == orders && notices == [] && broker == []
    {
      this.inventory, this.orders, notices, broker := inventory, orders, [], [];
    }

    /** The tables with this service's and inventory-service's part filled in. */
    function In(db: Tables): Tables
      reads this, inventory
    {
      db.(orders := orders, notices := notices, store := inventory.State())
    }

    /** `breaker.fire`; None is the exception that the caller catches. */
    method Fire(request: Request, fate: RpcFate) returns (reply: Option<Reply>)
      requires fate.Errs? ==> Strikes(fate.fault, inventory.State(), request)
      modifies this`broker, inventory
      ensures fate == Replies || fate == ReplyLost ==>
        (inventory.State(), broker) == (Serve(old(inventory.State()), request).0, old(broker))
      ensures fate == StillQueued ==>
        (inventory.State(), broker) == (old(inventory.State()), old(broker) + [Late(request)])
      ensures fate == NeverRuns || fate.Errs? || fate == NotSent ==>
        (inventory.State(), broker) == (old(inventory.State()), old(broker))
      ensures reply == if fate == Replies then Some(Serve(old(inventory.State()), request).1)
                       else if fate.Errs? then Some(Reply(false, InternalError)) else None
    {
      reply := None;
      if fate == StillQueued {
        broker := broker + [Late(request)];
      } else if fate != NeverRuns && fate != NotSent {
        var answer;
        var fault := if fate.Errs? then fate.fault else Healthy;
        match request {
          case ReserveRequest(order, items) => answer := inventory.Reserve(order, items, false, fault);
          case ConfirmRequest(order) => answer := inventory.Confirm(order, false, fault);
          case ReleaseRequest(order) => answer := inventory.Release(order, false, fault);
        }
        if fate != ReplyLost {
          reply := Some(answer.reply);
        }
      }
    }

    method SetStatus(order: OrderId, status: OrderStatus, written: bool, sent: bool)
      modifies this`orders, this`notices
      ensures orders == if written && order in old(orders)
                        then old(orders)[order := old(orders)[order].(status := status)] else old(orders)
      ensures notices == if written && sent && (status == Completed || status == Cancelled) && order in old(orders)
                         then old(notices) + [Notice(order, old(orders)[order].customer, status)] else old(notices)
    {
      if !written {
        return;
      }
      if order in orders {
        orders := orders[order := orders[order].(status := status)];
      }
      if status == Completed || status == Cancelled {
        PublishStatusChanged(order, status, sent);
      }
    }

    method PublishStatusChanged(order: OrderId, status: OrderStatus, sent: bool)
      modifies this`notices
      ensures notices == if sent && order in orders
                         then old(notices) + [Notice(order, orders[order].customer, status)] else old(notices)
    {
      if order !in orders {
        return;
      }
      if sent {
        notices := notices + [Notice(order, orders[order].customer, status)];
      }
    }

    method HandleOrderCreated(
        event: OrderCreated, fate: RpcFate, written: bool, sent: bool, ghost cfg: Config, ghost db: Tables)
      requires fate.Errs? ==> Strikes(fate.fault, inventory.State(), ReserveRequest(event.order, Goods(event.items)))
      modifies this, inventory
      ensures (In(db), broker) ==
        var (after, left) := Follow(cfg, old(In(db)), Created(event), Script(fate, written, sent));
        (after, old(broker) + left)
    {
      CreatedScript(cfg, In(db), event, fate, written, sent);
      assert broker + [] == broker;
      var reserveResult := Fire(ReserveRequest(event.order, Goods(event.items)), fate);
      if reserveResult.None? {
        SetStatus(event.order, Cancelled, written, sent);
        return;
      }
      if !reserveResult.value.success {
        SetStatus(event.order, Cancelled, written, sent);
        return;
      }
      SetStatus(event.order, InventoryReserved, written, sent);
      if sent {
        broker := broker + [Charging(PaymentRequested(event.order, event.customer, event.total), InQueue(0))];
      }
    }

    method HandlePaymentSucceeded(
        order: OrderId, fate: RpcFate, written: bool, sent: bool, ghost cfg: Config, ghost db: Tables)
      requires fate.Errs? ==> Strikes(fate.fault, inventory.State(), ConfirmRequest(order))
      modifies this, inventory
      ensures (In(db), broker) ==
        var (after, left) := Follow(cfg, old(In(db)), Result(order, Success), Script(fate, written, sent));
        (after, old(broker) + left)
    {
      SucceededScript(cfg, In(db), order, fate, written, sent);
      assert broker + [] == broker;
      var result := Fire(ConfirmRequest(order), fate);
      if result.None? || !result.value.success {
        return;
      }
      SetStatus(order, Completed, written, sent);
    }

    method HandlePaymentFailed(
        order: OrderId, fate: RpcFate, written: bool, sent: bool, ghost cfg: Config, ghost db: Tables)
      requires fate.Errs? ==> Strikes(fate.fault, inventory.State(), ReleaseRequest(order))
      modifies this, inventory
      ensures (In(db), broker) ==
        var (after, left) := Follow(cfg, old(In(db)), Result(order, Failed), Script(fate, written, sent));
        (after, old(broker) + left)
    {
      FailedScript(cfg, In(db), order, fate, written, sent);
      assert broker + [] == broker;
      var _ := Fire(ReleaseRequest(order), fate);
      SetStatus(order, Cancelled, written, sent);
    }
  }

  /** Writing a terminal status and announcing it. */
  function Marked(db: Tables, o: OrderId, status: OrderStatus, written: bool, sent: bool): Tables {
    if !written || o !in db.orders then db
    else
      db.(orders := db.orders[o := db.orders[o].(status := status)],
          notices := if sent then db.notices + [Notice(o, db.orders[o].customer, status)] else db.notices)
  }

  lemma MarkingScript(cfg: Config, db: Tables, o: OrderId, status: OrderStatus, written: bool, sent: bool)
    ensures Follow(cfg, db, Marking(o, status), [ChoiceOf(written), ChoiceOf(sent)])
         == (Marked(db, o, status, written, sent), [])
  {
    var next := Advance(cfg, db, Marking(o, status), ChoiceOf(written)).0;
    assert [ChoiceOf(written), ChoiceOf(sent)] == [ChoiceOf(written)] + ([ChoiceOf(sent)] + []);
    FollowStep(cfg, db, Marking(o, status), ChoiceOf(written), [ChoiceOf(sent)] + []);
    FollowStep(cfg, next, Announcing(o, status), ChoiceOf(sent), []);
  }

  lemma ReservedScript(cfg: Config, db: Tables, e: OrderCreated, written: bool, sent: bool)
    ensures Follow(cfg, db, MarkingReserved(e), [ChoiceOf(written), ChoiceOf(sent)])
         == (if written then MarkStatus(db, e.order, InventoryReserved) else db,
             if sent then [Charging(PaymentFor(e), InQueue(0))] else [])
  {
    var next := Advance(cfg, db, MarkingReserved(e), ChoiceOf(written)).0;
    assert [ChoiceOf(written), ChoiceOf(sent)] == [ChoiceOf(written)] + ([ChoiceOf(sent)] + []);
    FollowStep(cfg, db, MarkingReserved(e), ChoiceOf(written), [ChoiceOf(sent)] + []);
    FollowStep(cfg, next, Requesting(e), ChoiceOf(sent), []);
  }

  /** The first steps of a script, up to the end of the RPC; `rest` is what remains of it. */
  lemma Answers(
      cfg: Config, db: Tables, start: Task, waiting: Task, answered: Task, ran: Tables, c: Choice, rest: seq<Choice>)
    requires Advance(cfg, db, start, Proceed) == (db, [waiting]) && !waiting.Late?
    requires Advance(cfg, db, waiting, Proceed) == (ran, [answered]) && !answered.Late?
    ensures Follow(cfg, db, start, [Proceed, Proceed, c] + rest) == Follow(cfg, ran, answered, [c] + rest)
  {
    FollowStep(cfg, db, start, Proceed, [Proceed, c] + rest);
    FollowStep(cfg, db, waiting, Proceed, [c] + rest);
    assert [Proceed, Proceed, c] + rest == [Proceed] + ([Proceed, c] + rest);
    assert [Proceed, c] + rest == [Proceed] + ([c] + rest);
  }

  lemma GivesUp(cfg: Config, db: Tables, start: Task, waiting: Task, c: Choice, rest: seq<Choice>)
    requires Advance(cfg, db, start, Proceed) == (db, [waiting]) && !waiting.Late?
    ensures Follow(cfg, db, start, [Proceed, c] + rest) == Follow(cfg, db, waiting, [c] + rest)
  {
    FollowStep(cfg, db, start, Proceed, [c] + rest);
    assert [Proceed, c] + rest == [Proceed] + ([c] + rest);
  }

  /** What handleOrderCreated leaves behind, fate by fate. */
  function AfterCreated(db: Tables, e: OrderCreated, fate: RpcFate, written: bool, sent: bool): (Tables, seq<Task>) {
    var o := e.order;
    var (store, reply) := Reserve(db.store, o, Goods(e.items));
    var ran := db.(store := store);
    match fate
    case Replies =>
      if reply.success
      then (if written then MarkStatus(ran, o, InventoryReserved) else ran,
            if sent then [Charging(PaymentFor(e), InQueue(0))] else [])
      else (Marked(ran, o, Cancelled, written, sent), [])
    case ReplyLost => (Marked(ran, o, Cancelled, written, sent), [])
    case StillQueued => (Marked(db, o, Cancelled, written, sent), [Late(ReserveRequest(o, Goods(e.items)))])
    case _ => (Marked(db, o, Cancelled, written, sent), [])
  }

  lemma CreatedScript(cfg: Config, db: Tables, e: OrderCreated, fate: RpcFate, written: bool, sent: bool)
    ensures Follow(cfg, db, Created(e), Script(fate, written, sent)) == AfterCreated(db, e, fate, written, sent)
  {
    var (o, rest) := (e.order, [ChoiceOf(written), ChoiceOf(sent)]);
    var (store, reply) := Reserve(db.store, o, Goods(e.items));
    var ran := db.(store := store);
    if fate == Replies || fate == ReplyLost {
      var c := ChoiceOf(fate == Replies);
      Answers(cfg, db, Created(e), Reserving(e, Sent), Reserving(e, Replied(reply)), ran, c, rest);
      FollowStep(cfg, ran, Reserving(e, Replied(reply)), c, rest);
      MarkingScript(cfg, ran, o, Cancelled, written, sent);
      ReservedScript(cfg, ran, e, written, sent);
    } else if fate == NotSent {
      FollowStep(cfg, db, Created(e), Fault, rest);
      MarkingScript(cfg, db, o, Cancelled, written, sent);
    } else {
      UnreservedScript(cfg, db, e, if fate == StillQueued then TimeOut else Fault, written, sent);
    }
  }

  /** The reserve call is given up, or fails. */
  lemma UnreservedScript(cfg: Config, db: Tables, e: OrderCreated, c: Choice, written: bool, sent: bool)
    requires c == TimeOut || c == Fault
    ensures var late := Late(ReserveRequest(e.order, Goods(e.items)));
            Follow(cfg, db, Created(e), [Proceed, c] + [ChoiceOf(written), ChoiceOf(sent)])
            == (Marked(db, e.order, Cancelled, written, sent), if c == TimeOut then [late] else [])
  {
    var rest := [ChoiceOf(written), ChoiceOf(sent)];
    var late := Late(ReserveRequest(e.order, Goods(e.items)));
    assert [] + [late] == [late];
    MarkingScript(cfg, db, e.order, Cancelled, written, sent);
    GivesUp(cfg, db, Created(e), Reserving(e, Sent), c, rest);
    FollowStep(cfg, db, Reserving(e, Sent), c, rest);
  }

  /** What handlePaymentSucceeded leaves behind. */
  function AfterSucceeded(db: Tables, o: OrderId, fate: RpcFate, written: bool, sent: bool): (Tables, seq<Task>) {
    var (store, reply) := Confirm(db.store, o);
    var ran := db.(store := store);
    match fate
    case Replies => (if reply.success then Marked(ran, o, Completed, written, sent) else ran, [])
    case ReplyLost => (ran, [])
    case StillQueued => (db, [Late(ConfirmRequest(o))])
    case _ => (db, [])
  }

  lemma SucceededScript(cfg: Config, db: Tables, o: OrderId, fate: RpcFate, written: bool, sent: bool)
    ensures Follow(cfg, db, Result(o, Success), Script(fate, written, sent))
         == AfterSucceeded(db, o, fate, written, sent)
  {
    var rest := [ChoiceOf(written), ChoiceOf(sent)];
    var (store, reply) := Confirm(db.store, o);
    var ran := db.(store := store);
    if fate == Replies || fate == ReplyLost {
      var c := ChoiceOf(fate == Replies);
      Answers(cfg, db, Result(o, Success), Confirming(o, Sent), Confirming(o, Replied(reply)), ran, c, rest);
      FollowStep(cfg, ran, Confirming(o, Replied(reply)), c, rest);
      MarkingScript(cfg, ran, o, Completed, written, sent);
    } else if fate == NotSent {
      FollowStep(cfg, db, Result(o, Success), Fault, rest);
    } else {
      var c := if fate == StillQueued then TimeOut else Fault;
      GivesUp(cfg, db, Result(o, Success), Confirming(o, Sent), c, rest);
      FollowStep(cfg, db, Confirming(o, Sent), c, rest);
    }
  }

  /** What handlePaymentFailed leaves behind: the order is cancelled even if the release call fails. */
  function AfterFailed(db: Tables, o: OrderId, fate: RpcFate, written: bool, sent: bool): (Tables, seq<Task>) {
    var ran := db.(store := Release(db.store, o).0);
    match fate
    case Replies => (Marked(ran, o, Cancelled, written, sent), [])
    case ReplyLost => (Marked(ran, o, Cancelled, written, sent), [])
    case StillQueued => (Marked(db, o, Cancelled, written, sent), [Late(ReleaseRequest(o))])
    case _ => (Marked(db, o, Cancelled, written, sent), [])
  }

  lemma FailedScript(cfg: Config, db: Tables, o: OrderId, fate: RpcFate, written: bool, sent: bool)
    ensures Follow(cfg, db, Result(o, Failed), Script(fate, written, sent))
         == AfterFailed(db, o, fate, written, sent)
  {
    if fate == Replies || fate == ReplyLost {
      ReleasedScript(cfg, db, o, ChoiceOf(fate == Replies), written, sent);
    } else if fate == NotSent {
      MarkingScript(cfg, db, o, Cancelled, written, sent);
      FollowStep(cfg, db, Result(o, Failed), Fault, [ChoiceOf(written), ChoiceOf(sent)]);
    } else {
      UnreleasedScript(cfg, db, o, if fate == StillQueued then TimeOut else Fault, written, sent);
    }
  }

  /** The release call is executed, whether its answer arrives or not. */
  lemma ReleasedScript(cfg: Config, db: Tables, o: OrderId, c: Choice, written: bool, sent: bool)
    requires c == Proceed || c == Fault
    ensures Follow(cfg, db, Result(o, Failed), [Proceed, Proceed, c] + [ChoiceOf(written), ChoiceOf(sent)])
         == (Marked(db.(store := Release(db.store, o).0), o, Cancelled, written, sent), [])
  {
    var rest := [ChoiceOf(written), ChoiceOf(sent)];
    var (store, reply) := Release(db.store, o);
    var ran := db.(store := store);
    Answers(cfg, db, Result(o, Failed), Releasing(o, Sent), Releasing(o, Replied(reply)), ran, c, rest);
    FollowStep(cfg, ran, Releasing(o, Replied(reply)), c, rest);
    MarkingScript(cfg, ran, o, Cancelled, written, sent);
  }

  /** The release call is given up, or fails. */
  lemma UnreleasedScript(cfg: Config, db: Tables, o: OrderId, c: Choice, written: bool, sent: bool)
    requires c == TimeOut || c == Fault
    ensures Follow(cfg, db, Result(o, Failed), [Proceed, c] + [ChoiceOf(written), ChoiceOf(sent)])
         == (Marked(db, o, Cancelled, written, sent), if c == TimeOut then [Late(ReleaseRequest(o))] else [])
  {
    var rest := [ChoiceOf(written), ChoiceOf(sent)];
    assert [] + [Late(ReleaseRequest(o))] == [Late(ReleaseRequest(o))];
    MarkingScript(cfg, db, o, Cancelled, written, sent);
    GivesUp(cfg, db, Result(o, Failed), Releasing(o, Sent), c, rest);
    FollowStep(cfg, db, Releasing(o, Sent), c, rest);
  }

  /** The choices that make up one run of processPaymentRequested with the given outcome. */
  function PaymentChoices(outcome: Outcome, roll: Gateway, sent: bool): seq<Choice> {
    match outcome
    case Skipped => [Proceed]
    case DeadLettered => [Proceed, ChoiceOf(sent)]
    case Retried(_) => [Proceed, Roll(roll)]
    case Saved(_) => [Proceed, Roll(roll), ChoiceOf(sent)]
  }

  /** One uninterrupted delivery in the composed system is what `Deliver` says of payment-service. */
  lemma PaymentScript(cfg: Config, db: Tables, r: PaymentRequested, count: nat, roll: Gateway, sent: bool)
    ensures var outcome := Deliver(db.payments, r.order, count, roll);
            Follow(cfg, db, Charging(r, InQueue(count)), PaymentChoices(outcome, roll, sent)) ==
              match outcome
              case Skipped => (db, [])
              case DeadLettered => (db.(dlq := db.dlq + [r]), if sent then [Result(r.order, Failed)] else [])
              case Retried(k) => (db, [Charging(r, InRetry(k))])
              case Saved(status) =>
                (db.(payments := db.payments + [Payment(r.order, r.customer, r.total, status)]),
                 if sent then [Result(r.order, status)] else [])
  {
    var t, outcome := Charging(r, InQueue(count)), Deliver(db.payments, r.order, count, roll);
    var calling := Charging(r, AtGateway(count));
    match outcome {
      case Skipped =>
        assert [Proceed] == [Proceed] + [];
        FollowStep(cfg, db, t, Proceed, []);
      case DeadLettered =>
        assert [Proceed, ChoiceOf(sent)] == [Proceed] + ([ChoiceOf(sent)] + []);
        FollowStep(cfg, db, t, Proceed, [ChoiceOf(sent)] + []);
        FollowStep(cfg, db.(dlq := db.dlq + [r]), Reporting(r, count, Failed), ChoiceOf(sent), []);
      case Retried(_) =>
        assert [Proceed, Roll(roll)] == [Proceed] + ([Roll(roll)] + []);
        FollowStep(cfg, db, t, Proceed, [Roll(roll)] + []);
        FollowStep(cfg, db, calling, Roll(roll), []);
      case Saved(status) => SavedScript(cfg, db, r, count, status, sent);
    }
  }

  lemma SavedScript(cfg: Config, db: Tables, r: PaymentRequested, count: nat, status: PaymentStatus, sent: bool)
    requires !HasRow(db.payments, r.order) && count < MAX_RETRIES
    ensures Follow(cfg, db, Charging(r, InQueue(count)), [Proceed, Roll(Charged(status)), ChoiceOf(sent)])
         == (db.(payments := db.payments + [Payment(r.order, r.customer, r.total, status)]),
             if sent then [Result(r.order, status)] else [])
  {
    var rest := [ChoiceOf(sent)] + [];
    var paid := db.(payments := db.payments + [Payment(r.order, r.customer, r.total, status)]);
    assert [Proceed, Roll(Charged(status)), ChoiceOf(sent)] == [Proceed] + ([Roll(Charged(status))] + rest);
    FollowStep(cfg, db, Charging(r, InQueue(count)), Proceed, [Roll(Charged(status))] + rest);
    FollowStep(cfg, db, Charging(r, AtGateway(count)), Roll(Charged(status)), rest);
    FollowStep(cfg, paid, Reporting(r, count, status), ChoiceOf(sent), []);
  }
}
