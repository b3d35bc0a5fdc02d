/** A step of one task, summed up: which tasks can follow which, and what each one writes. */
module Effects {
  import opened Domain
  import opened Inventory
  import opened Ordering
  import opened Payments
  import opened Saga
  import opened Dossiers
  import opened ReserveTest

  predicate IsConfirmed(store: Store, o: OrderId) {
    o in store.reservations && store.reservations[o].status == Confirmed
  }

  predicate GrewBy(db: Tables, after: Tables, t: Task, status: PaymentStatus) {
    && t.Charging? && t.place.AtGateway?
    && after.payments == db.payments + [Payment(t.request.order, t.request.customer, t.request.total, status)]
    && after.dlq == db.dlq
  }

  predicate Parks(db: Tables, after: Tables, t: Task) {
    && t.Charging? && (t.place.InQueue? || t.place.Returned?) && t.place.count >= MAX_RETRIES
    && !HasRow(db.payments, t.request.order)
    && after.dlq == db.dlq + [t.request] && after.payments == db.payments
  }

  /** x can take the place of t when the tables go from db to after. */
  predicate Follows(db: Tables, t: Task, after: Tables, x: Task) {
    match x
    case Created(e) => (t.Reserving? || t.MarkingReserved? || t.Requesting?) && t.event == e
    case Reserving(e, Sent) => t == Created(e)
    case Reserving(e, Replied(reply)) =>
      t == Reserving(e, Sent) && (reply.success ==> e.order in after.store.reservations)
    case MarkingReserved(e) => t.Reserving? && t.event == e && t.call.Replied? && t.call.reply.success
    case Requesting(e) => t == MarkingReserved(e)
    case Charging(r, place) =>
      if place.Returned? then t.Reporting? && t.request == r && t.count == place.count
      else (t.Charging? && t.request == r) || (t.Requesting? && r == PaymentFor(t.event))
    case Reporting(r, count, result) =>
      && t.Charging? && t.request == r
      && (GrewBy(db, after, t, result) || (result == Failed && Parks(db, after, t) && t.place.count == count))
    case Result(o, result) => t.Reporting? && t.request.order == o && t.result == result
    case Confirming(o, Sent) => t == Result(o, Success)
    case Confirming(o, Replied(reply)) => t == Confirming(o, Sent) && (reply.success <==> IsConfirmed(after.store, o))
    case Releasing(o, Sent) => t == Result(o, Failed)
    case Releasing(o, Replied(_)) => t == Releasing(o, Sent)
    case Marking(o, status) =>
      || (status == Completed && t.Confirming? && t.call.Replied? && t.call.reply.success)
      || (status == Cancelled && (t.Created? || t.Reserving? || t.Releasing? || t == Result(o, Failed)))
    case Announcing(o, status) =>
      t == Marking(o, status) && (o in after.orders ==> after.orders[o].status == status)
    case Late(_) => x in InFlight(t)
  }

  /** How the order row can change. */
  predicate OrderWritten(db: Tables, t: Task, after: Tables) {
    var o := OrderOf(t);
    || Get(after.orders, o) == Get(db.orders, o)
    || (o in db.orders && t.MarkingReserved? &&
        Get(after.orders, o) == Some(db.orders[o].(status := InventoryReserved)))
    || (o in db.orders && t.Marking? && Get(after.orders, o) == Some(db.orders[o].(status := t.status)))
  }

  /** How the reservation can change, and who changes it. */
  predicate ReservationWritten(db: Tables, t: Task, after: Tables) {
    var o := OrderOf(t);
    var (before, now) := (Get(db.store.reservations, o), Get(after.store.reservations, o));
    || now == before
    || (before.None? && now.Some? && now.value.status == Reserved && AllPositive(now.value.items)
        && ((t.Reserving? && t.call == Sent && now.value.items == Goods(t.event.items))
            || (t.Late? && t.rpc == ReserveRequest(o, now.value.items))))
    || (before.Some? && now == Some(before.value.(status := Confirmed))
        && (t == Confirming(o, Sent) || t == Late(ConfirmRequest(o))))
    || (before.Some? && before.value.status == Reserved && now == Some(before.value.(status := Released))
        && (t == Releasing(o, Sent) || t == Late(ReleaseRequest(o))))
  }

  predicate RepeatsRequest(cfg: Config, t: Task) {
    t.Charging? && (cfg.repeatRequested || cfg.repeatRetried)
  }

  predicate Repeats(cfg: Config, t: Task) {
    (t.Created? && cfg.repeatCreated) || RepeatsRequest(cfg, t)
  }

  /** A request put back in the queue that would be charged again: no row stops it, and its count does not. */
  predicate Astray(db: Tables, t: Task) {
    && t.Charging? && t.place.Returned?
    && !HasRow(db.payments, t.request.order) && t.place.count < MAX_RETRIES
  }

  /** The claim on the customer's money is passed on, used up, or dropped. */
  predicate ClaimPassedOn(cfg: Config, db: Tables, t: Task, after: Tables, news: seq<Task>) {
    && (after.payments != db.payments || after.dlq != db.dlq ==> t.Charging? && |news| == 1 && news[0].Reporting?)
    && ((exists x :: x in news && x.Marking?) ==> ClaimsIn(news) == 0)
    && (!Repeats(cfg, t) && !Astray(db, t) ==> ClaimsIn(news) <= if IsClaim(t) then 1 else 0)
    && (ClaimsIn(news) > 0 ==> IsClaim(t) || Astray(db, t))
    && (!RepeatsRequest(cfg, t) && !Astray(db, t) ==>
          ChargesIn(news) <= if IsCharge(t) || t.Requesting? then 1 else 0)
  }

  predicate Effect(cfg: Config, db: Tables, t: Task, after: Tables, news: seq<Task>) {
    && (forall x :: x in news ==> OrderOf(x) == OrderOf(t) && (x == t || Follows(db, t, after, x)))
    && OrderWritten(db, t, after)
    && ReservationWritten(db, t, after)
    && ClaimPassedOn(cfg, db, t, after, news)
    && (after.payments != db.payments ==> exists status :: GrewBy(db, after, t, status))
    && (after.dlq != db.dlq ==> Parks(db, after, t))
    && (after.notices != db.notices ==>
          t.Announcing? && t.order in db.orders
          && after.notices == db.notices + [Notice(t.order, db.orders[t.order].customer, t.status)])
  }

  lemma ReserveWrites(store: Store, o: OrderId, items: seq<Item>)
    ensures var (after, reply) := Reserve(store, o, items);
            && (o in store.reservations ==> after == store)
            && (reply.success ==> o in after.reservations)
            && (o !in store.reservations && o in after.reservations ==>
                  after.reservations[o] == Reservation(items, Reserved) && AllPositive(items))
  {
    LoopMeetsTest(store.stock, items);
  }

  lemma ReservingEffect(cfg: Config, db: Tables, t: Task, c: Choice)
    requires t.Reserving?
    ensures Effect(cfg, db, t, StartSaga(db, t, c).0, StartSaga(db, t, c).1)
  {
    if t.call.Replied? {
      RepliedEffect(cfg, db, t, c);
    } else if c == Proceed {
      ReserveEffect(cfg, db, t);
    } else {
      UnansweredEffect(cfg, db, t, c);
    }
  }

  lemma UnansweredEffect(cfg: Config, db: Tables, t: Task, c: Choice)
    requires t.Reserving? && t.call == Sent && c != Proceed
    ensures Effect(cfg, db, t, StartSaga(db, t, c).0, StartSaga(db, t, c).1)
  {
  }

  lemma RepliedEffect(cfg: Config, db: Tables, t: Task, c: Choice)
    requires t.Reserving? && t.call.Replied?
    ensures Effect(cfg, db, t, StartSaga(db, t, c).0, StartSaga(db, t, c).1)
  {
  }

  lemma ReserveEffect(cfg: Config, db: Tables, t: Task)
    requires t.Reserving? && t.call == Sent
    ensures Effect(cfg, db, t, StartSaga(db, t, Proceed).0, StartSaga(db, t, Proceed).1)
  {
    ReserveWrites(db.store, t.event.order, Goods(t.event.items));
  }

  lemma StartSagaEffect(cfg: Config, db: Tables, t: Task, c: Choice)
    requires t.Created? || t.MarkingReserved? || t.Requesting?
    ensures Effect(cfg, db, t, StartSaga(db, t, c).0, StartSaga(db, t, c).1)
  {
  }

  lemma ChargingEffect(cfg: Config, db: Tables, t: Task, c: Choice)
    requires t.Charging?
    ensures Effect(cfg, db, t, Pay(cfg, db, t, c).0, Pay(cfg, db, t, c).1)
  {
    if t.place.AtGateway? && c.Roll? && c.gateway.Charged? {
      assert GrewBy(db, Pay(cfg, db, t, c).0, t, c.gateway.status);
    }
  }

  lemma ReportingEffect(cfg: Config, db: Tables, t: Task, c: Choice)
    requires t.Reporting?
    ensures Effect(cfg, db, t, Pay(cfg, db, t, c).0, Pay(cfg, db, t, c).1)
  {
  }

  lemma ResultEffect(cfg: Config, db: Tables, t: Task, c: Choice)
    requires t.Result?
    ensures Effect(cfg, db, t, Conclude(db, t, c).0, Conclude(db, t, c).1)
  {
  }

  lemma ConfirmingEffect(cfg: Config, db: Tables, t: Task, c: Choice)
    requires t.Confirming?
    ensures Effect(cfg, db, t, Conclude(db, t, c).0, Conclude(db, t, c).1)
  {
  }

  lemma ReleasingEffect(cfg: Config, db: Tables, t: Task, c: Choice)
    requires t.Releasing?
    ensures Effect(cfg, db, t, Conclude(db, t, c).0, Conclude(db, t, c).1)
  {
  }

  lemma NotifyEffect(cfg: Config, db: Tables, t: Task, c: Choice)
    requires t.Marking? || t.Announcing?
    ensures Effect(cfg, db, t, Notify(db, t, c).0, Notify(db, t, c).1)
  {
  }

  lemma LateEffect(cfg: Config, db: Tables, t: Task, c: Choice)
    requires t.Late? && c != Vanish && c != Copy
    ensures Effect(cfg, db, t, Advance(cfg, db, t, c).0, Advance(cfg, db, t, c).1)
  {
    if t.rpc.ReserveRequest? {
      ReserveWrites(db.store, t.rpc.order, t.rpc.items);
    }
  }

  lemma AdvanceEffect(cfg: Config, db: Tables, t: Task, c: Choice)
    ensures Effect(cfg, db, t, Advance(cfg, db, t, c).0, Advance(cfg, db, t, c).1)
  {
    if c == Vanish || c == Copy {
    } else {
      match t {
        case Late(_) => LateEffect(cfg, db, t, c);
        case Created(_) => StartSagaEffect(cfg, db, t, c);
        case Reserving(_, _) => ReservingEffect(cfg, db, t, c);
        case MarkingReserved(_) => StartSagaEffect(cfg, db, t, c);
        case Requesting(_) => StartSagaEffect(cfg, db, t, c);
        case Charging(_, _) => ChargingEffect(cfg, db, t, c);
        case Reporting(_, _, _) => ReportingEffect(cfg, db, t, c);
        case Result(_, _) => ResultEffect(cfg, db, t, c);
        case Confirming(_, _) => ConfirmingEffect(cfg, db, t, c);
        case Releasing(_, _) => ReleasingEffect(cfg, db, t, c);
        case Marking(_, _) => NotifyEffect(cfg, db, t, c);
        case Announcing(_, _) => NotifyEffect(cfg, db, t, c);
      }
    }
  }
}
