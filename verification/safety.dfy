/** What every reachable state keeps, order by order. */
module Safety {
  import opened Domain
  import opened Inventory
  import opened Ordering
  import opened Payments
  import opened Saga
  import opened Dossiers
  import opened Effects

  /** The customer has been charged. */
  predicate Paid(d: Dossier) {
    exists p :: p in d.billed && p.status == Success
  }

  predicate HasConfirmed(d: Dossier) {
    d.reservation.Some? && d.reservation.value.status == Confirmed
  }

  /** Nothing is left that could ever charge the customer. */
  predicate Doomed(d: Dossier) {
    d.queued + d.claims == 0 && !Paid(d)
  }

  /** Tasks that follow from a failed payment. */
  predicate Refunding(t: Task) {
    match t
    case Reporting(_, _, result) => result == Failed
    case Result(_, result) => result == Failed
    case Releasing(_, _) => true
    case Late(rpc) => rpc.ReleaseRequest?
    case _ => false
  }

  /** Tasks that follow from a failed payment, or lead to CANCELLED. */
  predicate Losing(t: Task) {
    Refunding(t) || ((t.Marking? || t.Announcing?) && t.status == Cancelled)
  }

  /** Tasks that follow from a successful payment. */
  predicate Winning(t: Task) {
    match t
    case Reporting(_, _, result) => result == Success
    case Result(_, result) => result == Success
    case Confirming(_, _) => true
    case Late(rpc) => rpc.ConfirmRequest?
    case Marking(_, status) => status == Completed
    case Announcing(_, status) => status == Completed
    case _ => false
  }

  /** Tasks that follow from a confirmed reservation. */
  predicate Sealed(t: Task) {
    match t
    case Confirming(_, Replied(reply)) => reply.success
    case Marking(_, status) => status == Completed
    case Announcing(_, status) => status == Completed
    case _ => false
  }

  /** Tasks that only exist once the goods have been reserved. */
  predicate Granted(t: Task) {
    match t
    case Reserving(_, Replied(reply)) => reply.success
    case MarkingReserved(_) => true
    case Requesting(_) => true
    case Charging(_, _) => true
    case Reporting(_, _, _) => true
    case Result(_, _) => true
    case Confirming(_, _) => true
    case Releasing(_, _) => true
    case Late(rpc) => !rpc.ReserveRequest?
    case _ => false
  }

  /** A task carries its order's own data. */
  predicate Genuine(t: Task, o: OrderId, order: Order) {
    match t
    case Created(e) => e == EventOf(o, order)
    case Reserving(e, _) => e == EventOf(o, order)
    case MarkingReserved(e) => e == EventOf(o, order)
    case Requesting(e) => e == EventOf(o, order)
    case Charging(r, _) => r == PaymentFor(EventOf(o, order))
    case Reporting(r, _, _) => r == PaymentFor(EventOf(o, order))
    case Late(rpc) => rpc.ReserveRequest? ==> rpc.items == Goods(order.items)
    case Marking(_, status) => status == Completed || status == Cancelled
    case Announcing(_, status) => status == Completed || status == Cancelled
    case _ => true
  }

  /** Provenance: an unknown order has left no trace, and every trace of a known one agrees with it. */
  predicate Traced(d: Dossier, o: OrderId) {
    match d.order
    case None => d == Dossier(None, None, 0, 0, 0, 0, 0, {}, {}, {})
    case Some(order) =>
      && (forall t :: t in d.tasks ==> Genuine(t, o, order) && (Granted(t) ==> d.reservation.Some?))
      && (d.reservation.Some? ==> d.reservation.value.items == Goods(order.items) && AllPositive(Goods(order.items)))
      && forall p :: p in d.billed ==>
           p == Payment(o, order.customer, order.total, p.status) && d.reservation.Some?
  }

  /** A task behind the gateway has left a row, or its request is parked and its count is up. */
  predicate Recorded(d: Dossier, t: Task) {
    match t
    case Reporting(_, count, _) => d.rows >= 1 || (d.dead >= 1 && count >= MAX_RETRIES)
    case Charging(_, Returned(count)) => d.rows >= 1 || (d.dead >= 1 && count >= MAX_RETRIES)
    case _ => true
  }

  /** COMPLETED, and everything that leads there, rests on a charge and a confirmed reservation. */
  predicate Justified(d: Dossier) {
    && (forall t :: t in d.tasks && Winning(t) ==> Paid(d))
    && (forall t :: t in d.tasks && Sealed(t) ==> HasConfirmed(d))
    && (d.order.Some? && d.order.value.status == Completed ==> Paid(d) && HasConfirmed(d))
    && (Completed in d.told ==> Paid(d) && HasConfirmed(d))
    && (HasConfirmed(d) ==> Paid(d))
    && (forall t :: t in d.tasks ==> Recorded(d, t))
  }

  /** How many claims on the customer's money there are, met ones included. */
  function Claims(d: Dossier): nat {
    d.queued + d.claims + d.rows + if d.dead > 0 then 1 else 0
  }

  /** The claim on the customer's money is in one place only, and losing and winning never meet. */
  predicate Safe(d: Dossier) {
    && Claims(d) <= 1
    && (forall t :: t in d.tasks && Losing(t) ==> Doomed(d))
    && (d.order.Some? && d.order.value.status == Cancelled ==> Doomed(d))
    && (d.reservation.Some? && d.reservation.value.status == Released ==> Doomed(d))
    && (forall t :: t in d.tasks && t.Announcing? ==> d.order.Some? && d.order.value.status == t.status)
    && (forall status :: status in d.told ==> Terminal(status) && d.order.Some? && d.order.value.status == status)
  }

  /** order.created and payment.requested are each handled once, crashes before the next step aside. */
  predicate Once(cfg: Config) {
    !cfg.repeatCreated && !cfg.repeatRequested && !cfg.repeatRetried
  }

  /** d is the dossier of o in these tables, and t is one of its tasks. */
  predicate Opens(db: Tables, t: Task, d: Dossier) {
    var o := OrderOf(t);
    && t in d.tasks && Linked(d, o)
    && d.order == Get(db.orders, o)
    && d.reservation == Get(db.store.reservations, o)
    && (HasRow(db.payments, o) <==> d.rows >= 1)
  }

  lemma TracedStep(cfg: Config, db: Tables, t: Task, after: Tables, news: seq<Task>, d: Dossier, d': Dossier)
    requires Opens(db, t, d) && Becomes(db, t, after, news, d, d') && Effect(cfg, db, t, after, news)
    requires Traced(d, OrderOf(t))
    ensures Traced(d', OrderOf(t))
  {
    var o := OrderOf(t);
    assert d.order.Some? && d'.order.Some?;
    assert d.reservation.Some? ==> d'.reservation.Some?;
    assert Genuine(t, o, d.order.value);
    forall x | x in d'.tasks
      ensures Genuine(x, o, d'.order.value)
      ensures Granted(x) ==> d'.reservation.Some?
    {
      if x !in d.tasks {
        assert Follows(db, t, after, x);
      }
    }
  }

  lemma JustifiedStep(cfg: Config, db: Tables, t: Task, after: Tables, news: seq<Task>, d: Dossier, d': Dossier)
    requires Opens(db, t, d) && Becomes(db, t, after, news, d, d') && Effect(cfg, db, t, after, news)
    requires Justified(d)
    ensures Justified(d')
  {
    assert d.billed <= d'.billed;
    assert Paid(d) ==> Paid(d');
    assert HasConfirmed(d) ==> HasConfirmed(d');
    forall x | x in d'.tasks
      ensures Winning(x) ==> Paid(d')
      ensures Sealed(x) ==> HasConfirmed(d')
      ensures Recorded(d', x)
    {
      assert Recorded(d, t);
      if x !in d.tasks {
        assert Follows(db, t, after, x);
      }
    }
  }

  predicate Terminal(status: OrderStatus) {
    status == Completed || status == Cancelled
  }

  /** No step of a task takes an order out of COMPLETED or CANCELLED. */
  lemma TerminalStep(cfg: Config, db: Tables, t: Task, after: Tables, news: seq<Task>, d: Dossier, d': Dossier)
    requires Opens(db, t, d) && Becomes(db, t, after, news, d, d') && Effect(cfg, db, t, after, news)
    requires Traced(d, OrderOf(t)) && Justified(d) && Safe(d)
    requires d.order.Some? && Terminal(d.order.value.status)
    ensures d'.order == d.order
  {
    if t.Marking? {
      assert Genuine(t, t.order, d.order.value);
    }
  }

  /** Nothing that could charge the customer comes back, and no losing task starts beside one that could. */
  lemma DoomedStep(cfg: Config, db: Tables, t: Task, after: Tables, news: seq<Task>, d: Dossier, d': Dossier)
    requires Opens(db, t, d) && Becomes(db, t, after, news, d, d') && Effect(cfg, db, t, after, news)
    requires !Repeats(cfg, t) && Justified(d) && Safe(d)
    ensures Doomed(d) ==> Doomed(d')
    ensures forall x :: x in news && Losing(x) ==> Doomed(d')
  {
    assert ClaimOf(OrderOf(t))(t) ==> !Doomed(d);
    assert Recorded(d, t) && !Astray(db, t);
    forall x | x in news && Losing(x) ensures Doomed(d') {
      if x !in d.tasks {
        assert Follows(db, t, after, x);
      }
    }
  }

  /** What is about to be announced is the order's status. */
  lemma AnnouncementsAgree(
      cfg: Config, db: Tables, t: Task, after: Tables, news: seq<Task>, d: Dossier, d': Dossier)
    requires Opens(db, t, d) && Becomes(db, t, after, news, d, d') && Effect(cfg, db, t, after, news)
    requires Traced(d, OrderOf(t)) && Justified(d) && Safe(d)
    ensures forall x :: x in d'.tasks && x.Announcing? ==> d'.order.Some? && d'.order.value.status == x.status
  {
    if Terminal(d.order.value.status) {
      TerminalStep(cfg, db, t, after, news, d, d');
    }
    forall x | x in d'.tasks && x.Announcing?
      ensures d'.order.Some? && d'.order.value.status == x.status
    {
      if x in d.tasks {
        assert Genuine(x, OrderOf(t), d.order.value);
      } else {
        assert Follows(db, t, after, x);
      }
    }
  }

  lemma SafeStep(cfg: Config, db: Tables, t: Task, after: Tables, news: seq<Task>, d: Dossier, d': Dossier)
    requires Once(cfg)
    requires Opens(db, t, d) && Becomes(db, t, after, news, d, d') && Effect(cfg, db, t, after, news)
    requires Traced(d, OrderOf(t)) && Justified(d) && Safe(d)
    ensures Safe(d')
  {
    DoomedStep(cfg, db, t, after, news, d, d');
    AnnouncementsAgree(cfg, db, t, after, news, d, d');
    if Terminal(d.order.value.status) {
      TerminalStep(cfg, db, t, after, news, d, d');
    }
  }
}
