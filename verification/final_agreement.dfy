/** Once a run without failures is drained, order, reservation, payment and stock say the same. */
module FinalAgreement {
  import opened Domain
  import opened Inventory
  import opened Ordering
  import opened Payments
  import opened Saga
  import opened Dossiers
  import opened Effects
  import opened Safety
  import opened StockLaws
  import opened Invariants
  import opened Guarantees
  import opened Agreement

  /**
   * Actions of a run in which nothing fails. Payment results may still be delivered more than once, and the
   * relay may join again, but not without an offset while rows are unread.
   */
  predicate Smooth(s: Sys, a: Action) {
    match a
    case AddProduct(_, _) => true
    case PlaceOrder(_, _, _) => true
    case RelayJoin => s.relay.committed.Some? || s.relay.position == |s.db.outbox|
    case Run(i, c) => i < |s.tasks| ==> Works(s.tasks[i], c) || (s.tasks[i].Result? && c == Copy)
    case _ => true
  }

  predicate SmoothRun(cfg: Config, s: Sys, run: seq<Action>)
    decreases |run|
  {
    run != [] ==> Smooth(s, run[0]) && SmoothRun(cfg, Apply(cfg, s, run[0]), run[1..])
  }

  /** Left behind by a caller that has given up or a handler that has died. */
  predicate Straggles(t: Task) {
    t.Late? || (t.Charging? && t.place.Returned?)
  }

  /** Tasks that will give their order a terminal status. */
  predicate Owes(t: Task) {
    !t.Announcing? && !Straggles(t)
  }

  /** Tasks that will confirm or release their order's reservation. */
  predicate Holds(t: Task) {
    match t
    case Confirming(_, call) => call == Sent
    case Releasing(_, call) => call == Sent
    case Late(_) => false
    case _ => Granted(t)
  }

  /** Tasks that only exist once nothing is reserved for their order, or nothing any more. */
  predicate Freed(t: Task) {
    match t
    case Reserving(_, Replied(reply)) => !reply.success
    case Releasing(_, call) => call.Replied?
    case Marking(_, status) => status == Cancelled
    case Announcing(_, status) => status == Cancelled
    case _ => false
  }

  predicate Holding(reservation: Option<Reservation>) {
    reservation.Some? && reservation.value.status == Reserved
  }

  /** The answer to confirm and release when the reservation is there. */
  predicate Assured(t: Task) {
    (t.Confirming? || t.Releasing?) && t.call.Replied? ==> t.call.reply == Reply(true, NoReason)
  }

  /** Somebody is still responsible for everything that is not final. */
  predicate Driven(d: Dossier) {
    && (d.order.Some? && !Terminal(d.order.value.status) ==> d.queued > 0 || exists t :: t in d.tasks && Owes(t))
    && (Holding(d.reservation) ==> exists t :: t in d.tasks && Holds(t))
    && (forall t :: t in d.tasks ==> Assured(t))
    && (forall t :: t in d.tasks && Freed(t) ==> !Holding(d.reservation))
    && (d.order.Some? && d.order.value.status == Cancelled ==> !Holding(d.reservation))
  }

  predicate WorksOrCopies(t: Task, c: Choice) {
    Works(t, c) || (t.Result? && c == Copy)
  }

  /** Responsibility is passed on until it is met. */
  predicate PassedOn(db: Tables, t: Task, after: Tables, news: seq<Task>) {
    var o := OrderOf(t);
    && (Owes(t) ==>
          || (exists x :: x in news && Owes(x))
          || (t.Marking? && (o in db.orders ==> o in after.orders && after.orders[o].status == t.status)))
    && (Holds(t) || (o !in db.store.reservations && o in after.store.reservations) ==>
          || (exists x :: x in news && Holds(x))
          || !Holding(Get(after.store.reservations, o)))
    && (forall x :: x in news ==> Assured(x))
    && (forall x :: x in news && Freed(x) ==> Freed(t) || !Holding(Get(after.store.reservations, o)))
  }

  lemma StartSagaPassesOn(db: Tables, t: Task)
    requires t.Created? || t.Reserving? || t.MarkingReserved? || t.Requesting?
    requires t.Reserving? && t.event.order in db.store.reservations ==>
      db.store.reservations[t.event.order].status != Released
    ensures PassedOn(db, t, StartSaga(db, t, Proceed).0, StartSaga(db, t, Proceed).1)
  {
    var (after, news) := StartSaga(db, t, Proceed);
    assert news[0] in news && Owes(news[0]);
    assert Holds(t) ==> Holds(news[0]);
    if t.Reserving? && t.call == Sent {
      ReserveWrites(db.store, t.event.order, Goods(t.event.items));
      assert t.event.order !in db.store.reservations && t.event.order in after.store.reservations ==> Holds(news[0]);
    }
  }

  lemma PayPassesOn(cfg: Config, db: Tables, t: Task, c: Choice)
    requires t.Charging? || t.Reporting?
    requires Works(t, c) && (t.Charging? ==> !HasRow(db.payments, t.request.order))
    ensures PassedOn(db, t, Pay(cfg, db, t, c).0, Pay(cfg, db, t, c).1)
  {
    var news := Pay(cfg, db, t, c).1;
    assert news[0] in news && Owes(news[0]) && Holds(news[0]);
  }

  lemma ConcludePassesOn(db: Tables, t: Task)
    requires t.Result? || t.Confirming? || t.Releasing?
    requires t.order in db.store.reservations && Assured(t)
    ensures PassedOn(db, t, Conclude(db, t, Proceed).0, Conclude(db, t, Proceed).1)
  {
    var news := Conclude(db, t, Proceed).1;
    assert news[0] in news && Owes(news[0]);
    assert t.Result? ==> Holds(news[0]);
  }

  /** What a task can rely on when nothing fails. */
  predicate Ready(db: Tables, t: Task) {
    && !Straggles(t)
    && (t.Charging? ==> !HasRow(db.payments, t.request.order))
    && (t.Result? || t.Confirming? || t.Releasing? ==> t.order in db.store.reservations)
    && (t.Reserving? && t.event.order in db.store.reservations ==>
          db.store.reservations[t.event.order].status != Released)
    && Assured(t)
  }

  lemma AdvancePassesOn(cfg: Config, db: Tables, t: Task, c: Choice)
    requires WorksOrCopies(t, c) && Ready(db, t)
    ensures PassedOn(db, t, Advance(cfg, db, t, c).0, Advance(cfg, db, t, c).1)
  {
    if c == Copy {
      assert t in Advance(cfg, db, t, c).1;
    } else {
      match t {
        case Created(_) => StartSagaPassesOn(db, t);
        case Reserving(_, _) => StartSagaPassesOn(db, t);
        case MarkingReserved(_) => StartSagaPassesOn(db, t);
        case Requesting(_) => StartSagaPassesOn(db, t);
        case Charging(_, _) => PayPassesOn(cfg, db, t, c);
        case Reporting(_, _, _) => PayPassesOn(cfg, db, t, c);
        case Result(_, _) => ConcludePassesOn(db, t);
        case Confirming(_, _) => ConcludePassesOn(db, t);
        case Releasing(_, _) => ConcludePassesOn(db, t);
        case _ =>
      }
    }
  }

  /** While the reserve call is out, nothing of the order has been freed. */
  lemma NothingFreedYet(db: Tables, t: Task, d: Dossier)
    requires Opens(db, t, d) && Safe(d) && t.Reserving? && t.call == Sent
    ensures forall x :: x in d.tasks ==> !Freed(x)
  {
    forall x | x in d.tasks ensures !Freed(x) {
      if x.Reserving? {
        assert x != t ==> d.claims >= 2;
      } else {
        assert Freed(x) ==> Losing(x);
        assert IsClaim(t);
      }
    }
  }

  lemma DrivenStep(db: Tables, t: Task, after: Tables, news: seq<Task>, d: Dossier, d': Dossier)
    requires Opens(db, t, d) && Becomes(db, t, after, news, d, d') && PassedOn(db, t, after, news)
    requires OrderWritten(db, t, after) && ReservationWritten(db, t, after) && !Straggles(t)
    requires Traced(d, OrderOf(t)) && Safe(d) && Driven(d)
    requires d.order.Some? && Terminal(d.order.value.status) ==> d'.order == d.order
    ensures Driven(d')
  {
    if d'.order.Some? && !Terminal(d'.order.value.status) && d'.queued == 0 {
      var x :| x in d.tasks && Owes(x);
      if x == t {
        if t.Marking? {
          assert Genuine(t, OrderOf(t), d.order.value);
        }
        var y :| y in news && Owes(y);
        assert y in d'.tasks && Owes(y);
      } else {
        assert x in d'.tasks && Owes(x);
      }
    }
    if Holding(d'.reservation) {
      StillHeld(db, t, after, news, d, d');
    }
  }

  lemma StillHeld(db: Tables, t: Task, after: Tables, news: seq<Task>, d: Dossier, d': Dossier)
    requires Opens(db, t, d) && Becomes(db, t, after, news, d, d') && PassedOn(db, t, after, news)
    requires OrderWritten(db, t, after) && ReservationWritten(db, t, after) && !Straggles(t)
    requires Safe(d) && Driven(d) && Holding(d'.reservation)
    ensures exists x :: x in d'.tasks && Holds(x)
    ensures forall x :: x in d'.tasks ==> !Freed(x)
    ensures d'.order.Some? ==> d'.order.value.status != Cancelled
  {
    if Holding(d.reservation) {
      var x :| x in d.tasks && Holds(x);
      if x == t {
        var y :| y in news && Holds(y);
        assert y in d'.tasks && Holds(y);
      } else {
        assert x in d'.tasks && Holds(x);
      }
    } else {
      var y :| y in news && Holds(y);
      assert y in d'.tasks && Holds(y);
      assert IsClaim(t);
      NothingFreedYet(db, t, d);
    }
  }

  function DrivenDossier(): (Dossier, OrderId) -> bool {
    (d, o) => Traced(d, o) && Justified(d) && Safe(d) && Driven(d)
  }

  predicate NoStragglers(s: Sys) {
    forall i :: 0 <= i < |s.tasks| ==> !Straggles(s.tasks[i])
  }

  ghost predicate OnCourse(seed: Stock, s: Sys) {
    Ledger(s) && Conserved(seed, s.db.store) && Everywhere(s, DrivenDossier()) && NoStragglers(s)
  }

  lemma OnCourseIsExclusive(seed: Stock, s: Sys)
    requires OnCourse(seed, s)
    ensures Exclusive(seed, s)
  {
    forall o ensures SafeDossier()(View(s, o), o) {
      assert DrivenDossier()(View(s, o), o);
    }
  }

  lemma AdvanceLeavesNoStragglers(cfg: Config, db: Tables, t: Task, c: Choice)
    requires WorksOrCopies(t, c) && !Straggles(t)
    ensures forall x :: x in Advance(cfg, db, t, c).1 ==> !Straggles(x)
  {
  }

  lemma SmoothTask(cfg: Config, s: Sys, i: nat, c: Choice, o: OrderId, s': Sys)
    requires Once(cfg) && i < |s.tasks| && o == OrderOf(s.tasks[i]) && s' == Apply(cfg, s, Run(i, c))
    requires WorksOrCopies(s.tasks[i], c) && !Straggles(s.tasks[i])
    requires DrivenDossier()(View(s, o), o)
    ensures DrivenDossier()(View(s', o), o)
  {
    var (after, news) := Advance(cfg, s.db, s.tasks[i], c);
    SafeTask(cfg, s, i, c, o, s');
    ViewOpens(s, i);
    AdvanceEffect(cfg, s.db, s.tasks[i], c);
    RunView(cfg, s, i, c);
    TaskIsReady(s.db, s.tasks[i], View(s, o));
    AdvancePassesOn(cfg, s.db, s.tasks[i], c);
    if Terminal(View(s, o).order.value.status) {
      TerminalStep(cfg, s.db, s.tasks[i], after, news, View(s, o), View(s', o));
    }
    DrivenStep(s.db, s.tasks[i], after, news, View(s, o), View(s', o));
  }

  /** A charge in motion has no row yet, and a payment result has a reservation to act on. */
  lemma TaskIsReady(db: Tables, t: Task, d: Dossier)
    requires Opens(db, t, d) && Traced(d, OrderOf(t)) && Safe(d) && Driven(d) && !Straggles(t)
    ensures d.order.Some? && Ready(db, t)
  {
    assert t.Result? || t.Confirming? || t.Releasing? ==> Granted(t);
    assert IsClaim(t) ==> !Doomed(d);
  }

  lemma SmoothRunStep(seed: Stock, cfg: Config, s: Sys, i: nat, c: Choice)
    requires Once(cfg) && OnCourse(seed, s) && i < |s.tasks| && WorksOrCopies(s.tasks[i], c)
    ensures Everywhere(Apply(cfg, s, Run(i, c)), DrivenDossier())
  {
    var (s', o) := (Apply(cfg, s, Run(i, c)), OrderOf(s.tasks[i]));
    assert DrivenDossier()(View(s, o), o);
    SmoothTask(cfg, s, i, c, o, s');
    RunView(cfg, s, i, c);
    Elsewhere(s, s', o, DrivenDossier());
  }

  lemma NobodyStraggles(cfg: Config, s: Sys, a: Action)
    requires NoStragglers(s) && Smooth(s, a)
    ensures NoStragglers(Apply(cfg, s, a))
  {
    if a.Run? && a.index < |s.tasks| {
      var news := Advance(cfg, s.db, s.tasks[a.index], a.choice).1;
      AdvanceLeavesNoStragglers(cfg, s.db, s.tasks[a.index], a.choice);
      assert forall k :: 0 <= k < |news| ==> news[k] in news;
    }
  }

  lemma PlacedIsDriven(d: Dossier, o: OrderId, order: Order)
    requires DrivenDossier()(d, o) && d.order.None? && order.status == Pending
    ensures DrivenDossier()(d.(order := Some(order), queued := d.queued + 1), o)
  {
    OpenedDossier(d, o, order);
  }

  lemma RelayedIsDriven(d: Dossier, e: OrderCreated)
    requires DrivenDossier()(d, e.order) && d.queued >= 1 && d.order.Some? && e == EventOf(e.order, d.order.value)
    ensures DrivenDossier()(
              d.(queued := d.queued - 1, claims := d.claims + 1, tasks := d.tasks + {Created(e)}), e.order)
  {
    var d' := d.(queued := d.queued - 1, claims := d.claims + 1, tasks := d.tasks + {Created(e)});
    RelayedDossier(d, e);
    assert Created(e) in d'.tasks && Owes(Created(e));
    if d.reservation.Some? && d.reservation.value.status == Reserved {
      var t :| t in d.tasks && Holds(t);
      assert t in d'.tasks && Holds(t);
    }
  }

  lemma SmoothRelay(cfg: Config, s: Sys, e: OrderCreated)
    requires Everywhere(s, DrivenDossier())
    requires s.relay.joined && s.relay.position < |s.db.outbox| && e == s.db.outbox[s.relay.position]
    requires e.order in s.db.orders && e == EventOf(e.order, s.db.orders[e.order])
    ensures Everywhere(Apply(cfg, s, RelayNext), DrivenDossier())
  {
    var d := View(s, e.order);
    RelayView(cfg, s);
    assert DrivenDossier()(d, e.order);
    assert d.order == Some(s.db.orders[e.order]);
    RelayedIsDriven(d, e);
    Elsewhere(s, Apply(cfg, s, RelayNext), e.order, DrivenDossier());
  }

  lemma SmoothPlace(seed: Stock, cfg: Config, s: Sys, o: OrderId, customer: CustomerId, items: seq<Item>)
    requires OnCourse(seed, s)
    ensures Everywhere(Apply(cfg, s, PlaceOrder(o, customer, items)), DrivenDossier())
  {
    var s' := Apply(cfg, s, PlaceOrder(o, customer, items));
    if s' != s {
      PlaceView(cfg, s, o, customer, items);
      assert DrivenDossier()(View(s, o), o);
      PlacedIsDriven(View(s, o), o, s'.db.orders[o]);
      Elsewhere(s, s', o, DrivenDossier());
    }
  }

  lemma SmoothQuiet(seed: Stock, cfg: Config, s: Sys, a: Action)
    requires Once(cfg) && OnCourse(seed, s) && Smooth(s, a) && (a.AddProduct? || a.RelayJoin? || a.RelayCommit?)
    ensures Everywhere(Apply(cfg, s, a), DrivenDossier())
  {
    forall o ensures DrivenDossier()(View(Apply(cfg, s, a), o), o) {
      assert View(Apply(cfg, s, a), o) == View(s, o);
      assert DrivenDossier()(View(s, o), o);
    }
  }

  lemma SmoothStep(seed: Stock, cfg: Config, s: Sys, a: Action)
    requires Once(cfg) && OnCourse(seed, s) && Smooth(s, a)
    ensures OnCourse(seed, Apply(cfg, s, a))
  {
    OnCourseIsExclusive(seed, s);
    ExclusiveStep(seed, cfg, s, a);
    NobodyStraggles(cfg, s, a);
    match a {
      case Run(i, c) => if i < |s.tasks| { SmoothRunStep(seed, cfg, s, i, c); }
      case PlaceOrder(o, customer, items) => SmoothPlace(seed, cfg, s, o, customer, items);
      case RelayNext =>
        if s.relay.joined && s.relay.position < |s.db.outbox| {
          SmoothRelay(cfg, s, s.db.outbox[s.relay.position]);
        }
      case _ => SmoothQuiet(seed, cfg, s, a);
    }
  }

  lemma InitIsOnCourse(seed: Stock)
    requires IsSeed(seed)
    ensures OnCourse(seed, Init(seed))
  {
    InitIsExclusive(seed);
    forall o ensures DrivenDossier()(View(Init(seed), o), o) {
      assert SafeDossier()(View(Init(seed), o), o);
    }
  }

  lemma {:induction false} SmoothRunsStayOnCourse(seed: Stock, cfg: Config, s: Sys, run: seq<Action>)
    requires Once(cfg) && OnCourse(seed, s) && SmoothRun(cfg, s, run)
    ensures OnCourse(seed, Exec(cfg, s, run))
    decreases |run|
  {
    if run != [] {
      SmoothStep(seed, cfg, s, run[0]);
      SmoothRunsStayOnCourse(seed, cfg, Apply(cfg, s, run[0]), run[1..]);
    }
  }

  /** Both services agree on order o, and nothing of it is left undecided. */
  predicate Settles(db: Tables, o: OrderId)
    requires o in db.orders
  {
    if db.orders[o].status == Completed then ReservationIs(db, o, Confirmed) && IsCharged(db, o)
    else
      && db.orders[o].status == Cancelled
      && (o in db.store.reservations ==> ReservationIs(db, o, Released))
      && !IsCharged(db, o)
  }

  /** The quantity of p in all COMPLETED orders. */
  ghost function Sold(orders: map<OrderId, Order>, p: ProductId): int
    decreases |orders|
  {
    if orders == map[] then 0
    else
      var o :| o in orders;
      (if orders[o].status == Completed then Demand(Goods(orders[o].items), p) else 0) + Sold(orders - {o}, p)
  }

  lemma {:induction false} SoldIsHeld(orders: map<OrderId, Order>, rs: map<OrderId, Reservation>, p: ProductId)
    requires forall o :: (o in orders && orders[o].status == Completed) <==> (o in rs && rs[o].status == Confirmed)
    requires forall o :: o in orders && o in rs ==> rs[o].items == Goods(orders[o].items)
    ensures Sold(orders, p) == Held(rs, Confirmed, p)
    decreases |orders|
  {
    if orders == map[] {
      NoneHeld(rs, Confirmed, p);
    } else {
      var o :| o in orders && Sold(orders, p)
        == (if orders[o].status == Completed then Demand(Goods(orders[o].items), p) else 0) + Sold(orders - {o}, p);
      SoldIsHeld(orders - {o}, rs - {o}, p);
      if o in rs {
        HeldWithout(rs, o, Confirmed, p);
      } else {
        assert rs - {o} == rs;
      }
    }
  }

  lemma {:induction false} NoneHeld(rs: map<OrderId, Reservation>, status: ReservationStatus, p: ProductId)
    requires forall o :: o in rs ==> rs[o].status != status
    ensures Held(rs, status, p) == 0
    decreases |rs|
  {
    if rs != map[] {
      var o :| o in rs;
      HeldWithout(rs, o, status, p);
      NoneHeld(rs - {o}, status, p);
    }
  }

  lemma DrainedSettles(seed: Stock, s: Sys, o: OrderId)
    requires OnCourse(seed, s) && Drained(s) && o in s.db.orders
    ensures Settles(s.db, o)
  {
    var d := View(s, o);
    assert DrivenDossier()(d, o);
    assert s.db.outbox[s.relay.position..] == [];
    assert d.queued == 0 && d.tasks == {};
    IsChargedMeansPaid(s, o);
  }

  /**
   * A run without failures, once drained: every order is COMPLETED with confirmed goods and a charge, or
   * CANCELLED with neither; nothing is reserved, and what is gone from the stock is what was sold.
   */
  lemma AllServicesAgree(seed: Stock, cfg: Config, run: seq<Action>)
    requires IsSeed(seed) && Once(cfg) && SmoothRun(cfg, Init(seed), run) && Drained(Exec(cfg, Init(seed), run))
    ensures var db := Exec(cfg, Init(seed), run).db;
            && (forall o :: o in db.orders ==> Settles(db, o))
            && forall p :: Effective(db.store.stock, p) == Counters(Seeded(seed, p) - Sold(db.orders, p), 0)
  {
    var s := Exec(cfg, Init(seed), run);
    InitIsOnCourse(seed);
    SmoothRunsStayOnCourse(seed, cfg, Init(seed), run);
    forall o | o in s.db.orders ensures Settles(s.db, o) {
      DrainedSettles(seed, s, o);
    }
    var (orders, rs) := (s.db.orders, s.db.store.reservations);
    forall o | o in rs
      ensures o in orders && rs[o].items == Goods(orders[o].items) && rs[o].status != Reserved
    {
      assert DrivenDossier()(View(s, o), o);
    }
    forall p ensures Effective(s.db.store.stock, p) == Counters(Seeded(seed, p) - Sold(orders, p), 0) {
      NoneHeld(rs, Reserved, p);
      SoldIsHeld(orders, rs, p);
    }
  }

  /**
   * From any reachable state the work that is left comes to an end, after at most six more steps for each
   * transient failure if the count starts afresh, and it ends only when everything is drained.
   */
  lemma EveryRunDrains(seed: Stock, cfg: Config, run: seq<Action>, work: seq<Action>)
    requires IsSeed(seed) && WorkingRun(cfg, Exec(cfg, Init(seed), run), work)
    ensures var s := Exec(cfg, Init(seed), run);
            var end := Exec(cfg, s, work);
            && |work| <= Measure(cfg.headers, s) + Setback(cfg.headers, TransientRolls(work))
            && (end.relay.joined ==> (Drained(end) <==> forall a :: !AtWork(end, a)))
  {
    var s := Exec(cfg, Init(seed), run);
    ReachedStatesHold(seed, cfg, run);
    ReachedIsShaped(cfg, Init(seed), run);
    WorkingRunsEnd(cfg, s, work);
    RunIsSound(seed, cfg, s, work);
    if Exec(cfg, s, work).relay.joined {
      WorkStopsWhenDrained(Exec(cfg, s, work));
    }
  }

  lemma {:induction false} ReachedIsShaped(cfg: Config, s: Sys, run: seq<Action>)
    requires AllShaped(s)
    ensures AllShaped(Exec(cfg, s, run))
    decreases |run|
  {
    if run != [] {
      StepKeepsShape(cfg, s, run[0]);
      ReachedIsShaped(cfg, Apply(cfg, s, run[0]), run[1..]);
    }
  }
}
