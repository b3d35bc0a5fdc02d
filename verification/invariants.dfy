/** Invariants of the whole system, kept by every step of every run. */
module Invariants {
  import opened Domain
  import opened Inventory
  import opened Ordering
  import opened Payments
  import opened OutboxRelay
  import opened Saga
  import opened Dossiers
  import opened Effects
  import opened Safety
  import opened StockLaws

  /** The order is priced from the catalog, and its total is the sum of its lines. */
  predicate Quoted(catalog: Catalog.Prices, order: Order) {
    && order.total == Total(order.items)
    && forall i :: 0 <= i < |order.items| ==>
         order.items[i].product in catalog && order.items[i].price == catalog[order.items[i].product]
  }

  /** Orders and outbox rows are in bijection and agree. */
  predicate Matched(orders: map<OrderId, Order>, outbox: seq<OrderCreated>) {
    && (forall k :: 0 <= k < |outbox| ==>
          outbox[k].order in orders && outbox[k] == EventOf(outbox[k].order, orders[outbox[k].order]))
    && (forall j, k :: 0 <= j < k < |outbox| ==> outbox[j].order != outbox[k].order)
    && (forall o :: o in orders ==> exists k :: 0 <= k < |outbox| && outbox[k].order == o)
  }

  /** Orders and outbox agree, prices are the catalog's, and from its start on the relay skips no row. */
  predicate Ledger(s: Sys) {
    var (orders, outbox, relay) := (s.db.orders, s.db.outbox, s.relay);
    && relay.start <= relay.position <= |outbox|
    && (relay.committed.Some? ==> relay.start < relay.committed.value <= relay.position)
    && (!relay.joined ==> relay.position == 0 && relay.published == [])
    && Matched(orders, outbox)
    && (forall k :: relay.start <= k < relay.position ==> outbox[k] in relay.published)
    && (forall e :: e in relay.published ==> exists k :: 0 <= k < |outbox| && outbox[k] == e)
    && (forall o :: o in orders ==> Quoted(s.db.catalog, orders[o]))
  }

  /** A property of every dossier in s. */
  ghost predicate Everywhere(s: Sys, good: (Dossier, OrderId) -> bool) {
    forall o :: good(View(s, o), o)
  }

  function SoundDossier(): (Dossier, OrderId) -> bool {
    (d, o) => Traced(d, o) && Justified(d)
  }

  function SafeDossier(): (Dossier, OrderId) -> bool {
    (d, o) => Traced(d, o) && Justified(d) && Safe(d)
  }

  /** What holds under every fault, repeated deliveries of any kind included. */
  ghost predicate Sound(seed: Stock, s: Sys) {
    Ledger(s) && Backed(seed, s.db.store) && Everywhere(s, SoundDossier())
  }

  /** What holds when order.created and payment.requested are each handled once. */
  ghost predicate Exclusive(seed: Stock, s: Sys) {
    Ledger(s) && Conserved(seed, s.db.store) && Everywhere(s, SafeDossier())
  }

  /** The inventory request that t is about to have executed. */
  function RpcOf(t: Task): Option<Request> {
    match t
    case Reserving(e, Sent) => Some(ReserveRequest(e.order, Goods(e.items)))
    case Confirming(o, Sent) => Some(ConfirmRequest(o))
    case Releasing(o, Sent) => Some(ReleaseRequest(o))
    case Late(rpc) => Some(rpc)
    case _ => None
  }

  lemma AdvanceServes(cfg: Config, db: Tables, t: Task, c: Choice)
    ensures var after := Advance(cfg, db, t, c).0;
            after.store == db.store || (RpcOf(t).Some? && after.store == Serve(db.store, RpcOf(t).value).0)
  {
  }

  lemma ViewOpens(s: Sys, i: nat)
    requires i < |s.tasks|
    ensures Opens(s.db, s.tasks[i], View(s, OrderOf(s.tasks[i])))
  {
    var o := OrderOf(s.tasks[i]);
    ViewIsLinked(s, o);
    CountWitness(s.db.payments, RowFor(o));
    assert (exists k :: 0 <= k < |s.db.payments| && RowFor(o)(s.db.payments[k])) <==> HasRow(s.db.payments, o);
  }

  lemma LedgerRun(s: Sys, s': Sys, t: Task)
    requires Ledger(s) && s'.relay == s.relay && s'.db.outbox == s.db.outbox && s'.db.catalog == s.db.catalog
    requires OrderWritten(s.db, t, s'.db)
    requires forall o :: o != OrderOf(t) ==> Get(s'.db.orders, o) == Get(s.db.orders, o)
    ensures Ledger(s')
  {
    forall o
      ensures o in s'.db.orders <==> o in s.db.orders
      ensures o in s'.db.orders ==> s'.db.orders[o].(status := Pending) == s.db.orders[o].(status := Pending)
    {
      assert Get(s'.db.orders, o) == Get(s.db.orders, o) || o == OrderOf(t);
    }
    forall o | o in s'.db.orders
      ensures Quoted(s'.db.catalog, s'.db.orders[o])
      ensures EventOf(o, s'.db.orders[o]) == EventOf(o, s.db.orders[o])
    {
      assert Quoted(s.db.catalog, s.db.orders[o]);
      assert s'.db.orders[o].(status := Pending) == s.db.orders[o].(status := Pending);
    }
  }

  lemma LedgerPlace(cfg: Config, s: Sys, o: OrderId, customer: CustomerId, items: seq<Item>)
    requires Ledger(s)
    ensures Ledger(Apply(cfg, s, PlaceOrder(o, customer, items)))
  {
    var s' := Apply(cfg, s, PlaceOrder(o, customer, items));
    if s' != s {
      PricingIsDirectLookUp(s.db.catalog, items);
      LedgerGrows(s, s', o, s'.db.orders[o]);
    }
  }

  lemma LedgerGrows(s: Sys, s': Sys, o: OrderId, order: Order)
    requires Ledger(s) && o !in s.db.orders && Quoted(s.db.catalog, order)
    requires s'.relay == s.relay && s'.db.catalog == s.db.catalog
    requires s'.db.orders == s.db.orders[o := order] && s'.db.outbox == s.db.outbox + [EventOf(o, order)]
    ensures Ledger(s')
  {
    OutboxGrows(s.db.orders, s.db.outbox, o, order);
    forall e | e in s'.relay.published
      ensures exists k :: 0 <= k < |s'.db.outbox| && s'.db.outbox[k] == e
    {
      var k :| 0 <= k < |s.db.outbox| && s.db.outbox[k] == e;
      assert s'.db.outbox[k] == e;
    }
  }

  lemma OutboxGrows(orders: map<OrderId, Order>, outbox: seq<OrderCreated>, o: OrderId, order: Order)
    requires Matched(orders, outbox) && o !in orders
    ensures Matched(orders[o := order], outbox + [EventOf(o, order)])
  {
    var (n, outbox', orders') := (|outbox|, outbox + [EventOf(o, order)], orders[o := order]);
    forall k | 0 <= k <= n
      ensures outbox'[k].order in orders' && outbox'[k] == EventOf(outbox'[k].order, orders'[outbox'[k].order])
      ensures outbox'[k].order == o <==> k == n
    {
      if k < n {
        assert outbox'[k] == outbox[k] && outbox[k].order in orders;
      }
    }
    forall o' | o' in orders' ensures exists k :: 0 <= k <= n && outbox'[k].order == o' {
      if o' != o {
        var k :| 0 <= k < n && outbox[k].order == o';
        assert outbox'[k].order == o';
      } else {
        assert outbox'[n].order == o;
      }
    }
  }

  lemma LedgerRelay(s: Sys, s': Sys)
    requires Ledger(s) && s.relay.joined && s.relay.position < |s.db.outbox| && s'.db == s.db
    requires s'.relay == Passed(s.relay, Some(s.db.outbox[s.relay.position]))
    ensures Ledger(s')
  {
    var (p, published) := (s.relay.position, s'.relay.published);
    assert published[|s.relay.published|] == s.db.outbox[p];
    forall e | e in published ensures exists k :: 0 <= k < |s'.db.outbox| && s'.db.outbox[k] == e {
      assert e in s.relay.published || e == s.db.outbox[p];
    }
    forall k | s.relay.start <= k < p + 1 ensures s.db.outbox[k] in published {
      assert k < p ==> s.db.outbox[k] in s.relay.published;
    }
  }

  lemma LedgerQuiet(s: Sys, s': Sys)
    requires Ledger(s) && s'.db.orders == s.db.orders && s'.db.outbox == s.db.outbox
    requires forall p :: p in s.db.catalog ==> p in s'.db.catalog && s'.db.catalog[p] == s.db.catalog[p]
    requires s'.relay in [s.relay, Connected(s.relay, |s.db.outbox|), CommittedHere(s.relay)]
    ensures Ledger(s')
  {
    forall o | o in s.db.orders ensures Quoted(s'.db.catalog, s.db.orders[o]) {
      assert Quoted(s.db.catalog, s.db.orders[o]);
    }
  }

  lemma LedgerTask(cfg: Config, s: Sys, i: nat, c: Choice)
    requires Ledger(s) && i < |s.tasks|
    ensures Ledger(Apply(cfg, s, Run(i, c)))
  {
    RunReplaces(cfg, s, i, c);
    AdvanceIsLocal(cfg, s.db, s.tasks[i], c);
    AdvanceEffect(cfg, s.db, s.tasks[i], c);
    LedgerRun(s, Apply(cfg, s, Run(i, c)), s.tasks[i]);
  }

  lemma LedgerStep(cfg: Config, s: Sys, a: Action)
    requires Ledger(s)
    ensures Ledger(Apply(cfg, s, a))
  {
    var s' := Apply(cfg, s, a);
    match a {
      case Run(i, c) => if i < |s.tasks| { LedgerTask(cfg, s, i, c); }
      case PlaceOrder(o, customer, items) => LedgerPlace(cfg, s, o, customer, items);
      case RelayNext =>
        if s.relay.joined && s.relay.position < |s.db.outbox| {
          LedgerRelay(s, s');
        }
      case _ => LedgerQuiet(s, s');
    }
  }

  lemma QueuedIsKnown(s: Sys, o: OrderId)
    requires Matched(s.db.orders, s.db.outbox) && s.relay.position <= |s.db.outbox| && o !in s.db.orders
    ensures Queued(s, o) == 0
  {
    var rest := s.db.outbox[s.relay.position..];
    CountWitness(rest, EventFor(o));
    forall i | 0 <= i < |rest| ensures !EventFor(o)(rest[i]) {
      assert rest[i] == s.db.outbox[s.relay.position + i];
    }
  }

  /** Joining, committing and new products touch nothing of a dossier but the queued rows. */
  lemma QuietStep(cfg: Config, s: Sys, a: Action, o: OrderId)
    requires Ledger(s) && (a.AddProduct? || a.RelayJoin? || a.RelayCommit?)
    ensures var d' := View(Apply(cfg, s, a), o);
            && d' == View(s, o).(queued := d'.queued)
            && (o !in s.db.orders ==> d'.queued == View(s, o).queued == 0)
            && (!cfg.repeatCreated ==> d'.queued <= View(s, o).queued)
  {
    RequeuedView(s, Apply(cfg, s, a), o);
    if a.RelayJoin? && s.relay.committed.None? {
      assert s.db.outbox[|s.db.outbox|..] == [];
    }
  }

  /** Products and the relay's position touch nothing of a dossier but the queued rows. */
  lemma RequeuedView(s: Sys, s': Sys, o: OrderId)
    requires Matched(s.db.orders, s.db.outbox) && s.relay.position <= |s.db.outbox|
    requires s'.db == s.db.(catalog := s'.db.catalog) && s'.tasks == s.tasks && s'.relay.position <= |s.db.outbox|
    ensures View(s', o) == View(s, o).(queued := Queued(s', o))
    ensures o !in s.db.orders ==> Queued(s', o) == Queued(s, o) == 0
  {
    if o !in s.db.orders {
      QueuedIsKnown(s, o);
      QueuedIsKnown(s', o);
    }
  }

  /** Only the order at hand has to be looked at again. */
  lemma Elsewhere(s: Sys, s': Sys, o: OrderId, good: (Dossier, OrderId) -> bool)
    requires Everywhere(s, good) && good(View(s', o), o)
    requires forall o' :: o' != o ==> View(s', o') == View(s, o')
    ensures Everywhere(s', good)
  {
    forall o' ensures good(View(s', o'), o') {
      assert good(View(s, o'), o');
    }
  }

  lemma SoundTask(cfg: Config, s: Sys, i: nat, c: Choice, o: OrderId, s': Sys)
    requires i < |s.tasks| && o == OrderOf(s.tasks[i]) && s' == Apply(cfg, s, Run(i, c))
    requires SoundDossier()(View(s, o), o)
    ensures SoundDossier()(View(s', o), o)
  {
    var (after, news) := Advance(cfg, s.db, s.tasks[i], c);
    ViewOpens(s, i);
    AdvanceEffect(cfg, s.db, s.tasks[i], c);
    RunView(cfg, s, i, c);
    TracedStep(cfg, s.db, s.tasks[i], after, news, View(s, o), View(s', o));
    JustifiedStep(cfg, s.db, s.tasks[i], after, news, View(s, o), View(s', o));
  }

  lemma SafeTask(cfg: Config, s: Sys, i: nat, c: Choice, o: OrderId, s': Sys)
    requires Once(cfg)
    requires i < |s.tasks| && o == OrderOf(s.tasks[i]) && s' == Apply(cfg, s, Run(i, c))
    requires SafeDossier()(View(s, o), o)
    ensures SafeDossier()(View(s', o), o)
  {
    var (after, news) := Advance(cfg, s.db, s.tasks[i], c);
    SoundTask(cfg, s, i, c, o, s');
    ViewOpens(s, i);
    AdvanceEffect(cfg, s.db, s.tasks[i], c);
    RunView(cfg, s, i, c);
    SafeStep(cfg, s.db, s.tasks[i], after, news, View(s, o), View(s', o));
  }

  /** The steps that are not a task's change a dossier so little that soundness and safety carry over. */
  lemma OpenedDossier(d: Dossier, o: OrderId, order: Order)
    requires Traced(d, o) && d.order.None? && order.status == Pending
    ensures SafeDossier()(d.(order := Some(order), queued := d.queued + 1), o)
  {
    FreshDossier(Some(order), 1, o);
  }

  /** A dossier with at most a pending order and its queued row. */
  lemma FreshDossier(order: Option<Order>, queued: nat, o: OrderId)
    requires queued <= 1 && (order.None? ==> queued == 0) && (order.Some? ==> order.value.status == Pending)
    ensures SafeDossier()(Dossier(order, None, queued, 0, 0, 0, 0, {}, {}, {}), o)
  {
    var d := Dossier(order, None, queued, 0, 0, 0, 0, {}, {}, {});
    assert !HasConfirmed(d);
    assert Traced(d, o);
    assert Justified(d);
    assert Safe(d);
  }

  lemma RelayedDossier(d: Dossier, e: OrderCreated)
    requires SoundDossier()(d, e.order) && d.queued >= 1 && d.order.Some? && e == EventOf(e.order, d.order.value)
    ensures var d' := d.(queued := d.queued - 1, claims := d.claims + 1, tasks := d.tasks + {Created(e)});
            && SoundDossier()(d', e.order)
            && (SafeDossier()(d, e.order) ==> SafeDossier()(d', e.order))
  {
    var d' := d.(queued := d.queued - 1, claims := d.claims + 1, tasks := d.tasks + {Created(e)});
    assert Paid(d) <==> Paid(d');
    assert Traced(d', e.order);
    assert Justified(d');
  }

  lemma RequeuedDossier(d: Dossier, o: OrderId, queued: nat)
    requires SoundDossier()(d, o) && (d.order.None? ==> queued == d.queued)
    ensures SoundDossier()(d.(queued := queued), o)
    ensures SafeDossier()(d, o) && queued <= d.queued ==> SafeDossier()(d.(queued := queued), o)
  {
    var d' := d.(queued := queued);
    assert Paid(d) <==> Paid(d');
    assert HasConfirmed(d) <==> HasConfirmed(d');
    assert d.order.None? ==> d' == d;
    assert Traced(d', o);
    assert Justified(d');
  }

  /** The two properties that every step of a run keeps for every order. */
  ghost predicate IsKept(cfg: Config, good: (Dossier, OrderId) -> bool) {
    good == SoundDossier() || (good == SafeDossier() && Once(cfg))
  }

  lemma RunKeeps(cfg: Config, s: Sys, i: nat, c: Choice, good: (Dossier, OrderId) -> bool)
    requires IsKept(cfg, good) && Everywhere(s, good) && i < |s.tasks|
    ensures Everywhere(Apply(cfg, s, Run(i, c)), good)
  {
    var (s', o) := (Apply(cfg, s, Run(i, c)), OrderOf(s.tasks[i]));
    assert good(View(s, o), o);
    if good == SoundDossier() {
      SoundTask(cfg, s, i, c, o, s');
    } else {
      SafeTask(cfg, s, i, c, o, s');
    }
    RunView(cfg, s, i, c);
    Elsewhere(s, s', o, good);
  }

  lemma PlaceKeeps(
      cfg: Config, s: Sys, o: OrderId, customer: CustomerId, items: seq<Item>, good: (Dossier, OrderId) -> bool)
    requires IsKept(cfg, good) && Everywhere(s, good) && s.relay.position <= |s.db.outbox|
    ensures Everywhere(Apply(cfg, s, PlaceOrder(o, customer, items)), good)
  {
    var s' := Apply(cfg, s, PlaceOrder(o, customer, items));
    if s' != s {
      PlaceView(cfg, s, o, customer, items);
      assert good(View(s, o), o);
      OpenedDossier(View(s, o), o, s'.db.orders[o]);
      Elsewhere(s, s', o, good);
    }
  }

  lemma RelayKeeps(cfg: Config, s: Sys, e: OrderCreated, good: (Dossier, OrderId) -> bool)
    requires IsKept(cfg, good) && Everywhere(s, good)
    requires s.relay.joined && s.relay.position < |s.db.outbox| && e == s.db.outbox[s.relay.position]
    requires e.order in s.db.orders && e == EventOf(e.order, s.db.orders[e.order])
    ensures Everywhere(Apply(cfg, s, RelayNext), good)
  {
    RelayView(cfg, s);
    assert good(View(s, e.order), e.order);
    RelayedIsKept(cfg, View(s, e.order), e, good);
    Elsewhere(s, Apply(cfg, s, RelayNext), e.order, good);
  }

  lemma RelayedIsKept(cfg: Config, d: Dossier, e: OrderCreated, good: (Dossier, OrderId) -> bool)
    requires IsKept(cfg, good) && good(d, e.order)
    requires d.queued >= 1 && d.order.Some? && e == EventOf(e.order, d.order.value)
    ensures good(d.(queued := d.queued - 1, claims := d.claims + 1, tasks := d.tasks + {Created(e)}), e.order)
  {
    RelayedDossier(d, e);
  }

  lemma QuietKeeps(cfg: Config, s: Sys, a: Action, good: (Dossier, OrderId) -> bool)
    requires a.AddProduct? || a.RelayJoin? || a.RelayCommit?
    requires Ledger(s) && IsKept(cfg, good) && Everywhere(s, good)
    ensures Everywhere(Apply(cfg, s, a), good)
  {
    var s' := Apply(cfg, s, a);
    forall o ensures good(View(s', o), o) {
      QuietStep(cfg, s, a, o);
      assert good(View(s, o), o);
      RequeuedDossier(View(s, o), o, View(s', o).queued);
    }
  }

  lemma DossiersStay(cfg: Config, s: Sys, a: Action, good: (Dossier, OrderId) -> bool)
    requires Ledger(s) && IsKept(cfg, good) && Everywhere(s, good)
    ensures Everywhere(Apply(cfg, s, a), good)
  {
    match a {
      case Run(i, c) => if i < |s.tasks| { RunKeeps(cfg, s, i, c, good); }
      case PlaceOrder(o, customer, items) => PlaceKeeps(cfg, s, o, customer, items, good);
      case RelayNext =>
        if s.relay.joined && s.relay.position < |s.db.outbox| {
          RelayKeeps(cfg, s, s.db.outbox[s.relay.position], good);
        }
      case _ => QuietKeeps(cfg, s, a, good);
    }
  }

  lemma SoundStep(seed: Stock, cfg: Config, s: Sys, a: Action)
    requires Sound(seed, s)
    ensures Sound(seed, Apply(cfg, s, a))
  {
    LedgerStep(cfg, s, a);
    DossiersStay(cfg, s, a, SoundDossier());
    if a.Run? && a.index < |s.tasks| {
      AdvanceServes(cfg, s.db, s.tasks[a.index], a.choice);
      if Apply(cfg, s, a).db.store != s.db.store {
        ServeKeepsBacked(seed, s.db.store, RpcOf(s.tasks[a.index]).value);
      }
    }
  }

  /** In a safe dossier the task at hand never has a released reservation confirmed. */
  lemma NeverConfirmsReleasedHere(s: Sys, i: nat)
    requires Everywhere(s, SafeDossier()) && i < |s.tasks| && RpcOf(s.tasks[i]).Some?
    ensures !ConfirmsReleased(s.db.store, RpcOf(s.tasks[i]).value)
  {
    var (t, o) := (s.tasks[i], OrderOf(s.tasks[i]));
    var d := View(s, o);
    assert SafeDossier()(d, o);
    assert t in d.tasks;
  }

  lemma ExclusiveStep(seed: Stock, cfg: Config, s: Sys, a: Action)
    requires Once(cfg) && Exclusive(seed, s)
    ensures Exclusive(seed, Apply(cfg, s, a))
  {
    LedgerStep(cfg, s, a);
    DossiersStay(cfg, s, a, SafeDossier());
    if a.Run? && a.index < |s.tasks| {
      AdvanceServes(cfg, s.db, s.tasks[a.index], a.choice);
      if Apply(cfg, s, a).db.store != s.db.store {
        NeverConfirmsReleasedHere(s, a.index);
        ServeConservesIff(seed, s.db.store, RpcOf(s.tasks[a.index]).value);
      }
    }
  }

  lemma InitIsExclusive(seed: Stock)
    requires IsSeed(seed)
    ensures Exclusive(seed, Init(seed))
  {
    SeedIsConserved(seed);
    forall o ensures SafeDossier()(View(Init(seed), o), o) {
      FreshDossier(None, 0, o);
      assert View(Init(seed), o) == Dossier(None, None, 0, 0, 0, 0, 0, {}, {}, {});
    }
  }

  lemma {:induction false} RunIsSound(seed: Stock, cfg: Config, s: Sys, run: seq<Action>)
    requires Sound(seed, s)
    ensures Sound(seed, Exec(cfg, s, run))
    decreases |run|
  {
    if run != [] {
      SoundStep(seed, cfg, s, run[0]);
      RunIsSound(seed, cfg, Apply(cfg, s, run[0]), run[1..]);
    }
  }

  lemma {:induction false} RunIsExclusive(seed: Stock, cfg: Config, s: Sys, run: seq<Action>)
    requires Once(cfg) && Exclusive(seed, s)
    ensures Exclusive(seed, Exec(cfg, s, run))
    decreases |run|
  {
    if run != [] {
      ExclusiveStep(seed, cfg, s, run[0]);
      RunIsExclusive(seed, cfg, Apply(cfg, s, run[0]), run[1..]);
    }
  }
}
