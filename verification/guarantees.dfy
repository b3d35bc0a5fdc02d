/** What every run of the composed system guarantees, from empty databases and any seeded stock. */
module Guarantees {
  import opened Domain
  import opened Inventory
  import opened Ordering
  import opened Payments
  import opened OutboxRelay
  import opened Saga
  import opened Dossiers
  import opened Effects
  import opened Safety
  import opened StockLaws
  import opened Invariants

  predicate IsCharged(db: Tables, o: OrderId) {
    exists i :: 0 <= i < |db.payments| && db.payments[i].order == o && db.payments[i].status == Success
  }

  predicate ReservationIs(db: Tables, o: OrderId, status: ReservationStatus) {
    o in db.store.reservations && db.store.reservations[o].status == status
  }

  lemma IsChargedMeansPaid(s: Sys, o: OrderId)
    ensures IsCharged(s.db, o) <==> Paid(View(s, o))
  {
    var d := View(s, o);
    if p :| p in d.billed && p.status == Success {
      var i :| 0 <= i < |s.db.payments| && s.db.payments[i] == p;
      assert IsCharged(s.db, o);
    }
    if i :| 0 <= i < |s.db.payments| && s.db.payments[i].order == o && s.db.payments[i].status == Success {
      assert s.db.payments[i] in d.billed;
    }
  }

  lemma ReachedStatesHold(seed: Stock, cfg: Config, run: seq<Action>)
    requires IsSeed(seed)
    ensures Sound(seed, Exec(cfg, Init(seed), run))
    ensures Once(cfg) ==> Exclusive(seed, Exec(cfg, Init(seed), run))
  {
    InitIsExclusive(seed);
    assert Everywhere(Init(seed), SoundDossier()) by {
      forall o ensures SoundDossier()(View(Init(seed), o), o) {
        assert SafeDossier()(View(Init(seed), o), o);
      }
    }
    ConservedParts(seed, Init(seed).db.store);
    RunIsSound(seed, cfg, Init(seed), run);
    if Once(cfg) {
      RunIsExclusive(seed, cfg, Init(seed), run);
    }
  }

  /** Some run from the seed leads to s. */
  ghost predicate Reachable(seed: Stock, cfg: Config, s: Sys) {
    IsSeed(seed) && Reaches(cfg, Init(seed), s)
  }

  lemma ReachableIsSound(seed: Stock, cfg: Config, s: Sys)
    requires Reachable(seed, cfg, s)
    ensures Sound(seed, s)
  {
    var run :| Exec(cfg, Init(seed), run) == s;
    ReachedStatesHold(seed, cfg, run);
  }

  lemma ReachableOn(seed: Stock, cfg: Config, s: Sys, a: Action)
    requires Reachable(seed, cfg, s)
    ensures Reachable(seed, cfg, Apply(cfg, s, a))
  {
    Then(cfg, Init(seed), s, a);
  }

  lemma ReachableIsExclusive(seed: Stock, cfg: Config, s: Sys)
    requires Once(cfg) && Reachable(seed, cfg, s)
    ensures Exclusive(seed, s)
  {
    var run :| Exec(cfg, Init(seed), run) == s;
    ReachedStatesHold(seed, cfg, run);
  }

  /** Under any loss, delay, reordering and duplication: COMPLETED means goods confirmed and customer charged. */
  lemma CompletedIsJustified(seed: Stock, cfg: Config, run: seq<Action>, o: OrderId)
    requires IsSeed(seed)
    requires var db := Exec(cfg, Init(seed), run).db; o in db.orders && db.orders[o].status == Completed
    ensures var db := Exec(cfg, Init(seed), run).db; IsCharged(db, o) && ReservationIs(db, o, Confirmed)
  {
    var s := Exec(cfg, Init(seed), run);
    ReachedStatesHold(seed, cfg, run);
    assert SoundDossier()(View(s, o), o);
    IsChargedMeansPaid(s, o);
  }

  /** Under any fault: every charge is what exactly the goods that were reserved cost at the catalog's prices. */
  lemma MoneyAndGoods(seed: Stock, cfg: Config, run: seq<Action>, i: nat)
    requires IsSeed(seed) && i < |Exec(cfg, Init(seed), run).db.payments|
    ensures var db := Exec(cfg, Init(seed), run).db;
            var row := db.payments[i];
            && row.order in db.orders && row.order in db.store.reservations
            && var order := db.orders[row.order];
               var goods := db.store.reservations[row.order].items;
            && row.customer == order.customer
            && (forall k :: 0 <= k < |goods| ==> goods[k].product in db.catalog)
            && row.amount == order.total == Worth(db.catalog, goods)
            && Quoted(db.catalog, order)
            && goods == Goods(order.items) && AllPositive(goods)
  {
    var s := Exec(cfg, Init(seed), run);
    var row := s.db.payments[i];
    ReachedStatesHold(seed, cfg, run);
    var d := View(s, row.order);
    assert SoundDossier()(d, row.order);
    assert row in d.billed;
    assert Quoted(s.db.catalog, s.db.orders[row.order]);
    TotalIsWorth(s.db.catalog, s.db.orders[row.order].items);
  }

  /** Under any fault: orders and outbox rows agree, and from its start on the relay skips no row. */
  lemma OutboxAgreement(seed: Stock, cfg: Config, run: seq<Action>)
    requires IsSeed(seed)
    ensures var s := Exec(cfg, Init(seed), run);
            var (orders, outbox, relay) := (s.db.orders, s.db.outbox, s.relay);
            && (forall o :: o in orders <==> exists k :: 0 <= k < |outbox| && outbox[k].order == o)
            && (forall k :: 0 <= k < |outbox| ==>
                  var (row, order) := (outbox[k], orders[outbox[k].order]);
                  row.customer == order.customer && row.total == order.total && row.items == order.items)
            && (forall j, k :: 0 <= j < k < |outbox| ==> outbox[j].order != outbox[k].order)
            && (forall e :: e in relay.published ==> e in outbox)
            && (relay.committed.Some? ==> relay.start < relay.committed.value <= relay.position)
            && relay.position <= |outbox|
            && (forall k :: relay.start <= k < relay.position ==> outbox[k] in relay.published)
  {
    ReachedStatesHold(seed, cfg, run);
    MatchedRows(Exec(cfg, Init(seed), run));
  }

  lemma MatchedRows(s: Sys)
    requires Matched(s.db.orders, s.db.outbox)
    ensures forall k :: 0 <= k < |s.db.outbox| ==>
      var row := s.db.outbox[k];
      && row.order in s.db.orders
      && var order := s.db.orders[row.order];
         row.customer == order.customer && row.total == order.total && row.items == order.items
  {
  }

  /** The first n rows have all been published. */
  predicate AllPublished(s: Sys, n: nat) {
    n <= |s.db.outbox| && forall k :: 0 <= k < n ==> s.db.outbox[k] in s.relay.published
  }

  /** The consumer joins without a committed offset while there are rows it has not read. */
  predicate JoinsTooLate(s: Sys, a: Action) {
    a.RelayJoin? && s.relay.committed.None? && s.relay.position < |s.db.outbox|
  }

  predicate NeverJoinsTooLate(cfg: Config, s: Sys, run: seq<Action>)
    decreases |run|
  {
    run != [] ==> !JoinsTooLate(s, run[0]) && NeverJoinsTooLate(cfg, Apply(cfg, s, run[0]), run[1..])
  }

  /** What an action does to the outbox and the published rows. */
  lemma RelaySteps(cfg: Config, s: Sys, a: Action)
    requires Ledger(s)
    ensures var s' := Apply(cfg, s, a);
            && s.db.outbox <= s'.db.outbox
            && (s'.relay.start == s.relay.start || (a.RelayJoin? && s.relay.committed.None?))
            && (s'.relay.published == s.relay.published
                || (s.relay.position < |s.db.outbox|
                    && s'.relay.published == s.relay.published + [s.db.outbox[s.relay.position]]))
  {
    if a.Run? && a.index < |s.tasks| {
      AdvanceIsLocal(cfg, s.db, s.tasks[a.index], a.choice);
    }
  }

  /** An unpublished row below the start is never published. */
  lemma LostRowStaysLost(cfg: Config, s: Sys, a: Action, k: nat)
    requires Ledger(s) && k < s.relay.start && k < |s.db.outbox| && s.db.outbox[k] !in s.relay.published
    ensures var s' := Apply(cfg, s, a);
            && k < s'.relay.start && k < |s.db.outbox| && k < |s'.db.outbox|
            && s'.db.outbox[k] == s.db.outbox[k] && s.db.outbox[k] !in s'.relay.published
  {
    RelaySteps(cfg, s, a);
    if s.relay.position < |s.db.outbox| {
      assert s.db.outbox[k].order != s.db.outbox[s.relay.position].order;
    }
  }

  lemma {:induction false} LostForGood(cfg: Config, s: Sys, run: seq<Action>, k: nat)
    requires Ledger(s) && k < s.relay.start && k < |s.db.outbox| && s.db.outbox[k] !in s.relay.published
    ensures var s' := Exec(cfg, s, run);
            && k < |s.db.outbox| && k < |s'.db.outbox|
            && s'.db.outbox[k] == s.db.outbox[k] && s.db.outbox[k] !in s'.relay.published
    decreases |run|
  {
    if run != [] {
      LedgerStep(cfg, s, run[0]);
      LostRowStaysLost(cfg, s, run[0], k);
      LostForGood(cfg, Apply(cfg, s, run[0]), run[1..], k);
    }
  }

  /** A relay without an offset has never gone back, so what it has not read it has not published. */
  predicate Unread(s: Sys) {
    s.relay.committed.None? ==>
      forall k :: s.relay.position <= k < |s.db.outbox| ==> s.db.outbox[k] !in s.relay.published
  }

  lemma UnreadStep(cfg: Config, s: Sys, a: Action)
    requires Ledger(s) && Unread(s)
    ensures Unread(Apply(cfg, s, a))
  {
    match a {
      case PlaceOrder(o, customer, items) => PlacedIsUnread(cfg, s, o, customer, items);
      case RelayNext =>
        if s.relay.joined && s.relay.position < |s.db.outbox| {
          RelayedIsUnread(s, Apply(cfg, s, RelayNext));
        }
      case Run(i, c) =>
        if i < |s.tasks| {
          AdvanceIsLocal(cfg, s.db, s.tasks[i], c);
        }
      case _ =>
    }
  }

  lemma RelayedIsUnread(s: Sys, s': Sys)
    requires Matched(s.db.orders, s.db.outbox) && Unread(s) && s.relay.position < |s.db.outbox|
    requires s'.db == s.db && s'.relay == Passed(s.relay, Some(s.db.outbox[s.relay.position]))
    ensures Unread(s')
  {
    forall k | s.relay.position < k < |s.db.outbox| && s.relay.committed.None?
      ensures s.db.outbox[k] !in s'.relay.published
    {
      assert s.db.outbox[s.relay.position].order != s.db.outbox[k].order;
    }
  }

  lemma PlacedIsUnread(cfg: Config, s: Sys, o: OrderId, customer: CustomerId, items: seq<Item>)
    requires Ledger(s) && Unread(s)
    ensures Unread(Apply(cfg, s, PlaceOrder(o, customer, items)))
  {
    var s' := Apply(cfg, s, PlaceOrder(o, customer, items));
    if s' != s {
      assert s'.relay == s.relay;
      forall k | s.relay.position <= k < |s'.db.outbox| && s.relay.committed.None?
        ensures s'.db.outbox[k] !in s.relay.published
      {
        if k < |s.db.outbox| {
          assert s'.db.outbox[k] == s.db.outbox[k];
        } else {
          assert s'.db.outbox[k].order == o && o !in s.db.orders;
        }
      }
    }
  }

  /** Rows get lost in one way only. */
  lemma RowsAreLostIff(cfg: Config, s: Sys, a: Action)
    requires Ledger(s) && Unread(s)
    ensures var s' := Apply(cfg, s, a);
            AllPublished(s', s'.relay.start) <==> AllPublished(s, s.relay.start) && !JoinsTooLate(s, a)
  {
    var s' := Apply(cfg, s, a);
    if !AllPublished(s, s.relay.start) {
      var k :| 0 <= k < s.relay.start && s.db.outbox[k] !in s.relay.published;
      LostRowStaysLost(cfg, s, a, k);
    } else if a.RelayJoin? && s.relay.committed.None? {
      assert s'.db.outbox == s.db.outbox && s'.relay == Connected(s.relay, |s.db.outbox|);
      assert s.relay.position < |s.db.outbox| ==> s.db.outbox[s.relay.position] !in s.relay.published;
    } else {
      KeepsPublished(cfg, s, a);
    }
  }

  lemma KeepsPublished(cfg: Config, s: Sys, a: Action)
    requires Ledger(s) && AllPublished(s, s.relay.start) && !(a.RelayJoin? && s.relay.committed.None?)
    ensures AllPublished(Apply(cfg, s, a), Apply(cfg, s, a).relay.start)
  {
    RelaySteps(cfg, s, a);
    var s' := Apply(cfg, s, a);
    forall k | 0 <= k < s.relay.start ensures k < |s'.db.outbox| && s'.db.outbox[k] in s'.relay.published {
      assert s'.db.outbox[k] == s.db.outbox[k];
    }
  }

  lemma {:induction false} RunLosesNothingIff(cfg: Config, s: Sys, run: seq<Action>)
    requires Ledger(s) && Unread(s)
    ensures var s' := Exec(cfg, s, run);
            AllPublished(s', s'.relay.start) <==> AllPublished(s, s.relay.start) && NeverJoinsTooLate(cfg, s, run)
    decreases |run|
  {
    if run != [] {
      LedgerStep(cfg, s, run[0]);
      UnreadStep(cfg, s, run[0]);
      RowsAreLostIff(cfg, s, run[0]);
      RunLosesNothingIff(cfg, Apply(cfg, s, run[0]), run[1..]);
    }
  }

  /**
   * The relay's claim that no event can be lost any more: every row up to the position, and up to the
   * committed offset, has been published exactly if the group never joined without a committed offset
   * while it had rows to read.
   */
  lemma NothingLostIff(seed: Stock, cfg: Config, run: seq<Action>)
    requires IsSeed(seed)
    ensures var s := Exec(cfg, Init(seed), run);
            && (AllPublished(s, s.relay.position) <==> NeverJoinsTooLate(cfg, Init(seed), run))
            && (s.relay.committed.Some? ==>
                  (AllPublished(s, s.relay.committed.value) <==> NeverJoinsTooLate(cfg, Init(seed), run)))
  {
    ReachedStatesHold(seed, cfg, []);
    ReachedStatesHold(seed, cfg, run);
    RunLosesNothingIff(cfg, Init(seed), run);
  }

  /** An order placed before the relay has joined: its row is never published. */
  lemma PlacedBeforeJoining(cfg: Config, o: OrderId, customer: CustomerId, more: seq<Action>)
    ensures var s := Exec(cfg, Init(map[]), [PlaceOrder(o, customer, []), RelayJoin] + more);
            && |s.db.outbox| > 0 && s.db.outbox[0].order == o && s.db.outbox[0] !in s.relay.published
  {
    var run := [PlaceOrder(o, customer, []), RelayJoin];
    var s := Apply(cfg, Apply(cfg, Init(map[]), run[0]), RelayJoin);
    PlacingIsCreating(cfg, Init(map[]), o, customer, []);
    assert run[1..] == [RelayJoin] && run[1..][1..] == [];
    assert Exec(cfg, Init(map[]), run) == Exec(cfg, Apply(cfg, Init(map[]), run[0]), [RelayJoin]) == s;
    ReachedStatesHold(map[], cfg, run);
    ExecConcat(cfg, Init(map[]), run, more);
    LostForGood(cfg, s, more, 0);
  }

  /**
   * An order placed after the relay has joined, which then starts again before it has committed an offset:
   * the row is never published either.
   */
  lemma PlacedBeforeJoiningAgain(cfg: Config, o: OrderId, customer: CustomerId, more: seq<Action>)
    ensures var s := Exec(cfg, Init(map[]), [RelayJoin, PlaceOrder(o, customer, []), RelayJoin] + more);
            && |s.db.outbox| > 0 && s.db.outbox[0].order == o && s.db.outbox[0] !in s.relay.published
  {
    var run := [RelayJoin, PlaceOrder(o, customer, []), RelayJoin];
    var joined := Apply(cfg, Init(map[]), RelayJoin);
    var s := Apply(cfg, Apply(cfg, joined, run[1]), RelayJoin);
    PlacingIsCreating(cfg, joined, o, customer, []);
    assert run[1..] == [run[1], RelayJoin] && run[1..][1..] == [RelayJoin] && run[1..][1..][1..] == [];
    assert Exec(cfg, Init(map[]), run) == Exec(cfg, joined, run[1..])
        == Exec(cfg, Apply(cfg, joined, run[1]), [RelayJoin]) == s;
    ReachedStatesHold(map[], cfg, run);
    ExecConcat(cfg, Init(map[]), run, more);
    LostForGood(cfg, s, more, 0);
  }

  /** Under any fault: available is the seed less what is CONFIRMED, and is never less than reserved. */
  lemma StockIsBacked(seed: Stock, cfg: Config, run: seq<Action>)
    requires IsSeed(seed)
    ensures Backed(seed, Exec(cfg, Init(seed), run).db.store)
  {
    ReachedStatesHold(seed, cfg, run);
  }

  /** No cancelled order has been charged or has its goods CONFIRMED. They may still be RESERVED: see Leftovers. */
  predicate ChargeSafe(db: Tables) {
    forall o :: o in db.orders && db.orders[o].status == Cancelled ==>
      !IsCharged(db, o) && !ReservationIs(db, o, Confirmed)
  }

  /** Whatever RPCs are lost, late or refused and whatever writes fail, with each request handled once. */
  lemma ChargeSafety(seed: Stock, cfg: Config, run: seq<Action>)
    requires IsSeed(seed) && Once(cfg)
    ensures ChargeSafe(Exec(cfg, Init(seed), run).db)
  {
    var s := Exec(cfg, Init(seed), run);
    ReachedStatesHold(seed, cfg, run);
    forall o | o in s.db.orders && s.db.orders[o].status == Cancelled
      ensures !IsCharged(s.db, o) && !ReservationIs(s.db, o, Confirmed)
    {
      assert SafeDossier()(View(s, o), o);
      IsChargedMeansPaid(s, o);
    }
  }

  /**
   * The claim on an order's payment is in one place only: queued in the outbox, on its way, saved as a row,
   * or parked in the DLQ.
   */
  lemma OneClaim(seed: Stock, cfg: Config, run: seq<Action>, o: OrderId)
    requires IsSeed(seed) && Once(cfg)
    ensures var s := Exec(cfg, Init(seed), run);
            Queued(s, o) + Count(s.tasks, ClaimOf(o)) + Count(s.db.payments, RowFor(o))
            + (if Count(s.db.dlq, DeadFor(o)) > 0 then 1 else 0) <= 1
  {
    var s := Exec(cfg, Init(seed), run);
    ReachedStatesHold(seed, cfg, run);
    assert SafeDossier()(View(s, o), o);
  }

  /**
   * Under any fault: a request redelivered after its row was saved, or after it was parked, charges nobody.
   * It is skipped, or parked once more.
   */
  lemma RedeliveredRequestIsHarmless(seed: Stock, cfg: Config, run: seq<Action>, i: nat, c: Choice)
    requires IsSeed(seed) && i < |Exec(cfg, Init(seed), run).tasks|
    requires var t := Exec(cfg, Init(seed), run).tasks[i]; t.Charging? && t.place.Returned?
    ensures var s := Exec(cfg, Init(seed), run);
            var o := OrderOf(s.tasks[i]);
            var (after, news) := Advance(cfg, s.db, s.tasks[i], c);
            && after.(dlq := s.db.dlq) == s.db
            && (forall x :: x in news ==> !IsClaim(x))
            && (HasRow(s.db.payments, o) && c == Proceed ==> after == s.db && news == [])
            && (!HasRow(s.db.payments, o) ==> Count(s.db.dlq, DeadFor(o)) > 0)
  {
    var s := Exec(cfg, Init(seed), run);
    var (t, o) := (s.tasks[i], OrderOf(s.tasks[i]));
    ReachedStatesHold(seed, cfg, run);
    ViewOpens(s, i);
    assert SoundDossier()(View(s, o), o);
    assert Recorded(View(s, o), t);
    RedeliveredStep(cfg, s.db, t, c);
  }

  lemma RedeliveredStep(cfg: Config, db: Tables, t: Task, c: Choice)
    requires t.Charging? && t.place.Returned? && (HasRow(db.payments, t.request.order) || t.place.count >= MAX_RETRIES)
    ensures var (after, news) := Advance(cfg, db, t, c);
            && after.(dlq := db.dlq) == db
            && (forall x :: x in news ==> !IsClaim(x))
            && (HasRow(db.payments, t.request.order) && c == Proceed ==> after == db && news == [])
  {
  }

  lemma {:induction false} ChargedForGood(cfg: Config, s: Sys, run: seq<Action>, o: OrderId)
    requires IsCharged(s.db, o)
    ensures IsCharged(Exec(cfg, s, run).db, o)
    decreases |run|
  {
    if run != [] {
      var s' := Apply(cfg, s, run[0]);
      var i :| 0 <= i < |s.db.payments| && s.db.payments[i].order == o && s.db.payments[i].status == Success;
      if run[0].Run? && run[0].index < |s.tasks| {
        AdvanceIsLocal(cfg, s.db, s.tasks[run[0].index], run[0].choice);
      }
      assert s'.db.payments[i] == s.db.payments[i];
      ChargedForGood(cfg, s', run[1..], o);
    }
  }

  /** Every announcement goes to the customer of its order. */
  predicate Addressed(db: Tables) {
    forall i :: 0 <= i < |db.notices| ==>
      var notice := db.notices[i];
      notice.order in db.orders && notice.customer == db.orders[notice.order].customer
  }

  lemma AddressedStep(cfg: Config, s: Sys, a: Action)
    requires Addressed(s.db)
    ensures Addressed(Apply(cfg, s, a).db)
  {
    if a.Run? && a.index < |s.tasks| {
      var (t, after) := (s.tasks[a.index], Advance(cfg, s.db, s.tasks[a.index], a.choice).0);
      AdvanceIsLocal(cfg, s.db, t, a.choice);
      AdvanceEffect(cfg, s.db, t, a.choice);
      forall o | o in s.db.orders ensures o in after.orders && after.orders[o].customer == s.db.orders[o].customer {
        assert Get(after.orders, o) == Get(s.db.orders, o) || o == OrderOf(t);
      }
    }
  }

  lemma {:induction false} AddressedRun(cfg: Config, s: Sys, run: seq<Action>)
    requires Addressed(s.db)
    ensures Addressed(Exec(cfg, s, run).db)
    decreases |run|
  {
    if run != [] {
      AddressedStep(cfg, s, run[0]);
      AddressedRun(cfg, Apply(cfg, s, run[0]), run[1..]);
    }
  }

  /** The price that a run gives p first, if it gives it one. */
  function FirstPrice(run: seq<Action>, p: ProductId): Option<real> {
    if run == [] then None
    else if run[0].AddProduct? && run[0].product == p then Some(run[0].price)
    else FirstPrice(run[1..], p)
  }

  function PriceOf(s: Sys, p: ProductId): Option<real> {
    if p in s.db.catalog then Some(s.db.catalog[p]) else None
  }

  lemma {:induction false} PricesStay(cfg: Config, s: Sys, run: seq<Action>, p: ProductId)
    ensures PriceOf(Exec(cfg, s, run), p) == if PriceOf(s, p).Some? then PriceOf(s, p) else FirstPrice(run, p)
    decreases |run|
  {
    if run != [] {
      if run[0].Run? && run[0].index < |s.tasks| {
        AdvanceIsLocal(cfg, s.db, s.tasks[run[0].index], run[0].choice);
      }
      PricesStay(cfg, Apply(cfg, s, run[0]), run[1..], p);
    }
  }

  /** A product has the price that it was first created with, whatever happens and whoever tries again. */
  lemma PricesAreFixed(seed: Stock, cfg: Config, run: seq<Action>, p: ProductId)
    ensures PriceOf(Exec(cfg, Init(seed), run), p) == FirstPrice(run, p)
  {
    PricesStay(cfg, Init(seed), run, p);
  }

  /** What the customer was told is the status of the order, so nobody hears of two outcomes. */
  lemma CustomerIsToldTheTruth(seed: Stock, cfg: Config, run: seq<Action>, i: nat)
    requires IsSeed(seed) && Once(cfg) && i < |Exec(cfg, Init(seed), run).db.notices|
    ensures var db := Exec(cfg, Init(seed), run).db;
            var notice := db.notices[i];
            && notice.order in db.orders && notice.customer == db.orders[notice.order].customer
            && db.orders[notice.order].status == notice.status && Terminal(notice.status)
  {
    var s := Exec(cfg, Init(seed), run);
    ReachedStatesHold(seed, cfg, run);
    var notice := s.db.notices[i];
    assert SafeDossier()(View(s, notice.order), notice.order);
    assert notice.status in View(s, notice.order).told;
    AddressedRun(cfg, Init(seed), run);
  }

  /** One action keeps a terminal status; runs are composed of such actions. */
  lemma TerminalStays(seed: Stock, cfg: Config, s: Sys, a: Action, o: OrderId)
    requires Once(cfg) && Exclusive(seed, s) && o in s.db.orders && Terminal(s.db.orders[o].status)
    ensures Get(Apply(cfg, s, a).db.orders, o) == Some(s.db.orders[o])
  {
    if a.Run? && a.index < |s.tasks| {
      var (t, i) := (s.tasks[a.index], a.index);
      RunView(cfg, s, i, a.choice);
      if OrderOf(t) == o {
        var (after, news) := Advance(cfg, s.db, t, a.choice);
        assert SafeDossier()(View(s, o), o);
        ViewOpens(s, i);
        AdvanceEffect(cfg, s.db, t, a.choice);
        TerminalStep(cfg, s.db, t, after, news, View(s, o), View(Apply(cfg, s, a), o));
      } else {
        assert View(Apply(cfg, s, a), o) == View(s, o);
      }
    }
  }

  lemma {:induction false} TerminalForGood(seed: Stock, cfg: Config, s: Sys, run: seq<Action>, o: OrderId)
    requires Once(cfg) && Exclusive(seed, s) && o in s.db.orders && Terminal(s.db.orders[o].status)
    ensures Get(Exec(cfg, s, run).db.orders, o) == Some(s.db.orders[o])
    decreases |run|
  {
    if run != [] {
      TerminalStays(seed, cfg, s, run[0], o);
      ExclusiveStep(seed, cfg, s, run[0]);
      assert Get(Apply(cfg, s, run[0]).db.orders, o) == Some(s.db.orders[o]);
      TerminalForGood(seed, cfg, Apply(cfg, s, run[0]), run[1..], o);
    }
  }

  /** The order keeps the status it has once that is COMPLETED or CANCELLED. */
  predicate Absorbs(db: Tables, later: Tables) {
    forall o :: o in db.orders && Terminal(db.orders[o].status) ==>
      o in later.orders && later.orders[o].status == db.orders[o].status
  }

  /** Once an order is COMPLETED or CANCELLED, nothing that happens afterwards changes it. */
  lemma TerminalStatusesAbsorb(seed: Stock, cfg: Config, run: seq<Action>, more: seq<Action>)
    requires IsSeed(seed) && Once(cfg)
    ensures var s := Exec(cfg, Init(seed), run); Absorbs(s.db, Exec(cfg, s, more).db)
  {
    var s := Exec(cfg, Init(seed), run);
    ReachedStatesHold(seed, cfg, run);
    forall o | o in s.db.orders && Terminal(s.db.orders[o].status)
      ensures Get(Exec(cfg, s, more).db.orders, o) == Some(s.db.orders[o])
    {
      TerminalForGood(seed, cfg, s, more, o);
    }
  }
}
