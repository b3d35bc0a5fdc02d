/** Conservation of stock over whole runs of reserve, confirm and release. */
module StockLaws {
  import opened Domain
  import opened Inventory
  import opened ReserveTest

  /** What one reservation contributes to product p while it has the given status. */
  function Part(r: Reservation, status: ReservationStatus, p: ProductId): int {
    if r.status == status then Demand(r.items, p) else 0
  }

  /** The quantity of p in all reservations with the given status. */
  ghost function Held(rs: map<OrderId, Reservation>, status: ReservationStatus, p: ProductId): int
    decreases |rs|
  {
    if rs == map[] then 0
    else
      var o :| o in rs;
      Part(rs[o], status, p) + Held(rs - {o}, status, p)
  }

  lemma {:induction false} HeldWithout(
      rs: map<OrderId, Reservation>, o: OrderId, status: ReservationStatus, p: ProductId)
    requires o in rs
    ensures Held(rs, status, p) == Part(rs[o], status, p) + Held(rs - {o}, status, p)
    decreases |rs|
  {
    var first :| first in rs && Held(rs, status, p) == Part(rs[first], status, p) + Held(rs - {first}, status, p);
    if first != o {
      HeldWithout(rs - {first}, o, status, p);
      HeldWithout(rs - {o}, first, status, p);
      assert rs - {first} - {o} == rs - {o} - {first};
    }
  }

  lemma HeldUpdate(rs: map<OrderId, Reservation>, o: OrderId, r: Reservation, status: ReservationStatus, p: ProductId)
    ensures Held(rs[o := r], status, p)
         == Held(rs, status, p) - (if o in rs then Part(rs[o], status, p) else 0) + Part(r, status, p)
  {
    HeldWithout(rs[o := r], o, status, p);
    if o in rs {
      HeldWithout(rs, o, status, p);
      assert rs[o := r] - {o} == rs - {o};
    } else {
      assert rs[o := r] - {o} == rs;
    }
  }

  lemma {:induction false} HeldBounds(rs: map<OrderId, Reservation>, status: ReservationStatus, p: ProductId)
    requires forall o :: o in rs ==> AllPositive(rs[o].items)
    ensures Held(rs, status, p) >= 0
    ensures forall o :: o in rs ==> Held(rs, status, p) >= Part(rs[o], status, p)
    decreases |rs|
  {
    if rs != map[] {
      forall o | o in rs
        ensures Held(rs, status, p) >= Part(rs[o], status, p) >= 0
      {
        HeldWithout(rs, o, status, p);
        HeldBounds(rs - {o}, status, p);
        DemandNonNegative(rs[o].items, p);
      }
      var o :| o in rs;
      assert Held(rs, status, p) >= 0;
    }
  }

  lemma {:induction false} ConfirmAllEffect(stock: Stock, items: seq<Item>)
    ensures ConfirmAll(stock, items).Keys == stock.Keys
    ensures forall p :: p in stock ==>
      ConfirmAll(stock, items)[p]
      == Counters(stock[p].available - Demand(items, p), stock[p].reserved - Demand(items, p))
  {
    if items != [] {
      ConfirmAllEffect(stock, items[..|items| - 1]);
    }
  }

  lemma {:induction false} ReleaseAllEffect(stock: Stock, items: seq<Item>)
    ensures ReleaseAll(stock, items).Keys == stock.Keys
    ensures forall p :: p in stock ==>
      ReleaseAll(stock, items)[p] == Counters(stock[p].available, stock[p].reserved - Demand(items, p))
  {
    if items != [] {
      ReleaseAllEffect(stock, items[..|items| - 1]);
    }
  }

  /** Rows as they stand before the first reservation. */
  predicate IsSeed(seed: Stock) {
    forall p :: p in seed ==> seed[p].reserved == 0 && seed[p].available >= 0
  }

  function Seeded(seed: Stock, p: ProductId): int {
    Effective(seed, p).available
  }

  /** Reservations are of positive quantities, and every product they name has a row. */
  predicate Grounded(store: Store) {
    forall o :: o in store.reservations ==>
      var items := store.reservations[o].items;
      && AllPositive(items)
      && forall i :: 0 <= i < |items| ==> items[i].product in store.stock
  }

  /** The part of conservation that no request can break. */
  ghost predicate Backed(seed: Stock, store: Store) {
    && Grounded(store)
    && forall p ::
         var row := Effective(store.stock, p);
         row.available == Seeded(seed, p) - Held(store.reservations, Confirmed, p) && row.Free() >= 0
  }

  ghost predicate Counted(store: Store) {
    forall p :: Effective(store.stock, p).reserved == Held(store.reservations, Reserved, p)
  }

  /** reserved = what is RESERVED, available = seed - what is CONFIRMED, 0 <= reserved <= available. */
  ghost predicate Conserved(seed: Stock, store: Store) {
    && Grounded(store)
    && forall p ::
         var row := Effective(store.stock, p);
         && row.reserved == Held(store.reservations, Reserved, p)
         && row.available == Seeded(seed, p) - Held(store.reservations, Confirmed, p)
         && 0 <= row.reserved <= row.available
  }

  lemma ConservedParts(seed: Stock, store: Store)
    ensures Conserved(seed, store) <==> Backed(seed, store) && Counted(store)
  {
    if Backed(seed, store) && Counted(store) {
      forall p ensures Held(store.reservations, Reserved, p) >= 0 {
        HeldBounds(store.reservations, Reserved, p);
      }
    }
  }

  lemma DemandNeedsRow(store: Store, o: OrderId, p: ProductId)
    requires Grounded(store) && o in store.reservations && p !in store.stock
    ensures Demand(store.reservations[o].items, p) == 0
  {
    DemandOfAbsent(store.reservations[o].items, p);
  }

  /** The counters of p once a request has taken effect. */
  function Moved(store: Store, request: Request, p: ProductId): Counters
    requires request.ReserveRequest? || request.order in store.reservations
  {
    var row := Effective(store.stock, p);
    match request
    case ReserveRequest(_, items) => Counters(row.available, row.reserved + Demand(items, p))
    case ConfirmRequest(o) =>
      var d := Demand(store.reservations[o].items, p);
      Counters(row.available - d, row.reserved - d)
    case ReleaseRequest(o) => Counters(row.available, row.reserved - Demand(store.reservations[o].items, p))
  }

  /** A request changes nothing, or moves every counter by the demand of its items. */
  lemma ServeMoves(store: Store, request: Request)
    requires Grounded(store)
    ensures var after := Serve(store, request).0;
            && Grounded(after)
            && (after != store ==>
                  && (request.ReserveRequest? <==> request.order !in store.reservations)
                  && forall p :: Effective(after.stock, p) == Moved(store, request, p))
  {
    var after := Serve(store, request).0;
    if after != store {
      match request {
        case ReserveRequest(o, items) =>
          LoopMeetsTest(store.stock, items);
        case _ =>
          var items := store.reservations[request.order].items;
          ConfirmAllEffect(store.stock, items);
          ReleaseAllEffect(store.stock, items);
          forall p | p !in store.stock ensures Demand(items, p) == 0 {
            DemandNeedsRow(store, request.order, p);
          }
      }
    }
  }

  /** What confirm does to every table: all of its reservation's goods leave stock, and nothing else changes. */
  lemma ConfirmTakesWhatWasAsked(store: Store, o: OrderId)
    requires Grounded(store)
    ensures var (after, reply) := Confirm(store, o);
            && (o !in store.reservations ==> after == store && reply == Reply(false, ReservationNotFound))
            && (o in store.reservations ==> reply == Reply(true, NoReason))
            && (o in store.reservations && store.reservations[o].status == Confirmed ==> after == store)
            && (o in store.reservations && store.reservations[o].status != Confirmed ==>
                  var r := store.reservations[o];
                  && after.reservations == store.reservations[o := Reservation(r.items, Confirmed)]
                  && after.stock.Keys == store.stock.Keys
                  && forall p :: p in store.stock ==>
                       && after.stock[p].available as real == store.stock[p].available as real - Asked(r.items, p)
                       && after.stock[p].reserved as real == store.stock[p].reserved as real - Asked(r.items, p))
  {
    if o in store.reservations {
      var items := store.reservations[o].items;
      ConfirmAllEffect(store.stock, items);
      forall p ensures Demand(items, p) as real == Asked(items, p) {
        DemandIsAsked(items, p);
      }
    }
  }

  /** What release does: a RESERVED reservation's goods are free again, anything else is left alone. */
  lemma ReleaseFreesWhatWasAsked(store: Store, o: OrderId)
    requires Grounded(store)
    ensures var (after, reply) := Release(store, o);
            && reply == Reply(true, NoReason)
            && (o !in store.reservations || store.reservations[o].status != Reserved ==> after == store)
            && (o in store.reservations && store.reservations[o].status == Reserved ==>
                  var r := store.reservations[o];
                  && after.reservations == store.reservations[o := Reservation(r.items, Released)]
                  && after.stock.Keys == store.stock.Keys
                  && forall p :: p in store.stock ==>
                       && after.stock[p].available == store.stock[p].available
                       && after.stock[p].reserved as real == store.stock[p].reserved as real - Asked(r.items, p))
  {
    if o in store.reservations {
      var items := store.reservations[o].items;
      ReleaseAllEffect(store.stock, items);
      forall p ensures Demand(items, p) as real == Asked(items, p) {
        DemandIsAsked(items, p);
      }
    }
  }

  /**
   * A database fault leaves nothing half done: the request has its whole effect and answer, or none and
   * internal_error. A fault at the first read always strikes, and one in the transaction strikes every
   * request that would have written something.
   */
  lemma FaultsLeaveNothingHalfDone(fault: DbFault, store: Store, request: Request)
    ensures var outcome := ServeUnder(fault, store, request);
            && (outcome == Serve(store, request) || outcome == (store, Reply(false, InternalError)))
            && (fault == Healthy ==> outcome == Serve(store, request))
            && (fault == AtRead ==> outcome == (store, Reply(false, InternalError)))
            && (fault.AtStatement? && Serve(store, request).0 != store ==>
                  outcome == (store, Reply(false, InternalError)))
  {
    if fault.AtStatement? && request.ReserveRequest? && Serve(store, request).0 != store {
      var (items, k) := (request.items, fault.k);
      LoopMeetsTest(store.stock, items);
      if k < |items| && ReserveAll(store.stock, items[..k]).Refused? {
        RefusalIsFinal(store.stock, items, k);
      }
    }
  }

  lemma ReserveLeavesRoom(store: Store, o: OrderId, items: seq<Item>, p: ProductId)
    requires o !in store.reservations && Fits(store.stock, items) && Effective(store.stock, p).Free() >= 0
    ensures Demand(items, p) <= Effective(store.stock, p).Free()
  {
    if i :| 0 <= i < |items| && items[i].product == p {
      assert Demand(items, items[i].product) <= Effective(store.stock, items[i].product).Free();
    } else {
      DemandOfAbsent(items, p);
    }
  }

  /** Whatever is asked, in whatever state the reservation is: the backed part survives. */
  lemma ServeKeepsBacked(seed: Stock, store: Store, request: Request)
    requires Backed(seed, store)
    ensures Backed(seed, Serve(store, request).0)
  {
    var (after, reply) := Serve(store, request);
    ServeMoves(store, request);
    if after != store {
      var o := request.order;
      forall p
        ensures Effective(after.stock, p).available == Seeded(seed, p) - Held(after.reservations, Confirmed, p)
        ensures Effective(after.stock, p).Free() >= 0
      {
        HeldUpdate(store.reservations, o, after.reservations[o], Confirmed, p);
        assert Effective(after.stock, p) == Moved(store, request, p);
        if request.ReserveRequest? {
          LoopMeetsTest(store.stock, request.items);
          ReserveLeavesRoom(store, o, request.items, p);
        } else {
          DemandNonNegative(store.reservations[o].items, p);
        }
      }
    }
  }

  /** confirm neither frees nor takes any stock, even for a reservation already released. */
  lemma ConfirmKeepsFreeStock(seed: Stock, store: Store, o: OrderId, p: ProductId)
    requires Backed(seed, store)
    ensures Effective(Confirm(store, o).0.stock, p).Free() == Effective(store.stock, p).Free()
  {
    ServeMoves(store, ConfirmRequest(o));
  }

  /** The one request that breaks the reserved counters. */
  predicate ConfirmsReleased(store: Store, request: Request) {
    && request.ConfirmRequest?
    && request.order in store.reservations
    && store.reservations[request.order].status == Released
    && store.reservations[request.order].items != []
  }

  /** `confirm` refuses only a missing reservation; conservation holds exactly when it is not a released one. */
  lemma ServeConservesIff(seed: Stock, store: Store, request: Request)
    requires Conserved(seed, store)
    ensures Conserved(seed, Serve(store, request).0) <==> !ConfirmsReleased(store, request)
  {
    var (after, reply) := Serve(store, request);
    ConservedParts(seed, store);
    ConservedParts(seed, after);
    ServeKeepsBacked(seed, store, request);
    ServeMoves(store, request);
    var o := request.order;
    if after != store {
      forall p
        ensures Held(after.reservations, Reserved, p)
             == Held(store.reservations, Reserved, p)
                - (if o in store.reservations then Part(store.reservations[o], Reserved, p) else 0)
                + Part(after.reservations[o], Reserved, p)
      {
        HeldUpdate(store.reservations, o, after.reservations[o], Reserved, p);
      }
      if ConfirmsReleased(store, request) {
        var items := store.reservations[o].items;
        var p := items[0].product;
        DemandNonNegative(items, p);
        assert Effective(after.stock, p) == Moved(store, request, p);
        assert !Counted(after);
      } else {
        forall p ensures Effective(after.stock, p).reserved == Held(after.reservations, Reserved, p) {
          assert Effective(after.stock, p) == Moved(store, request, p);
          if request.ConfirmRequest? && store.reservations[o].items == [] {
            assert Demand(store.reservations[o].items, p) == 0;
          }
        }
      }
    }
  }

  /** Conservation holds before, between and after all the requests of a run. */
  ghost predicate AlwaysConserved(seed: Stock, store: Store, run: seq<Request>)
    decreases |run|
  {
    Conserved(seed, store) && (run != [] ==> AlwaysConserved(seed, Serve(store, run[0]).0, run[1..]))
  }

  predicate NeverConfirmsReleased(store: Store, run: seq<Request>)
    decreases |run|
  {
    run != [] ==> !ConfirmsReleased(store, run[0]) && NeverConfirmsReleased(Serve(store, run[0]).0, run[1..])
  }

  lemma {:induction false} RunConservesIff(seed: Stock, store: Store, run: seq<Request>)
    requires Conserved(seed, store)
    ensures AlwaysConserved(seed, store, run) <==> NeverConfirmsReleased(store, run)
    decreases |run|
  {
    if run != [] {
      ServeConservesIff(seed, store, run[0]);
      if !ConfirmsReleased(store, run[0]) {
        RunConservesIff(seed, Serve(store, run[0]).0, run[1..]);
      } else {
        assert !AlwaysConserved(seed, Serve(store, run[0]).0, run[1..]);
      }
    }
  }

  lemma SeedIsConserved(seed: Stock)
    requires IsSeed(seed)
    ensures Conserved(seed, Store(seed, map[]))
  {
  }

  /** Stock is conserved throughout every run from a seed, exactly if the run confirms no released goods. */
  lemma StockConservation(seed: Stock, run: seq<Request>)
    requires IsSeed(seed)
    ensures AlwaysConserved(seed, Store(seed, map[]), run) <==> NeverConfirmsReleased(Store(seed, map[]), run)
  {
    SeedIsConserved(seed);
    RunConservesIff(seed, Store(seed, map[]), run);
  }

  /** With no condition at all: available is the seed less the CONFIRMED goods, and free stock is never negative. */
  lemma WhatAlwaysSurvives(seed: Stock, run: seq<Request>)
    requires IsSeed(seed)
    ensures Backed(seed, ServeAll(Store(seed, map[]), run).0)
  {
    SeedIsConserved(seed);
    ConservedParts(seed, Store(seed, map[]));
    RunKeepsBacked(seed, Store(seed, map[]), run);
  }

  lemma {:induction false} RunKeepsBacked(seed: Stock, store: Store, run: seq<Request>)
    requires Backed(seed, store)
    ensures Backed(seed, ServeAll(store, run).0)
    decreases |run|
  {
    if run != [] {
      ServeKeepsBacked(seed, store, run[0]);
      RunKeepsBacked(seed, Serve(store, run[0]).0, run[1..]);
    }
  }

  /** The shortest run that breaks the counters: one unit reserved, released and then confirmed. */
  lemma ReleasedThenConfirmed(o: OrderId, p: ProductId)
    ensures var run := [ReserveRequest(o, [Item(p, 1.0)]), ReleaseRequest(o), ConfirmRequest(o)];
            var (after, replies) := ServeAll(Store(map[], map[]), run);
            && (forall i :: 0 <= i < 3 ==> replies[i] == Reply(true, NoReason))
            && after.stock == map[p := Counters(DEFAULT_STOCK_QUANTITY - 1, -1)]
  {
    var item := Item(p, 1.0);
    var run := [ReserveRequest(o, [item]), ReleaseRequest(o), ConfirmRequest(o)];
    var s0 := Store(map[], map[]);
    assert [item][..0] == [];
    assert ReserveAll(map[], [item]) == ReserveOne(map[], item) == Done(map[p := Counters(1000, 1)]);
    var s1 := Store(map[p := Counters(1000, 1)], map[o := Reservation([item], Reserved)]);
    assert Serve(s0, run[0]) == (s1, Reply(true, NoReason));
    assert ReleaseAll(s1.stock, [item]) == ReleaseOne(s1.stock, item) == map[p := Counters(1000, 0)];
    var s2 := Store(map[p := Counters(1000, 0)], map[o := Reservation([item], Released)]);
    assert s1.reservations[o := Reservation([item], Released)] == s2.reservations;
    assert Serve(s1, run[1]) == (s2, Reply(true, NoReason));
    assert ConfirmAll(s2.stock, [item]) == ConfirmOne(s2.stock, item) == map[p := Counters(999, -1)];
    assert run[1..][1..] == [ConfirmRequest(o)];
    assert ServeAll(s2, [ConfirmRequest(o)]).0.stock == map[p := Counters(999, -1)];
  }
}
