/**
 * Many reserve transactions at once, one SQL statement at a time. Each UPDATE is atomic, an aborting
 * transaction takes back its own increments and rows, a row that it has seeded is closed to the others
 * until it ends, and the unique orderId aborts the second insert of an order.
 */
module ConcurrentReserve {
  import opened Domain
  import opened Inventory
  import opened ReserveTest
  import StockLaws

  datatype Phase = Running(done: nat) | Committed | Aborted

  datatype Txn = Txn(order: OrderId, items: seq<Item>, phase: Phase)

  /**
   * `seeders` says which running transaction has inserted a row; `log` lists the reservations in the order
   * in which their transactions committed.
   */
  datatype Database = Database(
    rows: Stock,
    seeders: map<ProductId, nat>,
    reservations: map<OrderId, Reservation>,
    txns: seq<Txn>,
    log: seq<Request>)

  /** The next statement of transaction i, or its session breaking off, as on a violated unique constraint. */
  datatype Act = Next(i: nat) | Break(i: nat)

  function SeededBy(db: Database, i: nat): set<ProductId> {
    set p | p in db.seeders && db.seeders[p] == i
  }

  function Abort(db: Database, i: nat): Database
    requires i < |db.txns| && db.txns[i].phase.Running?
  {
    var txn := db.txns[i];
    db.(rows := ReleaseAll(db.rows, Handled(txn)) - SeededBy(db, i),
        seeders := db.seeders - SeededBy(db, i),
        txns := db.txns[i := txn.(phase := Aborted)])
  }

  /** The product of the line has a row that another transaction has inserted and not committed. */
  predicate Blocked(db: Database, i: nat, item: Item) {
    IsPositiveInteger(item.quantity) && item.product in db.seeders && db.seeders[item.product] != i
  }

  /** One line of transaction i: seeding, if the product has no row, and the conditional UPDATE. */
  function Update(db: Database, i: nat): Database
    requires i < |db.txns| && db.txns[i].phase.Running? && db.txns[i].phase.done < |db.txns[i].items|
  {
    var txn := db.txns[i];
    var item := txn.items[txn.phase.done];
    if Blocked(db, i, item) then db
    else
      match ReserveOne(db.rows, item)
      case Refused(_) => Abort(db, i)
      case Done(rows) =>
        db.(rows := rows,
            seeders := if item.product in db.rows then db.seeders else db.seeders[item.product := i],
            txns := db.txns[i := txn.(phase := Running(txn.phase.done + 1))])
  }

  function Commit(db: Database, i: nat): Database
    requires i < |db.txns| && db.txns[i].phase.Running?
  {
    var txn := db.txns[i];
    if txn.order in db.reservations then Abort(db, i)
    else
      db.(reservations := db.reservations[txn.order := Reservation(txn.items, Reserved)],
          seeders := db.seeders - SeededBy(db, i),
          txns := db.txns[i := txn.(phase := Committed)],
          log := db.log + [ReserveRequest(txn.order, txn.items)])
  }

  function Step(db: Database, act: Act): Database {
    if act.i >= |db.txns| || !db.txns[act.i].phase.Running? then db
    else if act.Break? then Abort(db, act.i)
    else if db.txns[act.i].phase.done < |db.txns[act.i].items| then Update(db, act.i)
    else Commit(db, act.i)
  }

  function Interleave(db: Database, schedule: seq<Act>): Database
    decreases |schedule|
  {
    if schedule == [] then db else Interleave(Step(db, schedule[0]), schedule[1..])
  }

  /** The lines that a running transaction has dealt with. */
  function Handled(txn: Txn): seq<Item> {
    if txn.phase.Running? && txn.phase.done <= |txn.items| then txn.items[..txn.phase.done] else []
  }

  /** The products of those lines. */
  function Touched(txn: Txn): set<ProductId> {
    set k | 0 <= k < |Handled(txn)| :: Handled(txn)[k].product
  }

  function AllTouched(txns: seq<Txn>): (touched: seq<set<ProductId>>)
    ensures |touched| == |txns| && forall i :: 0 <= i < |txns| ==> touched[i] == Touched(txns[i])
  {
    seq(|txns|, i requires 0 <= i < |txns| => Touched(txns[i]))
  }

  /** Increments that a transaction has made and not yet committed. */
  function Pending(txn: Txn, p: ProductId): int {
    Demand(Handled(txn), p)
  }

  function AllPending(txns: seq<Txn>, p: ProductId): int {
    if txns == [] then 0 else AllPending(txns[..|txns| - 1], p) + Pending(txns[|txns| - 1], p)
  }

  /** The demand of all committed reservations. */
  function Logged(log: seq<Request>, p: ProductId): int {
    if log == [] then 0
    else
      var last := log[|log| - 1];
      Logged(log[..|log| - 1], p) + if last.ReserveRequest? then Demand(last.items, p) else 0
  }

  predicate Sane(txn: Txn) {
    (txn.phase.Running? ==> txn.phase.done <= |txn.items|) && AllPositive(Handled(txn))
  }

  /** A seeded row belongs to a transaction that uses it, and nobody else does; `base` was there before. */
  predicate Owned(
      base: set<ProductId>, rows: set<ProductId>, seeders: map<ProductId, nat>, touched: seq<set<ProductId>>)
  {
    && base <= rows
    && (forall i :: 0 <= i < |touched| ==>
          touched[i] <= rows && forall p :: p in touched[i] && p in seeders ==> seeders[p] == i)
    && (forall p :: p in seeders ==>
          p in rows && p !in base && seeders[p] < |touched| && p in touched[seeders[p]])
  }

  /** Nothing has been committed of a product without a committed row. */
  ghost predicate Unlogged(db: Database) {
    forall p :: p !in db.rows || p in db.seeders ==> Logged(db.log, p) == 0
  }

  ghost predicate Kept(start: Store, db: Database) {
    Owned(start.stock.Keys, db.rows.Keys, db.seeders, AllTouched(db.txns)) && Unlogged(db)
  }

  /** reserved = what was there + what is committed + what is pending, and never more than available. */
  ghost predicate Tallied(start: Store, db: Database) {
    forall p ::
      var (before, now) := (Effective(start.stock, p), Effective(db.rows, p));
      && now == Counters(before.available, before.reserved + Logged(db.log, p) + AllPending(db.txns, p))
      && now.Free() >= 0
  }

  ghost predicate Sound(start: Store, db: Database) {
    Kept(start, db) && (forall i :: 0 <= i < |db.txns| ==> Sane(db.txns[i])) && Tallied(start, db)
  }

  /** The rows that no running transaction owns. */
  function CommittedRows(db: Database): set<ProductId> {
    db.rows.Keys - db.seeders.Keys
  }

  /** Every request was granted, and p's counters are those at the start and what has been reserved since. */
  ghost predicate Granted(start: Store, log: seq<Request>, after: Store, replies: seq<Reply>) {
    && (forall i :: 0 <= i < |replies| ==> replies[i] == Reply(true, NoReason))
    && forall p ::
         var before := Effective(start.stock, p);
         Effective(after.stock, p) == Counters(before.available, before.reserved + Logged(log, p))
  }

  /** Handled one after the other in commit order, the committed requests all succeed and leave the same tables. */
  ghost predicate Serial(start: Store, db: Database) {
    var (after, replies) := ServeAll(start, db.log);
    && Granted(start, db.log, after, replies)
    && after.reservations == db.reservations && after.stock.Keys == CommittedRows(db)
  }

  lemma {:induction false} PendingUpdate(txns: seq<Txn>, i: nat, txn: Txn, p: ProductId)
    requires i < |txns|
    ensures AllPending(txns[i := txn], p) == AllPending(txns, p) - Pending(txns[i], p) + Pending(txn, p)
  {
    var n := |txns| - 1;
    if i == n {
      assert txns[i := txn][..n] == txns[..n];
    } else {
      assert txns[i := txn][..n] == txns[..n][i := txn];
      PendingUpdate(txns[..n], i, txn, p);
    }
  }

  lemma {:induction false} NonePendingBelowZero(txns: seq<Txn>, p: ProductId)
    requires forall i :: 0 <= i < |txns| ==> Sane(txns[i])
    ensures AllPending(txns, p) >= 0
  {
    if txns != [] {
      var n := |txns| - 1;
      assert forall i :: 0 <= i < n ==> txns[..n][i] == txns[i];
      NonePendingBelowZero(txns[..n], p);
      DemandNonNegative(Handled(txns[n]), p);
    }
  }

  /** What one transaction has pending is part of what all have. */
  lemma {:induction false} PendingBound(txns: seq<Txn>, i: nat, p: ProductId)
    requires i < |txns| && forall k :: 0 <= k < |txns| ==> Sane(txns[k])
    ensures AllPending(txns, p) >= Pending(txns[i], p)
  {
    var n := |txns| - 1;
    assert forall k :: 0 <= k < n ==> txns[..n][k] == txns[k];
    if i == n {
      NonePendingBelowZero(txns[..n], p);
    } else {
      PendingBound(txns[..n], i, p);
      DemandNonNegative(Handled(txns[n]), p);
    }
  }

  lemma PendingIfTouched(txn: Txn, p: ProductId)
    requires p !in Touched(txn)
    ensures Pending(txn, p) == 0
  {
    forall k | 0 <= k < |Handled(txn)| ensures Handled(txn)[k].product != p {
      assert Handled(txn)[k].product in Touched(txn);
    }
    DemandOfAbsent(Handled(txn), p);
  }

  lemma {:induction false} NothingPending(txns: seq<Txn>, p: ProductId)
    requires forall i :: 0 <= i < |txns| ==> p !in Touched(txns[i])
    ensures AllPending(txns, p) == 0
  {
    if txns != [] {
      var n := |txns| - 1;
      assert forall i :: 0 <= i < n ==> txns[..n][i] == txns[i];
      NothingPending(txns[..n], p);
      PendingIfTouched(txns[n], p);
    }
  }

  lemma TouchedUpdate(txns: seq<Txn>, i: nat, txn: Txn)
    requires i < |txns|
    ensures AllTouched(txns[i := txn]) == AllTouched(txns)[i := Touched(txn)]
  {
  }

  /** A transaction that ends gives up what it owns. */
  lemma OwnedAfterEnd(
      base: set<ProductId>, rows: set<ProductId>, seeders: map<ProductId, nat>, touched: seq<set<ProductId>>,
      i: nat, after: set<ProductId>)
    requires Owned(base, rows, seeders, touched) && i < |touched|
    requires var mine := set p | p in seeders && seeders[p] == i; rows - mine <= after <= rows
    ensures var mine := set p | p in seeders && seeders[p] == i;
            Owned(base, after, seeders - mine, touched[i := {}])
  {
    var mine := set p | p in seeders && seeders[p] == i;
    forall j | 0 <= j < |touched| && j != i ensures touched[j] <= after {
      assert touched[j] !! mine;
    }
  }

  lemma AbortIsKept(start: Store, db: Database, i: nat)
    requires Kept(start, db) && i < |db.txns| && db.txns[i].phase.Running?
    ensures Kept(start, Abort(db, i))
  {
    var after := Abort(db, i);
    StockLaws.ReleaseAllEffect(db.rows, Handled(db.txns[i]));
    TouchedUpdate(db.txns, i, after.txns[i]);
    assert Touched(after.txns[i]) == {};
    OwnedAfterEnd(start.stock.Keys, db.rows.Keys, db.seeders, AllTouched(db.txns), i, after.rows.Keys);
  }

  /** Nobody else uses a row that transaction i has seeded, so it goes as it came. */
  lemma SeededRowGoes(start: Store, db: Database, i: nat, p: ProductId)
    requires Kept(start, db) && i < |db.txns| && p in SeededBy(db, i)
    ensures p !in start.stock && Logged(db.log, p) == 0
    ensures AllPending(db.txns[i := db.txns[i].(phase := Aborted)], p) == 0
  {
    assert forall j :: 0 <= j < |db.txns| && j != i ==> p !in AllTouched(db.txns)[j];
    NothingPending(db.txns[i := db.txns[i].(phase := Aborted)], p);
  }

  /** The other rows get back what transaction i has taken. */
  lemma IncrementsGoBack(start: Store, db: Database, i: nat, p: ProductId)
    requires Kept(start, db) && i < |db.txns| && Sane(db.txns[i]) && p !in SeededBy(db, i)
    requires db.txns[i].phase.Running?
    ensures var (before, after, mine) := (Effective(db.rows, p), Abort(db, i), Demand(Handled(db.txns[i]), p));
            && mine >= 0
            && Effective(after.rows, p) == Counters(before.available, before.reserved - mine)
            && AllPending(after.txns, p) == AllPending(db.txns, p) - mine
  {
    var txn := db.txns[i];
    StockLaws.ReleaseAllEffect(db.rows, Handled(txn));
    PendingUpdate(db.txns, i, txn.(phase := Aborted), p);
    DemandNonNegative(Handled(txn), p);
    if p !in db.rows {
      assert p !in AllTouched(db.txns)[i];
      PendingIfTouched(txn, p);
    }
  }

  lemma AbortIsTallied(start: Store, db: Database, i: nat)
    requires Sound(start, db) && i < |db.txns| && db.txns[i].phase.Running?
    ensures Tallied(start, Abort(db, i))
  {
    var after := Abort(db, i);
    forall p
      ensures Effective(after.rows, p)
           == Counters(Effective(start.stock, p).available,
                       Effective(start.stock, p).reserved + Logged(db.log, p) + AllPending(after.txns, p))
      ensures Effective(after.rows, p).Free() >= 0
    {
      if p in SeededBy(db, i) {
        SeededRowGoes(start, db, i, p);
        assert p !in after.rows;
      } else {
        IncrementsGoBack(start, db, i, p);
      }
    }
  }

  lemma AbortIsSound(start: Store, db: Database, i: nat)
    requires Sound(start, db) && i < |db.txns| && db.txns[i].phase.Running?
    ensures Sound(start, Abort(db, i))
  {
    AbortIsKept(start, db, i);
    AbortIsTallied(start, db, i);
  }

  /** The lines dealt with before, and one more. */
  lemma OneMoreHandled(txn: Txn)
    requires txn.phase.Running? && txn.phase.done < |txn.items|
    ensures var item := txn.items[txn.phase.done];
            var after := txn.(phase := Running(txn.phase.done + 1));
            && Handled(after) == Handled(txn) + [item]
            && Touched(after) == Touched(txn) + {item.product}
            && forall p :: Pending(after, p) == Pending(txn, p) + Share(item, p)
  {
    var item := txn.items[txn.phase.done];
    var next := txn.(phase := Running(txn.phase.done + 1));
    var (before, after) := (Handled(txn), Handled(next));
    assert after == before + [item];
    assert after[..|after| - 1] == before;
    assert after[|before|] == item;
    forall p ensures p in Touched(next) <==> p in Touched(txn) || p == item.product {
      if k :| 0 <= k < |before| && before[k].product == p {
        assert after[k].product == p;
      }
    }
  }

  /** A transaction that uses one more product, seeding its row if there is none. */
  lemma OwnedAfterUse(
      base: set<ProductId>, rows: set<ProductId>, seeders: map<ProductId, nat>, touched: seq<set<ProductId>>,
      i: nat, p: ProductId)
    requires Owned(base, rows, seeders, touched) && i < |touched| && (p in seeders ==> seeders[p] == i)
    ensures Owned(base, rows + {p}, if p in rows then seeders else seeders[p := i], touched[i := touched[i] + {p}])
  {
    var (seeders', touched') := (if p in rows then seeders else seeders[p := i], touched[i := touched[i] + {p}]);
    forall j | 0 <= j < |touched'|
      ensures touched'[j] <= rows + {p} && forall q :: q in touched'[j] && q in seeders' ==> seeders'[q] == j
    {
      assert touched[j] <= rows;
    }
  }

  lemma UpdateIsKept(start: Store, db: Database, i: nat, item: Item)
    requires Kept(start, db) && i < |db.txns| && db.txns[i].phase.Running?
    requires db.txns[i].phase.done < |db.txns[i].items| && item == db.txns[i].items[db.txns[i].phase.done]
    requires !Blocked(db, i, item) && ReserveOne(db.rows, item).Done?
    ensures Kept(start, Update(db, i))
  {
    var (txn, after) := (db.txns[i], Update(db, i));
    OneMoreHandled(txn);
    TouchedUpdate(db.txns, i, after.txns[i]);
    OwnedAfterUse(start.stock.Keys, db.rows.Keys, db.seeders, AllTouched(db.txns), i, item.product);
    assert after.rows.Keys == db.rows.Keys + {item.product};
  }

  lemma UpdateIsTallied(start: Store, db: Database, i: nat, item: Item)
    requires Tallied(start, db) && i < |db.txns| && db.txns[i].phase.Running?
    requires db.txns[i].phase.done < |db.txns[i].items| && item == db.txns[i].items[db.txns[i].phase.done]
    requires !Blocked(db, i, item) && ReserveOne(db.rows, item).Done?
    ensures Tallied(start, Update(db, i))
  {
    var (txn, after) := (db.txns[i], Update(db, i));
    OneMoreHandled(txn);
    forall p
      ensures Effective(after.rows, p)
           == Counters(Effective(start.stock, p).available,
                       Effective(start.stock, p).reserved + Logged(db.log, p) + AllPending(after.txns, p))
      ensures Effective(after.rows, p).Free() >= 0
    {
      PendingUpdate(db.txns, i, txn.(phase := Running(txn.phase.done + 1)), p);
      ReserveOneMoves(db.rows, item, p);
    }
  }

  lemma ReserveOneMoves(rows: Stock, item: Item, p: ProductId)
    requires ReserveOne(rows, item).Done?
    ensures var (row, after) := (Effective(rows, p), Effective(ReserveOne(rows, item).stock, p));
            after == Counters(row.available, row.reserved + Share(item, p)) && (row.Free() >= 0 ==> after.Free() >= 0)
  {
  }

  lemma UpdateIsSane(db: Database, i: nat, item: Item)
    requires i < |db.txns| && db.txns[i].phase.Running? && (forall j :: 0 <= j < |db.txns| ==> Sane(db.txns[j]))
    requires db.txns[i].phase.done < |db.txns[i].items| && item == db.txns[i].items[db.txns[i].phase.done]
    requires !Blocked(db, i, item) && ReserveOne(db.rows, item).Done?
    ensures forall j :: 0 <= j < |db.txns| ==> Sane(Update(db, i).txns[j])
  {
    OneMoreHandled(db.txns[i]);
    assert AllPositive(Handled(db.txns[i]) + [item]);
  }

  lemma UpdateIsSound(start: Store, db: Database, i: nat)
    requires Sound(start, db) && i < |db.txns| && db.txns[i].phase.Running?
    requires db.txns[i].phase.done < |db.txns[i].items|
    ensures Sound(start, Update(db, i))
  {
    var item := db.txns[i].items[db.txns[i].phase.done];
    if !Blocked(db, i, item) {
      if ReserveOne(db.rows, item).Refused? {
        AbortIsSound(start, db, i);
      } else {
        UpdateIsKept(start, db, i, item);
        UpdateIsTallied(start, db, i, item);
        UpdateIsSane(db, i, item);
      }
    }
  }

  lemma LoggedLast(log: seq<Request>, order: OrderId, items: seq<Item>, p: ProductId)
    ensures Logged(log + [ReserveRequest(order, items)], p) == Logged(log, p) + Demand(items, p)
  {
    var more := log + [ReserveRequest(order, items)];
    assert more[..|more| - 1] == log;
  }

  lemma CommitIsKept(start: Store, db: Database, i: nat)
    requires Kept(start, db) && i < |db.txns|
    requires db.txns[i].phase == Running(|db.txns[i].items|) && db.txns[i].order !in db.reservations
    ensures Kept(start, Commit(db, i))
  {
    var (txn, after) := (db.txns[i], Commit(db, i));
    assert Handled(txn) == txn.items;
    TouchedUpdate(db.txns, i, after.txns[i]);
    assert Touched(after.txns[i]) == {};
    OwnedAfterEnd(start.stock.Keys, db.rows.Keys, db.seeders, AllTouched(db.txns), i, after.rows.Keys);
    forall p | p !in after.rows || p in after.seeders ensures Logged(after.log, p) == 0 {
      LoggedLast(db.log, txn.order, txn.items, p);
      assert p !in AllTouched(db.txns)[i];
      PendingIfTouched(txn, p);
    }
  }

  lemma CommitIsTallied(start: Store, db: Database, i: nat)
    requires Tallied(start, db) && i < |db.txns|
    requires db.txns[i].phase == Running(|db.txns[i].items|) && db.txns[i].order !in db.reservations
    ensures Tallied(start, Commit(db, i))
  {
    var (txn, after) := (db.txns[i], Commit(db, i));
    assert Handled(txn) == txn.items;
    forall p ensures Logged(after.log, p) + AllPending(after.txns, p) == Logged(db.log, p) + AllPending(db.txns, p) {
      LoggedLast(db.log, txn.order, txn.items, p);
      PendingUpdate(db.txns, i, txn.(phase := Committed), p);
    }
  }

  lemma CommitIsSound(start: Store, db: Database, i: nat)
    requires Sound(start, db) && i < |db.txns| && db.txns[i].phase == Running(|db.txns[i].items|)
    ensures Sound(start, Commit(db, i))
  {
    if db.txns[i].order in db.reservations {
      AbortIsSound(start, db, i);
    } else {
      CommitIsKept(start, db, i);
      CommitIsTallied(start, db, i);
    }
  }

  lemma StepIsSound(start: Store, db: Database, act: Act)
    requires Sound(start, db)
    ensures Sound(start, Step(db, act))
  {
    if act.i < |db.txns| && db.txns[act.i].phase.Running? {
      if act.Break? {
        AbortIsSound(start, db, act.i);
      } else if db.txns[act.i].phase.done < |db.txns[act.i].items| {
        UpdateIsSound(start, db, act.i);
      } else {
        assert Sane(db.txns[act.i]);
        CommitIsSound(start, db, act.i);
      }
    }
  }

  lemma ServeLast(store: Store, run: seq<Request>, request: Request)
    ensures var (mid, replies) := ServeAll(store, run);
            var (last, reply) := Serve(mid, request);
            ServeAll(store, run + [request]) == (last, replies + [reply])
  {
    var mid := ServeAll(store, run).0;
    var (last, reply) := Serve(mid, request);
    ServeConcat(store, run, [request]);
    ServeFirst(mid, request, []);
    assert [request] + [] == [request];
    assert [reply] + [] == [reply];
    assert ServeAll(mid, [request]) == (last, [reply]);
  }

  /** A transaction that has made all its increments also fits what is committed alone. */
  lemma CommitFits(start: Store, db: Database, i: nat, alone: Stock)
    requires Sound(start, db) && i < |db.txns|
    requires db.txns[i].phase == Running(|db.txns[i].items|)
    requires forall p ::
      var before := Effective(start.stock, p);
      Effective(alone, p) == Counters(before.available, before.reserved + Logged(db.log, p))
    ensures Fits(alone, db.txns[i].items)
  {
    var txn := db.txns[i];
    assert Sane(txn) && Handled(txn) == txn.items;
    forall k | 0 <= k < |txn.items|
      ensures Demand(txn.items, txn.items[k].product) <= Effective(alone, txn.items[k].product).Free()
    {
      var p := txn.items[k].product;
      PendingBound(db.txns, i, p);
      assert Effective(db.rows, p).Free() >= 0;
    }
  }

  lemma AbortKeepsCommitted(db: Database, i: nat)
    requires i < |db.txns| && db.txns[i].phase.Running?
    ensures CommittedRows(Abort(db, i)) == CommittedRows(db)
  {
    StockLaws.ReleaseAllEffect(db.rows, Handled(db.txns[i]));
  }

  lemma UpdateKeepsCommitted(db: Database, i: nat)
    requires i < |db.txns| && db.txns[i].phase.Running? && db.txns[i].phase.done < |db.txns[i].items|
    ensures CommittedRows(Update(db, i)) == CommittedRows(db)
  {
    AbortKeepsCommitted(db, i);
  }

  lemma UncommittedStep(db: Database, act: Act)
    requires Step(db, act).log == db.log
    ensures Step(db, act).reservations == db.reservations
    ensures CommittedRows(Step(db, act)) == CommittedRows(db)
  {
    if act.i < |db.txns| && db.txns[act.i].phase.Running? {
      AbortKeepsCommitted(db, act.i);
      if act.Next? && db.txns[act.i].phase.done < |db.txns[act.i].items| {
        UpdateKeepsCommitted(db, act.i);
      }
    }
  }

  lemma StepIsSerial(start: Store, db: Database, act: Act)
    requires Sound(start, db) && Serial(start, db)
    ensures Serial(start, Step(db, act))
  {
    if Step(db, act).log == db.log {
      UncommittedStep(db, act);
    } else {
      assert Sane(db.txns[act.i]);
      CommitFits(start, db, act.i, ServeAll(start, db.log).0.stock);
      CommitIsSerial(start, db, act.i);
    }
  }

  /** A request that fits what the run before it has left is granted too. */
  lemma GrantedLast(start: Store, log: seq<Request>, order: OrderId, items: seq<Item>)
    requires Granted(start, log, ServeAll(start, log).0, ServeAll(start, log).1)
    requires order !in ServeAll(start, log).0.reservations && Fits(ServeAll(start, log).0.stock, items)
    ensures var mid := ServeAll(start, log).0;
            var more := log + [ReserveRequest(order, items)];
            var (last, replies) := ServeAll(start, more);
            && Granted(start, more, last, replies)
            && last.reservations == mid.reservations[order := Reservation(items, Reserved)]
            && Books(mid.stock, last.stock, items)
  {
    var (mid, replies) := ServeAll(start, log);
    FreshReserve(mid, order, items);
    ServeLast(start, log, ReserveRequest(order, items));
    forall p ensures Logged(log + [ReserveRequest(order, items)], p) == Logged(log, p) + Demand(items, p) {
      LoggedLast(log, order, items, p);
    }
  }

  lemma CommitIsSerial(start: Store, db: Database, i: nat)
    requires Kept(start, db) && Serial(start, db) && i < |db.txns|
    requires db.txns[i].phase == Running(|db.txns[i].items|) && db.txns[i].order !in db.reservations
    requires Fits(ServeAll(start, db.log).0.stock, db.txns[i].items)
    ensures Serial(start, Commit(db, i))
  {
    var (txn, after) := (db.txns[i], Commit(db, i));
    GrantedLast(start, db.log, txn.order, txn.items);
    CommittedKeys(start, db, i, ServeAll(start, db.log).0.stock, ServeAll(start, after.log).0.stock);
  }

  lemma CommittedKeys(start: Store, db: Database, i: nat, mid: Stock, last: Stock)
    requires Kept(start, db) && i < |db.txns|
    requires db.txns[i].phase == Running(|db.txns[i].items|) && db.txns[i].order !in db.reservations
    requires Books(mid, last, db.txns[i].items) && mid.Keys == CommittedRows(db)
    ensures last.Keys == CommittedRows(Commit(db, i))
  {
    RowsOfCommitted(start, db, i);
    forall p ensures p in last <==> p in CommittedRows(Commit(db, i)) {
    }
  }

  /** What is committed once transaction i is: the rows committed before, and those of its own lines. */
  lemma RowsOfCommitted(start: Store, db: Database, i: nat)
    requires Kept(start, db) && i < |db.txns|
    requires db.txns[i].phase == Running(|db.txns[i].items|) && db.txns[i].order !in db.reservations
    ensures forall p :: p in CommittedRows(Commit(db, i)) <==>
      p in CommittedRows(db) || exists k :: 0 <= k < |db.txns[i].items| && db.txns[i].items[k].product == p
  {
    var items := db.txns[i].items;
    assert Handled(db.txns[i]) == items;
    var touched := AllTouched(db.txns);
    forall p
      ensures p in CommittedRows(Commit(db, i)) <==>
        p in CommittedRows(db) || exists k :: 0 <= k < |items| && items[k].product == p
    {
      assert p in touched[i] <==> exists k :: 0 <= k < |items| && items[k].product == p;
    }
  }

  lemma {:induction false} InterleavingIsSound(start: Store, db: Database, schedule: seq<Act>)
    requires Sound(start, db) && Serial(start, db)
    ensures Sound(start, Interleave(db, schedule)) && Serial(start, Interleave(db, schedule))
    decreases |schedule|
  {
    if schedule != [] {
      StepIsSound(start, db, schedule[0]);
      StepIsSerial(start, db, schedule[0]);
      InterleavingIsSound(start, Step(db, schedule[0]), schedule[1..]);
    }
  }

  /**
   * Any number of reserve transactions, interleaved in any way, seeding rows as they go and broken off at
   * any point: stock is never oversold at any step, and the outcome is that of the commit order run serially.
   */
  lemma ConcurrentReservesNeverOversell(start: Store, txns: seq<Txn>, schedule: seq<Act>)
    requires forall p :: p in start.stock ==> start.stock[p].Free() >= 0
    requires forall i :: 0 <= i < |txns| ==> txns[i].phase == Running(0)
    ensures var db := Interleave(Database(start.stock, map[], start.reservations, txns, []), schedule);
            Sound(start, db) && Serial(start, db)
  {
    var db := Database(start.stock, map[], start.reservations, txns, []);
    forall p ensures AllPending(txns, p) == 0 {
      NothingPending(txns, p);
    }
    InterleavingIsSound(start, db, schedule);
  }

  /** The next line has to wait for a row that another transaction has inserted. */
  predicate Waits(db: Database, i: nat) {
    && i < |db.txns| && db.txns[i].phase.Running? && db.txns[i].phase.done < |db.txns[i].items|
    && Blocked(db, i, db.txns[i].items[db.txns[i].phase.done])
  }

  /**
   * A running transaction that is not broken off stands still exactly while it waits, aborts exactly if its
   * next line does not fit the free rows or, after the last line, if the order has a reservation, and
   * otherwise goes on: to the next line, or to its commit.
   */
  lemma NextStatement(db: Database, i: nat)
    requires i < |db.txns| && db.txns[i].phase.Running? && db.txns[i].phase.done <= |db.txns[i].items|
    ensures var (txn, phase) := (db.txns[i], Step(db, Next(i)).txns[i].phase);
            if txn.phase.done < |txn.items| then
              && (Waits(db, i) ==> Step(db, Next(i)) == db)
              && (phase.Aborted? <==> !Waits(db, i) && !Fits(db.rows, [txn.items[txn.phase.done]]))
              && (!Waits(db, i) && !phase.Aborted? ==> phase == Running(txn.phase.done + 1))
            else
              phase == if txn.order in db.reservations then Aborted else Committed
    ensures forall j :: 0 <= j < |db.txns| && j != i ==> Step(db, Next(i)).txns[j] == db.txns[j]
  {
    var txn := db.txns[i];
    if txn.phase.done < |txn.items| {
      OneLineFits(db.rows, txn.items[txn.phase.done]);
    }
  }

  lemma OneLineFits(rows: Stock, item: Item)
    ensures Fits(rows, [item])
       <==> IsPositiveInteger(item.quantity) && Units(item) <= Effective(rows, item.product).Free()
  {
    assert [item][..0] == [];
    assert Demand([item], item.product) == Units(item);
    assert [item][0] == item;
  }

  function Nexts(n: nat): seq<Act> {
    if n == 0 then [] else [Next(0)] + Nexts(n - 1)
  }

  function Alone(store: Store, txn: Txn): Database {
    Database(store.stock, map[], store.reservations, [txn], [])
  }

  /** The rows that the one transaction has seeded. */
  function Seeds(before: Stock, rows: Stock): map<ProductId, nat> {
    map p | p in rows && p !in before :: 0
  }

  lemma SeedsGrow(before: Stock, rows: Stock, p: ProductId, row: Counters)
    requires before.Keys <= rows.Keys
    ensures Seeds(before, rows[p := row]) == if p in rows then Seeds(before, rows) else Seeds(before, rows)[p := 0]
  {
  }

  /** The one transaction after its first n lines. */
  function AloneAt(store: Store, order: OrderId, items: seq<Item>, n: nat): Database
    requires n <= |items| && ReserveAll(store.stock, items[..n]).Done?
  {
    var rows := ReserveAll(store.stock, items[..n]).stock;
    Alone(store, Txn(order, items, Running(n))).(rows := rows, seeders := Seeds(store.stock, rows))
  }

  /** An abort leaves the tables as they were, seeded rows included. */
  lemma AloneAborts(store: Store, order: OrderId, items: seq<Item>, n: nat)
    requires n <= |items| && ReserveAll(store.stock, items[..n]).Done?
    ensures Abort(AloneAt(store, order, items, n), 0) == Alone(store, Txn(order, items, Aborted))
  {
    var (db, mine) := (AloneAt(store, order, items, n), items[..n]);
    StockLaws.ReleaseAllEffect(db.rows, mine);
    LoopMeetsTest(store.stock, mine);
    var after := Abort(db, 0);
    forall p
      ensures p in after.rows <==> p in store.stock
      ensures p in after.rows ==> after.rows[p] == store.stock[p]
    {
      assert p in store.stock ==> Effective(db.rows, p) == db.rows[p];
    }
    assert after.rows == store.stock;
    assert after.seeders == map[];
    assert after.txns == [Txn(order, items, Aborted)];
  }

  lemma AloneGoesOn(db: Database, before: Stock, txn: Txn, rows: Stock)
    requires txn.phase.Running? && txn.phase.done < |txn.items|
    requires db.txns == [txn] && db.seeders == Seeds(before, db.rows) && before.Keys <= db.rows.Keys
    requires ReserveOne(db.rows, txn.items[txn.phase.done]) == Done(rows)
    ensures Step(db, Next(0))
         == db.(rows := rows, seeders := Seeds(before, rows), txns := [txn.(phase := Running(txn.phase.done + 1))])
  {
    var item := txn.items[txn.phase.done];
    var row := Effective(db.rows, item.product);
    SeedsGrow(before, db.rows, item.product, row.(reserved := row.reserved + Units(item)));
    assert !Blocked(db, 0, item);
  }

  lemma AloneStep(store: Store, order: OrderId, items: seq<Item>, n: nat)
    requires n < |items| && ReserveAll(store.stock, items[..n]).Done?
    ensures Step(AloneAt(store, order, items, n), Next(0))
         == if ReserveAll(store.stock, items[..n + 1]).Done? then AloneAt(store, order, items, n + 1)
            else Alone(store, Txn(order, items, Aborted))
  {
    var db := AloneAt(store, order, items, n);
    assert items[..n + 1][..n] == items[..n];
    if ReserveAll(store.stock, items[..n + 1]).Done? {
      LoopMeetsTest(store.stock, items[..n]);
      assert forall p :: p in store.stock ==> p in db.rows;
      AloneGoesOn(db, store.stock, db.txns[0], ReserveAll(store.stock, items[..n + 1]).stock);
    } else {
      AloneAborts(store, order, items, n);
      assert !Blocked(db, 0, items[n]);
    }
  }

  lemma {:induction false} EndedStays(db: Database, n: nat)
    requires |db.txns| == 1 && !db.txns[0].phase.Running?
    ensures Interleave(db, Nexts(n)) == db
  {
    if n > 0 {
      assert Nexts(n)[1..] == Nexts(n - 1);
      EndedStays(db, n - 1);
    }
  }

  /** How a reserve transaction that is alone has to end. */
  function Ended(store: Store, order: OrderId, items: seq<Item>): Database {
    match ReserveAll(store.stock, items)
    case Done(rows) =>
      if order in store.reservations then Alone(store, Txn(order, items, Aborted))
      else
        Database(rows, map[], store.reservations[order := Reservation(items, Reserved)],
                 [Txn(order, items, Committed)], [ReserveRequest(order, items)])
    case Refused(_) => Alone(store, Txn(order, items, Aborted))
  }

  lemma {:induction false} AloneCommits(store: Store, order: OrderId, items: seq<Item>)
    requires ReserveAll(store.stock, items).Done?
    ensures items[..|items|] == items
    ensures Step(AloneAt(store, order, items, |items|), Next(0)) == Ended(store, order, items)
  {
    assert items[..|items|] == items;
    var db := AloneAt(store, order, items, |items|);
    if order in store.reservations {
      AloneAborts(store, order, items, |items|);
    } else {
      assert db.seeders - SeededBy(db, 0) == map[];
      assert Commit(db, 0).txns == [Txn(order, items, Committed)];
      assert Commit(db, 0).log == [ReserveRequest(order, items)];
    }
  }

  /** The statements after the next one. */
  lemma NextFirst(db: Database, n: nat)
    requires n > 0
    ensures Interleave(db, Nexts(n)) == Interleave(Step(db, Next(0)), Nexts(n - 1))
  {
    assert Nexts(n)[0] == Next(0) && Nexts(n)[1..] == Nexts(n - 1);
  }

  /** The next statement takes the transaction to its next line or to its end. */
  lemma AloneNext(store: Store, order: OrderId, items: seq<Item>, n: nat)
    requires n <= |items| && ReserveAll(store.stock, items[..n]).Done?
    ensures var next := Step(AloneAt(store, order, items, n), Next(0));
            || next == Ended(store, order, items)
            || (n < |items| && ReserveAll(store.stock, items[..n + 1]).Done?
                && next == AloneAt(store, order, items, n + 1))
  {
    if n == |items| {
      assert items[..n] == items;
      AloneCommits(store, order, items);
    } else {
      AloneStep(store, order, items, n);
      if ReserveAll(store.stock, items[..n + 1]).Refused? {
        RefusalIsFinal(store.stock, items, n + 1);
      }
    }
  }

  predicate IsAloneAt(db: Database, store: Store, order: OrderId, items: seq<Item>, n: nat) {
    n <= |items| && ReserveAll(store.stock, items[..n]).Done? && db == AloneAt(store, order, items, n)
  }

  lemma {:induction false} AloneRuns(
      db: Database, store: Store, order: OrderId, items: seq<Item>, n: nat, end: Database, m: nat)
    requires IsAloneAt(db, store, order, items, n) && end == Ended(store, order, items) && m > |items| - n
    ensures Interleave(db, Nexts(m)) == end
    decreases m
  {
    NextFirst(db, m);
    AloneNext(store, order, items, n);
    var next := Step(db, Next(0));
    if next == end {
      EndedStays(end, m - 1);
    } else {
      AloneRuns(next, store, order, items, n + 1, end, m - 1);
    }
  }

  /**
   * A transaction that runs alone commits exactly if its order is new and its list fits; then the demand is
   * added to the reserved counters, otherwise no table changes.
   */
  lemma AloneCommitsIff(store: Store, order: OrderId, items: seq<Item>)
    ensures var db := Interleave(Alone(store, Txn(order, items, Running(0))), Nexts(|items| + 1));
            if order !in store.reservations && Fits(store.stock, items) then
              && db.txns == [Txn(order, items, Committed)] && db.log == [ReserveRequest(order, items)]
              && Books(store.stock, db.rows, items) && db.seeders == map[]
              && db.reservations == store.reservations[order := Reservation(items, Reserved)]
            else
              db == Alone(store, Txn(order, items, Aborted))
  {
    assert items[..0] == [];
    assert AloneAt(store, order, items, 0) == Alone(store, Txn(order, items, Running(0)));
    AloneRuns(AloneAt(store, order, items, 0), store, order, items, 0, Ended(store, order, items), |items| + 1);
    LoopMeetsTest(store.stock, items);
  }
}
