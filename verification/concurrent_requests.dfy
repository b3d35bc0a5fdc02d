/**
 * reserve, confirm and release at once, one statement at a time. A transaction sees what is committed and
 * what it has written itself, a row it has written is locked to the others until it ends, and a rollback
 * drops what it has written. All three handlers read the reservation before their transaction starts, and
 * confirm and release trust what was read: this module says exactly when that goes well.
 */
module ConcurrentRequests {
  import opened Domain
  import opened Inventory
  import opened ReserveTest
  import opened StockLaws

  /** About to read the reservation; in the transaction, with `done` lines dealt with and `work` written; or through. */
  datatype Phase = Reading | Working(items: seq<Item>, done: nat, work: Stock) | Finished

  datatype Handler = Handler(request: Request, phase: Phase)

  /** The committed tables, and the requests in the order in which their transactions committed. */
  datatype Database = Database(store: Store, handlers: seq<Handler>, log: seq<Request>)

  /** The next statement of handler i, or a database error, deadlock or unique violation that rolls it back. */
  datatype Act = Next(i: nat) | Break(i: nat)

  function Work(h: Handler): Stock {
    if h.phase.Working? then h.phase.work else map[]
  }

  /** Another transaction has written the product's row and not ended. */
  predicate Blocked(db: Database, i: nat, p: ProductId) {
    exists j :: 0 <= j < |db.handlers| && j != i && p in Work(db.handlers[j])
  }

  function Turn(db: Database, i: nat, phase: Phase): Database
    requires i < |db.handlers|
  {
    db.(handlers := db.handlers[i := db.handlers[i].(phase := phase)])
  }

  /** The lines that the transaction goes through: the request's own, or those of the reservation as read. */
  function Lines(store: Store, request: Request): seq<Item>
    requires request.ReserveRequest? || request.order in store.reservations
  {
    if request.ReserveRequest? then request.items else store.reservations[request.order].items
  }

  function Look(db: Database, i: nat): Database
    requires i < |db.handlers|
  {
    var request := db.handlers[i].request;
    if Transacts(db.store, request) then Turn(db, i, Working(Lines(db.store, request), 0, map[]))
    else Turn(db, i, Finished)
  }

  /** One line, given the rows that the transaction sees. */
  function RunLine(request: Request, rows: Stock, item: Item): Attempt {
    match request
    case ReserveRequest(_, _) => ReserveOne(rows, item)
    case ConfirmRequest(_) => Done(ConfirmOne(rows, item))
    case ReleaseRequest(_) => Done(ReleaseOne(rows, item))
  }

  function Update(db: Database, i: nat): Database
    requires i < |db.handlers| && db.handlers[i].phase.Working?
    requires db.handlers[i].phase.done < |db.handlers[i].phase.items|
  {
    var (request, items, done, work) :=
      (db.handlers[i].request, db.handlers[i].phase.items, db.handlers[i].phase.done, db.handlers[i].phase.work);
    var p := items[done].product;
    if request.ReserveRequest? && !IsPositiveInteger(items[done].quantity) then Turn(db, i, Finished)
    else if Blocked(db, i, p) then db
    else
      match RunLine(request, db.store.stock + work, items[done])
      case Refused(_) => Turn(db, i, Finished)
      case Done(rows) => Turn(db, i, Working(items, done + 1, if p in rows then work[p := rows[p]] else work))
  }

  function StatusAfter(request: Request): ReservationStatus {
    match request
    case ReserveRequest(_, _) => Reserved
    case ConfirmRequest(_) => Confirmed
    case ReleaseRequest(_) => Released
  }

  /** The reservation is saved and the transaction commits; the unique orderId stops a second reservation. */
  function Commit(db: Database, i: nat): Database
    requires i < |db.handlers| && db.handlers[i].phase.Working?
  {
    var (request, phase) := (db.handlers[i].request, db.handlers[i].phase);
    if request.ReserveRequest? && request.order in db.store.reservations then Turn(db, i, Finished)
    else
      var reservation := Reservation(phase.items, StatusAfter(request));
      Database(Store(db.store.stock + phase.work, db.store.reservations[request.order := reservation]),
               Turn(db, i, Finished).handlers, db.log + [request])
  }

  function Step(db: Database, act: Act): Database {
    if act.i >= |db.handlers| || db.handlers[act.i].phase.Finished? then db
    else if act.Break? then Turn(db, act.i, Finished)
    else if db.handlers[act.i].phase.Reading? then Look(db, act.i)
    else if db.handlers[act.i].phase.done < |db.handlers[act.i].phase.items| then Update(db, act.i)
    else Commit(db, act.i)
  }

  function Interleave(db: Database, schedule: seq<Act>): Database
    decreases |schedule|
  {
    if schedule == [] then db else Interleave(Step(db, schedule[0]), schedule[1..])
  }

  /** A row after a request has dealt with d units of it. */
  function Shifted(row: Counters, request: Request, d: int): Counters {
    match request
    case ReserveRequest(_, _) => row.(reserved := row.reserved + d)
    case ConfirmRequest(_) => Counters(row.available - d, row.reserved - d)
    case ReleaseRequest(_) => row.(reserved := row.reserved - d)
  }

  function Handled(h: Handler): seq<Item> {
    if h.phase.Working? && h.phase.done <= |h.phase.items| then h.phase.items[..h.phase.done] else []
  }

  function Products(items: seq<Item>): set<ProductId> {
    set k | 0 <= k < |items| :: items[k].product
  }

  /** What a transaction has written is its lines' rows as committed, moved by the lines it has dealt with. */
  predicate Written(stock: Stock, h: Handler) {
    && Work(h).Keys == Products(Handled(h))
    && forall p :: p in Work(h) ==>
         && Work(h)[p] == Shifted(Effective(stock, p), h.request, Demand(Handled(h), p))
         && (if h.request.ReserveRequest? then Work(h)[p].Free() >= 0 else p in stock)
  }

  predicate Sane(store: Store, h: Handler) {
    h.phase.Working? ==>
      && h.phase.done <= |h.phase.items|
      && (if h.request.ReserveRequest? then h.phase.items == h.request.items && AllPositive(Handled(h))
          else h.request.order in store.reservations
               && store.reservations[h.request.order].items == h.phase.items)
  }

  ghost predicate Orderly(db: Database) {
    && Grounded(db.store)
    && (forall i :: 0 <= i < |db.handlers| ==> Sane(db.store, db.handlers[i]))
    && (forall i :: 0 <= i < |db.handlers| ==> Written(db.store.stock, db.handlers[i]))
    && forall i, j :: 0 <= i < j < |db.handlers| ==> Work(db.handlers[i]).Keys !! Work(db.handlers[j]).Keys
  }

  /** The action commits a confirm or release though the reservation is not RESERVED, or no longer. */
  predicate Overtaken(db: Database, act: Act) {
    && act.Next? && act.i < |db.handlers| && db.handlers[act.i].phase.Working?
    && var h := db.handlers[act.i];
       && h.phase.done >= |h.phase.items|
       && !h.request.ReserveRequest?
       && h.request.order in db.store.reservations
       && db.store.reservations[h.request.order].status != Reserved
  }

  /** The action commits a confirm or release that the reservation, as it is by now, does not call for. */
  predicate Outdated(db: Database, act: Act) {
    && act.Next? && act.i < |db.handlers| && db.handlers[act.i].phase.Working?
    && var h := db.handlers[act.i];
       && h.phase.done >= |h.phase.items|
       && !h.request.ReserveRequest?
       && !Transacts(db.store, h.request)
  }

  /** The action commits a confirm or release on a reservation that is not RESERVED, with goods to move. */
  predicate Miscounts(db: Database, act: Act) {
    Overtaken(db, act) && db.handlers[act.i].phase.items != []
  }

  lemma TurnIsOrderly(db: Database, i: nat, phase: Phase)
    requires Orderly(db) && i < |db.handlers|
    requires var h := db.handlers[i].(phase := phase);
             && Sane(db.store, h) && Written(db.store.stock, h)
             && forall p :: p in Work(h) && p !in Work(db.handlers[i]) ==> !Blocked(db, i, p)
    ensures Orderly(Turn(db, i, phase))
  {
  }

  lemma NoDemand(items: seq<Item>, p: ProductId)
    requires p !in Products(items)
    ensures Demand(items, p) == 0
  {
    forall k | 0 <= k < |items| ensures items[k].product != p {
      assert items[k].product in Products(items);
    }
    DemandOfAbsent(items, p);
  }

  /** The rows that a transaction sees: its own lines are in them. */
  lemma Seen(stock: Stock, h: Handler, p: ProductId)
    requires Written(stock, h)
    ensures Effective(stock + Work(h), p) == Shifted(Effective(stock, p), h.request, Demand(Handled(h), p))
  {
    if p !in Work(h) {
      NoDemand(Handled(h), p);
    }
  }

  lemma NextHandled(h: Handler, work: Stock)
    requires h.phase.Working? && h.phase.done < |h.phase.items|
    ensures var item := h.phase.items[h.phase.done];
            var next := h.(phase := Working(h.phase.items, h.phase.done + 1, work));
            && Handled(next) == Handled(h) + [item]
            && Products(Handled(next)) == Products(Handled(h)) + {item.product}
            && forall p :: Demand(Handled(next), p) == Demand(Handled(h), p) + Share(item, p)
  {
    var (before, item) := (Handled(h), h.phase.items[h.phase.done]);
    assert h.phase.items[..h.phase.done + 1] == before + [item];
    assert (before + [item])[..|before|] == before;
    forall p ensures p in Products(before + [item]) <==> p in Products(before) || p == item.product {
      assert (before + [item])[|before|] == item;
      if k :| 0 <= k < |before| && before[k].product == p {
        assert (before + [item])[k].product == p;
      }
    }
  }

  lemma LineShifts(request: Request, rows: Stock, item: Item, p: ProductId)
    requires RunLine(request, rows, item).Done? && (request.ReserveRequest? || item.product in rows)
    ensures var after := RunLine(request, rows, item).stock;
            && item.product in after
            && Effective(after, p) == Shifted(Effective(rows, p), request, Share(item, p))
            && (request.ReserveRequest? ==> after[item.product].Free() >= 0)
  {
  }

  lemma ShiftedTwice(row: Counters, request: Request, d: int, more: int)
    ensures Shifted(Shifted(row, request, d), request, more) == Shifted(row, request, d + more)
  {
  }

  /** One row of the work after the next line: the line's own, moved once more, or another, left alone. */
  lemma NextRow(stock: Stock, h: Handler, p: ProductId, row: Counters, q: ProductId)
    requires Written(stock, h) && h.phase.Working? && h.phase.done < |h.phase.items|
    requires p == h.phase.items[h.phase.done].product && (q == p || q in Work(h))
    requires row == Shifted(Effective(stock + Work(h), p), h.request, Share(h.phase.items[h.phase.done], p))
    ensures Work(h)[p := row][q]
         == Shifted(Effective(stock, q), h.request, Demand(Handled(h), q) + Share(h.phase.items[h.phase.done], q))
  {
    Seen(stock, h, p);
    ShiftedTwice(Effective(stock, q), h.request, Demand(Handled(h), q), Share(h.phase.items[h.phase.done], q));
  }

  lemma NextIsWritten(stock: Stock, h: Handler, p: ProductId, row: Counters)
    requires Written(stock, h) && h.phase.Working? && h.phase.done < |h.phase.items|
    requires p == h.phase.items[h.phase.done].product
    requires row == Shifted(Effective(stock + Work(h), p), h.request, Share(h.phase.items[h.phase.done], p))
    requires if h.request.ReserveRequest? then row.Free() >= 0 else p in stock
    ensures Written(stock, h.(phase := Working(h.phase.items, h.phase.done + 1, h.phase.work[p := row])))
  {
    var next := h.(phase := Working(h.phase.items, h.phase.done + 1, h.phase.work[p := row]));
    NextHandled(h, h.phase.work[p := row]);
    assert Work(next).Keys == Products(Handled(next));
    forall q | q in Work(next)
      ensures Work(next)[q] == Shifted(Effective(stock, q), h.request, Demand(Handled(next), q))
    {
      NextRow(stock, h, p, row, q);
    }
  }

  lemma LineIsWritten(store: Store, h: Handler, rows: Stock)
    requires Grounded(store) && Sane(store, h) && Written(store.stock, h)
    requires h.phase.Working? && h.phase.done < |h.phase.items|
    requires RunLine(h.request, store.stock + h.phase.work, h.phase.items[h.phase.done]) == Done(rows)
    ensures var p := h.phase.items[h.phase.done].product;
            && p in rows
            && Written(store.stock, h.(phase := Working(h.phase.items, h.phase.done + 1, h.phase.work[p := rows[p]])))
  {
    var item := h.phase.items[h.phase.done];
    assert !h.request.ReserveRequest? ==> item.product in store.stock;
    LineShifts(h.request, store.stock + h.phase.work, item, item.product);
    assert rows[item.product] == Effective(rows, item.product);
    NextIsWritten(store.stock, h, item.product, rows[item.product]);
  }

  lemma UpdateIsOrderly(db: Database, i: nat)
    requires Orderly(db) && i < |db.handlers| && db.handlers[i].phase.Working?
    requires db.handlers[i].phase.done < |db.handlers[i].phase.items|
    ensures Orderly(Update(db, i)) && Update(db, i).store == db.store
  {
    var (h, p) := (db.handlers[i], db.handlers[i].phase.items[db.handlers[i].phase.done].product);
    TurnIsOrderly(db, i, Finished);
    if !Blocked(db, i, p) {
      var attempt := RunLine(h.request, db.store.stock + h.phase.work, h.phase.items[h.phase.done]);
      if attempt.Done? {
        LineIsOrderly(db, i, attempt.stock);
      }
    }
  }

  lemma LineIsOrderly(db: Database, i: nat, rows: Stock)
    requires Orderly(db) && i < |db.handlers| && db.handlers[i].phase.Working?
    requires db.handlers[i].phase.done < |db.handlers[i].phase.items|
    requires var (h, item) := (db.handlers[i], db.handlers[i].phase.items[db.handlers[i].phase.done]);
             && !Blocked(db, i, item.product)
             && RunLine(h.request, db.store.stock + h.phase.work, item) == Done(rows)
             && (h.request.ReserveRequest? ==> IsPositiveInteger(item.quantity))
    ensures var (items, done, work) :=
              (db.handlers[i].phase.items, db.handlers[i].phase.done, db.handlers[i].phase.work);
            var p := items[done].product;
            p in rows && Orderly(Turn(db, i, Working(items, done + 1, work[p := rows[p]])))
  {
    var h := db.handlers[i];
    assert Sane(db.store, h) && Written(db.store.stock, h);
    var (items, done) := (h.phase.items, h.phase.done);
    LineIsWritten(db.store, h, rows);
    NextIsSane(db.store, h, h.phase.work[items[done].product := rows[items[done].product]]);
    TurnIsOrderly(db, i, Working(items, done + 1, h.phase.work[items[done].product := rows[items[done].product]]));
  }

  lemma NextIsSane(store: Store, h: Handler, work: Stock)
    requires Sane(store, h) && h.phase.Working? && h.phase.done < |h.phase.items|
    requires h.request.ReserveRequest? ==> IsPositiveInteger(h.phase.items[h.phase.done].quantity)
    ensures Sane(store, h.(phase := Working(h.phase.items, h.phase.done + 1, work)))
  {
    NextHandled(h, work);
  }

  /** What a commit makes of the committed rows: those before, moved by the demand of all lines. */
  lemma CommitShifts(db: Database, i: nat, p: ProductId)
    requires Orderly(db) && i < |db.handlers| && db.handlers[i].phase.Working?
    requires db.handlers[i].phase.done == |db.handlers[i].phase.items|
    ensures var h := db.handlers[i];
            && Effective(db.store.stock + Work(h), p)
               == Shifted(Effective(db.store.stock, p), h.request, Demand(h.phase.items, p))
            && (p in db.store.stock + Work(h) <==> p in db.store.stock || p in Products(h.phase.items))
  {
    var h := db.handlers[i];
    assert Sane(db.store, h) && Written(db.store.stock, h);
    assert Handled(h) == h.phase.items;
    Seen(db.store.stock, h, p);
  }

  /** A reserve transaction that has got through its lines fits the rows committed by then. */
  lemma ReserveFits(db: Database, i: nat)
    requires Orderly(db) && i < |db.handlers| && db.handlers[i].phase.Working? && db.handlers[i].request.ReserveRequest?
    requires db.handlers[i].phase.done == |db.handlers[i].phase.items|
    ensures Fits(db.store.stock, db.handlers[i].request.items)
  {
    var (h, stock) := (db.handlers[i], db.store.stock);
    var items := h.phase.items;
    assert Sane(db.store, h) && Written(stock, h) && Handled(h) == items;
    forall k | 0 <= k < |items| ensures Demand(items, items[k].product) <= Effective(stock, items[k].product).Free() {
      assert items[k].product in Products(items);
    }
  }

  /** Rows that agree once every missing one is read as seeded, and that are the same ones, are the same. */
  lemma SameRows(a: Stock, b: Stock)
    requires forall p :: p in a <==> p in b
    requires forall p :: Effective(a, p) == Effective(b, p)
    ensures a == b
  {
    forall p | p in a ensures a[p] == b[p] {
      assert Effective(a, p) == Effective(b, p);
    }
  }

  /** What a reserve transaction has written at its commit is what the request would write on its own. */
  lemma ReserveCommits(db: Database, i: nat)
    requires Orderly(db) && i < |db.handlers| && db.handlers[i].phase.Working?
    requires db.handlers[i].phase.done == |db.handlers[i].phase.items|
    requires db.handlers[i].request.ReserveRequest? && db.handlers[i].request.order !in db.store.reservations
    ensures (Commit(db, i).store, Reply(true, NoReason)) == Serve(db.store, db.handlers[i].request)
  {
    var (h, stock) := (db.handlers[i], db.store.stock);
    var items := h.request.items;
    assert Sane(db.store, h);
    ReserveFits(db, i);
    LoopMeetsTest(stock, items);
    ReservedRows(db, i, ReserveAll(stock, items).stock);
  }

  lemma ReservedRows(db: Database, i: nat, after: Stock)
    requires Orderly(db) && i < |db.handlers| && db.handlers[i].phase.Working? && db.handlers[i].request.ReserveRequest?
    requires db.handlers[i].phase.done == |db.handlers[i].phase.items|
    requires Books(db.store.stock, after, db.handlers[i].phase.items)
    ensures after == db.store.stock + Work(db.handlers[i])
  {
    var (h, stock) := (db.handlers[i], db.store.stock);
    forall p
      ensures p in after <==> p in stock + Work(h)
      ensures Effective(after, p) == Effective(stock + Work(h), p)
    {
      CommitShifts(db, i, p);
      assert p in after <==> p in stock || p in Products(h.phase.items);
    }
    SameRows(after, stock + Work(h));
  }

  /** The same for a confirm or release that finds its reservation as the read promised. */
  lemma SettlingCommits(db: Database, i: nat)
    requires Orderly(db) && i < |db.handlers| && db.handlers[i].phase.Working?
    requires db.handlers[i].phase.done == |db.handlers[i].phase.items|
    requires !db.handlers[i].request.ReserveRequest? && !Outdated(db, Next(i))
    ensures (Commit(db, i).store, Reply(true, NoReason)) == Serve(db.store, db.handlers[i].request)
  {
    var (h, stock) := (db.handlers[i], db.store.stock);
    var items := h.phase.items;
    assert Sane(db.store, h) && Written(stock, h);
    ConfirmAllEffect(stock, items);
    ReleaseAllEffect(stock, items);
    var after := if h.request.ConfirmRequest? then ConfirmAll(stock, items) else ReleaseAll(stock, items);
    forall p
      ensures p in after <==> p in stock + Work(h)
      ensures p in after ==> after[p] == (stock + Work(h))[p]
    {
      CommitShifts(db, i, p);
      assert p in stock ==> Effective(after, p) == after[p];
    }
    assert after == stock + Work(h);
  }

  lemma CommitIsServe(db: Database, i: nat)
    requires Orderly(db) && i < |db.handlers| && db.handlers[i].phase.Working?
    requires db.handlers[i].phase.done == |db.handlers[i].phase.items|
    requires Commit(db, i).log != db.log && !Outdated(db, Next(i))
    ensures (Commit(db, i).store, Reply(true, NoReason)) == Serve(db.store, db.handlers[i].request)
  {
    if db.handlers[i].request.ReserveRequest? {
      ReserveCommits(db, i);
    } else {
      SettlingCommits(db, i);
    }
  }

  /** The rows that others have written are not touched by a commit. */
  lemma OthersStayWritten(db: Database, i: nat, j: nat)
    requires Orderly(db) && i < |db.handlers| && j < |db.handlers| && i != j
    ensures Written(db.store.stock + Work(db.handlers[i]), db.handlers[j])
  {
    var (mine, other) := (Work(db.handlers[i]), db.handlers[j]);
    assert Written(db.store.stock, other);
    assert mine.Keys !! Work(other).Keys by {
      assert if i < j then mine.Keys !! Work(db.handlers[j]).Keys else Work(db.handlers[j]).Keys !! mine.Keys;
    }
    forall p | p in Work(other) ensures Effective(db.store.stock + mine, p) == Effective(db.store.stock, p) {
      assert p !in mine;
    }
  }

  lemma CommitIsOrderly(db: Database, i: nat)
    requires Orderly(db) && i < |db.handlers| && db.handlers[i].phase.Working?
    requires db.handlers[i].phase.done == |db.handlers[i].phase.items|
    ensures Orderly(Commit(db, i))
  {
    var (h, after) := (db.handlers[i], Commit(db, i));
    assert Sane(db.store, h);
    TurnIsOrderly(db, i, Finished);
    if after.log != db.log {
      CommitIsGrounded(db, i);
      forall j | 0 <= j < |db.handlers|
        ensures Sane(after.store, after.handlers[j]) && Written(after.store.stock, after.handlers[j])
      {
        assert Sane(db.store, db.handlers[j]);
        if j != i {
          OthersStayWritten(db, i, j);
        }
      }
    }
  }

  lemma CommitIsGrounded(db: Database, i: nat)
    requires Orderly(db) && i < |db.handlers| && db.handlers[i].phase.Working?
    requires db.handlers[i].phase.done == |db.handlers[i].phase.items|
    ensures Grounded(Commit(db, i).store)
  {
    var h := db.handlers[i];
    assert Sane(db.store, h) && Written(db.store.stock, h) && Handled(h) == h.phase.items;
    assert forall k :: 0 <= k < |h.phase.items| ==> h.phase.items[k].product in Products(h.phase.items);
  }

  lemma StepIsOrderly(db: Database, act: Act)
    requires Orderly(db)
    ensures Orderly(Step(db, act))
    ensures Step(db, act).log == db.log ==> Step(db, act).store == db.store
  {
    if act.i < |db.handlers| && !db.handlers[act.i].phase.Finished? {
      var h := db.handlers[act.i];
      assert Sane(db.store, h);
      if act.Break? {
        TurnIsOrderly(db, act.i, Finished);
      } else if h.phase.Reading? {
        TurnIsOrderly(db, act.i, Look(db, act.i).handlers[act.i].phase);
      } else if h.phase.done < |h.phase.items| {
        UpdateIsOrderly(db, act.i);
      } else {
        CommitIsOrderly(db, act.i);
      }
    }
  }

  /** An overtaken commit takes goods from counters that no longer hold them. */
  lemma OvertakenCommit(seed: Stock, db: Database, i: nat)
    requires Orderly(db) && Conserved(seed, db.store) && Overtaken(db, Next(i))
    requires db.handlers[i].phase.done == |db.handlers[i].phase.items|
    ensures Conserved(seed, Commit(db, i).store) <==> db.handlers[i].phase.items == []
  {
    var (h, after) := (db.handlers[i], Commit(db, i));
    var (rs, items) := (db.store.reservations, h.phase.items);
    assert Sane(db.store, h);
    CommitIsGrounded(db, i);
    forall p
      ensures Held(after.store.reservations, Reserved, p) == Held(rs, Reserved, p)
      ensures items == [] ==> Held(after.store.reservations, Confirmed, p) == Held(rs, Confirmed, p)
    {
      HeldUpdate(rs, h.request.order, after.store.reservations[h.request.order], Reserved, p);
      HeldUpdate(rs, h.request.order, after.store.reservations[h.request.order], Confirmed, p);
    }
    forall p ensures Effective(after.store.stock, p)
                  == Shifted(Effective(db.store.stock, p), h.request, Demand(items, p))
    {
      CommitShifts(db, i, p);
    }
    if items != [] {
      DemandNonNegative(items, items[0].product);
      assert Effective(after.store.stock, items[0].product).reserved
           < Held(after.store.reservations, Reserved, items[0].product);
    }
  }

  lemma StepConservesIff(seed: Stock, db: Database, act: Act)
    requires Orderly(db) && Conserved(seed, db.store)
    ensures Orderly(Step(db, act))
    ensures Conserved(seed, Step(db, act).store) <==> !Miscounts(db, act)
  {
    StepIsOrderly(db, act);
    if Step(db, act).log != db.log {
      assert Sane(db.store, db.handlers[act.i]);
      if Overtaken(db, act) {
        OvertakenCommit(seed, db, act.i);
      } else {
        CommitIsServe(db, act.i);
        ServeConservesIff(seed, db.store, db.handlers[act.i].request);
      }
    }
  }

  /** The committed tables are right after every statement. */
  ghost predicate AlwaysConservedHere(seed: Stock, db: Database, schedule: seq<Act>)
    decreases |schedule|
  {
    Conserved(seed, db.store) && (schedule != [] ==> AlwaysConservedHere(seed, Step(db, schedule[0]), schedule[1..]))
  }

  predicate NeverMiscounts(db: Database, schedule: seq<Act>)
    decreases |schedule|
  {
    schedule != [] ==> !Miscounts(db, schedule[0]) && NeverMiscounts(Step(db, schedule[0]), schedule[1..])
  }

  /**
   * Any number of reserve, confirm and release handlers, interleaved in any way and broken off at any point:
   * stock is conserved throughout exactly if no confirm or release of goods commits on a reservation that is
   * not RESERVED.
   */
  lemma {:induction false} InterleavingConservesIff(seed: Stock, db: Database, schedule: seq<Act>)
    requires Orderly(db) && Conserved(seed, db.store)
    ensures AlwaysConservedHere(seed, db, schedule) <==> NeverMiscounts(db, schedule)
    decreases |schedule|
  {
    if schedule != [] {
      StepConservesIff(seed, db, schedule[0]);
      if !Miscounts(db, schedule[0]) {
        InterleavingConservesIff(seed, Step(db, schedule[0]), schedule[1..]);
      }
    }
  }

  predicate NeverOutdated(db: Database, schedule: seq<Act>)
    decreases |schedule|
  {
    schedule != [] ==> !Outdated(db, schedule[0]) && NeverOutdated(Step(db, schedule[0]), schedule[1..])
  }

  /** Served one after the other, the committed requests are all granted and leave the committed tables. */
  predicate Serial(start: Store, db: Database) {
    var (after, replies) := ServeAll(start, db.log);
    after == db.store && forall i :: 0 <= i < |replies| ==> replies[i] == Reply(true, NoReason)
  }

  lemma ServeLast(store: Store, run: seq<Request>, request: Request)
    ensures var (mid, replies) := ServeAll(store, run);
            var (last, reply) := Serve(mid, request);
            ServeAll(store, run + [request]) == (last, replies + [reply])
  {
    var mid := ServeAll(store, run).0;
    ServeConcat(store, run, [request]);
    ServeFirst(mid, request, []);
    assert [request] + [] == [request];
    assert [Serve(mid, request).1] + [] == [Serve(mid, request).1];
  }

  /** If no commit is outdated, the transactions might as well have run one after the other. */
  lemma {:induction false} InterleavingIsSerial(start: Store, db: Database, schedule: seq<Act>)
    requires Orderly(db) && Serial(start, db) && NeverOutdated(db, schedule)
    ensures Serial(start, Interleave(db, schedule))
    decreases |schedule|
  {
    if schedule != [] {
      var act := schedule[0];
      StepIsOrderly(db, act);
      if Step(db, act).log != db.log {
        assert Sane(db.store, db.handlers[act.i]);
        CommitIsServe(db, act.i);
        ServeLast(start, db.log, db.handlers[act.i].request);
      }
      InterleavingIsSerial(start, Step(db, act), schedule[1..]);
    }
  }

  /** What a confirm or release that has its order to itself relies on. */
  predicate Undisturbed(store: Store, h: Handler) {
    var (o, rs) := (h.request.order, store.reservations);
    match h.phase
    case Reading => h.request.ConfirmRequest? && o in rs ==> rs[o].status != Released
    case Working(_, _, _) => !h.request.ReserveRequest? ==> o in rs && rs[o].status == Reserved
    case Finished => true
  }

  /** No two confirm or release requests are for the same order. */
  predicate Apart(handlers: seq<Handler>) {
    forall i, j :: 0 <= i < j < |handlers| ==>
      || handlers[i].request.ReserveRequest? || handlers[j].request.ReserveRequest?
      || handlers[i].request.order != handlers[j].request.order
  }

  lemma {:induction false} ApartIsNeverOutdated(db: Database, schedule: seq<Act>)
    requires Apart(db.handlers) && forall i :: 0 <= i < |db.handlers| ==> Undisturbed(db.store, db.handlers[i])
    ensures NeverOutdated(db, schedule) && NeverMiscounts(db, schedule)
    decreases |schedule|
  {
    if schedule != [] {
      var (act, next) := (schedule[0], Step(db, schedule[0]));
      if act.i < |db.handlers| {
        assert Undisturbed(db.store, db.handlers[act.i]);
        forall j | 0 <= j < |next.handlers| ensures Undisturbed(next.store, next.handlers[j]) {
          assert Undisturbed(db.store, db.handlers[j]);
        }
      }
      ApartIsNeverOutdated(next, schedule[1..]);
    }
  }

  /**
   * One confirm or release per order, none of them a confirm of released goods, and any number of reserve
   * requests: the reads outside the transactions do no harm. Stock is conserved throughout, and the
   * outcome is that of the commit order run serially.
   */
  lemma ApartIsAtomic(seed: Stock, store: Store, handlers: seq<Handler>, schedule: seq<Act>)
    requires Conserved(seed, store) && Apart(handlers)
    requires forall i :: 0 <= i < |handlers| ==> handlers[i].phase.Reading? && Undisturbed(store, handlers[i])
    ensures AlwaysConservedHere(seed, Database(store, handlers, []), schedule)
    ensures Serial(store, Interleave(Database(store, handlers, []), schedule))
  {
    var db := Database(store, handlers, []);
    ApartIsNeverOutdated(db, schedule);
    InterleavingConservesIff(seed, db, schedule);
    InterleavingIsSerial(store, db, schedule);
  }

  /** The next line has to wait for a row that another transaction has written. */
  predicate Waits(db: Database, i: nat) {
    && i < |db.handlers|
    && match db.handlers[i].phase
       case Working(items, done, _) =>
         && done < |items| && Blocked(db, i, items[done].product)
         && (db.handlers[i].request.ReserveRequest? ==> IsPositiveInteger(items[done].quantity))
       case _ => false
  }

  /** Why a handler is through without having written anything. */
  ghost predicate HasReason(db: Database, i: nat)
    requires i < |db.handlers|
  {
    var (request, store) := (db.handlers[i].request, db.store);
    match db.handlers[i].phase
    case Reading =>
      if request.ReserveRequest? then request.order in store.reservations else Serve(store, request).0 == store
    case Working(items, done, _) =>
      && request.ReserveRequest?
      && (if done < |items| then !Waits(db, i) && !Fits(store.stock, items[..done + 1])
          else request.order in store.reservations)
    case Finished => false
  }

  /** The lines dealt with so far fit the committed rows. */
  lemma HandledFits(store: Store, h: Handler)
    requires Sane(store, h) && Written(store.stock, h) && h.request.ReserveRequest?
    ensures Fits(store.stock, Handled(h))
  {
    var mine := Handled(h);
    forall k | 0 <= k < |mine| ensures Demand(mine, mine[k].product) <= Effective(store.stock, mine[k].product).Free() {
      assert mine[k].product in Products(mine);
    }
  }

  /** The next line fits what the transaction sees exactly if the lines up to it fit the committed rows. */
  lemma NextLineFits(store: Store, h: Handler)
    requires Sane(store, h) && Written(store.stock, h) && h.request.ReserveRequest?
    requires h.phase.Working? && h.phase.done < |h.phase.items|
    ensures var item := h.phase.items[h.phase.done];
            Fits(store.stock, h.phase.items[..h.phase.done + 1])
            <==> IsPositiveInteger(item.quantity)
                 && Units(item) <= Effective(store.stock + Work(h), item.product).Free()
  {
    var (item, more) := (h.phase.items[h.phase.done], h.phase.items[..h.phase.done + 1]);
    NextHandled(h, h.phase.work);
    assert more == Handled(h) + [item] && more[h.phase.done] == item;
    Seen(store.stock, h, item.product);
    HandledFits(store, h);
    if IsPositiveInteger(item.quantity) && Units(item) <= Effective(store.stock + Work(h), item.product).Free() {
      LongerFits(store.stock, Handled(h), item);
    }
  }

  /** A list that fits and a line for what it leaves free fit together. */
  lemma LongerFits(stock: Stock, items: seq<Item>, item: Item)
    requires Fits(stock, items) && IsPositiveInteger(item.quantity)
    requires Demand(items, item.product) + Units(item) <= Effective(stock, item.product).Free()
    ensures Fits(stock, items + [item])
  {
    var more := items + [item];
    assert more[..|items|] == items && more[|items|] == item;
    forall k | 0 <= k < |more|
      ensures IsPositiveInteger(more[k].quantity)
      ensures Demand(more, more[k].product) <= Effective(stock, more[k].product).Free()
    {
      if k < |items| {
        assert more[k] == items[k];
      }
    }
  }

  /**
   * The next statement of a handler that is not broken off: it stands still exactly while it waits; it is
   * through without a commit exactly for one of the reasons; and otherwise it goes on, to its transaction, to
   * the next line, or to its commit.
   */
  lemma NextStatement(db: Database, i: nat)
    requires Orderly(db) && i < |db.handlers| && !db.handlers[i].phase.Finished?
    ensures var (h, after) := (db.handlers[i], Step(db, Next(i)));
            && (Waits(db, i) ==> after == db)
            && (HasReason(db, i) ==> after == Turn(db, i, Finished))
            && (!Waits(db, i) && !HasReason(db, i) ==>
                  match h.phase
                  case Reading => after.handlers[i].phase.Working? && after.handlers[i].phase.done == 0
                                  && (h.request.ReserveRequest? ==> after.handlers[i].phase.items == h.request.items)
                  case Working(items, done, _) =>
                    if done < |items| then
                      && after.handlers[i].phase.Working? && after.handlers[i].phase.items == items
                      && after.handlers[i].phase.done == done + 1
                    else after.log == db.log + [h.request] && after.handlers[i].phase.Finished?)
  {
    var h := db.handlers[i];
    assert Sane(db.store, h) && Written(db.store.stock, h);
    match h.phase {
      case Reading => ReadDecides(db.store, h.request);
      case Working(items, done, _) =>
        if done < |items| && h.request.ReserveRequest? {
          NextLineFits(db.store, h);
        }
      case Finished =>
    }
  }

  /** The read sends a confirm or release on exactly if serving it would change the tables. */
  lemma ReadDecides(store: Store, request: Request)
    ensures Transacts(store, request)
       <==> if request.ReserveRequest? then request.order !in store.reservations else Serve(store, request).0 != store
  {
    if !request.ReserveRequest? && Transacts(store, request) {
      assert Serve(store, request).0.reservations[request.order].status != store.reservations[request.order].status;
    }
  }

  lemma {:induction false} InterleavingIsOrderly(db: Database, schedule: seq<Act>)
    requires Orderly(db)
    ensures Orderly(Interleave(db, schedule)) && |Interleave(db, schedule).handlers| == |db.handlers|
    decreases |schedule|
  {
    if schedule != [] {
      StepIsOrderly(db, schedule[0]);
      InterleavingIsOrderly(Step(db, schedule[0]), schedule[1..]);
    }
  }

  /**
   * After any interleaving with any breaks: a handler that is not broken off gets through without a commit
   * exactly if serving its request would have changed nothing when it read, a line does not fit, or the
   * order has got a reservation.
   */
  lemma NobodyGivesUpWithoutReason(store: Store, handlers: seq<Handler>, schedule: seq<Act>, i: nat)
    requires Grounded(store) && (forall k :: 0 <= k < |handlers| ==> handlers[k].phase.Reading?) && i < |handlers|
    ensures var db := Interleave(Database(store, handlers, []), schedule);
            && i < |db.handlers|
            && (!db.handlers[i].phase.Finished? ==>
                  var after := Step(db, Next(i));
                  after.handlers[i].phase.Finished? && after.log == db.log <==> HasReason(db, i))
  {
    InterleavingIsOrderly(Database(store, handlers, []), schedule);
    var db := Interleave(Database(store, handlers, []), schedule);
    if !db.handlers[i].phase.Finished? {
      NextStatement(db, i);
    }
  }

  function Nexts(n: nat): seq<Act> {
    if n == 0 then [] else [Next(0)] + Nexts(n - 1)
  }

  /** Whether a request has anything to do: a new order whose list fits, goods not yet confirmed, goods RESERVED. */
  ghost predicate TakesEffect(store: Store, request: Request) {
    match request
    case ReserveRequest(o, items) => o !in store.reservations && Fits(store.stock, items)
    case ConfirmRequest(o) => o in store.reservations && store.reservations[o].status != Confirmed
    case ReleaseRequest(o) => o in store.reservations && store.reservations[o].status == Reserved
  }

  /** A request that takes no effect changes no table, and one that does changes some. */
  lemma EffectShows(store: Store, request: Request)
    ensures TakesEffect(store, request) <==> Serve(store, request).0 != store
  {
    match request {
      case ReserveRequest(o, items) => LoopMeetsTest(store.stock, items);
      case _ => ReadDecides(store, request);
    }
  }

  lemma {:induction false} FinishedStays(db: Database, n: nat)
    requires |db.handlers| == 1 && db.handlers[0].phase.Finished?
    ensures Interleave(db, Nexts(n)) == db
  {
    if n > 0 {
      assert Nexts(n)[1..] == Nexts(n - 1);
      FinishedStays(db, n - 1);
    }
  }

  /** The one handler is through, and the tables and the log are those of its request. */
  ghost predicate Through(store: Store, request: Request, after: Database) {
    && after.handlers == [Handler(request, Finished)]
    && after.store == Serve(store, request).0
    && after.log == if TakesEffect(store, request) then [request] else []
  }

  lemma AloneGivesUp(db: Database)
    requires Orderly(db) && |db.handlers| == 1 && db.handlers[0].phase.Working? && db.log == []
    requires Transacts(db.store, db.handlers[0].request) && HasReason(db, 0)
    ensures Through(db.store, db.handlers[0].request, Turn(db, 0, Finished))
  {
    var h := db.handlers[0];
    assert Sane(db.store, h);
    EffectShows(db.store, h.request);
    PrefixDecides(db.store.stock, h.phase.items, h.phase.done);
  }

  lemma AloneCommits(db: Database)
    requires Orderly(db) && |db.handlers| == 1 && db.handlers[0].phase.Working? && db.log == []
    requires Transacts(db.store, db.handlers[0].request) && !HasReason(db, 0)
    requires db.handlers[0].phase.done == |db.handlers[0].phase.items|
    ensures Through(db.store, db.handlers[0].request, Commit(db, 0))
  {
    var h := db.handlers[0];
    AloneCommitTakesEffect(db);
    assert [] + [h.request] == [h.request];
    assert Commit(db, 0).log != db.log;
    CommitIsServe(db, 0);
  }

  /** The one handler is at work on its lines. */
  ghost predicate AtWork(db: Database, store: Store, request: Request, left: nat) {
    && Orderly(db) && db.store == store && db.log == [] && Transacts(store, request)
    && |db.handlers| == 1 && db.handlers[0].request == request && db.handlers[0].phase.Working?
    && db.handlers[0].phase.done + left == |db.handlers[0].phase.items|
  }

  lemma AloneNext(db: Database, store: Store, request: Request, left: nat)
    requires AtWork(db, store, request, left)
    ensures var next := Step(db, Next(0));
            Through(store, request, next) || (left > 0 && AtWork(next, store, request, left - 1))
  {
    if HasReason(db, 0) {
      NextStatement(db, 0);
      AloneGivesUp(db);
    } else if left > 0 {
      AloneGoesOn(db);
    } else {
      AloneCommits(db);
    }
  }

  lemma NextFirst(db: Database, n: nat)
    requires n > 0
    ensures Interleave(db, Nexts(n)) == Interleave(Step(db, Next(0)), Nexts(n - 1))
  {
    assert Nexts(n)[0] == Next(0) && Nexts(n)[1..] == Nexts(n - 1);
  }

  lemma {:induction false} AloneWorks(db: Database, store: Store, request: Request, left: nat, n: nat)
    requires AtWork(db, store, request, left) && n > left
    ensures Through(store, request, Interleave(db, Nexts(n)))
    decreases n
  {
    NextFirst(db, n);
    AloneNext(db, store, request, left);
    if Through(store, request, Step(db, Next(0))) {
      FinishedStays(Step(db, Next(0)), n - 1);
    } else {
      AloneWorks(Step(db, Next(0)), store, request, left - 1, n - 1);
    }
  }

  lemma AloneGoesOn(db: Database)
    requires Orderly(db) && |db.handlers| == 1 && db.handlers[0].phase.Working? && !HasReason(db, 0)
    requires db.handlers[0].phase.done < |db.handlers[0].phase.items|
    ensures var (h, next) := (db.handlers[0], Step(db, Next(0)));
            && Orderly(next) && |next.handlers| == 1 && next.store == db.store && next.log == db.log
            && next.handlers[0].request == h.request && next.handlers[0].phase.Working?
            && next.handlers[0].phase.items == h.phase.items && next.handlers[0].phase.done == h.phase.done + 1
  {
    assert !Waits(db, 0);
    NextStatement(db, 0);
    StepIsOrderly(db, Next(0));
  }

  /** A list with a prefix that does not fit does not fit. */
  lemma PrefixDecides(stock: Stock, items: seq<Item>, done: nat)
    requires done < |items| ==> !Fits(stock, items[..done + 1])
    ensures done < |items| ==> !Fits(stock, items)
  {
    if done < |items| {
      LoopMeetsTest(stock, items[..done + 1]);
      LoopMeetsTest(stock, items);
      RefusalIsFinal(stock, items, done + 1);
    }
  }

  lemma AloneCommitTakesEffect(db: Database)
    requires Orderly(db) && |db.handlers| == 1 && db.handlers[0].phase.Working?
    requires db.handlers[0].phase.done == |db.handlers[0].phase.items|
    requires Transacts(db.store, db.handlers[0].request)
    ensures TakesEffect(db.store, db.handlers[0].request)
  {
    assert Sane(db.store, db.handlers[0]);
    if db.handlers[0].request.ReserveRequest? {
      ReserveFits(db, 0);
    }
  }

  /**
   * A request handled alone, statement by statement and without a break, leaves the tables that serving it
   * atomically leaves, and commits exactly if it takes effect.
   */
  lemma AloneIsServe(store: Store, request: Request, n: nat)
    requires Grounded(store)
    requires n >= 2 + if request.ReserveRequest? then |request.items|
                      else if request.order in store.reservations then |store.reservations[request.order].items| else 0
    ensures var after := Interleave(Database(store, [Handler(request, Reading)], []), Nexts(n));
            && after.handlers == [Handler(request, Finished)]
            && after.store == Serve(store, request).0
            && after.log == if TakesEffect(store, request) then [request] else []
  {
    var db := Database(store, [Handler(request, Reading)], []);
    var next := Step(db, Next(0));
    assert Nexts(n)[1..] == Nexts(n - 1);
    ReadDecides(store, request);
    EffectShows(store, request);
    StepIsOrderly(db, Next(0));
    if Transacts(store, request) {
      AloneWorks(next, store, request, |next.handlers[0].phase.items|, n - 1);
    } else {
      FinishedStays(next, n - 1);
    }
  }

  /** payment.succeeded handled twice at once: both confirms read RESERVED, and one unit is taken twice. */
  lemma ConfirmedTwice(o: OrderId, p: ProductId)
    ensures var store := Store(map[p := Counters(1000, 1)], map[o := Reservation([Item(p, 1.0)], Reserved)]);
            var confirm := Handler(ConfirmRequest(o), Reading);
            var after := Interleave(Database(store, [confirm, confirm], []),
                                    [Next(0), Next(1), Next(0), Next(0), Next(1), Next(1)]);
            && after.store.stock == map[p := Counters(998, -1)]
            && after.store.reservations == map[o := Reservation([Item(p, 1.0)], Confirmed)]
            && after.log == [ConfirmRequest(o), ConfirmRequest(o)]
  {
    var (item, confirm) := (Item(p, 1.0), ConfirmRequest(o));
    var (reading, through) := (Handler(confirm, Reading), Handler(confirm, Finished));
    var (s0, s1, s2) := (Store(map[p := Counters(1000, 1)], map[o := Reservation([item], Reserved)]),
                         Store(map[p := Counters(999, 0)], map[o := Reservation([item], Confirmed)]),
                         Store(map[p := Counters(998, -1)], map[o := Reservation([item], Confirmed)]));
    var looked := Handler(confirm, Working([item], 0, map[]));
    var taken := Handler(confirm, Working([item], 1, s1.stock));
    var again := Handler(confirm, Working([item], 1, s2.stock));
    var d0 := Database(s0, [reading, reading], []);
    var d1 := Database(s0, [looked, reading], []);
    var d2 := Database(s0, [looked, looked], []);
    var d3 := Database(s0, [taken, looked], []);
    var d4 := Database(s1, [through, looked], [confirm]);
    var d5 := Database(s1, [through, again], [confirm]);
    var d6 := Database(s2, [through, through], [confirm, confirm]);
    assert Step(d0, Next(0)) == d1 && Step(d1, Next(1)) == d2;
    assert Step(d2, Next(0)) == d3;
    assert Step(d3, Next(0)) == d4;
    assert Step(d4, Next(1)) == d5;
    assert Step(d5, Next(1)) == d6;
    First(d5, Next(1), []);
    First(d4, Next(1), [Next(1)]);
    First(d3, Next(0), [Next(1), Next(1)]);
    First(d2, Next(0), [Next(0), Next(1), Next(1)]);
    First(d1, Next(1), [Next(0), Next(0), Next(1), Next(1)]);
    First(d0, Next(0), [Next(1), Next(0), Next(0), Next(1), Next(1)]);
  }

  lemma First(db: Database, act: Act, rest: seq<Act>)
    ensures Interleave(db, [act] + rest) == Interleave(Step(db, act), rest)
  {
    assert ([act] + rest)[1..] == rest;
  }
}
