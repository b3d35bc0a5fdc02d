/** inventory-service: what each RPC computes, and the service that computes it in place. */
module Inventory {
  import opened Domain

  const DEFAULT_STOCK_QUANTITY := 1000

  /** One row of stock_items; productId is unique, so the table is a map. */
  datatype Counters = Counters(available: int, reserved: int) {
    function Free(): int {
      available - reserved
    }
  }

  type Stock = map<ProductId, Counters>

  datatype ReservationStatus = Reserved | Confirmed | Released

  datatype Reservation = Reservation(items: seq<Item>, status: ReservationStatus)

  /** Both tables; reservations.orderId is unique. */
  datatype Store = Store(stock: Stock, reservations: map<OrderId, Reservation>)

  datatype Reason = NoReason | InsufficientStock(product: ProductId) | ReservationNotFound | InternalError

  datatype Reply = Reply(success: bool, reason: Reason)

  /** A handler answers, or gives a redelivered message up to the dead-letter queue. */
  datatype Answer = Nack | Answered(reply: Reply)

  datatype Request =
    | ReserveRequest(order: OrderId, items: seq<Item>)
    | ConfirmRequest(order: OrderId)
    | ReleaseRequest(order: OrderId)

  /** A product without a row reads as the row that `ensureStockExists` would seed. */
  function Effective(stock: Stock, p: ProductId): Counters {
    if p in stock then stock[p] else Counters(DEFAULT_STOCK_QUANTITY, 0)
  }

  datatype Attempt = Done(stock: Stock) | Refused(product: ProductId)

  /** One turn of the reserve loop: quantity check, seeding, conditional UPDATE. */
  function ReserveOne(stock: Stock, item: Item): Attempt {
    var row := Effective(stock, item.product);
    if IsPositiveInteger(item.quantity) && row.Free() >= Units(item)
    then Done(stock[item.product := row.(reserved := row.reserved + Units(item))])
    else Refused(item.product)
  }

  function ReserveAll(stock: Stock, items: seq<Item>): Attempt {
    if items == [] then Done(stock)
    else
      match ReserveAll(stock, items[..|items| - 1])
      case Refused(p) => Refused(p)
      case Done(sofar) => ReserveOne(sofar, items[|items| - 1])
  }

  function ConfirmOne(stock: Stock, item: Item): Stock {
    var p := item.product;
    if p in stock
    then stock[p := Counters(stock[p].available - Units(item), stock[p].reserved - Units(item))]
    else stock
  }

  function ConfirmAll(stock: Stock, items: seq<Item>): Stock {
    if items == [] then stock
    else ConfirmOne(ConfirmAll(stock, items[..|items| - 1]), items[|items| - 1])
  }

  function ReleaseOne(stock: Stock, item: Item): Stock {
    var p := item.product;
    if p in stock then stock[p := stock[p].(reserved := stock[p].reserved - Units(item))] else stock
  }

  function ReleaseAll(stock: Stock, items: seq<Item>): Stock {
    if items == [] then stock
    else ReleaseOne(ReleaseAll(stock, items[..|items| - 1]), items[|items| - 1])
  }

  function Reserve(store: Store, order: OrderId, items: seq<Item>): (Store, Reply) {
    if order in store.reservations then
      (store, Reply(store.reservations[order].status != Released, NoReason))
    else
      match ReserveAll(store.stock, items)
      case Refused(p) => (store, Reply(false, InsufficientStock(p)))
      case Done(stock) =>
        (Store(stock, store.reservations[order := Reservation(items, Reserved)]), Reply(true, NoReason))
  }

  function Confirm(store: Store, order: OrderId): (Store, Reply) {
    if order !in store.reservations then (store, Reply(false, ReservationNotFound))
    else
      var r := store.reservations[order];
      if r.status == Confirmed then (store, Reply(true, NoReason))
      else
        (Store(ConfirmAll(store.stock, r.items), store.reservations[order := r.(status := Confirmed)]),
         Reply(true, NoReason))
  }

  function Release(store: Store, order: OrderId): (Store, Reply) {
    if order !in store.reservations || store.reservations[order].status != Reserved then
      (store, Reply(true, NoReason))
    else
      var r := store.reservations[order];
      (Store(ReleaseAll(store.stock, r.items), store.reservations[order := r.(status := Released)]),
       Reply(true, NoReason))
  }

  function Serve(store: Store, request: Request): (Store, Reply) {
    match request
    case ReserveRequest(order, items) => Reserve(store, order, items)
    case ConfirmRequest(order) => Confirm(store, order)
    case ReleaseRequest(order) => Release(store, order)
  }

  /** Where the database fails during a request, if it does: the first read, or statement k of the transaction. */
  datatype DbFault = Healthy | AtRead | AtStatement(k: nat)

  /** Whether the transaction of a reserve request gets as far as statement k. */
  predicate Survives(stock: Stock, items: seq<Item>, k: nat) {
    if k < |items| then ReserveAll(stock, items[..k]).Done? && IsPositiveInteger(items[k].quantity)
    else ReserveAll(stock, items).Done?
  }

  /** A request is turned to the transaction's statements only if its reservation lets it. */
  predicate Transacts(store: Store, request: Request) {
    match request
    case ReserveRequest(order, _) => order !in store.reservations
    case ConfirmRequest(order) => order in store.reservations && store.reservations[order].status != Confirmed
    case ReleaseRequest(order) => order in store.reservations && store.reservations[order].status == Reserved
  }

  /** The fault strikes before the request has been decided. */
  predicate Strikes(fault: DbFault, store: Store, request: Request) {
    match fault
    case Healthy => false
    case AtRead => true
    case AtStatement(k) =>
      Transacts(store, request) && (request.ReserveRequest? ==> Survives(store.stock, request.items, k))
  }

  /** A fault that strikes undoes everything and is answered as internal_error; any other makes no difference. */
  function ServeUnder(fault: DbFault, store: Store, request: Request): (Store, Reply) {
    if Strikes(fault, store, request) then (store, Reply(false, InternalError)) else Serve(store, request)
  }

  /** Requests handled one after the other. */
  function ServeAll(store: Store, requests: seq<Request>): (r: (Store, seq<Reply>))
    ensures |r.1| == |requests|
    decreases |requests|
  {
    if requests == [] then (store, [])
    else
      var (next, reply) := Serve(store, requests[0]);
      var (last, replies) := ServeAll(next, requests[1..]);
      (last, [reply] + replies)
  }

  /** Serving two runs in a row is serving their concatenation. */
  lemma {:induction false} ServeConcat(store: Store, a: seq<Request>, b: seq<Request>)
    ensures var (mid, first) := ServeAll(store, a);
            var (last, second) := ServeAll(mid, b);
            ServeAll(store, a + b) == (last, first + second)
    decreases |a|
  {
    if a == [] {
      assert a + b == b;
      assert [] + ServeAll(store, b).1 == ServeAll(store, b).1;
    } else {
      var (next, reply) := Serve(store, a[0]);
      ServeConcat(next, a[1..], b);
      var (mid, first) := ServeAll(next, a[1..]);
      var (last, second) := ServeAll(mid, b);
      assert (a + b)[0] == a[0] && (a + b)[1..] == a[1..] + b;
      assert ServeAll(store, a) == (mid, [reply] + first);
      assert [reply] + (first + second) == ([reply] + first) + second;
    }
  }

  lemma ServeFirst(store: Store, request: Request, run: seq<Request>)
    ensures var (next, reply) := Serve(store, request);
            var (last, replies) := ServeAll(next, run);
            ServeAll(store, [request] + run) == (last, [reply] + replies)
  {
    assert ([request] + run)[0] == request && ([request] + run)[1..] == run;
  }

  /** A refused prefix settles the whole list: the loop throws at its first bad line. */
  lemma {:induction false} RefusalIsFinal(stock: Stock, items: seq<Item>, n: nat)
    requires n <= |items| && ReserveAll(stock, items[..n]).Refused?
    ensures ReserveAll(stock, items) == ReserveAll(stock, items[..n])
  {
    if n == |items| {
      assert items[..n] == items;
    } else {
      var init := items[..|items| - 1];
      assert init[..n] == items[..n];
      RefusalIsFinal(stock, init, n);
    }
  }

  /** A refusal at line i comes before any fault at a later statement, or at the same one if it is the quantity's. */
  lemma RefusedInTime(stock: Stock, items: seq<Item>, i: nat, fault: DbFault)
    requires i < |items| && ReserveAll(stock, items[..i + 1]).Refused?
    requires fault.AtStatement? ==> i <= fault.k && (i == fault.k ==> !IsPositiveInteger(items[i].quantity))
    ensures ReserveAll(stock, items) == ReserveAll(stock, items[..i + 1])
    ensures fault.AtStatement? ==> !Survives(stock, items, fault.k)
  {
    RefusalIsFinal(stock, items, i + 1);
    if fault.AtStatement? && i < fault.k < |items| {
      assert items[..fault.k][..i + 1] == items[..i + 1];
      RefusalIsFinal(stock, items[..fault.k], i + 1);
    }
  }

  /** The service itself: the two tables are updated in place, line by line, inside a transaction. */
  class InventoryService {
    var stock: Stock
    var reservations: map<OrderId, Reservation>

    function State(): Store
      reads this
    {
      Store(stock, reservations)
    }

    constructor (rows: Stock)
      ensures State() == Store(rows, map[])
    {
      stock, reservations := rows, map[];
    }

    method EnsureStockExists(p: ProductId)
      modifies this`stock
      ensures stock == old(stock)[p := Effective(old(stock), p)]
    {
      if p in stock {
        return;
      }
      stock := stock[p := Counters(DEFAULT_STOCK_QUANTITY, 0)];
    }

    /** `UPDATE ... SET reserved = reserved + q WHERE productId = p AND available - reserved >= q`. */
    method ConditionalUpdate(p: ProductId, quantity: int) returns (affected: nat)
      modifies this`stock
      ensures affected == if p in old(stock) && old(stock)[p].Free() >= quantity then 1 else 0
      ensures affected == 0 ==> stock == old(stock)
      ensures affected == 1 ==>
        stock == old(stock)[p := old(stock)[p].(reserved := old(stock)[p].reserved + quantity)]
    {
      affected := 0;
      if p in stock && stock[p].available - stock[p].reserved >= quantity {
        stock := stock[p := stock[p].(reserved := stock[p].reserved + quantity)];
        affected := 1;
      }
    }

    method Reserve(order: OrderId, items: seq<Item>, redelivered: bool, fault: DbFault) returns (answer: Answer)
      modifies this
      ensures redelivered ==> answer == Nack && State() == old(State())
      ensures !redelivered ==>
        answer.Answered? && (State(), answer.reply) == ServeUnder(fault, old(State()), ReserveRequest(order, items))
    {
      if redelivered {
        return Nack;
      }
      if fault == AtRead {
        return Answered(Reply(false, InternalError));
      }
      if order in reservations {
        return Answered(Reply(reservations[order].status != Released, NoReason));
      }
      var savepoint := stock;
      var i := 0;
      while i < |items|
        invariant 0 <= i <= |items|
        invariant ReserveAll(savepoint, items[..i]) == Done(stock)
        invariant reservations == old(reservations)
        invariant fault.AtStatement? ==> i <= fault.k
      {
        var item := items[i];
        assert items[..i + 1][..i] == items[..i];
        var refused := !IsPositiveInteger(item.quantity);
        if !refused {
          if fault == AtStatement(i) {
            stock := savepoint;
            return Answered(Reply(false, InternalError));
          }
          EnsureStockExists(item.product);
          var affected := ConditionalUpdate(item.product, Units(item));
          refused := affected == 0;
        }
        if refused {
          RefusedInTime(savepoint, items, i, fault);
          stock := savepoint;
          return Answered(Reply(false, InsufficientStock(item.product)));
        }
        i := i + 1;
      }
      assert items[..i] == items;
      if fault.AtStatement? {
        stock := savepoint;
        return Answered(Reply(false, InternalError));
      }
      reservations := reservations[order := Reservation(items, Reserved)];
      return Answered(Reply(true, NoReason));
    }

    method Confirm(order: OrderId, redelivered: bool, fault: DbFault) returns (answer: Answer)
      modifies this
      ensures redelivered ==> answer == Nack && State() == old(State())
      ensures !redelivered ==>
        answer.Answered? && (State(), answer.reply) == ServeUnder(fault, old(State()), ConfirmRequest(order))
    {
      if redelivered {
        return Nack;
      }
      if fault == AtRead {
        return Answered(Reply(false, InternalError));
      }
      if order !in reservations {
        return Answered(Reply(false, ReservationNotFound));
      }
      var reservation := reservations[order];
      if reservation.status == Confirmed {
        return Answered(Reply(true, NoReason));
      }
      var savepoint := stock;
      var i := 0;
      while i < |reservation.items|
        invariant 0 <= i <= |reservation.items|
        invariant stock == ConfirmAll(savepoint, reservation.items[..i])
        invariant reservations == old(reservations)
      {
        if fault == AtStatement(i) {
          stock := savepoint;
          return Answered(Reply(false, InternalError));
        }
        var item := reservation.items[i];
        assert reservation.items[..i + 1][..i] == reservation.items[..i];
        if item.product in stock {
          var row := stock[item.product];
          stock := stock[item.product := row.(available := row.available - Units(item))];
          row := stock[item.product];
          stock := stock[item.product := row.(reserved := row.reserved - Units(item))];
        }
        i := i + 1;
      }
      assert reservation.items[..i] == reservation.items;
      if fault.AtStatement? {
        stock := savepoint;
        return Answered(Reply(false, InternalError));
      }
      reservations := reservations[order := reservation.(status := Confirmed)];
      return Answered(Reply(true, NoReason));
    }

    method Release(order: OrderId, redelivered: bool, fault: DbFault) returns (answer: Answer)
      modifies this
      ensures redelivered ==> answer == Nack && State() == old(State())
      ensures !redelivered ==>
        answer.Answered? && (State(), answer.reply) == ServeUnder(fault, old(State()), ReleaseRequest(order))
    {
      if redelivered {
        return Nack;
      }
      if fault == AtRead {
        return Answered(Reply(false, InternalError));
      }
      if order !in reservations {
        return Answered(Reply(true, NoReason));
      }
      var reservation := reservations[order];
      if reservation.status != Reserved {
        return Answered(Reply(true, NoReason));
      }
      var savepoint := stock;
      var i := 0;
      while i < |reservation.items|
        invariant 0 <= i <= |reservation.items|
        invariant stock == ReleaseAll(savepoint, reservation.items[..i])
        invariant reservations == old(reservations)
      {
        if fault == AtStatement(i) {
          stock := savepoint;
          return Answered(Reply(false, InternalError));
        }
        var item := reservation.items[i];
        assert reservation.items[..i + 1][..i] == reservation.items[..i];
        if item.product in stock {
          var row := stock[item.product];
          stock := stock[item.product := row.(reserved := row.reserved - Units(item))];
        }
        i := i + 1;
      }
      assert reservation.items[..i] == reservation.items;
      if fault.AtStatement? {
        stock := savepoint;
        return Answered(Reply(false, InternalError));
      }
      reservations := reservations[order := reservation.(status := Released)];
      return Answered(Reply(true, NoReason));
    }
  }
}
