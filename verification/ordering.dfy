/** catalog-service's price lookup and order-service's createOrder. */
module Catalog {
  import opened Domain

  /** products.productId is unique. Nothing in the service updates or deletes a product. */
  type Prices = map<ProductId, real>

  datatype PriceList = PriceList(prices: seq<(ProductId, real)>, missing: seq<ProductId>)

  /** The loop of getPrices: known ids are priced, the others listed, each in request order. */
  function LookUp(catalog: Prices, ids: seq<ProductId>): PriceList {
    if ids == [] then PriceList([], [])
    else
      var sofar := LookUp(catalog, ids[..|ids| - 1]);
      var id := ids[|ids| - 1];
      if id in catalog then sofar.(prices := sofar.prices + [(id, catalog[id])])
      else sofar.(missing := sofar.missing + [id])
  }

  /** A known id is priced and an unknown one listed, each id in its turn and as often as it comes. */
  lemma {:induction false} LookUpLaws(catalog: Prices, a: seq<ProductId>, b: seq<ProductId>, id: ProductId)
    ensures LookUp(catalog, []) == PriceList([], [])
    ensures LookUp(catalog, [id]) == if id in catalog then PriceList([(id, catalog[id])], []) else PriceList([], [id])
    ensures LookUp(catalog, a + b).prices == LookUp(catalog, a).prices + LookUp(catalog, b).prices
    ensures LookUp(catalog, a + b).missing == LookUp(catalog, a).missing + LookUp(catalog, b).missing
  {
    assert [id][..0] == [];
    if b == [] {
      assert a + b == a;
    } else {
      LookUpLaws(catalog, a, b[..|b| - 1], id);
      assert (a + b)[..|a + b| - 1] == a + b[..|b| - 1];
    }
  }

  class CatalogService {
    var products: Prices

    constructor ()
      ensures products == map[]
    {
      products := map[];
    }

    method Create(product: ProductId, price: real) returns (created: bool)
      modifies this
      ensures created <==> product !in old(products)
      ensures products == if created then old(products)[product := price] else old(products)
    {
      if product in products {
        return false;
      }
      products := products[product := price];
      return true;
    }

    /** `readable` is whether the database answers; a redelivered request gets no reply at all. */
    method GetPrices(ids: seq<ProductId>, redelivered: bool, readable: bool) returns (answer: Option<PriceList>)
      ensures redelivered ==> answer == None
      ensures !redelivered && readable ==> answer == Some(LookUp(products, ids))
      ensures !redelivered && !readable ==> answer == Some(PriceList([], ids))
    {
      if redelivered {
        return None;
      }
      if !readable {
        return Some(PriceList([], ids));
      }
      var prices: seq<(ProductId, real)>, missing: seq<ProductId> := [], [];
      for i := 0 to |ids|
        invariant LookUp(products, ids[..i]) == PriceList(prices, missing)
      {
        assert ids[..i + 1][..i] == ids[..i];
        if ids[i] in products {
          prices := prices + [(ids[i], products[ids[i]])];
        } else {
          missing := missing + [ids[i]];
        }
      }
      assert ids[..|ids|] == ids;
      return Some(PriceList(prices, missing));
    }
  }
}

module Ordering {
  import opened Domain
  import opened Catalog

  datatype OrderStatus = Pending | InventoryReserved | Completed | Cancelled

  datatype Order = Order(customer: CustomerId, items: seq<PricedItem>, total: real, status: OrderStatus)

  /** The outbox payload, and the order.created message made from it. */
  datatype OrderCreated = OrderCreated(order: OrderId, customer: CustomerId, total: real, items: seq<PricedItem>)

  /** What priceItems makes of a price list. Undefined: some line would be stored without a price. */
  datatype Quote = Priced(items: seq<PricedItem>) | Unknown(products: seq<ProductId>) | Undefined

  function EventOf(id: OrderId, order: Order): OrderCreated {
    OrderCreated(id, order.customer, order.total, order.items)
  }

  function Ids(items: seq<Item>): (ids: seq<ProductId>)
    ensures |ids| == |items|
    ensures forall i :: 0 <= i < |items| ==> ids[i] == items[i].product
  {
    seq(|items|, i requires 0 <= i < |items| => items[i].product)
  }

  /** `new Map(prices)`: the last entry of a product wins. */
  function Rebuild(prices: seq<(ProductId, real)>): Prices {
    if prices == [] then map[]
    else Rebuild(prices[..|prices| - 1])[prices[|prices| - 1].0 := prices[|prices| - 1].1]
  }

  function PriceItems(list: PriceList, items: seq<Item>): Quote {
    var prices := Rebuild(list.prices);
    if |list.missing| > 0 then Unknown(list.missing)
    else if exists i :: 0 <= i < |items| && items[i].product !in prices then Undefined
    else Priced(WithPrices(prices, items))
  }

  /** Every line with the price that the map gives it, in line order. */
  function WithPrices(prices: Prices, items: seq<Item>): (priced: seq<PricedItem>)
    requires forall i :: 0 <= i < |items| ==> items[i].product in prices
    ensures |priced| == |items|
    ensures forall i :: 0 <= i < |items| ==>
      priced[i] == PricedItem(items[i].product, items[i].quantity, prices[items[i].product])
  {
    seq(|items|,
        i requires 0 <= i < |items| => PricedItem(items[i].product, items[i].quantity, prices[items[i].product]))
  }

  predicate AllKnown(catalog: Prices, items: seq<Item>) {
    forall i :: 0 <= i < |items| ==> items[i].product in catalog
  }

  /** The ids without a product, in request order and with repetitions. */
  function Strangers(catalog: Prices, ids: seq<ProductId>): seq<ProductId> {
    if ids == [] then []
    else Strangers(catalog, ids[..|ids| - 1]) + if ids[|ids| - 1] in catalog then [] else [ids[|ids| - 1]]
  }

  lemma {:induction false} LookUpMissing(catalog: Prices, ids: seq<ProductId>)
    ensures LookUp(catalog, ids).missing == Strangers(catalog, ids)
    ensures |Strangers(catalog, ids)| == 0 <==> forall i :: 0 <= i < |ids| ==> ids[i] in catalog
  {
    if ids != [] {
      var n := |ids| - 1;
      LookUpMissing(catalog, ids[..n]);
      assert forall i :: 0 <= i < n ==> ids[..n][i] == ids[i];
    }
  }

  lemma {:induction false} LookUpPrices(catalog: Prices, ids: seq<ProductId>)
    ensures forall p :: p in Rebuild(LookUp(catalog, ids).prices) <==> p in ids && p in catalog
    ensures forall p :: p in Rebuild(LookUp(catalog, ids).prices) ==>
      Rebuild(LookUp(catalog, ids).prices)[p] == catalog[p]
  {
    if ids != [] {
      var n := |ids| - 1;
      var sofar := LookUp(catalog, ids[..n]).prices;
      LookUpPrices(catalog, ids[..n]);
      assert forall p :: p in ids <==> p in ids[..n] || p == ids[n] by {
        assert ids == ids[..n] + [ids[n]];
      }
      if ids[n] in catalog {
        var prices := sofar + [(ids[n], catalog[ids[n]])];
        assert prices[..|prices| - 1] == sofar;
        assert Rebuild(prices) == Rebuild(sofar)[ids[n] := catalog[ids[n]]];
      }
    }
  }

  /**
   * getPrices followed by priceItems is a direct lookup of every line: the order is accepted iff every
   * product is known, a rejection lists the unknown ones, and no line is ever left without a price.
   */
  lemma PricingIsDirectLookUp(catalog: Prices, items: seq<Item>)
    ensures PriceItems(LookUp(catalog, Ids(items)), items)
         == if AllKnown(catalog, items) then Priced(WithPrices(catalog, items))
            else Unknown(Strangers(catalog, Ids(items)))
  {
    var ids := Ids(items);
    LookUpMissing(catalog, ids);
    assert AllKnown(catalog, items) <==> forall i :: 0 <= i < |ids| ==> ids[i] in catalog;
    if AllKnown(catalog, items) {
      KnownItemsArePriced(catalog, items);
    }
  }

  lemma KnownItemsArePriced(catalog: Prices, items: seq<Item>)
    requires AllKnown(catalog, items)
    ensures var prices := Rebuild(LookUp(catalog, Ids(items)).prices);
            AllKnown(prices, items) && WithPrices(prices, items) == WithPrices(catalog, items)
  {
    var (ids, prices) := (Ids(items), Rebuild(LookUp(catalog, Ids(items)).prices));
    LookUpPrices(catalog, ids);
    forall i | 0 <= i < |items|
      ensures items[i].product in prices && prices[items[i].product] == catalog[items[i].product]
    {
      assert ids[i] in ids;
    }
  }

  function Cost(catalog: Prices, item: Item): real {
    if item.product in catalog then catalog[item.product] * item.quantity else 0.0
  }

  /** What goods cost at the catalog's prices. */
  function Worth(catalog: Prices, goods: seq<Item>): real {
    if goods == [] then 0.0 else Cost(catalog, goods[0]) + Worth(catalog, goods[1..])
  }

  lemma {:induction false} WorthConcat(catalog: Prices, a: seq<Item>, b: seq<Item>)
    ensures Worth(catalog, a + b) == Worth(catalog, a) + Worth(catalog, b)
  {
    if a == [] {
      assert a + b == b;
    } else {
      assert (a + b)[1..] == a[1..] + b;
      WorthConcat(catalog, a[1..], b);
    }
  }

  /** Worth is what it is called: a line costs its catalog price times its quantity, and costs add up. */
  lemma WorthLaws(catalog: Prices, a: seq<Item>, b: seq<Item>, p: ProductId, quantity: real)
    requires p in catalog
    ensures Worth(catalog, []) == 0.0
    ensures Worth(catalog, [Item(p, quantity)]) == catalog[p] * quantity
    ensures Worth(catalog, a + b) == Worth(catalog, a) + Worth(catalog, b)
  {
    assert [Item(p, quantity)][1..] == [];
    WorthConcat(catalog, a, b);
  }

  /** Lines that bear the catalog's prices add up to what their goods cost. */
  lemma {:induction false} TotalIsWorth(catalog: Prices, items: seq<PricedItem>)
    requires forall i :: 0 <= i < |items| ==>
      items[i].product in catalog && items[i].price == catalog[items[i].product]
    ensures Total(items) == Worth(catalog, Goods(items))
  {
    if items != [] {
      var (init, last) := (items[..|items| - 1], items[|items| - 1]);
      TotalIsWorth(catalog, init);
      assert Goods(items) == Goods(init) + [Item(last.product, last.quantity)];
      WorthLaws(catalog, Goods(init), [Item(last.product, last.quantity)], last.product, last.quantity);
    }
  }

  lemma CostOfPriced(catalog: Prices, items: seq<Item>)
    requires AllKnown(catalog, items)
    ensures Total(WithPrices(catalog, items)) == Worth(catalog, items)
  {
    TotalIsWorth(catalog, WithPrices(catalog, items));
    assert Goods(WithPrices(catalog, items)) == items;
  }

  /** How the catalog RPC ends: an answer, an answer after a failed read, or an error at the caller. */
  datatype CatalogFate = Reached | ReadFails | Unreachable

  class OrderService {
    const catalog: CatalogService
    var orders: map<OrderId, Order>
    var outbox: seq<OrderCreated>

    constructor (catalog: CatalogService)
      ensures this.catalog == catalog && orders == map[] && outbox == []
    {
      this.catalog := catalog;
      orders, outbox := map[], [];
    }

    method SumUp(items: seq<PricedItem>) returns (total: real)
      ensures total == Total(items)
    {
      total := 0.0;
      for i := 0 to |items|
        invariant total == Total(items[..i])
      {
        assert items[..i + 1][..i] == items[..i];
        total := total + items[i].price * items[i].quantity;
      }
      assert items[..|items|] == items;
    }

    /**
     * `id` is the key the database generates; `commits` is whether the transaction does. None stands
     * for the exception that the caller gets, and means that neither row was written.
     */
    method CreateOrder(id: OrderId, customer: CustomerId, items: seq<Item>, fate: CatalogFate, commits: bool)
      returns (created: Option<Order>)
      requires id !in orders
      modifies this
      ensures created.Some? <==>
        commits && ((fate == Reached && AllKnown(catalog.products, items)) || (fate == ReadFails && items == []))
      ensures created.None? ==> orders == old(orders) && outbox == old(outbox)
      ensures created.Some? ==>
        var priced := if items == [] then [] else WithPrices(catalog.products, items);
        && created.value == Order(customer, priced, Worth(catalog.products, items), Pending)
        && orders == old(orders)[id := created.value]
        && outbox == old(outbox) + [OrderCreated(id, customer, Worth(catalog.products, items), priced)]
    {
      PricingIsDirectLookUp(catalog.products, items);
      if AllKnown(catalog.products, items) {
        CostOfPriced(catalog.products, items);
      }
      if fate == Unreachable {
        return None;
      }
      var list := catalog.GetPrices(Ids(items), false, fate == Reached);
      var quote := PriceItems(list.value, items);
      if !quote.Priced? {
        return None;
      }
      var total := SumUp(quote.items);
      var before, rows := orders, outbox;
      var order := Order(customer, quote.items, total, Pending);
      orders := orders[id := order];
      if commits {
        outbox := outbox + [EventOf(id, order)];
        created := Some(order);
      } else {
        orders, outbox := before, rows;
        created := None;
      }
    }
  }
}
