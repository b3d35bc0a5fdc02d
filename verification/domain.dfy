/** Vocabulary shared by the five services: identifiers, order lines and the sums taken over them. */
module Domain {

  type ProductId = string
  type OrderId = string
  type CustomerId = string

  datatype Option<+T> = None | Some(value: T)

  /** One requested line. A quantity is any JSON number; only `reserve` insists on an integer. */
  datatype Item = Item(product: ProductId, quantity: real)

  /** A line as order-service stores it, with the catalog's price. */
  datatype PricedItem = PricedItem(product: ProductId, quantity: real, price: real)

  /** `Number.isInteger(quantity) && quantity > 0`. */
  predicate IsPositiveInteger(quantity: real) {
    quantity == quantity.Floor as real && quantity > 0.0
  }

  predicate AllPositive(items: seq<Item>) {
    forall i :: 0 <= i < |items| ==> IsPositiveInteger(items[i].quantity)
  }

  function Units(item: Item): int {
    item.quantity.Floor
  }

  function Share(item: Item, p: ProductId): int {
    if item.product == p then Units(item) else 0
  }

  /** What a whole item list asks of product p; a product may occur on several lines. */
  function Demand(items: seq<Item>, p: ProductId): int {
    if items == [] then 0 else Demand(items[..|items| - 1], p) + Share(items[|items| - 1], p)
  }

  /** The `reduce` of createOrder. */
  function Total(items: seq<PricedItem>): real {
    if items == [] then 0.0
    else Total(items[..|items| - 1]) + items[|items| - 1].price * items[|items| - 1].quantity
  }

  /** The product and quantity of each priced line: what inventory-service looks at. */
  function Goods(items: seq<PricedItem>): (goods: seq<Item>)
    ensures |goods| == |items|
    ensures forall i :: 0 <= i < |items| ==> goods[i] == Item(items[i].product, items[i].quantity)
  {
    seq(|items|, i requires 0 <= i < |items| => Item(items[i].product, items[i].quantity))
  }

  lemma {:induction false} DemandNonNegative(items: seq<Item>, p: ProductId)
    requires AllPositive(items)
    ensures Demand(items, p) >= 0
    ensures forall i :: 0 <= i < |items| && items[i].product == p ==> Demand(items, p) >= 1
  {
    if items != [] {
      var init := items[..|items| - 1];
      DemandNonNegative(init, p);
      assert forall i :: 0 <= i < |init| ==> init[i] == items[i];
    }
  }

  lemma {:induction false} DemandOfAbsent(items: seq<Item>, p: ProductId)
    requires forall i :: 0 <= i < |items| ==> items[i].product != p
    ensures Demand(items, p) == 0
  {
    if items != [] {
      DemandOfAbsent(items[..|items| - 1], p);
    }
  }

  lemma {:induction false} DemandConcat(a: seq<Item>, b: seq<Item>, p: ProductId)
    ensures Demand(a + b, p) == Demand(a, p) + Demand(b, p)
  {
    if b == [] {
      assert a + b == a;
    } else {
      DemandConcat(a, b[..|b| - 1], p);
      assert (a + b)[..|a + b| - 1] == a + b[..|b| - 1];
    }
  }

  lemma DemandWithout(items: seq<Item>, j: nat, p: ProductId)
    requires j < |items|
    ensures Demand(items, p) == Demand(items[..j] + items[j + 1..], p) + Share(items[j], p)
  {
    var front, back := items[..j], items[j + 1..];
    assert items == (front + [items[j]]) + back;
    DemandConcat(front + [items[j]], back, p);
    assert (front + [items[j]])[..j] == front;
    DemandConcat(front, back, p);
  }

  predicate IsCount(quantity: real, n: nat) {
    n > 0 && quantity == n as real
  }

  /** A quantity that passes the test is a positive whole number, and is counted as that number. */
  lemma UnitsAreTheQuantity(p: ProductId, quantity: real)
    ensures IsPositiveInteger(quantity) <==> exists n: nat :: IsCount(quantity, n)
    ensures IsPositiveInteger(quantity) ==> Units(Item(p, quantity)) as real == quantity
  {
    if IsPositiveInteger(quantity) {
      var n: nat := quantity.Floor;
      assert IsCount(quantity, n);
    }
  }

  /** The sum of the quantities that the lines for p ask for, as they stand in the request. */
  function Asked(items: seq<Item>, p: ProductId): real {
    if items == [] then 0.0
    else (if items[0].product == p then items[0].quantity else 0.0) + Asked(items[1..], p)
  }

  /** Asked is what it is called: nothing of an empty list, a line's own quantity, and additive. */
  lemma {:induction false} AskedLaws(a: seq<Item>, b: seq<Item>, item: Item, p: ProductId)
    ensures Asked([], p) == 0.0
    ensures Asked([item], p) == if item.product == p then item.quantity else 0.0
    ensures Asked(a + b, p) == Asked(a, p) + Asked(b, p)
  {
    assert [item][1..] == [];
    if a == [] {
      assert a + b == b;
    } else {
      assert (a + b)[1..] == a[1..] + b;
      AskedLaws(a[1..], b, item, p);
    }
  }

  /** On whole positive quantities the demand counted for p is exactly what the lines ask for. */
  lemma {:induction false} DemandIsAsked(items: seq<Item>, p: ProductId)
    requires AllPositive(items)
    ensures Demand(items, p) as real == Asked(items, p)
  {
    if items != [] {
      var (init, last) := (items[..|items| - 1], items[|items| - 1]);
      assert items == init + [last];
      assert forall i :: 0 <= i < |init| ==> init[i] == items[i];
      DemandIsAsked(init, p);
      AskedLaws(init, [last], last, p);
      UnitsAreTheQuantity(last.product, last.quantity);
    }
  }

  /** The value of a whole list is that of its parts, and a line is worth its price times its quantity. */
  lemma {:induction false} TotalLaws(a: seq<PricedItem>, b: seq<PricedItem>, item: PricedItem)
    ensures Total([]) == 0.0
    ensures Total([item]) == item.price * item.quantity
    ensures Total(a + b) == Total(a) + Total(b)
  {
    assert [item][..0] == [];
    if b == [] {
      assert a + b == a;
    } else {
      var (init, last) := (b[..|b| - 1], b[|b| - 1]);
      TotalLaws(a, init, item);
      assert (a + b)[..|a + b| - 1] == a + init;
    }
  }

  lemma TotalWithout(items: seq<PricedItem>, j: nat)
    requires j < |items|
    ensures Total(items) == Total(items[..j] + items[j + 1..]) + Total([items[j]])
  {
    var (front, back) := (items[..j], items[j + 1..]);
    assert items == (front + [items[j]]) + back;
    TotalLaws(front + [items[j]], back, items[j]);
    TotalLaws(front, [items[j]], items[j]);
    TotalLaws(front, back, items[j]);
  }

  /** The order of the lines makes no difference to the total. */
  lemma {:induction false} TotalOfPermutation(a: seq<PricedItem>, b: seq<PricedItem>)
    requires multiset(a) == multiset(b)
    ensures Total(a) == Total(b)
    decreases |a|
  {
    if a == [] {
      assert |multiset(b)| == 0;
    } else {
      var n := |a| - 1;
      assert a[n] in multiset(b);
      var j :| 0 <= j < |b| && b[j] == a[n];
      MultisetWithout(a, n);
      MultisetWithout(b, j);
      assert a[..n] + a[n + 1..] == a[..n];
      TotalOfPermutation(a[..n], b[..j] + b[j + 1..]);
      TotalWithout(a, n);
      TotalWithout(b, j);
    }
  }

  /** Asking for k times as much of everything costs k times as much. */
  lemma {:induction false} TotalScales(items: seq<PricedItem>, more: seq<PricedItem>, k: real)
    requires |more| == |items|
    requires forall i :: 0 <= i < |items| ==> more[i] == items[i].(quantity := k * items[i].quantity)
    ensures Total(more) == k * Total(items)
  {
    if items != [] {
      var n := |items| - 1;
      TotalScales(items[..n], more[..n], k);
      var (price, quantity) := (items[n].price, items[n].quantity);
      assert price * (k * quantity) == k * (price * quantity);
    }
  }

  lemma MultisetWithout<T>(s: seq<T>, j: nat)
    requires j < |s|
    ensures multiset(s[..j] + s[j + 1..]) == multiset(s) - multiset{s[j]}
  {
    assert s == s[..j] + [s[j]] + s[j + 1..];
  }

  /** Demand does not depend on the order of the lines. */
  lemma {:induction false} DemandOfPermutation(a: seq<Item>, b: seq<Item>, p: ProductId)
    requires multiset(a) == multiset(b)
    ensures Demand(a, p) == Demand(b, p)
    decreases |a|
  {
    if a == [] {
      assert |multiset(b)| == 0;
    } else {
      var n := |a| - 1;
      assert a[n] in multiset(b);
      var j :| 0 <= j < |b| && b[j] == a[n];
      MultisetWithout(a, n);
      MultisetWithout(b, j);
      assert a[..n] + a[n + 1..] == a[..n];
      DemandOfPermutation(a[..n], b[..j] + b[j + 1..], p);
      DemandWithout(b, j, p);
    }
  }

  /** How many elements of s satisfy f. */
  function Count<T>(s: seq<T>, f: T -> bool): nat {
    if s == [] then 0 else Count(s[..|s| - 1], f) + if f(s[|s| - 1]) then 1 else 0
  }

  lemma {:induction false} CountConcat<T>(a: seq<T>, b: seq<T>, f: T -> bool)
    ensures Count(a + b, f) == Count(a, f) + Count(b, f)
  {
    if b == [] {
      assert a + b == a;
    } else {
      CountConcat(a, b[..|b| - 1], f);
      assert (a + b)[..|a + b| - 1] == a + b[..|b| - 1];
    }
  }

  lemma {:induction false} CountWitness<T>(s: seq<T>, f: T -> bool)
    ensures Count(s, f) > 0 <==> exists i :: 0 <= i < |s| && f(s[i])
  {
    if s != [] {
      var init := s[..|s| - 1];
      CountWitness(init, f);
      assert forall i :: 0 <= i < |init| ==> init[i] == s[i];
    }
  }
}
