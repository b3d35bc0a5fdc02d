/** The reserve loop against a test on the whole item list, which mentions no order of evaluation. */
module ReserveTest {
  import opened Domain
  import opened Inventory

  /** Every quantity is a positive integer and no product is asked for more than its free stock. */
  predicate Fits(stock: Stock, items: seq<Item>) {
    && AllPositive(items)
    && forall i :: 0 <= i < |items| ==>
         Demand(items, items[i].product) <= Effective(stock, items[i].product).Free()
  }

  /** The counters a successful pass over the list leaves behind. */
  ghost predicate Books(before: Stock, after: Stock, items: seq<Item>) {
    && (forall p :: p in after <==> p in before || exists i :: 0 <= i < |items| && items[i].product == p)
    && forall p ::
         var row := Effective(before, p);
         Effective(after, p) == Counters(row.available, row.reserved + Demand(items, p))
  }

  lemma {:induction false} LoopMeetsTest(stock: Stock, items: seq<Item>)
    ensures ReserveAll(stock, items).Done? <==> Fits(stock, items)
    ensures ReserveAll(stock, items).Done? ==> Books(stock, ReserveAll(stock, items).stock, items)
  {
    if items != [] {
      var init, last := items[..|items| - 1], items[|items| - 1];
      LoopMeetsTest(stock, init);
      if ReserveAll(stock, init).Done? {
        var sofar := ReserveAll(stock, init).stock;
        FitsExtends(stock, sofar, items);
        if ReserveOne(sofar, last).Done? {
          StepBooks(stock, sofar, items);
        }
      } else {
        MisfitStays(stock, items);
      }
    }
  }

  lemma FitsExtends(stock: Stock, sofar: Stock, items: seq<Item>)
    requires items != []
    requires Books(stock, sofar, items[..|items| - 1]) && Fits(stock, items[..|items| - 1])
    ensures Fits(stock, items) <==> ReserveOne(sofar, items[|items| - 1]).Done?
  {
    var n := |items| - 1;
    var init, p := items[..n], items[n].product;
    assert Effective(sofar, p).Free() == Effective(stock, p).Free() - Demand(init, p);
    assert Demand(items, p) == Demand(init, p) + Units(items[n]);
    if ReserveOne(sofar, items[n]).Done? {
      forall i | 0 <= i < |items|
        ensures IsPositiveInteger(items[i].quantity)
        ensures Demand(items, items[i].product) <= Effective(stock, items[i].product).Free()
      {
        if i < n {
          assert init[i] == items[i];
        }
      }
    }
  }

  lemma MisfitStays(stock: Stock, items: seq<Item>)
    requires items != [] && !Fits(stock, items[..|items| - 1])
    ensures !Fits(stock, items)
  {
    var n := |items| - 1;
    var init := items[..n];
    if Fits(stock, items) {
      forall i | 0 <= i < n
        ensures IsPositiveInteger(init[i].quantity)
        ensures Demand(init, init[i].product) <= Effective(stock, init[i].product).Free()
      {
        assert init[i] == items[i];
        assert IsPositiveInteger(items[n].quantity);
      }
    }
  }

  lemma StepBooks(stock: Stock, sofar: Stock, items: seq<Item>)
    requires items != []
    requires Books(stock, sofar, items[..|items| - 1])
    requires ReserveOne(sofar, items[|items| - 1]).Done?
    ensures Books(stock, ReserveOne(sofar, items[|items| - 1]).stock, items)
  {
    var n := |items| - 1;
    var init, last := items[..n], items[n];
    var after := ReserveOne(sofar, last).stock;
    forall p
      ensures p in after <==> p in stock || exists i :: 0 <= i < |items| && items[i].product == p
    {
      if p in after && p !in stock && p != last.product {
        assert p in sofar;
        var i :| 0 <= i < n && init[i].product == p;
        assert items[i].product == p;
      }
      if p == last.product {
        assert items[n].product == p;
      }
      if i :| 0 <= i < |items| && items[i].product == p && i != n {
        assert init[i].product == p;
      }
    }
    forall p
      ensures Effective(after, p)
           == Counters(Effective(stock, p).available, Effective(stock, p).reserved + Demand(items, p))
    {
      assert Effective(sofar, p)
          == Counters(Effective(stock, p).available, Effective(stock, p).reserved + Demand(init, p));
    }
  }

  /** A refusal names the first line whose prefix no longer fits, and no other. */
  lemma RefusalNamesFirstMisfit(stock: Stock, items: seq<Item>, p: ProductId)
    ensures ReserveAll(stock, items) == Refused(p)
       <==> exists k :: 0 <= k < |items| && Fits(stock, items[..k]) && !Fits(stock, items[..k + 1])
                     && items[k].product == p
  {
    if ReserveAll(stock, items) == Refused(p) {
      FirstMisfit(stock, items);
    }
    if k :| 0 <= k < |items| && Fits(stock, items[..k]) && !Fits(stock, items[..k + 1]) && items[k].product == p {
      MisfitRefuses(stock, items, k);
    }
  }

  lemma MisfitRefuses(stock: Stock, items: seq<Item>, k: nat)
    requires k < |items| && Fits(stock, items[..k]) && !Fits(stock, items[..k + 1])
    ensures ReserveAll(stock, items) == Refused(items[k].product)
  {
    LoopMeetsTest(stock, items[..k]);
    LoopMeetsTest(stock, items[..k + 1]);
    assert items[..k + 1][..k] == items[..k];
    RefusalIsFinal(stock, items, k + 1);
  }

  lemma {:induction false} FirstMisfit(stock: Stock, items: seq<Item>)
    requires ReserveAll(stock, items).Refused?
    ensures exists k :: 0 <= k < |items| && Fits(stock, items[..k]) && !Fits(stock, items[..k + 1])
                     && items[k].product == ReserveAll(stock, items).product
  {
    var n := |items| - 1;
    var init := items[..n];
    if ReserveAll(stock, init).Refused? {
      FirstMisfit(stock, init);
      var k :| 0 <= k < n && Fits(stock, init[..k]) && !Fits(stock, init[..k + 1])
            && init[k].product == ReserveAll(stock, init).product;
      assert init[..k] == items[..k] && init[..k + 1] == items[..k + 1];
      assert 0 <= k < |items| && Fits(stock, items[..k]) && !Fits(stock, items[..k + 1]);
    } else {
      LoopMeetsTest(stock, init);
      LoopMeetsTest(stock, items);
      assert items[..n + 1] == items;
      assert Fits(stock, items[..n]) && !Fits(stock, items[..n + 1]);
    }
  }

  /** Sorting or shuffling the lines of a request never changes whether it is granted. */
  lemma VerdictIgnoresOrder(store: Store, order: OrderId, items: seq<Item>, shuffled: seq<Item>)
    requires multiset(items) == multiset(shuffled)
    ensures Reserve(store, order, items).1.success <==> Reserve(store, order, shuffled).1.success
    ensures forall p :: Effective(Reserve(store, order, items).0.stock, p)
                     == Effective(Reserve(store, order, shuffled).0.stock, p)
  {
    LoopMeetsTest(store.stock, items);
    LoopMeetsTest(store.stock, shuffled);
    if order !in store.reservations {
      if Fits(store.stock, items) {
        FitsIgnoresOrder(store.stock, items, shuffled);
      }
      if Fits(store.stock, shuffled) {
        FitsIgnoresOrder(store.stock, shuffled, items);
      }
      forall p ensures Demand(items, p) == Demand(shuffled, p) {
        DemandOfPermutation(items, shuffled, p);
      }
    }
  }

  lemma FitsIgnoresOrder(stock: Stock, items: seq<Item>, shuffled: seq<Item>)
    requires multiset(items) == multiset(shuffled) && Fits(stock, items)
    ensures Fits(stock, shuffled)
  {
    forall i | 0 <= i < |shuffled|
      ensures IsPositiveInteger(shuffled[i].quantity)
      ensures Demand(shuffled, shuffled[i].product) <= Effective(stock, shuffled[i].product).Free()
    {
      assert shuffled[i] in multiset(items);
      var j :| 0 <= j < |items| && items[j] == shuffled[i];
      DemandOfPermutation(items, shuffled, items[j].product);
    }
  }

  /**
   * What `reserve` answers for an order it has not seen, and what it leaves in the tables: the
   * verdict of the test, the demand added to the reserved counters, or nothing changed at all.
   */
  lemma FreshReserve(store: Store, order: OrderId, items: seq<Item>)
    requires order !in store.reservations
    ensures var (after, reply) := Reserve(store, order, items);
            && (reply.success <==> Fits(store.stock, items))
            && (reply.success ==> Books(store.stock, after.stock, items))
            && (reply.success ==>
                  after.reservations == store.reservations[order := Reservation(items, Reserved)])
            && (!reply.success ==> after == store && NamesFirstMisfit(store.stock, items, reply))
  {
    LoopMeetsTest(store.stock, items);
    if ReserveAll(store.stock, items).Refused? {
      FirstMisfit(store.stock, items);
    }
  }

  /** The reply names the product of the first line at which the list no longer fits. */
  predicate NamesFirstMisfit(stock: Stock, items: seq<Item>, reply: Reply) {
    exists k :: 0 <= k < |items| && Fits(stock, items[..k]) && !Fits(stock, items[..k + 1])
             && reply == Reply(false, InsufficientStock(items[k].product))
  }

  /**
   * The same in the request's own quantities: granted iff they are positive whole numbers and the sum asked
   * for each product is at most its free stock, and then the reserved counter grows by exactly that sum.
   */
  lemma ReserveAddsWhatIsAsked(store: Store, order: OrderId, items: seq<Item>)
    requires order !in store.reservations
    ensures var (after, reply) := Reserve(store, order, items);
            && (reply.success <==>
                  && AllPositive(items)
                  && forall i :: 0 <= i < |items| ==>
                       Asked(items, items[i].product) <= Effective(store.stock, items[i].product).Free() as real)
            && (reply.success ==> forall p ::
                  var (row, now) := (Effective(store.stock, p), Effective(after.stock, p));
                  now.available == row.available && now.reserved as real == row.reserved as real + Asked(items, p))
  {
    FreshReserve(store, order, items);
    if AllPositive(items) {
      forall p ensures Demand(items, p) as real == Asked(items, p) {
        DemandIsAsked(items, p);
      }
    }
  }

  /** A product without a row is worth a thousand units: that many can be reserved and no more. */
  lemma NewProductHasAThousand(order: OrderId, p: ProductId, n: int)
    ensures var (after, reply) := Reserve(Store(map[], map[]), order, [Item(p, n as real)]);
            && (reply.success <==> 1 <= n <= 1000)
            && (reply.success ==> after.stock == map[p := Counters(1000, n)])
            && (!reply.success ==> reply == Reply(false, InsufficientStock(p)) && after.stock == map[])
  {
    var item := Item(p, n as real);
    assert [item][..0] == [];
    assert ReserveAll(map[], []) == Done(map[]);
    assert ReserveAll(map[], [item]) == ReserveOne(map[], item);
  }
}
