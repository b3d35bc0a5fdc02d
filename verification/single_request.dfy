/**
 * What one payment request per order is enough for. order.created may be handled any number of times, as
 * long as at most one payment.requested is published for the order and the broker does not multiply it.
 */
module SingleRequest {
  import opened Domain
  import opened Inventory
  import opened Ordering
  import opened Payments
  import opened Saga
  import opened Dossiers
  import opened Effects
  import opened Safety
  import opened StockLaws
  import opened Invariants
  import opened Guarantees

  /** The action publishes a payment.requested for o. */
  predicate Issues(s: Sys, a: Action, o: OrderId) {
    && a.Run? && a.index < |s.tasks| && a.choice == Proceed
    && s.tasks[a.index].Requesting? && OrderOf(s.tasks[a.index]) == o
  }

  /** How many payment.requested messages a run publishes for o. */
  function Issued(cfg: Config, s: Sys, run: seq<Action>, o: OrderId): nat
    decreases |run|
  {
    if run == [] then 0
    else (if Issues(s, run[0], o) then 1 else 0) + Issued(cfg, Apply(cfg, s, run[0]), run[1..], o)
  }

  lemma {:induction false} IssuedConcat(cfg: Config, s: Sys, a: seq<Action>, b: seq<Action>, o: OrderId)
    ensures Issued(cfg, s, a + b, o) == Issued(cfg, s, a, o) + Issued(cfg, Exec(cfg, s, a), b, o)
    decreases |a|
  {
    if a == [] {
      assert a + b == b;
    } else {
      assert (a + b)[1..] == a[1..] + b;
      IssuedConcat(cfg, Apply(cfg, s, a[0]), a[1..], b, o);
    }
  }

  /** No payment.requested becomes two. */
  predicate Unrepeated(cfg: Config) {
    !cfg.repeatRequested && !cfg.repeatRetried
  }

  /** With `budget` requests still to be published, nothing is left that could charge the customer. */
  predicate Barred(d: Dossier, budget: int) {
    budget == 0 && d.charges == 0 && !Paid(d)
  }

  /** The request of the order is in one place, and a failed payment excludes a charge. */
  predicate Sole(d: Dossier, budget: int) {
    && budget >= 0
    && budget + d.charges + d.rows + (if d.dead > 0 then 1 else 0) <= 1
    && (forall t :: t in d.tasks && Refunding(t) ==> Barred(d, budget))
    && (d.reservation.Some? && d.reservation.value.status == Released ==> Barred(d, budget))
  }

  lemma SoleStep(cfg: Config, db: Tables, t: Task, after: Tables, news: seq<Task>, d: Dossier, d': Dossier, budget: int)
    requires Unrepeated(cfg)
    requires Opens(db, t, d) && Becomes(db, t, after, news, d, d') && Effect(cfg, db, t, after, news)
    requires Justified(d) && Sole(d, budget)
    requires t.Requesting? ==> ChargesIn(news) <= budget
    ensures Sole(d', if t.Requesting? then budget - ChargesIn(news) else budget)
  {
    var left := if t.Requesting? then budget - ChargesIn(news) else budget;
    assert Recorded(d, t) && !Astray(db, t);
    assert ChargeOf(OrderOf(t))(t) <==> IsCharge(t);
    assert Barred(d, budget) ==> Barred(d', left);
    forall x | x in d'.tasks && Refunding(x) ensures Barred(d', left) {
      if x !in d.tasks {
        assert Follows(db, t, after, x);
      }
    }
  }

  lemma SoleTask(cfg: Config, s: Sys, i: nat, c: Choice, o: OrderId, s': Sys, budget: int)
    requires Unrepeated(cfg) && i < |s.tasks| && o == OrderOf(s.tasks[i]) && s' == Apply(cfg, s, Run(i, c))
    requires SoundDossier()(View(s, o), o) && Sole(View(s, o), budget)
    requires Issues(s, Run(i, c), o) ==> budget >= 1
    ensures Sole(View(s', o), if Issues(s, Run(i, c), o) then budget - 1 else budget)
  {
    var (after, news) := Advance(cfg, s.db, s.tasks[i], c);
    ViewOpens(s, i);
    AdvanceEffect(cfg, s.db, s.tasks[i], c);
    RunView(cfg, s, i, c);
    assert s.tasks[i].Requesting? ==> ChargesIn(news) == if c == Proceed then 1 else 0;
    SoleStep(cfg, s.db, s.tasks[i], after, news, View(s, o), View(s', o), budget);
  }

  /** What has not been published yet of the one request of an order that is handled once. */
  function Unissued(d: Dossier): int {
    d.queued + d.claims - d.charges + if d.order.None? then 1 else 0
  }

  /** The order may be placed or relayed; all that bears on its payment is the same. */
  predicate SameMoney(d: Dossier, d': Dossier) {
    && d'.charges == d.charges && d'.rows == d.rows && d'.dead == d.dead
    && d'.billed == d.billed && d'.reservation == d.reservation
    && d.tasks <= d'.tasks && (forall t :: t in d'.tasks ==> t in d.tasks || t.Created?)
    && (d'.order == d.order || (d.order.None? && d'.order.Some? && d'.order.value.status == Pending))
  }

  /** Nothing outside the tasks publishes a request or reports a payment. */
  lemma OutsideKeepsMoney(cfg: Config, s: Sys, a: Action, o: OrderId)
    requires Ledger(s) && !a.Run?
    ensures SameMoney(View(s, o), View(Apply(cfg, s, a), o))
    ensures !cfg.repeatCreated ==> Unissued(View(Apply(cfg, s, a), o)) <= Unissued(View(s, o))
  {
    match a {
      case PlaceOrder(o', customer, items) => PlacingKeepsMoney(cfg, s, o', customer, items, o);
      case RelayNext =>
        if s.relay.joined && s.relay.position < |s.db.outbox| {
          RelayingKeepsMoney(cfg, s, o);
        }
      case _ => QuietStep(cfg, s, a, o);
    }
  }

  lemma PlacingKeepsMoney(cfg: Config, s: Sys, o': OrderId, customer: CustomerId, items: seq<Item>, o: OrderId)
    requires s.relay.position <= |s.db.outbox|
    ensures var d' := View(Apply(cfg, s, PlaceOrder(o', customer, items)), o);
            SameMoney(View(s, o), d') && Unissued(d') <= Unissued(View(s, o))
  {
    PlaceView(cfg, s, o', customer, items);
  }

  lemma RelayingKeepsMoney(cfg: Config, s: Sys, o: OrderId)
    requires s.relay.joined && s.relay.position < |s.db.outbox|
    ensures var d' := View(Apply(cfg, s, RelayNext), o);
            SameMoney(View(s, o), d') && Unissued(d') <= Unissued(View(s, o))
  {
    RelayView(cfg, s);
  }

  lemma SameMoneyIsSole(d: Dossier, d': Dossier, budget: int)
    requires SameMoney(d, d')
    ensures Barred(d, budget) ==> Barred(d', budget)
    ensures Sole(d, budget) ==> Sole(d', budget)
  {
    assert Paid(d) <==> Paid(d');
  }

  lemma SoleAction(seed: Stock, cfg: Config, s: Sys, a: Action, o: OrderId, budget: int)
    requires Unrepeated(cfg) && Reachable(seed, cfg, s) && Sole(View(s, o), budget)
    requires Issues(s, a, o) ==> budget >= 1
    ensures Sole(View(Apply(cfg, s, a), o), if Issues(s, a, o) then budget - 1 else budget)
  {
    ReachableIsSound(seed, cfg, s);
    if !a.Run? {
      OutsideKeepsMoney(cfg, s, a, o);
      SameMoneyIsSole(View(s, o), View(Apply(cfg, s, a), o), budget);
    } else if a.index < |s.tasks| {
      assert SoundDossier()(View(s, o), o);
      if OrderOf(s.tasks[a.index]) == o {
        SoleTask(cfg, s, a.index, a.choice, o, Apply(cfg, s, a), budget);
      } else {
        RunView(cfg, s, a.index, a.choice);
        assert View(Apply(cfg, s, a), o) == View(s, o);
      }
    }
  }

  lemma {:induction false} SoleRun(seed: Stock, cfg: Config, s: Sys, run: seq<Action>, o: OrderId, budget: int)
    requires Unrepeated(cfg) && Reachable(seed, cfg, s) && Sole(View(s, o), budget) && Issued(cfg, s, run, o) <= budget
    ensures Sole(View(Exec(cfg, s, run), o), budget - Issued(cfg, s, run, o))
    decreases |run|
  {
    if run != [] {
      SoleAction(seed, cfg, s, run[0], o, budget);
      ReachableOn(seed, cfg, s, run[0]);
      SoleRun(seed, cfg, Apply(cfg, s, run[0]), run[1..], o, if Issues(s, run[0], o) then budget - 1 else budget);
    }
  }

  lemma InitIsSole(seed: Stock, o: OrderId)
    ensures Sole(View(Init(seed), o), 1)
  {
    assert View(Init(seed), o) == Dossier(None, None, 0, 0, 0, 0, 0, {}, {}, {});
  }

  lemma ReachedIsSole(seed: Stock, cfg: Config, run: seq<Action>, o: OrderId)
    requires IsSeed(seed) && Unrepeated(cfg) && Issued(cfg, Init(seed), run, o) <= 1
    ensures Reachable(seed, cfg, Exec(cfg, Init(seed), run))
    ensures Sole(View(Exec(cfg, Init(seed), run), o), 1 - Issued(cfg, Init(seed), run, o))
  {
    assert Exec(cfg, Init(seed), []) == Init(seed);
    InitIsSole(seed, o);
    SoleRun(seed, cfg, Init(seed), run, o, 1);
  }

  /**
   * A single payment request has a single outcome: it is on its way, or saved as the only row, or parked;
   * and it is not reported both as succeeded and as failed.
   */
  lemma OnePaymentOutcome(seed: Stock, cfg: Config, run: seq<Action>, o: OrderId)
    requires IsSeed(seed) && Unrepeated(cfg) && Issued(cfg, Init(seed), run, o) <= 1
    ensures var s := Exec(cfg, Init(seed), run);
            var parked := Count(s.db.dlq, DeadFor(o)) > 0;
            && Count(s.tasks, ChargeOf(o)) + Count(s.db.payments, RowFor(o)) + (if parked then 1 else 0)
               <= Issued(cfg, Init(seed), run, o)
            && !(Result(o, Success) in s.tasks && Result(o, Failed) in s.tasks)
            && (Result(o, Success) in s.tasks ==> IsCharged(s.db, o))
            && (Result(o, Failed) in s.tasks ==> !IsCharged(s.db, o) && Count(s.tasks, ChargeOf(o)) == 0)
  {
    var s := Exec(cfg, Init(seed), run);
    ReachedIsSole(seed, cfg, run, o);
    ReachableIsSound(seed, cfg, s);
    ResultsMean(s, o, 1 - Issued(cfg, Init(seed), run, o));
  }

  lemma ResultsMean(s: Sys, o: OrderId, budget: int)
    requires Everywhere(s, SoundDossier()) && Sole(View(s, o), budget)
    ensures Result(o, Success) in s.tasks ==> IsCharged(s.db, o)
    ensures Result(o, Failed) in s.tasks ==> !IsCharged(s.db, o) && Barred(View(s, o), budget)
  {
    IsChargedMeansPaid(s, o);
    assert SoundDossier()(View(s, o), o);
    assert OrderOf(Result(o, Success)) == OrderOf(Result(o, Failed)) == o;
    assert forall t :: t in s.tasks && OrderOf(t) == o ==> t in View(s, o).tasks;
  }

  lemma {:induction false} BarredForGood(seed: Stock, cfg: Config, s: Sys, run: seq<Action>, o: OrderId)
    requires Unrepeated(cfg) && Reachable(seed, cfg, s) && Barred(View(s, o), 0) && Issued(cfg, s, run, o) == 0
    ensures Barred(View(Exec(cfg, s, run), o), 0)
    decreases |run|
  {
    if run != [] {
      BarredStays(seed, cfg, s, run[0], o);
      ReachableOn(seed, cfg, s, run[0]);
      BarredForGood(seed, cfg, Apply(cfg, s, run[0]), run[1..], o);
    }
  }

  lemma BarredStays(seed: Stock, cfg: Config, s: Sys, a: Action, o: OrderId)
    requires Unrepeated(cfg) && Reachable(seed, cfg, s) && Barred(View(s, o), 0) && !Issues(s, a, o)
    ensures Barred(View(Apply(cfg, s, a), o), 0)
  {
    ReachableIsSound(seed, cfg, s);
    if !a.Run? {
      OutsideKeepsMoney(cfg, s, a, o);
      SameMoneyIsSole(View(s, o), View(Apply(cfg, s, a), o), 0);
    } else if a.index < |s.tasks| {
      RunView(cfg, s, a.index, a.choice);
      if OrderOf(s.tasks[a.index]) == o {
        assert SoundDossier()(View(s, o), o);
        BarredTask(cfg, s, a.index, a.choice, o);
      } else {
        assert View(Apply(cfg, s, a), o) == View(s, o);
      }
    }
  }

  lemma BarredTask(cfg: Config, s: Sys, i: nat, c: Choice, o: OrderId)
    requires Unrepeated(cfg) && i < |s.tasks| && o == OrderOf(s.tasks[i]) && !Issues(s, Run(i, c), o)
    requires SoundDossier()(View(s, o), o) && Barred(View(s, o), 0)
    ensures Barred(View(Apply(cfg, s, Run(i, c)), o), 0)
  {
    var t := s.tasks[i];
    ViewOpens(s, i);
    AdvanceEffect(cfg, s.db, t, c);
    RunView(cfg, s, i, c);
    assert Recorded(View(s, o), t) && !Astray(s.db, t);
    assert ChargeOf(o)(t) <==> IsCharge(t);
    assert t.Requesting? ==> ChargesIn(Advance(cfg, s.db, t, c).1) == 0;
  }

  /** payment.succeeded and payment.failed are never both sent for one request, however far apart. */
  lemma OutcomeIsFinal(seed: Stock, cfg: Config, run: seq<Action>, more: seq<Action>, o: OrderId)
    requires IsSeed(seed) && Unrepeated(cfg) && Issued(cfg, Init(seed), run + more, o) <= 1
    ensures var s := Exec(cfg, Init(seed), run);
            var later := Exec(cfg, s, more);
            && !(Result(o, Failed) in s.tasks && (Result(o, Success) in later.tasks || IsCharged(later.db, o)))
            && !(Result(o, Success) in s.tasks && (Result(o, Failed) in later.tasks || !IsCharged(later.db, o)))
  {
    var s := Exec(cfg, Init(seed), run);
    var later := Exec(cfg, s, more);
    IssuedConcat(cfg, Init(seed), run, more, o);
    ExecConcat(cfg, Init(seed), run, more);
    ReachedIsSole(seed, cfg, run, o);
    ReachedIsSole(seed, cfg, run + more, o);
    ReachableIsSound(seed, cfg, s);
    ReachableIsSound(seed, cfg, later);
    ResultsMean(s, o, 1 - Issued(cfg, Init(seed), run, o));
    ResultsMean(later, o, 1 - Issued(cfg, Init(seed), run + more, o));
    if Result(o, Failed) in s.tasks {
      BarredForGood(seed, cfg, s, more, o);
      IsChargedMeansPaid(later, o);
    }
    if Result(o, Success) in s.tasks {
      ChargedForGood(cfg, s, more, o);
    }
  }

  /** The task at hand never has a released reservation confirmed. */
  lemma SoleConfirmsNoneReleased(s: Sys, i: nat, budget: int)
    requires Everywhere(s, SoundDossier()) && i < |s.tasks| && RpcOf(s.tasks[i]).Some?
    requires Sole(View(s, OrderOf(s.tasks[i])), budget)
    ensures RpcOf(s.tasks[i]).value.ConfirmRequest? ==> !ReservationIs(s.db, OrderOf(s.tasks[i]), Released)
  {
    var (t, o) := (s.tasks[i], OrderOf(s.tasks[i]));
    assert SoundDossier()(View(s, o), o);
    assert t in View(s, o).tasks;
  }

  /**
   * inventory-service never gets to confirm a released reservation of an order with a single payment
   * request, not even by a late or duplicated call.
   */
  lemma SagaDischargesConfirm(seed: Stock, cfg: Config, run: seq<Action>, i: nat)
    requires IsSeed(seed) && Unrepeated(cfg) && i < |Exec(cfg, Init(seed), run).tasks|
    requires var t := Exec(cfg, Init(seed), run).tasks[i];
             RpcOf(t) == Some(ConfirmRequest(OrderOf(t))) && Issued(cfg, Init(seed), run, OrderOf(t)) <= 1
    ensures var s := Exec(cfg, Init(seed), run); !ReservationIs(s.db, OrderOf(s.tasks[i]), Released)
  {
    var o := OrderOf(Exec(cfg, Init(seed), run).tasks[i]);
    ReachedIsSole(seed, cfg, run, o);
    ReachableIsSound(seed, cfg, Exec(cfg, Init(seed), run));
    SoleConfirmsNoneReleased(Exec(cfg, Init(seed), run), i, 1 - Issued(cfg, Init(seed), run, o));
  }

  lemma LastAction(cfg: Config, s: Sys, init: seq<Action>, a: Action, o: OrderId)
    ensures Exec(cfg, s, init + [a]) == Apply(cfg, Exec(cfg, s, init), a)
    ensures Issued(cfg, s, init, o) <= Issued(cfg, s, init + [a], o)
  {
    assert [a][1..] == [];
    ExecConcat(cfg, s, init, [a]);
    IssuedConcat(cfg, s, init, [a], o);
  }

  /** If every order has a single payment request, the stock counters are exact in every reachable state. */
  lemma {:induction false} StockIsExact(seed: Stock, cfg: Config, run: seq<Action>)
    requires IsSeed(seed) && Unrepeated(cfg) && forall o :: Issued(cfg, Init(seed), run, o) <= 1
    ensures Conserved(seed, Exec(cfg, Init(seed), run).db.store)
    decreases |run|
  {
    if run == [] {
      SeedIsConserved(seed);
    } else {
      var (init, a) := (run[..|run| - 1], run[|run| - 1]);
      assert run == init + [a];
      forall o ensures Issued(cfg, Init(seed), init, o) <= 1 {
        LastAction(cfg, Init(seed), init, a, o);
      }
      StockIsExact(seed, cfg, init);
      LastAction(cfg, Init(seed), init, a, "");
      ExactAction(seed, cfg, init, a);
    }
  }

  lemma ExactAction(seed: Stock, cfg: Config, init: seq<Action>, a: Action)
    requires IsSeed(seed) && Unrepeated(cfg) && forall o :: Issued(cfg, Init(seed), init, o) <= 1
    requires Conserved(seed, Exec(cfg, Init(seed), init).db.store)
    ensures Conserved(seed, Apply(cfg, Exec(cfg, Init(seed), init), a).db.store)
  {
    var s := Exec(cfg, Init(seed), init);
    if a.Run? && a.index < |s.tasks| {
      var o := OrderOf(s.tasks[a.index]);
      ReachedIsSole(seed, cfg, init, o);
      ReachableIsSound(seed, cfg, s);
      ExactStep(seed, cfg, s, a.index, a.choice, 1 - Issued(cfg, Init(seed), init, o));
    }
  }

  lemma ExactStep(seed: Stock, cfg: Config, s: Sys, i: nat, c: Choice, budget: int)
    requires Everywhere(s, SoundDossier()) && i < |s.tasks| && Sole(View(s, OrderOf(s.tasks[i])), budget)
    requires Conserved(seed, s.db.store)
    ensures Conserved(seed, Advance(cfg, s.db, s.tasks[i], c).0.store)
  {
    var t := s.tasks[i];
    AdvanceServes(cfg, s.db, t, c);
    if Advance(cfg, s.db, t, c).0.store != s.db.store {
      SoleConfirmsNoneReleased(s, i, budget);
      ServeConservesIff(seed, s.db.store, RpcOf(t).value);
    }
  }

  lemma UnissuedStep(cfg: Config, s: Sys, a: Action, o: OrderId)
    requires Once(cfg) && Ledger(s) && Everywhere(s, SafeDossier())
    ensures Unissued(View(Apply(cfg, s, a), o)) + (if Issues(s, a, o) then 1 else 0) <= Unissued(View(s, o))
  {
    if !a.Run? {
      OutsideKeepsMoney(cfg, s, a, o);
    } else if a.index < |s.tasks| {
      if OrderOf(s.tasks[a.index]) == o {
        UnissuedTask(cfg, s, a.index, a.choice, o);
      } else {
        RunView(cfg, s, a.index, a.choice);
        assert View(Apply(cfg, s, a), o) == View(s, o);
      }
    }
  }

  lemma UnissuedTask(cfg: Config, s: Sys, i: nat, c: Choice, o: OrderId)
    requires Once(cfg) && i < |s.tasks| && o == OrderOf(s.tasks[i]) && Everywhere(s, SafeDossier())
    ensures Unissued(View(Apply(cfg, s, Run(i, c)), o)) + (if Issues(s, Run(i, c), o) then 1 else 0)
         <= Unissued(View(s, o))
  {
    var (after, news) := Advance(cfg, s.db, s.tasks[i], c);
    assert SafeDossier()(View(s, o), o);
    ViewOpens(s, i);
    RunView(cfg, s, i, c);
    AdvanceEffect(cfg, s.db, s.tasks[i], c);
    if s.tasks[i].Requesting? && c == Proceed {
      IssueTakesClaim(cfg, s.db, s.tasks[i], c);
    }
    UnissuedMove(cfg, s.db, s.tasks[i], after, news, View(s, o), View(Apply(cfg, s, Run(i, c)), o));
  }

  lemma IssueTakesClaim(cfg: Config, db: Tables, t: Task, c: Choice)
    requires t.Requesting? && c == Proceed
    ensures ChargesIn(Advance(cfg, db, t, c).1) == ClaimsIn(Advance(cfg, db, t, c).1) == 1
  {
  }

  lemma UnissuedMove(cfg: Config, db: Tables, t: Task, after: Tables, news: seq<Task>, d: Dossier, d': Dossier)
    requires Once(cfg) && Justified(d)
    requires Opens(db, t, d) && Becomes(db, t, after, news, d, d') && Effect(cfg, db, t, after, news)
    ensures Unissued(d') + (if t.Requesting? then ChargesIn(news) else 0) <= Unissued(d)
  {
    assert Recorded(d, t) && !Astray(db, t);
    if IsCharge(t) {
      forall x | x in news && IsClaim(x) ensures IsCharge(x) {
        assert x == t || Follows(db, t, after, x);
      }
    }
  }

  lemma {:induction false} IssuedOnlyOnce(seed: Stock, cfg: Config, s: Sys, run: seq<Action>, o: OrderId)
    requires Once(cfg) && Exclusive(seed, s)
    ensures Issued(cfg, s, run, o) <= Unissued(View(s, o))
    decreases |run|
  {
    if run == [] {
      ViewIsLinked(s, o);
    } else {
      UnissuedStep(cfg, s, run[0], o);
      ExclusiveStep(seed, cfg, s, run[0]);
      IssuedOnlyOnce(seed, cfg, Apply(cfg, s, run[0]), run[1..], o);
    }
  }

  /** Handling order.created once is one way to have a single payment request. */
  lemma OnceIssuesOne(seed: Stock, cfg: Config, run: seq<Action>, o: OrderId)
    requires IsSeed(seed) && Once(cfg)
    ensures Unrepeated(cfg) && Issued(cfg, Init(seed), run, o) <= 1
  {
    ReachedStatesHold(seed, cfg, []);
    IssuedOnlyOnce(seed, cfg, Init(seed), run, o);
  }
}
