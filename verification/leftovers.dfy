/**
 * What failures can leave of an order, when each request is handled once: which goods stay reserved, why,
 * and exactly which combinations of status, goods and charge a run can end with.
 */
module Leftovers {
  import opened Domain
  import opened Inventory
  import opened Ordering
  import opened Saga
  import opened Dossiers
  import opened Effects
  import opened Safety
  import opened StockLaws
  import opened Invariants
  import opened Guarantees
  import opened SingleRequest
  import opened FinalAgreement

  /**
   * What has happened to an order's inventory calls: a reserve call was executed and granted; a granted answer
   * reached its caller; a release call was executed; a payment result was handled; some call was not sent, or
   * not executed and answered.
   */
  datatype History = History(granted: bool, answered: bool, released: bool, handled: bool, lost: bool)

  const NOTHING := History(false, false, false, false, false)

  /** An inventory call that is not sent, refused, given up, lost, or whose caller dies. */
  predicate Loses(t: Task, c: Choice) {
    match t
    case Created(_) => c == Fault
    case Result(_, _) => c == Fault
    case Reserving(_, call) => c == Fault || c == Vanish || c == Redeliver || (c == TimeOut && call == Sent)
    case Confirming(_, call) => c == Fault || c == Vanish || (c == TimeOut && call == Sent)
    case Releasing(_, call) => c == Fault || c == Vanish || (c == TimeOut && call == Sent)
    case _ => false
  }

  /** The request that the step has executed. */
  function Executed(t: Task, c: Choice): Option<Request> {
    if c == Proceed then RpcOf(t) else None
  }

  function NextHistory(h: History, db: Tables, t: Task, c: Choice): History {
    var rpc := Executed(t, c);
    History(
      h.granted || (rpc.Some? && rpc.value.ReserveRequest? && Serve(db.store, rpc.value).1.success),
      h.answered || (t.Reserving? && t.call.Replied? && t.call.reply.success && c == Proceed),
      h.released || (rpc.Some? && rpc.value.ReleaseRequest?),
      h.handled || (t.Result? && c == Proceed),
      h.lost || Loses(t, c))
  }

  function Noted(h: History, s: Sys, a: Action, o: OrderId): History {
    if a.Run? && a.index < |s.tasks| && OrderOf(s.tasks[a.index]) == o
    then NextHistory(h, s.db, s.tasks[a.index], a.choice) else h
  }

  /** The history of o over a run from s that finds it as h. */
  function HistoryOf(cfg: Config, s: Sys, run: seq<Action>, o: OrderId, h: History): History
    decreases |run|
  {
    if run == [] then h else HistoryOf(cfg, Apply(cfg, s, run[0]), run[1..], o, Noted(h, s, run[0], o))
  }

  predicate Beyond(t: Task) {
    Granted(t) && !t.Reserving?
  }

  /** The dossier bears the marks of the history. */
  predicate Recalls(d: Dossier, h: History) {
    && (d.reservation.Some? <==> h.granted)
    && (h.released ==> h.answered && d.reservation.Some? && d.reservation.value.status != Reserved)
    && (d.reservation.Some? && d.reservation.value.status == Released ==> h.released)
    && (forall t :: t in d.tasks && Beyond(t) ==> h.answered)
    && (d.order.Some? && d.order.value.status == InventoryReserved ==> d.reservation.Some?)
  }

  /** Tasks that are about to settle the reservation. */
  predicate Settles(t: Task) {
    (t.Confirming? || t.Releasing?) && t.call == Sent
  }

  /** As long as no call is lost, nothing is late, and goods are confirmed or released once a result is there. */
  predicate Tended(d: Dossier, h: History) {
    && (forall t :: t in d.tasks ==> !t.Late?)
    && (h.handled ==> h.granted)
    && (d.reservation.Some? && d.reservation.value.status != Reserved ==> h.handled)
    && (forall t :: t in d.tasks && (t.Confirming? || t.Releasing?) ==> h.handled)
    && (Holding(d.reservation) && h.handled ==> exists t :: t in d.tasks && Settles(t))
  }

  /** ... and CANCELLED comes after that. */
  predicate Clears(d: Dossier) {
    && (forall t :: t in d.tasks && Freed(t) ==> !Holding(d.reservation))
    && (d.order.Some? && d.order.value.status == Cancelled ==> !Holding(d.reservation))
  }

  /** What the step does to its order's reservation. */
  predicate Served(db: Tables, t: Task, c: Choice, after: Tables) {
    var o := OrderOf(t);
    var (before, now) := (Get(db.store.reservations, o), Get(after.store.reservations, o));
    match Executed(t, c)
    case None => now == before
    case Some(ReserveRequest(_, _)) =>
      var success := Serve(db.store, Executed(t, c).value).1.success;
      && (before.Some? ==> now == before && (success <==> before.value.status != Released))
      && (before.None? ==> if success then Holding(now) else now.None?)
    case Some(ConfirmRequest(_)) =>
      now == if before.Some? then Some(before.value.(status := Confirmed)) else None
    case Some(ReleaseRequest(_)) =>
      now == if Holding(before) then Some(before.value.(status := Released)) else before
  }

  lemma AdvanceExecutes(cfg: Config, db: Tables, t: Task, c: Choice)
    ensures Advance(cfg, db, t, c).0.store
         == if Executed(t, c).Some? then Serve(db.store, Executed(t, c).value).0 else db.store
  {
  }

  lemma AdvanceServed(cfg: Config, db: Tables, t: Task, c: Choice)
    ensures Served(db, t, c, Advance(cfg, db, t, c).0)
  {
    AdvanceExecutes(cfg, db, t, c);
  }

  /** Steps that only go on if the awaited call has been answered. */
  predicate GoesOn(t: Task, c: Choice, news: seq<Task>) {
    && (t.Reserving? && (exists x :: x in news && x.MarkingReserved?) ==> c == Proceed)
    && (t.Result? && (exists x :: x in news && (x.Confirming? || x.Releasing?)) ==> c == Proceed)
    && (t.Result? && c == Proceed ==> exists x :: x in news && Settles(x))
    && (!Loses(t, c) ==> forall x :: x in news && x != t ==>
          && !x.Late?
          && (x.Marking? && x.status == Cancelled ==> Freed(t))
          && (x.Announcing? && x.status == Cancelled ==> Freed(t)))
    && (!Loses(t, c) && Settles(t) && Executed(t, c).None? ==> t in news)
  }

  lemma AdvanceGoesOn(cfg: Config, db: Tables, t: Task, c: Choice)
    ensures GoesOn(t, c, Advance(cfg, db, t, c).1)
  {
    var news := Advance(cfg, db, t, c).1;
    if t.Result? && c == Proceed {
      assert news[0] in news;
    }
  }

  lemma RecallsStep(
      cfg: Config, db: Tables, t: Task, c: Choice, after: Tables, news: seq<Task>, d: Dossier, d': Dossier, h: History)
    requires Opens(db, t, d) && Becomes(db, t, after, news, d, d') && Effect(cfg, db, t, after, news)
    requires Served(db, t, c, after) && GoesOn(t, c, news) && Traced(d, OrderOf(t)) && Recalls(d, h)
    ensures Recalls(d', NextHistory(h, db, t, c))
  {
    forall x | x in d'.tasks && Beyond(x) ensures NextHistory(h, db, t, c).answered {
      if x !in d.tasks {
        assert Follows(db, t, after, x);
      }
    }
  }

  lemma TendedStep(
      cfg: Config, db: Tables, t: Task, c: Choice, after: Tables, news: seq<Task>, d: Dossier, d': Dossier, h: History)
    requires Opens(db, t, d) && Becomes(db, t, after, news, d, d') && Effect(cfg, db, t, after, news)
    requires Served(db, t, c, after) && GoesOn(t, c, news)
    requires Traced(d, OrderOf(t)) && Recalls(d, h) && Tended(d, h) && !Loses(t, c)
    ensures Tended(d', NextHistory(h, db, t, c))
  {
    var h' := NextHistory(h, db, t, c);
    forall x | x in d'.tasks ensures !x.Late? && (x.Confirming? || x.Releasing? ==> h'.handled) {
      if x !in d.tasks {
        assert Follows(db, t, after, x);
      }
    }
    assert t.Result? || Settles(t) ==> Granted(t);
    if Holding(d'.reservation) && h'.handled {
      StillSettled(db, t, c, after, news, d, d', h);
    }
  }

  lemma StillSettled(
      db: Tables, t: Task, c: Choice, after: Tables, news: seq<Task>, d: Dossier, d': Dossier, h: History)
    requires Opens(db, t, d) && Becomes(db, t, after, news, d, d')
    requires Served(db, t, c, after) && GoesOn(t, c, news) && Recalls(d, h) && Tended(d, h) && !Loses(t, c)
    requires Settles(t) ==> d.reservation.Some?
    requires Holding(d'.reservation) && NextHistory(h, db, t, c).handled && (t.Result? ==> d.reservation.Some?)
    ensures exists x :: x in d'.tasks && Settles(x)
  {
    if t.Result? && c == Proceed {
      var x :| x in news && Settles(x);
      assert x in d'.tasks;
    } else {
      assert h.handled && Holding(d.reservation);
      var x :| x in d.tasks && Settles(x);
      if x == t {
        assert Executed(t, c).None? && t in news;
      }
      assert x in d'.tasks && Settles(x);
    }
  }

  lemma ClearsStep(
      cfg: Config, db: Tables, t: Task, c: Choice, after: Tables, news: seq<Task>, d: Dossier, d': Dossier)
    requires Opens(db, t, d) && Becomes(db, t, after, news, d, d') && Effect(cfg, db, t, after, news)
    requires Served(db, t, c, after) && GoesOn(t, c, news) && RefusedEmpty(t, after, news)
    requires Safe(d) && Clears(d) && !t.Late? && !Loses(t, c)
    ensures Clears(d')
  {
    if Holding(d'.reservation) && !Holding(d.reservation) {
      NothingFreedYet(db, t, d);
      assert IsClaim(t);
    }
    forall x | x in d'.tasks && Freed(x) ensures !Holding(d'.reservation) {
      if x !in d.tasks {
        assert Follows(db, t, after, x);
      }
    }
  }

  /** A refusal, and the end of a release call, find nothing RESERVED. */
  predicate RefusedEmpty(t: Task, after: Tables, news: seq<Task>) {
    forall x :: x in news && x != t && (x.Reserving? || x.Releasing?) && Freed(x) ==>
      !Holding(Get(after.store.reservations, OrderOf(t)))
  }

  lemma AdvanceRefusesEmpty(cfg: Config, db: Tables, t: Task, c: Choice)
    ensures RefusedEmpty(t, Advance(cfg, db, t, c).0, Advance(cfg, db, t, c).1)
  {
  }

  lemma RecallsAction(seed: Stock, cfg: Config, s: Sys, a: Action, o: OrderId, h: History)
    requires Reachable(seed, cfg, s) && Recalls(View(s, o), h)
    ensures Recalls(View(Apply(cfg, s, a), o), Noted(h, s, a, o))
  {
    ReachableIsSound(seed, cfg, s);
    if !a.Run? {
      OutsideKeepsMoney(cfg, s, a, o);
    } else if a.index < |s.tasks| {
      RunView(cfg, s, a.index, a.choice);
      if OrderOf(s.tasks[a.index]) == o {
        RecallsTask(cfg, s, a.index, a.choice, o, h);
      } else {
        assert View(Apply(cfg, s, a), o) == View(s, o);
      }
    }
  }

  lemma RecallsTask(cfg: Config, s: Sys, i: nat, c: Choice, o: OrderId, h: History)
    requires i < |s.tasks| && o == OrderOf(s.tasks[i]) && Everywhere(s, SoundDossier()) && Recalls(View(s, o), h)
    ensures Recalls(View(Apply(cfg, s, Run(i, c)), o), NextHistory(h, s.db, s.tasks[i], c))
  {
    var (after, news) := Advance(cfg, s.db, s.tasks[i], c);
    assert SoundDossier()(View(s, o), o);
    ViewOpens(s, i);
    RunView(cfg, s, i, c);
    AdvanceEffect(cfg, s.db, s.tasks[i], c);
    AdvanceServed(cfg, s.db, s.tasks[i], c);
    AdvanceGoesOn(cfg, s.db, s.tasks[i], c);
    RecallsStep(cfg, s.db, s.tasks[i], c, after, news, View(s, o), View(Apply(cfg, s, Run(i, c)), o), h);
  }

  lemma {:induction false} RecallsRun(seed: Stock, cfg: Config, s: Sys, run: seq<Action>, o: OrderId, h: History)
    requires Reachable(seed, cfg, s) && Recalls(View(s, o), h)
    ensures Recalls(View(Exec(cfg, s, run), o), HistoryOf(cfg, s, run, o, h))
    decreases |run|
  {
    if run != [] {
      RecallsAction(seed, cfg, s, run[0], o, h);
      ReachableOn(seed, cfg, s, run[0]);
      RecallsRun(seed, cfg, Apply(cfg, s, run[0]), run[1..], o, Noted(h, s, run[0], o));
    }
  }

  lemma TendedAction(seed: Stock, cfg: Config, s: Sys, a: Action, o: OrderId, h: History)
    requires Once(cfg) && Reachable(seed, cfg, s) && !Noted(h, s, a, o).lost
    requires Recalls(View(s, o), h) && Tended(View(s, o), h) && Clears(View(s, o))
    ensures Tended(View(Apply(cfg, s, a), o), Noted(h, s, a, o)) && Clears(View(Apply(cfg, s, a), o))
  {
    ReachableIsExclusive(seed, cfg, s);
    if !a.Run? {
      OutsideKeepsMoney(cfg, s, a, o);
      OutsideIsTended(View(s, o), View(Apply(cfg, s, a), o), o, h);
    } else if a.index < |s.tasks| {
      RunView(cfg, s, a.index, a.choice);
      if OrderOf(s.tasks[a.index]) == o {
        TendedTask(cfg, s, a.index, a.choice, o, h);
      } else {
        assert View(Apply(cfg, s, a), o) == View(s, o);
      }
    }
  }

  lemma OutsideIsTended(d: Dossier, d': Dossier, o: OrderId, h: History)
    requires SameMoney(d, d') && Tended(d, h) && Clears(d)
    ensures Tended(d', h) && Clears(d')
  {
    if Holding(d'.reservation) && h.handled {
      var t :| t in d.tasks && Settles(t);
      assert t in d'.tasks && Settles(t);
    }
  }

  lemma TendedTask(cfg: Config, s: Sys, i: nat, c: Choice, o: OrderId, h: History)
    requires i < |s.tasks| && o == OrderOf(s.tasks[i]) && Everywhere(s, SafeDossier())
    requires Recalls(View(s, o), h) && Tended(View(s, o), h) && Clears(View(s, o)) && !Loses(s.tasks[i], c)
    ensures Tended(View(Apply(cfg, s, Run(i, c)), o), NextHistory(h, s.db, s.tasks[i], c))
    ensures Clears(View(Apply(cfg, s, Run(i, c)), o))
  {
    var (t, d, d') := (s.tasks[i], View(s, o), View(Apply(cfg, s, Run(i, c)), o));
    var (after, news) := Advance(cfg, s.db, t, c);
    assert SafeDossier()(d, o);
    ViewOpens(s, i);
    RunView(cfg, s, i, c);
    AdvanceEffect(cfg, s.db, t, c);
    AdvanceServed(cfg, s.db, t, c);
    AdvanceGoesOn(cfg, s.db, t, c);
    AdvanceRefusesEmpty(cfg, s.db, t, c);
    TendedStep(cfg, s.db, t, c, after, news, d, d', h);
    ClearsStep(cfg, s.db, t, c, after, news, d, d');
  }

  lemma {:induction false} LostForEver(cfg: Config, s: Sys, run: seq<Action>, o: OrderId, h: History)
    requires h.lost
    ensures HistoryOf(cfg, s, run, o, h).lost
    decreases |run|
  {
    if run != [] {
      LostForEver(cfg, Apply(cfg, s, run[0]), run[1..], o, Noted(h, s, run[0], o));
    }
  }

  lemma {:induction false} TendedRun(seed: Stock, cfg: Config, s: Sys, run: seq<Action>, o: OrderId, h: History)
    requires Once(cfg) && Reachable(seed, cfg, s) && !HistoryOf(cfg, s, run, o, h).lost
    requires Recalls(View(s, o), h) && Tended(View(s, o), h) && Clears(View(s, o))
    ensures Tended(View(Exec(cfg, s, run), o), HistoryOf(cfg, s, run, o, h)) && Clears(View(Exec(cfg, s, run), o))
    decreases |run|
  {
    if run != [] {
      var (next, h') := (Apply(cfg, s, run[0]), Noted(h, s, run[0], o));
      if h'.lost {
        LostForEver(cfg, next, run[1..], o, h');
      }
      RecallsAction(seed, cfg, s, run[0], o, h);
      TendedAction(seed, cfg, s, run[0], o, h);
      ReachableOn(seed, cfg, s, run[0]);
      TendedRun(seed, cfg, next, run[1..], o, h');
    }
  }

  /** The history of o over a whole run. */
  function WholeHistory(seed: Stock, cfg: Config, run: seq<Action>, o: OrderId): History {
    HistoryOf(cfg, Init(seed), run, o, NOTHING)
  }

  lemma ReachedRecalls(seed: Stock, cfg: Config, run: seq<Action>, o: OrderId)
    requires IsSeed(seed)
    ensures Reachable(seed, cfg, Exec(cfg, Init(seed), run))
    ensures Recalls(View(Exec(cfg, Init(seed), run), o), WholeHistory(seed, cfg, run, o))
    ensures Once(cfg) && !WholeHistory(seed, cfg, run, o).lost ==>
      var d := View(Exec(cfg, Init(seed), run), o);
      Tended(d, WholeHistory(seed, cfg, run, o)) && Clears(d)
  {
    assert Exec(cfg, Init(seed), []) == Init(seed);
    assert View(Init(seed), o) == Dossier(None, None, 0, 0, 0, 0, 0, {}, {}, {});
    RecallsRun(seed, cfg, Init(seed), run, o, NOTHING);
    if Once(cfg) && !WholeHistory(seed, cfg, run, o).lost {
      TendedRun(seed, cfg, Init(seed), run, o, NOTHING);
    }
  }

  /**
   * Compensation is not exact across services. A CANCELLED order holds RESERVED goods exactly if a reserve call
   * of it was executed and granted, and either no granted answer reached a caller (it was lost, or the call
   * ran late), or no release call was ever executed.
   */
  lemma CancelledKeepsGoodsIff(seed: Stock, cfg: Config, run: seq<Action>, o: OrderId)
    requires IsSeed(seed) && Once(cfg)
    requires var db := Exec(cfg, Init(seed), run).db; o in db.orders && db.orders[o].status == Cancelled
    ensures var h := WholeHistory(seed, cfg, run, o);
            ReservationIs(Exec(cfg, Init(seed), run).db, o, Reserved)
            <==> h.granted && (!h.answered || !h.released)
  {
    var s := Exec(cfg, Init(seed), run);
    ReachedRecalls(seed, cfg, run, o);
    ReachableIsExclusive(seed, cfg, s);
    assert SafeDossier()(View(s, o), o);
  }

  /** Whatever fails elsewhere: if all of the order's calls were executed and answered, CANCELLED frees its goods. */
  lemma AnsweredCallsFreeGoods(seed: Stock, cfg: Config, run: seq<Action>, o: OrderId)
    requires IsSeed(seed) && Once(cfg) && !WholeHistory(seed, cfg, run, o).lost
    requires var db := Exec(cfg, Init(seed), run).db; o in db.orders && db.orders[o].status == Cancelled
    ensures !ReservationIs(Exec(cfg, Init(seed), run).db, o, Reserved)
  {
    ReachedRecalls(seed, cfg, run, o);
  }

  /**
   * Then the order ends with RESERVED goods exactly if they were granted and no payment result was ever
   * handled, as when its payment request or result is lost.
   */
  lemma AnsweredCallsKeepGoodsIff(seed: Stock, cfg: Config, run: seq<Action>, o: OrderId)
    requires IsSeed(seed) && Once(cfg) && !WholeHistory(seed, cfg, run, o).lost
    requires forall t :: t in Exec(cfg, Init(seed), run).tasks ==> OrderOf(t) != o
    ensures var h := WholeHistory(seed, cfg, run, o);
            ReservationIs(Exec(cfg, Init(seed), run).db, o, Reserved) <==> h.granted && !h.handled
  {
    ReachedRecalls(seed, cfg, run, o);
    assert View(Exec(cfg, Init(seed), run), o).tasks == {};
  }
}
