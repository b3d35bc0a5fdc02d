/**
 * Everything the system holds about one order. Orders meet only in the stock counters, so a step
 * changes the dossier of one order and leaves all the others alone.
 */
module Dossiers {
  import opened Domain
  import opened Inventory
  import opened Ordering
  import opened Payments
  import opened Saga

  datatype Dossier = Dossier(
    order: Option<Order>,
    reservation: Option<Reservation>,
    queued: nat,              // outbox rows that the relay has still to publish
    claims: nat,              // tasks on the way to charging the customer
    charges: nat,             // ... of which payment requests
    rows: nat,                // payment rows
    dead: nat,                // requests parked in the DLQ
    billed: set<Payment>,
    told: set<OrderStatus>,   // statuses announced to the customer
    tasks: set<Task>)

  /** A payment request that has not got past the gateway yet. */
  predicate IsCharge(t: Task) {
    t.Charging? && !t.place.Returned?
  }

  predicate IsClaim(t: Task) {
    t.Created? || t.Reserving? || t.MarkingReserved? || t.Requesting? || IsCharge(t)
  }

  function ClaimOf(o: OrderId): Task -> bool {
    (t: Task) => IsClaim(t) && OrderOf(t) == o
  }

  function ChargeOf(o: OrderId): Task -> bool {
    (t: Task) => IsCharge(t) && OrderOf(t) == o
  }

  function EventFor(o: OrderId): OrderCreated -> bool {
    (e: OrderCreated) => e.order == o
  }

  function RowFor(o: OrderId): Payment -> bool {
    (p: Payment) => p.order == o
  }

  function DeadFor(o: OrderId): PaymentRequested -> bool {
    (r: PaymentRequested) => r.order == o
  }

  function Get<V>(m: map<OrderId, V>, o: OrderId): Option<V> {
    if o in m then Some(m[o]) else None
  }

  function Billed(payments: seq<Payment>, o: OrderId): set<Payment> {
    set p | p in payments && p.order == o
  }

  function Told(notices: seq<Notice>, o: OrderId): set<OrderStatus> {
    set n | n in notices && n.order == o :: n.status
  }

  function TasksOf(tasks: seq<Task>, o: OrderId): set<Task> {
    set t | t in tasks && OrderOf(t) == o
  }

  function Queued(s: Sys, o: OrderId): nat {
    if s.relay.position <= |s.db.outbox| then Count(s.db.outbox[s.relay.position..], EventFor(o)) else 0
  }

  function View(s: Sys, o: OrderId): Dossier {
    Dossier(
      Get(s.db.orders, o), Get(s.db.store.reservations, o),
      Queued(s, o), Count(s.tasks, ClaimOf(o)), Count(s.tasks, ChargeOf(o)),
      Count(s.db.payments, RowFor(o)), Count(s.db.dlq, DeadFor(o)),
      Billed(s.db.payments, o), Told(s.db.notices, o), TasksOf(s.tasks, o))
  }

  /** n counts the tasks of a set that satisfy f, as often as they occur. */
  predicate Tallies(n: nat, tasks: set<Task>, f: Task -> bool) {
    && (forall t :: t in tasks && f(t) ==> n >= 1)
    && (forall t, t' :: t in tasks && t' in tasks && f(t) && f(t') && t != t' ==> n >= 2)
  }

  /** The counts and the sets of a dossier tell the same story. */
  predicate Linked(d: Dossier, o: OrderId) {
    && (forall t :: t in d.tasks ==> OrderOf(t) == o)
    && Tallies(d.claims, d.tasks, ClaimOf(o)) && Tallies(d.charges, d.tasks, ChargeOf(o))
    && d.charges <= d.claims
    && (forall p :: p in d.billed ==> p.order == o && d.rows >= 1)
    && (d.rows >= 1 ==> d.billed != {})
  }

  lemma {:induction false} CountOfTwo<T>(s: seq<T>, f: T -> bool, i: nat, j: nat)
    requires i < j < |s| && f(s[i]) && f(s[j])
    ensures Count(s, f) >= 2
  {
    if j == |s| - 1 {
      assert s[..j][i] == s[i];
      CountWitness(s[..j], f);
    } else {
      CountOfTwo(s[..|s| - 1], f, i, j);
    }
  }

  lemma {:induction false} CountMonotone<T>(s: seq<T>, f: T -> bool, g: T -> bool)
    requires forall x :: f(x) ==> g(x)
    ensures Count(s, f) <= Count(s, g)
  {
    if s != [] {
      CountMonotone(s[..|s| - 1], f, g);
    }
  }

  lemma CountTallies(tasks: seq<Task>, o: OrderId, f: Task -> bool)
    ensures Tallies(Count(tasks, f), TasksOf(tasks, o), f)
  {
    var own := TasksOf(tasks, o);
    CountWitness(tasks, f);
    forall t | t in own && f(t) ensures Count(tasks, f) >= 1 {
      var i :| 0 <= i < |tasks| && tasks[i] == t;
      assert f(tasks[i]);
    }
    forall t, t' | t in own && t' in own && f(t) && f(t') && t != t' ensures Count(tasks, f) >= 2 {
      var i :| 0 <= i < |tasks| && tasks[i] == t;
      var j :| 0 <= j < |tasks| && tasks[j] == t';
      if i < j {
        CountOfTwo(tasks, f, i, j);
      } else {
        CountOfTwo(tasks, f, j, i);
      }
    }
  }

  lemma ViewIsLinked(s: Sys, o: OrderId)
    ensures Linked(View(s, o), o)
  {
    CountTallies(s.tasks, o, ClaimOf(o));
    CountTallies(s.tasks, o, ChargeOf(o));
    CountMonotone(s.tasks, ChargeOf(o), ClaimOf(o));
    CountWitness(s.db.payments, RowFor(o));
    var d := View(s, o);
    forall p | p in d.billed ensures d.rows >= 1 {
      var i :| 0 <= i < |s.db.payments| && s.db.payments[i] == p;
      assert RowFor(o)(s.db.payments[i]);
    }
    if d.rows >= 1 {
      var i :| 0 <= i < |s.db.payments| && RowFor(o)(s.db.payments[i]);
      assert s.db.payments[i] in d.billed;
    }
  }

  lemma CountOne<T>(x: T, f: T -> bool)
    ensures Count([x], f) == if f(x) then 1 else 0
  {
    assert [x][..0] == [];
  }

  lemma CountTwo<T>(x: T, y: T, f: T -> bool)
    ensures Count([x, y], f) == (if f(x) then 1 else 0) + if f(y) then 1 else 0
  {
    CountConcat([x], [y], f);
    assert [x] + [y] == [x, y];
    CountOne(x, f);
    CountOne(y, f);
  }

  lemma CountReplaced<T>(s: seq<T>, i: nat, news: seq<T>, f: T -> bool)
    requires i < |s|
    ensures Count(s[..i] + news + s[i + 1..], f) == Count(s, f) - (if f(s[i]) then 1 else 0) + Count(news, f)
  {
    assert s == s[..i] + [s[i]] + s[i + 1..];
    CountConcat(s[..i] + [s[i]], s[i + 1..], f);
    CountConcat(s[..i], [s[i]], f);
    CountOne(s[i], f);
    CountConcat(s[..i] + news, s[i + 1..], f);
    CountConcat(s[..i], news, f);
  }

  /** Tables and tasks written only on behalf of order o, and at most one row appended to a table. */
  ghost predicate IsLocal(db: Tables, after: Tables, news: seq<Task>, o: OrderId) {
    && after.catalog == db.catalog && after.outbox == db.outbox
    && |news| <= 2 && (forall x :: x in news ==> OrderOf(x) == o)
    && (forall o' :: o' != o ==> Get(after.orders, o') == Get(db.orders, o'))
    && (forall o' :: o' != o ==> Get(after.store.reservations, o') == Get(db.store.reservations, o'))
    && (after.payments == db.payments
        || exists p: Payment :: p.order == o && after.payments == db.payments + [p])
    && (after.dlq == db.dlq
        || exists r: PaymentRequested :: r.order == o && after.dlq == db.dlq + [r])
    && (after.notices == db.notices
        || exists n: Notice :: n.order == o && after.notices == db.notices + [n])
  }

  lemma StartSagaIsLocal(db: Tables, t: Task, c: Choice)
    requires t.Created? || t.Reserving? || t.MarkingReserved? || t.Requesting?
    ensures IsLocal(db, StartSaga(db, t, c).0, StartSaga(db, t, c).1, OrderOf(t))
  {
  }

  lemma PayIsLocal(cfg: Config, db: Tables, t: Task, c: Choice)
    requires t.Charging? || t.Reporting?
    ensures IsLocal(db, Pay(cfg, db, t, c).0, Pay(cfg, db, t, c).1, OrderOf(t))
  {
  }

  lemma ConcludeIsLocal(db: Tables, t: Task, c: Choice)
    requires t.Result? || t.Confirming? || t.Releasing?
    ensures IsLocal(db, Conclude(db, t, c).0, Conclude(db, t, c).1, OrderOf(t))
  {
  }

  lemma NotifyIsLocal(db: Tables, t: Task, c: Choice)
    requires t.Marking? || t.Announcing?
    ensures IsLocal(db, Notify(db, t, c).0, Notify(db, t, c).1, OrderOf(t))
  {
  }

  lemma AdvanceIsLocal(cfg: Config, db: Tables, t: Task, c: Choice)
    ensures IsLocal(db, Advance(cfg, db, t, c).0, Advance(cfg, db, t, c).1, OrderOf(t))
  {
    if c != Vanish && c != Copy {
      match t {
        case Created(_) => StartSagaIsLocal(db, t, c);
        case Reserving(_, _) => StartSagaIsLocal(db, t, c);
        case MarkingReserved(_) => StartSagaIsLocal(db, t, c);
        case Requesting(_) => StartSagaIsLocal(db, t, c);
        case Charging(_, _) => PayIsLocal(cfg, db, t, c);
        case Reporting(_, _, _) => PayIsLocal(cfg, db, t, c);
        case Result(_, _) => ConcludeIsLocal(db, t, c);
        case Confirming(_, _) => ConcludeIsLocal(db, t, c);
        case Releasing(_, _) => ConcludeIsLocal(db, t, c);
        case Marking(_, _) => NotifyIsLocal(db, t, c);
        case Announcing(_, _) => NotifyIsLocal(db, t, c);
        case Late(_) =>
      }
    }
  }

  function ClaimsIn(news: seq<Task>): nat {
    (if |news| > 0 && IsClaim(news[0]) then 1 else 0) + if |news| > 1 && IsClaim(news[1]) then 1 else 0
  }

  function ChargesIn(news: seq<Task>): nat {
    (if |news| > 0 && IsCharge(news[0]) then 1 else 0) + if |news| > 1 && IsCharge(news[1]) then 1 else 0
  }

  /** How the dossier d of the order of t becomes d' when the tables become `after` and t becomes news. */
  predicate Becomes(db: Tables, t: Task, after: Tables, news: seq<Task>, d: Dossier, d': Dossier) {
    var o := OrderOf(t);
    && d'.order == Get(after.orders, o)
    && d'.reservation == Get(after.store.reservations, o)
    && d'.queued == d.queued
    && d'.claims + (if IsClaim(t) then 1 else 0) == d.claims + ClaimsIn(news)
    && d'.charges + (if IsCharge(t) then 1 else 0) == d.charges + ChargesIn(news)
    && (if after.payments == db.payments then d'.rows == d.rows && d'.billed == d.billed
        else |after.payments| == |db.payments| + 1
             && d'.rows == d.rows + 1 && d'.billed == d.billed + {after.payments[|db.payments|]})
    && (if after.dlq == db.dlq then d'.dead == d.dead else d'.dead == d.dead + 1)
    && (if after.notices == db.notices then d'.told == d.told
        else |after.notices| == |db.notices| + 1 && d'.told == d.told + {after.notices[|db.notices|].status})
    && (forall x :: x in news ==> x in d'.tasks)
    && (forall x :: x in d'.tasks ==> x in d.tasks || x in news)
    && (forall x :: x in d.tasks && x != t ==> x in d'.tasks)
  }

  /** The move that t makes with choice c. */
  predicate Moves(cfg: Config, db: Tables, t: Task, c: Choice, d: Dossier, d': Dossier) {
    Becomes(db, t, Advance(cfg, db, t, c).0, Advance(cfg, db, t, c).1, d, d')
  }

  lemma TasksReplaced(tasks: seq<Task>, i: nat, news: seq<Task>, o: OrderId)
    requires i < |tasks|
    ensures var tasks' := tasks[..i] + news + tasks[i + 1..];
            && (forall x :: x in TasksOf(tasks', o) ==> x in TasksOf(tasks, o) || x in news)
            && (forall x :: x in news && OrderOf(x) == o ==> x in TasksOf(tasks', o))
            && (forall x :: x in TasksOf(tasks, o) && x != tasks[i] ==> x in TasksOf(tasks', o))
  {
    var tasks' := tasks[..i] + news + tasks[i + 1..];
    assert tasks == tasks[..i] + [tasks[i]] + tasks[i + 1..];
  }

  lemma CountOfAtMostTwo<T>(news: seq<T>, f: T -> bool)
    requires |news| <= 2
    ensures Count(news, f) == (if |news| > 0 && f(news[0]) then 1 else 0) + if |news| > 1 && f(news[1]) then 1 else 0
  {
    if |news| == 1 {
      assert news == [news[0]];
      CountOne(news[0], f);
    } else if |news| == 2 {
      assert news == [news[0], news[1]];
      CountTwo(news[0], news[1], f);
    }
  }

  lemma ClaimsCounted(news: seq<Task>, o: OrderId, o': OrderId)
    requires |news| <= 2 && forall x :: x in news ==> OrderOf(x) == o
    ensures Count(news, ClaimOf(o')) == if o' == o then ClaimsIn(news) else 0
    ensures Count(news, ChargeOf(o')) == if o' == o then ChargesIn(news) else 0
  {
    CountOfAtMostTwo(news, ClaimOf(o'));
    CountOfAtMostTwo(news, ChargeOf(o'));
  }

  lemma PaymentAppended(payments: seq<Payment>, p: Payment, o: OrderId)
    ensures Count(payments + [p], RowFor(o)) == Count(payments, RowFor(o)) + if p.order == o then 1 else 0
    ensures Billed(payments + [p], o) == Billed(payments, o) + if p.order == o then {p} else {}
  {
    CountConcat(payments, [p], RowFor(o));
    CountOne(p, RowFor(o));
  }

  lemma DeadAppended(dlq: seq<PaymentRequested>, r: PaymentRequested, o: OrderId)
    ensures Count(dlq + [r], DeadFor(o)) == Count(dlq, DeadFor(o)) + if r.order == o then 1 else 0
  {
    CountConcat(dlq, [r], DeadFor(o));
    CountOne(r, DeadFor(o));
  }

  lemma NoticeAppended(notices: seq<Notice>, n: Notice, o: OrderId)
    ensures Told(notices + [n], o) == Told(notices, o) + if n.order == o then {n.status} else {}
  {
    assert (notices + [n])[|notices|] == n;
  }

  predicate Replaces(s: Sys, i: nat, s': Sys, news: seq<Task>)
    requires i < |s.tasks|
  {
    s'.relay == s.relay && s'.tasks == s.tasks[..i] + news + s.tasks[i + 1..]
  }

  lemma RunReplaces(cfg: Config, s: Sys, i: nat, c: Choice)
    requires i < |s.tasks|
    ensures var s' := Apply(cfg, s, Run(i, c));
            Replaces(s, i, s', Advance(cfg, s.db, s.tasks[i], c).1) && s'.db == Advance(cfg, s.db, s.tasks[i], c).0
  {
  }

  /** Running a task moves one dossier, as Moves says, and no other. */
  lemma RunView(cfg: Config, s: Sys, i: nat, c: Choice)
    requires i < |s.tasks|
    ensures var s' := Apply(cfg, s, Run(i, c));
            var o := OrderOf(s.tasks[i]);
            && Moves(cfg, s.db, s.tasks[i], c, View(s, o), View(s', o))
            && forall o' :: o' != o ==> View(s', o') == View(s, o')
  {
    RunReplaces(cfg, s, i, c);
    AdvanceIsLocal(cfg, s.db, s.tasks[i], c);
    ViewsAfter(s, i, Apply(cfg, s, Run(i, c)), Advance(cfg, s.db, s.tasks[i], c).1);
  }

  lemma ViewsAfter(s: Sys, i: nat, s': Sys, news: seq<Task>)
    requires i < |s.tasks| && Replaces(s, i, s', news) && IsLocal(s.db, s'.db, news, OrderOf(s.tasks[i]))
    ensures var o := OrderOf(s.tasks[i]);
            && Becomes(s.db, s.tasks[i], s'.db, news, View(s, o), View(s', o))
            && forall o' :: o' != o ==> View(s', o') == View(s, o')
  {
    OwnView(s, i, s', news);
    forall o' | o' != OrderOf(s.tasks[i]) ensures View(s', o') == View(s, o') {
      OtherView(s, i, s', news, o');
    }
  }

  lemma OwnView(s: Sys, i: nat, s': Sys, news: seq<Task>)
    requires i < |s.tasks| && Replaces(s, i, s', news) && IsLocal(s.db, s'.db, news, OrderOf(s.tasks[i]))
    ensures var o := OrderOf(s.tasks[i]); Becomes(s.db, s.tasks[i], s'.db, news, View(s, o), View(s', o))
  {
    var o := OrderOf(s.tasks[i]);
    ClaimsCounted(news, o, o);
    CountReplaced(s.tasks, i, news, ClaimOf(o));
    CountReplaced(s.tasks, i, news, ChargeOf(o));
    TasksReplaced(s.tasks, i, news, o);
    TablesGrow(s.db, s'.db, news, o, o);
  }

  lemma OtherView(s: Sys, i: nat, s': Sys, news: seq<Task>, o: OrderId)
    requires i < |s.tasks| && Replaces(s, i, s', news) && IsLocal(s.db, s'.db, news, OrderOf(s.tasks[i]))
    requires o != OrderOf(s.tasks[i])
    ensures View(s', o) == View(s, o)
  {
    ClaimsCounted(news, OrderOf(s.tasks[i]), o);
    CountReplaced(s.tasks, i, news, ClaimOf(o));
    CountReplaced(s.tasks, i, news, ChargeOf(o));
    TasksReplaced(s.tasks, i, news, o);
    TablesGrow(s.db, s'.db, news, OrderOf(s.tasks[i]), o);
    assert TasksOf(s'.tasks, o) == TasksOf(s.tasks, o);
  }

  /** The appended rows, seen from any order. */
  lemma TablesGrow(db: Tables, after: Tables, news: seq<Task>, o: OrderId, o': OrderId)
    requires IsLocal(db, after, news, o)
    ensures if after.payments == db.payments || o' != o
            then Billed(after.payments, o') == Billed(db.payments, o')
                 && Count(after.payments, RowFor(o')) == Count(db.payments, RowFor(o'))
            else |after.payments| == |db.payments| + 1
                 && Billed(after.payments, o') == Billed(db.payments, o') + {after.payments[|db.payments|]}
                 && Count(after.payments, RowFor(o')) == Count(db.payments, RowFor(o')) + 1
    ensures Count(after.dlq, DeadFor(o'))
         == Count(db.dlq, DeadFor(o')) + if after.dlq == db.dlq || o' != o then 0 else 1
    ensures if after.notices == db.notices || o' != o
            then Told(after.notices, o') == Told(db.notices, o')
            else |after.notices| == |db.notices| + 1
                 && Told(after.notices, o') == Told(db.notices, o') + {after.notices[|db.notices|].status}
  {
    if after.payments != db.payments {
      var p: Payment :| p.order == o && after.payments == db.payments + [p];
      PaymentAppended(db.payments, p, o');
    }
    if after.dlq != db.dlq {
      var r: PaymentRequested :| r.order == o && after.dlq == db.dlq + [r];
      DeadAppended(db.dlq, r, o');
    }
    if after.notices != db.notices {
      var n: Notice :| n.order == o && after.notices == db.notices + [n];
      NoticeAppended(db.notices, n, o');
    }
  }

  /** Placing an order opens its dossier; products and commits touch none. */
  lemma PlaceView(cfg: Config, s: Sys, o: OrderId, customer: CustomerId, items: seq<Item>)
    requires s.relay.position <= |s.db.outbox|
    ensures var s' := Apply(cfg, s, PlaceOrder(o, customer, items));
            && (forall o' :: o' != o ==> View(s', o') == View(s, o'))
            && (s' != s ==>
                  && View(s, o).order.None? && s'.db.orders[o].status == Pending
                  && View(s', o) == View(s, o).(order := Some(s'.db.orders[o]), queued := View(s, o).queued + 1))
  {
    var s' := Apply(cfg, s, PlaceOrder(o, customer, items));
    if s' != s {
      var e := s'.db.outbox[|s.db.outbox|];
      assert s'.db.outbox[s.relay.position..] == s.db.outbox[s.relay.position..] + [e];
      forall o' ensures Queued(s', o') == Queued(s, o') + if o' == o then 1 else 0 {
        CountConcat(s.db.outbox[s.relay.position..], [e], EventFor(o'));
        CountOne(e, EventFor(o'));
      }
      forall o' | o' != o ensures View(s', o') == View(s, o') {
        assert Get(s'.db.orders, o') == Get(s.db.orders, o');
      }
    }
  }

  /** The relay turns one queued row into one order.created message. */
  lemma RelayView(cfg: Config, s: Sys)
    requires s.relay.joined && s.relay.position < |s.db.outbox|
    ensures var s' := Apply(cfg, s, RelayNext);
            var e := s.db.outbox[s.relay.position];
            && (forall o :: o != e.order ==> View(s', o) == View(s, o))
            && View(s, e.order).queued >= 1
            && View(s', e.order) == View(s, e.order).(queued := View(s, e.order).queued - 1,
                                                      claims := View(s, e.order).claims + 1,
                                                      tasks := View(s, e.order).tasks + {Created(e)})
  {
    var s' := Apply(cfg, s, RelayNext);
    var e := s.db.outbox[s.relay.position];
    forall o
      ensures Queued(s, o) == Queued(s', o) + if o == e.order then 1 else 0
      ensures Count(s'.tasks, ClaimOf(o)) == Count(s.tasks, ClaimOf(o)) + if o == e.order then 1 else 0
      ensures Count(s'.tasks, ChargeOf(o)) == Count(s.tasks, ChargeOf(o))
      ensures TasksOf(s'.tasks, o) == TasksOf(s.tasks, o) + if o == e.order then {Created(e)} else {}
    {
      CountConcat(s.tasks, [Created(e)], ChargeOf(o));
      CountOne(Created(e), ChargeOf(o));
      assert s.db.outbox[s.relay.position..] == [e] + s'.db.outbox[s'.relay.position..];
      CountConcat([e], s'.db.outbox[s'.relay.position..], EventFor(o));
      CountOne(e, EventFor(o));
      CountConcat(s.tasks, [Created(e)], ClaimOf(o));
      CountOne(Created(e), ClaimOf(o));
      assert s'.tasks[|s.tasks|] == Created(e);
    }
  }
}
