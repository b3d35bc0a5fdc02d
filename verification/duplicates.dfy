/**
 * A payment result delivered again changes nothing: every run with extra copies is matched, step by
 * step, by a run without them that goes through the same tables.
 */
module Duplicates {
  import opened Inventory
  import opened Ordering
  import opened Saga
  import opened Dossiers
  import opened Effects
  import opened Safety
  import opened StockLaws
  import opened Invariants
  import opened Guarantees
  import opened Agreement
  import opened FinalAgreement

  /** How far the handling of a payment result has got; 0 for everything before it. */
  function Stage(t: Task): nat {
    match t
    case Result(_, _) => 1
    case Confirming(_, Sent) => 2
    case Releasing(_, Sent) => 2
    case Confirming(_, Replied(_)) => 3
    case Releasing(_, Replied(_)) => 3
    case Marking(_, _) => 4
    case Announcing(_, _) => 5
    case _ => 0
  }

  predicate SameSide(t: Task, e: Task) {
    OrderOf(t) == OrderOf(e) && ((Winning(t) && Winning(e)) || (Losing(t) && Losing(e)))
  }

  /** t is at least as far as e with the same result of the same order. */
  predicate Leads(t: Task, e: Task) {
    SameSide(t, e) && Stage(t) >= Stage(e)
  }

  /** All that e could still bring about is there already. */
  predicate Finished(db: Tables, e: Task) {
    var o := OrderOf(e);
    && o in db.orders
    && ((Winning(e) && db.orders[o].status == Completed && ReservationIs(db, o, Confirmed))
        || (Losing(e) && db.orders[o].status == Cancelled && !Holding(Get(db.store.reservations, o))))
  }

  /** e is a superfluous copy in a system with these tasks and tables. */
  predicate Echo(tasks: seq<Task>, db: Tables, e: Task) {
    Stage(e) >= 1 && ((exists t :: t in tasks && Leads(t, e)) || Finished(db, e))
  }

  /** The tables without the announcements, of which there may be several. */
  function Core(db: Tables): Tables {
    db.(notices := [])
  }

  /** c is a with some superfluous copies. */
  predicate Mimics(c: Sys, a: Sys, extras: multiset<Task>) {
    && Core(c.db) == Core(a.db) && c.relay == a.relay
    && multiset(c.tasks) == multiset(a.tasks) + extras
    && forall e :: e in extras ==> Echo(a.tasks, c.db, e)
  }

  /** What is known of the dossier d of e's order in a run without failures. */
  predicate Known(db: Tables, e: Task, d: Dossier) {
    Opens(db, e, d) && Traced(d, OrderOf(e)) && Justified(d) && Safe(d) && Driven(d)
  }

  lemma SameStageSameTask(t: Task, e: Task)
    requires Leads(t, e) && Stage(t) == Stage(e) >= 1 && Assured(t) && Assured(e)
    ensures t == e
  {
  }

  /** Handling a result goes one stage at a time, and stays on its side. */
  lemma OneStageOn(cfg: Config, db: Tables, e: Task, d: Dossier)
    requires Known(db, e, d) && Stage(e) >= 1
    ensures var news := Advance(cfg, db, e, Proceed).1;
            if Stage(e) == 5 then news == []
            else |news| == 1 && Stage(news[0]) == Stage(e) + 1 && SameSide(news[0], e)
  {
    TaskIsReady(db, e, d);
    assert Genuine(e, OrderOf(e), d.order.value);
    assert Winning(e) || Losing(e);
  }

  lemma LeaderHasActed(db: Tables, t: Task, e: Task, d: Dossier)
    requires Known(db, e, d) && t in d.tasks && SameSide(t, e) && Stage(t) >= 3
    ensures Winning(e) ==> ReservationIs(db, OrderOf(e), Confirmed)
    ensures Losing(e) ==> !Holding(Get(db.store.reservations, OrderOf(e)))
    ensures Stage(t) == 5 ==> Finished(db, e)
  {
    assert Assured(t);
    assert Genuine(t, OrderOf(e), d.order.value);
    if Winning(e) {
      assert Sealed(t);
    } else {
      assert Freed(t);
    }
  }

  /** A copy that lags behind, or comes when all is done, writes nothing but a further announcement. */
  lemma LaggardIsIdle(cfg: Config, db: Tables, e: Task, d: Dossier)
    requires Known(db, e, d) && Stage(e) >= 1
    requires Finished(db, e) || exists t :: t in d.tasks && SameSide(t, e) && Stage(t) > Stage(e)
    ensures Core(Advance(cfg, db, e, Proceed).0) == Core(db)
  {
    TaskIsReady(db, e, d);
    if !Finished(db, e) {
      var t :| t in d.tasks && SameSide(t, e) && Stage(t) > Stage(e);
      if Stage(t) >= 3 {
        LeaderHasActed(db, t, e, d);
      }
    }
    if e.Marking? {
      assert Genuine(e, OrderOf(e), d.order.value);
      var order := db.orders[e.order];
      assert order.status == e.status;
      assert db.orders[e.order := order.(status := e.status)] == db.orders;
    }
  }

  /** The same step from the same tables, announcements aside, has the same effect. */
  lemma SameStep(cfg: Config, db: Tables, db': Tables, t: Task, c: Choice)
    requires Core(db) == Core(db')
    ensures Core(Advance(cfg, db, t, c).0) == Core(Advance(cfg, db', t, c).0)
    ensures Advance(cfg, db, t, c).1 == Advance(cfg, db', t, c).1
  {
  }

  lemma KnownHere(seed: Stock, s: Sys, e: Task)
    requires OnCourse(seed, s) && e in s.tasks
    ensures Known(s.db, e, View(s, OrderOf(e)))
  {
    var i :| 0 <= i < |s.tasks| && s.tasks[i] == e;
    ViewOpens(s, i);
    assert DrivenDossier()(View(s, OrderOf(e)), OrderOf(e));
  }

  lemma FinishedStays(seed: Stock, cfg: Config, s: Sys, a: Action, e: Task)
    requires Once(cfg) && OnCourse(seed, s) && Smooth(s, a) && Finished(s.db, e)
    ensures Finished(Apply(cfg, s, a).db, e)
  {
    if a.Run? && a.index < |s.tasks| {
      FinishedKept(seed, cfg, s, a.index, a.choice, e);
    }
  }

  lemma FinishedKept(seed: Stock, cfg: Config, s: Sys, i: nat, c: Choice, e: Task)
    requires Once(cfg) && OnCourse(seed, s) && i < |s.tasks| && Finished(s.db, e)
    ensures Finished(Apply(cfg, s, Run(i, c)).db, e)
  {
    var (t, o, s') := (s.tasks[i], OrderOf(e), Apply(cfg, s, Run(i, c)));
    RunView(cfg, s, i, c);
    if OrderOf(t) != o {
      assert View(s', o) == View(s, o);
    } else {
      var (after, news) := Advance(cfg, s.db, t, c);
      KnownHere(seed, s, t);
      AdvanceEffect(cfg, s.db, t, c);
      FinishedOwn(cfg, s.db, t, after, news, View(s, o), View(s', o), e);
    }
  }

  lemma FinishedOwn(
      cfg: Config, db: Tables, t: Task, after: Tables, news: seq<Task>, d: Dossier, d': Dossier, e: Task)
    requires Known(db, t, d) && Becomes(db, t, after, news, d, d') && Effect(cfg, db, t, after, news)
    requires OrderOf(e) == OrderOf(t) && Finished(db, e) && !Straggles(t)
    ensures Finished(after, e)
  {
    TerminalStep(cfg, db, t, after, news, d, d');
    assert Doomed(d) ==> !IsClaim(t);
  }

  lemma MultisetReplaced(tasks: seq<Task>, i: nat, news: seq<Task>)
    requires i < |tasks|
    ensures multiset(tasks[..i] + news + tasks[i + 1..]) == multiset(tasks) - multiset{tasks[i]} + multiset(news)
  {
    assert tasks == tasks[..i] + [tasks[i]] + tasks[i + 1..];
  }

  /** The copy at hand is behind its leader, or there is nothing left to do. */
  lemma EchoLags(seed: Stock, c: Sys, a: Sys, extras: multiset<Task>, e: Task)
    requires OnCourse(seed, c) && Mimics(c, a, extras) && e in extras && e !in a.tasks
    ensures e in c.tasks && Stage(e) >= 1
    ensures Finished(c.db, e)
         || exists t :: t in a.tasks && t in View(c, OrderOf(e)).tasks && SameSide(t, e) && Stage(t) > Stage(e)
  {
    assert e in multiset(c.tasks);
    KnownHere(seed, c, e);
    if !Finished(c.db, e) {
      var t :| t in a.tasks && Leads(t, e);
      assert t in multiset(a.tasks) && t in multiset(c.tasks);
      if Stage(t) == Stage(e) {
        KnownHere(seed, c, t);
        SameStageSameTask(t, e);
      }
    }
  }

  /** What a superfluous copy can still do. */
  lemma LagEffect(seed: Stock, cfg: Config, c: Sys, a: Sys, extras: multiset<Task>, e: Task)
    requires OnCourse(seed, c) && Mimics(c, a, extras) && e in extras && e !in a.tasks
    ensures Core(Advance(cfg, c.db, e, Proceed).0) == Core(c.db)
    ensures var news := Advance(cfg, c.db, e, Proceed).1;
            news == [] || (|news| == 1 && SameSide(news[0], e) && Stage(news[0]) == Stage(e) + 1)
    ensures Finished(c.db, e) || exists t :: t in a.tasks && SameSide(t, e) && Stage(t) > Stage(e)
  {
    EchoLags(seed, c, a, extras, e);
    KnownHere(seed, c, e);
    LaggardIsIdle(cfg, c.db, e, View(c, OrderOf(e)));
    OneStageOn(cfg, c.db, e, View(c, OrderOf(e)));
  }

  /** A superfluous copy moves: the system without it stands still. */
  lemma LagStep(seed: Stock, cfg: Config, c: Sys, a: Sys, extras: multiset<Task>, i: nat)
    returns (extras': multiset<Task>)
    requires OnCourse(seed, c) && Mimics(c, a, extras) && i < |c.tasks| && c.tasks[i] !in a.tasks
    ensures Mimics(Apply(cfg, c, Run(i, Proceed)), a, extras')
  {
    var e := c.tasks[i];
    assert e in extras by {
      assert e in multiset(c.tasks) && e !in multiset(a.tasks);
    }
    LagEffect(seed, cfg, c, a, extras, e);
    RunReplaces(cfg, c, i, Proceed);
    extras' := Lagged(c, a, extras, i, Apply(cfg, c, Run(i, Proceed)), Advance(cfg, c.db, e, Proceed).1);
  }

  lemma Lagged(c: Sys, a: Sys, extras: multiset<Task>, i: nat, c': Sys, news: seq<Task>)
    returns (extras': multiset<Task>)
    requires Mimics(c, a, extras) && i < |c.tasks| && Replaces(c, i, c', news) && Core(c'.db) == Core(c.db)
    requires var e := c.tasks[i];
             && e in extras
             && (news == [] || (|news| == 1 && SameSide(news[0], e) && Stage(news[0]) == Stage(e) + 1))
             && (Finished(c.db, e) || exists t :: t in a.tasks && SameSide(t, e) && Stage(t) > Stage(e))
    ensures Mimics(c', a, extras')
  {
    var e := c.tasks[i];
    MultisetReplaced(c.tasks, i, news);
    Exchanged(multiset(c.tasks), multiset(a.tasks), extras, multiset{e}, multiset(news));
    extras' := extras - multiset{e} + multiset(news);
    forall x | x in extras' ensures Echo(a.tasks, c'.db, x) {
      if x in news {
        assert x == news[0];
        NextEchoes(a.tasks, c.db, e, x);
      }
      EchoOfSameTables(a.tasks, c.db, c'.db, x);
    }
  }

  lemma Exchanged<T>(all: multiset<T>, kept: multiset<T>, extras: multiset<T>, out: multiset<T>, back: multiset<T>)
    requires all == kept + extras && out <= extras
    ensures all - out + back == kept + (extras - out + back)
  {
  }

  lemma EchoOfSameTables(tasks: seq<Task>, db: Tables, after: Tables, x: Task)
    requires Core(db) == Core(after) && Echo(tasks, db, x)
    ensures Echo(tasks, after, x)
  {
    assert db.orders == Core(db).orders == Core(after).orders == after.orders;
    assert db.store == Core(db).store == Core(after).store == after.store;
  }

  lemma NextEchoes(tasks: seq<Task>, db: Tables, e: Task, x: Task)
    requires SameSide(x, e) && Stage(x) == Stage(e) + 1
    requires Finished(db, e) || exists t :: t in tasks && SameSide(t, e) && Stage(t) > Stage(e)
    ensures Echo(tasks, db, x)
  {
    if !Finished(db, e) {
      var t :| t in tasks && SameSide(t, e) && Stage(t) > Stage(e);
      assert Leads(t, x);
    }
  }

  /** The same task moves in both systems, and its copies stay behind it. */
  lemma MirrorStep(seed: Stock, cfg: Config, c: Sys, a: Sys, extras: multiset<Task>, i: nat, j: nat, ch: Choice)
    requires Once(cfg) && OnCourse(seed, c) && Mimics(c, a, extras)
    requires i < |c.tasks| && j < |a.tasks| && c.tasks[i] == a.tasks[j] && Works(c.tasks[i], ch)
    ensures Mimics(Apply(cfg, c, Run(i, ch)), Apply(cfg, a, Run(j, ch)), extras)
  {
    SameStep(cfg, c.db, a.db, c.tasks[i], ch);
    RunReplaces(cfg, c, i, ch);
    RunReplaces(cfg, a, j, ch);
    forall e | e in extras ensures Echo(Apply(cfg, a, Run(j, ch)).tasks, Apply(cfg, c, Run(i, ch)).db, e) {
      StillEchoes(seed, cfg, c, a, extras, i, j, ch, e);
    }
    Mirrored(c, a, extras, i, j, Apply(cfg, c, Run(i, ch)), Apply(cfg, a, Run(j, ch)),
             Advance(cfg, c.db, c.tasks[i], ch).1);
  }

  lemma Mirrored(c: Sys, a: Sys, extras: multiset<Task>, i: nat, j: nat, c': Sys, a': Sys, news: seq<Task>)
    requires Mimics(c, a, extras) && i < |c.tasks| && j < |a.tasks| && c.tasks[i] == a.tasks[j]
    requires Replaces(c, i, c', news) && Replaces(a, j, a', news) && Core(c'.db) == Core(a'.db)
    requires forall e :: e in extras ==> Echo(a'.tasks, c'.db, e)
    ensures Mimics(c', a', extras)
  {
    MultisetReplaced(c.tasks, i, news);
    MultisetReplaced(a.tasks, j, news);
  }

  lemma StillEchoes(
      seed: Stock, cfg: Config, c: Sys, a: Sys, extras: multiset<Task>, i: nat, j: nat, ch: Choice, e: Task)
    requires Once(cfg) && OnCourse(seed, c) && Mimics(c, a, extras) && e in extras
    requires i < |c.tasks| && j < |a.tasks| && c.tasks[i] == a.tasks[j] && Works(c.tasks[i], ch)
    ensures Echo(Apply(cfg, a, Run(j, ch)).tasks, Apply(cfg, c, Run(i, ch)).db, e)
  {
    assert Echo(a.tasks, c.db, e);
    if Finished(c.db, e) {
      FinishedKept(seed, cfg, c, i, ch, e);
    } else {
      StaysBehind(seed, cfg, c, a, extras, i, j, ch, e);
    }
  }

  lemma StaysBehind(
      seed: Stock, cfg: Config, c: Sys, a: Sys, extras: multiset<Task>, i: nat, j: nat, ch: Choice, e: Task)
    requires Once(cfg) && OnCourse(seed, c) && Mimics(c, a, extras) && e in extras && !Finished(c.db, e)
    requires i < |c.tasks| && j < |a.tasks| && c.tasks[i] == a.tasks[j] && Works(c.tasks[i], ch)
    ensures Echo(Apply(cfg, a, Run(j, ch)).tasks, Apply(cfg, c, Run(i, ch)).db, e)
  {
    var t := c.tasks[i];
    var news := Advance(cfg, c.db, t, ch).1;
    SameStep(cfg, c.db, a.db, t, ch);
    var lead :| lead in a.tasks && Leads(lead, e);
    if lead != t {
      StaysInPlace(a.tasks, j, news, lead);
    } else {
      KnownHere(seed, c, t);
      OneStageOn(cfg, c.db, t, View(c, OrderOf(t)));
      if Stage(t) == 5 {
        LeaderHasFinished(seed, c, t, e);
      } else {
        InPlace(a.tasks, j, news, news[0]);
        assert Leads(news[0], e);
      }
    }
  }

  lemma LeaderHasFinished(seed: Stock, c: Sys, t: Task, e: Task)
    requires OnCourse(seed, c) && t in c.tasks && e in multiset(c.tasks) && Leads(t, e) && Stage(t) == 5
    ensures Finished(c.db, e)
  {
    KnownHere(seed, c, e);
    LeaderHasActed(c.db, t, e, View(c, OrderOf(e)));
  }

  lemma StaysInPlace(tasks: seq<Task>, j: nat, news: seq<Task>, x: Task)
    requires j < |tasks| && x in tasks && x != tasks[j]
    ensures x in tasks[..j] + news + tasks[j + 1..]
  {
    assert tasks == tasks[..j] + [tasks[j]] + tasks[j + 1..];
  }

  lemma InPlace(tasks: seq<Task>, j: nat, news: seq<Task>, x: Task)
    requires j < |tasks| && x in news
    ensures x in tasks[..j] + news + tasks[j + 1..]
  {
  }

  /** A second delivery of a payment result: one more superfluous copy. */
  lemma CopyStep(c: Sys, a: Sys, extras: multiset<Task>, i: nat, c': Sys)
    requires Mimics(c, a, extras) && i < |c.tasks| && c.tasks[i].Result?
    requires c'.db == c.db && Replaces(c, i, c', [c.tasks[i], c.tasks[i]])
    ensures Mimics(c', a, extras + multiset{c.tasks[i]})
  {
    var t := c.tasks[i];
    MultisetReplaced(c.tasks, i, [t, t]);
    assert Echo(a.tasks, c.db, t) by {
      if t !in extras {
        assert t in multiset(c.tasks) && t in multiset(a.tasks);
        assert t in a.tasks && Leads(t, t);
      }
    }
  }

  /** What happens outside the tasks happens in both systems alike. */
  lemma OutsideStep(seed: Stock, cfg: Config, c: Sys, a: Sys, extras: multiset<Task>, act: Action)
    requires Once(cfg) && OnCourse(seed, c) && Mimics(c, a, extras) && Smooth(c, act) && !act.Run?
    ensures Mimics(Apply(cfg, c, act), Apply(cfg, a, act), extras)
    ensures Smooth(a, act)
  {
    var (c', a') := (Apply(cfg, c, act), Apply(cfg, a, act));
    assert c.db.(notices := []) == a.db.(notices := []);
    assert c.db.catalog == a.db.catalog && c.db.orders == a.db.orders && c.db.outbox == a.db.outbox;
    forall e | e in extras ensures Echo(a'.tasks, c'.db, e) {
      EchoOutside(seed, cfg, c, a, act, e);
    }
  }

  lemma EchoOutside(seed: Stock, cfg: Config, c: Sys, a: Sys, act: Action, e: Task)
    requires Once(cfg) && OnCourse(seed, c) && Smooth(c, act) && !act.Run? && Echo(a.tasks, c.db, e)
    ensures Echo(Apply(cfg, a, act).tasks, Apply(cfg, c, act).db, e)
  {
    if Finished(c.db, e) {
      FinishedStays(seed, cfg, c, act, e);
    } else {
      var t :| t in a.tasks && Leads(t, e);
      assert t in Apply(cfg, a, act).tasks;
    }
  }

  /** A smooth action that makes no copy. */
  predicate Plain(s: Sys, act: Action) {
    Smooth(s, act) && (act.Run? ==> act.choice != Copy)
  }

  predicate PlainRun(cfg: Config, s: Sys, run: seq<Action>)
    decreases |run|
  {
    run != [] ==> Plain(s, run[0]) && PlainRun(cfg, Apply(cfg, s, run[0]), run[1..])
  }

  /** One action with copies around is matched by one action without them, or by none. */
  lemma MatchAction(seed: Stock, cfg: Config, c: Sys, a: Sys, extras: multiset<Task>, act: Action)
    returns (plain: seq<Action>, extras': multiset<Task>)
    requires Once(cfg) && OnCourse(seed, c) && Mimics(c, a, extras) && Smooth(c, act)
    ensures |plain| <= 1 && PlainRun(cfg, a, plain)
    ensures Mimics(Apply(cfg, c, act), Exec(cfg, a, plain), extras')
  {
    plain, extras' := [], extras;
    if !act.Run? {
      OutsideStep(seed, cfg, c, a, extras, act);
      plain := [act];
      assert plain[1..] == [];
    } else if act.index < |c.tasks| {
      var t := c.tasks[act.index];
      if act.choice == Copy {
        CopyStep(c, a, extras, act.index, Apply(cfg, c, act));
        extras' := extras + multiset{t};
      } else if t in a.tasks {
        var j :| 0 <= j < |a.tasks| && a.tasks[j] == t;
        MirrorStep(seed, cfg, c, a, extras, act.index, j, act.choice);
        plain := [Run(j, act.choice)];
        assert plain[1..] == [];
      } else {
        assert t in multiset(c.tasks) && t !in multiset(a.tasks);
        EchoLags(seed, c, a, extras, t);
        extras' := LagStep(seed, cfg, c, a, extras, act.index);
      }
    }
  }

  lemma {:induction false} PlainConcat(cfg: Config, s: Sys, one: seq<Action>, two: seq<Action>)
    requires |one| <= 1 && PlainRun(cfg, s, one) && PlainRun(cfg, Exec(cfg, s, one), two)
    ensures PlainRun(cfg, s, one + two)
    ensures Exec(cfg, s, one + two) == Exec(cfg, Exec(cfg, s, one), two)
  {
    ExecConcat(cfg, s, one, two);
    if one == [] {
      assert one + two == two;
    } else {
      assert one[1..] == [];
      assert (one + two)[0] == one[0] && (one + two)[1..] == two;
      assert Exec(cfg, s, one) == Apply(cfg, s, one[0]);
    }
  }

  lemma {:induction false} MatchRun(seed: Stock, cfg: Config, c: Sys, a: Sys, extras: multiset<Task>, run: seq<Action>)
    returns (plain: seq<Action>, extras': multiset<Task>)
    requires Once(cfg) && OnCourse(seed, c) && Mimics(c, a, extras) && SmoothRun(cfg, c, run)
    ensures PlainRun(cfg, a, plain) && |plain| <= |run|
    ensures Mimics(Exec(cfg, c, run), Exec(cfg, a, plain), extras')
    decreases |run|
  {
    plain, extras' := [], extras;
    if run != [] {
      var one, more := MatchAction(seed, cfg, c, a, extras, run[0]);
      SmoothStep(seed, cfg, c, run[0]);
      var rest;
      rest, extras' := MatchRun(seed, cfg, Apply(cfg, c, run[0]), Exec(cfg, a, one), more, run[1..]);
      plain := one + rest;
      PlainConcat(cfg, a, one, rest);
    }
  }

  /**
   * For every run in which payment results are delivered any number of times there is a run without the
   * extra deliveries that ends with the same statuses, reservations, stock and payments, and is drained
   * whenever the first one is.
   */
  lemma DuplicatesChangeNothing(seed: Stock, cfg: Config, run: seq<Action>) returns (plain: seq<Action>)
    requires IsSeed(seed) && Once(cfg) && SmoothRun(cfg, Init(seed), run)
    ensures PlainRun(cfg, Init(seed), plain) && |plain| <= |run|
    ensures var (s, t) := (Exec(cfg, Init(seed), run), Exec(cfg, Init(seed), plain));
            Core(s.db) == Core(t.db) && s.relay == t.relay && (Drained(s) ==> Drained(t))
  {
    InitIsOnCourse(seed);
    var extras;
    plain, extras := MatchRun(seed, cfg, Init(seed), Init(seed), multiset{}, run);
    var (s, t) := (Exec(cfg, Init(seed), run), Exec(cfg, Init(seed), plain));
    if s.tasks == [] {
      assert multiset(t.tasks) <= multiset(s.tasks);
      assert |multiset(t.tasks)| == 0;
    }
  }
}
