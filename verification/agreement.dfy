/** Runs in which nothing fails: they end, and when they have ended all the services agree. */
module Agreement {
  import opened Payments
  import opened OutboxRelay
  import opened Saga
  import opened Dossiers

  /** The step that t takes when nothing fails; a declined or transient gateway call is no failure. */
  predicate Works(t: Task, c: Choice) {
    if t.Charging? && t.place.AtGateway? then c.Roll? else c == Proceed
  }

  /** An action of a system at work on the orders it has. */
  predicate AtWork(s: Sys, a: Action) {
    match a
    case RelayNext => s.relay.joined && s.relay.position < |s.db.outbox|
    case RelayCommit => CommittedHere(s.relay) != s.relay
    case Run(i, c) => i < |s.tasks| && Works(s.tasks[i], c)
    case _ => false
  }

  predicate WorkingRun(cfg: Config, s: Sys, run: seq<Action>)
    decreases |run|
  {
    run != [] ==> AtWork(s, run[0]) && WorkingRun(cfg, Apply(cfg, s, run[0]), run[1..])
  }

  predicate Drained(s: Sys) {
    s.tasks == [] && s.relay.position == |s.db.outbox| && CommittedHere(s.relay) == s.relay
  }

  function Left(count: nat): nat {
    if count >= MAX_RETRIES then 0 else MAX_RETRIES - count
  }

  /** An upper bound on the steps that a task and its successors can still take. */
  function Weight(headers: HeaderModel, t: Task): nat {
    match t
    case Created(_) => 21
    case Reserving(_, Sent) => 20
    case Reserving(_, Replied(_)) => 19
    case MarkingReserved(_) => 18
    case Requesting(_) => 17
    case Charging(_, InQueue(count)) => 7 + 3 * Left(count)
    case Charging(_, AtGateway(count)) => 6 + 3 * Left(count)
    case Charging(_, Returned(count)) => 7 + 3 * Left(count)
    case Charging(_, InRetry(k)) => 8 + 3 * Left(ReturnCount(headers, k))
    case Reporting(_, _, _) => 6
    case Result(_, _) => 5
    case Confirming(_, Sent) => 4
    case Releasing(_, Sent) => 4
    case Confirming(_, Replied(_)) => 3
    case Releasing(_, Replied(_)) => 3
    case Marking(_, _) => 2
    case Announcing(_, _) => 1
    case Late(_) => 1
  }

  function Weights(headers: HeaderModel, tasks: seq<Task>): nat {
    if tasks == [] then 0
    else Weights(headers, tasks[..|tasks| - 1]) + Weight(headers, tasks[|tasks| - 1])
  }

  function Measure(headers: HeaderModel, s: Sys): nat {
    Weights(headers, s.tasks)
    + (if s.relay.position <= |s.db.outbox| then 23 * (|s.db.outbox| - s.relay.position) else 0)
    + if CommittedHere(s.relay) != s.relay then 1 else 0
  }

  /** How many gateway calls of the run fail in a way that is worth another attempt. */
  function TransientRolls(run: seq<Action>): nat {
    if run == [] then 0
    else TransientRolls(run[1..]) + if run[0].Run? && run[0].choice == Roll(Transient) then 1 else 0
  }

  /** What another attempt adds to the work that is left: something only if the count starts afresh. */
  function Setback(headers: HeaderModel, rolls: nat): nat {
    if headers == Restarted then 6 * rolls else 0
  }

  /** The gateway is only called below the retry limit, and there are three retry queues. */
  predicate Shaped(t: Task) {
    t.Charging? ==>
      (t.place.AtGateway? ==> t.place.count < MAX_RETRIES) && (t.place.InRetry? ==> 1 <= t.place.k <= MAX_RETRIES)
  }

  lemma {:induction false} WeightsConcat(headers: HeaderModel, a: seq<Task>, b: seq<Task>)
    ensures Weights(headers, a + b) == Weights(headers, a) + Weights(headers, b)
  {
    if b == [] {
      assert a + b == a;
    } else {
      WeightsConcat(headers, a, b[..|b| - 1]);
      assert (a + b)[..|a + b| - 1] == a + b[..|b| - 1];
    }
  }

  lemma WeightsOfOne(headers: HeaderModel, t: Task)
    ensures Weights(headers, [t]) == Weight(headers, t)
  {
    assert [t][..0] == [];
  }

  lemma AdvanceKeepsShape(cfg: Config, db: Tables, t: Task, c: Choice)
    requires Shaped(t)
    ensures forall x :: x in Advance(cfg, db, t, c).1 ==> Shaped(x)
  {
  }

  /** A task at work is replaced by at most one task, and a lighter one, setbacks aside. */
  lemma AdvanceLightens(cfg: Config, db: Tables, t: Task, c: Choice)
    requires Shaped(t) && Works(t, c)
    ensures var news := Advance(cfg, db, t, c).1;
            var setback := Setback(cfg.headers, if c == Roll(Transient) then 1 else 0);
            news == [] || (|news| == 1 && Weight(cfg.headers, news[0]) < Weight(cfg.headers, t) + setback)
  {
  }

  lemma RunLightens(cfg: Config, s: Sys, i: nat, c: Choice)
    requires i < |s.tasks| && Shaped(s.tasks[i]) && Works(s.tasks[i], c)
    ensures Weights(cfg.headers, Apply(cfg, s, Run(i, c)).tasks)
          < Weights(cfg.headers, s.tasks) + Setback(cfg.headers, if c == Roll(Transient) then 1 else 0)
  {
    var news := Advance(cfg, s.db, s.tasks[i], c).1;
    AdvanceLightens(cfg, s.db, s.tasks[i], c);
    Replaced(cfg.headers, s.tasks, i, news);
    WeightsOfOne(cfg.headers, s.tasks[i]);
    if news != [] {
      assert news == [news[0]];
      WeightsOfOne(cfg.headers, news[0]);
    }
  }

  lemma Replaced(headers: HeaderModel, tasks: seq<Task>, i: nat, news: seq<Task>)
    requires i < |tasks|
    ensures Weights(headers, tasks[..i] + news + tasks[i + 1..])
         == Weights(headers, tasks) - Weights(headers, [tasks[i]]) + Weights(headers, news)
  {
    assert tasks == tasks[..i] + [tasks[i]] + tasks[i + 1..];
    WeightsConcat(headers, tasks[..i] + [tasks[i]], tasks[i + 1..]);
    WeightsConcat(headers, tasks[..i], [tasks[i]]);
    WeightsConcat(headers, tasks[..i] + news, tasks[i + 1..]);
    WeightsConcat(headers, tasks[..i], news);
  }

  predicate AllShaped(s: Sys) {
    forall i :: 0 <= i < |s.tasks| ==> Shaped(s.tasks[i])
  }

  lemma StepKeepsShape(cfg: Config, s: Sys, a: Action)
    requires AllShaped(s)
    ensures AllShaped(Apply(cfg, s, a))
  {
    if a.Run? && a.index < |s.tasks| {
      var news := Advance(cfg, s.db, s.tasks[a.index], a.choice).1;
      AdvanceKeepsShape(cfg, s.db, s.tasks[a.index], a.choice);
      assert forall k :: 0 <= k < |news| ==> news[k] in news;
    }
  }

  /** Every step lowers the measure, but for a transient failure whose count starts afresh. */
  lemma WorkLowersMeasure(cfg: Config, s: Sys, a: Action)
    requires AllShaped(s) && AtWork(s, a) && s.relay.position <= |s.db.outbox|
    ensures var s' := Apply(cfg, s, a);
            && Measure(cfg.headers, s') < Measure(cfg.headers, s) + Setback(cfg.headers, TransientRolls([a]))
            && s'.relay.position <= |s'.db.outbox|
  {
    match a {
      case RelayNext =>
        var e := s.db.outbox[s.relay.position];
        WeightsConcat(cfg.headers, s.tasks, [Created(e)]);
        WeightsOfOne(cfg.headers, Created(e));
      case RelayCommit =>
      case Run(i, c) =>
        AdvanceIsLocal(cfg, s.db, s.tasks[i], c);
        RunLightens(cfg, s, i, c);
    }
  }

  /**
   * No working run is longer than the measure of the state it starts from and, if the count starts afresh
   * after every retry, six steps for each transient failure on the way.
   */
  lemma {:induction false} WorkingRunsEnd(cfg: Config, s: Sys, run: seq<Action>)
    requires AllShaped(s) && WorkingRun(cfg, s, run) && s.relay.position <= |s.db.outbox|
    ensures |run| + Measure(cfg.headers, Exec(cfg, s, run))
         <= Measure(cfg.headers, s) + Setback(cfg.headers, TransientRolls(run))
    decreases |run|
  {
    if run != [] {
      WorkLowersMeasure(cfg, s, run[0]);
      StepKeepsShape(cfg, s, run[0]);
      WorkingRunsEnd(cfg, Apply(cfg, s, run[0]), run[1..]);
      assert [run[0]][1..] == [];
    }
  }

  /** The work only stops when everything is drained. */
  lemma WorkStopsWhenDrained(s: Sys)
    requires s.relay.joined && s.relay.position <= |s.db.outbox|
    ensures Drained(s) <==> forall a :: !AtWork(s, a)
  {
    if s.tasks != [] {
      var c := if s.tasks[0].Charging? && s.tasks[0].place.AtGateway? then Roll(Transient) else Proceed;
      assert AtWork(s, Run(0, c));
    } else if s.relay.position < |s.db.outbox| {
      assert AtWork(s, RelayNext);
    } else if CommittedHere(s.relay) != s.relay {
      assert AtWork(s, RelayCommit);
    }
  }
}
