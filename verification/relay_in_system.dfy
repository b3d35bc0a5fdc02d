/** The relay service's methods are the relay actions of the composed system. */
module RelayInSystem {
  import opened Domain
  import opened Ordering
  import opened OutboxRelay
  import opened Saga

  /** The state of the service when the relay of the composed system is in state r. */
  function Serviced(r: Relay<OrderCreated>): Relay<Text> {
    Relay(r.joined, r.start, r.position, r.committed, Events(r.published))
  }

  function Events(rows: seq<OrderCreated>): (texts: seq<Text>)
    ensures |texts| == |rows| && forall i :: 0 <= i < |rows| ==> texts[i] == Event(rows[i])
  {
    seq(|rows|, i requires 0 <= i < |rows| => Event(rows[i]))
  }

  /** The topic holds the outbox rows, each encoded once or twice. */
  predicate CarriesAll(topic: seq<Option<Text>>, rows: seq<OrderCreated>) {
    |topic| == |rows| && forall i :: 0 <= i < |rows| ==> Carries(topic[i], rows[i])
  }

  /** Connect is RelayJoin, wherever the latter may move the relay. */
  lemma ConnectIsJoin(cfg: Config, s: Sys, topic: seq<Option<Text>>)
    requires CarriesAll(topic, s.db.outbox)
    requires s.relay.committed.Some? && !cfg.repeatCreated ==>
      s.relay.joined && s.relay.committed.value == s.relay.position
    ensures Connected(Serviced(s.relay), |topic|) == Serviced(Apply(cfg, s, RelayJoin).relay)
  {
  }

  lemma CommitIsCommit(cfg: Config, s: Sys)
    ensures CommittedHere(Serviced(s.relay)) == Serviced(Apply(cfg, s, RelayCommit).relay)
  {
  }

  function Nexts(n: nat): seq<Action> {
    seq(n, _ => RelayNext)
  }

  lemma NextsGrow(cfg: Config, s: Sys, n: nat)
    ensures Exec(cfg, s, Nexts(n + 1)) == Apply(cfg, Exec(cfg, s, Nexts(n)), RelayNext)
  {
    assert Nexts(n + 1) == Nexts(n) + [RelayNext];
    ExecConcat(cfg, s, Nexts(n), [RelayNext]);
    assert [RelayNext][1..] == [];
  }

  function Messages(rows: seq<OrderCreated>): (tasks: seq<Task>)
    ensures |tasks| == |rows| && forall i :: 0 <= i < |rows| ==> tasks[i] == Created(rows[i])
  {
    seq(|rows|, i requires 0 <= i < |rows| => Created(rows[i]))
  }

  /** s' is s after the rows from s.relay.position up to n have been relayed. */
  predicate Relayed(s: Sys, n: nat, s': Sys)
    requires s.relay.position <= n <= |s.db.outbox|
  {
    var rows := s.db.outbox[s.relay.position..n];
    && s'.db == s.db
    && s'.relay == s.relay.(position := n, published := s.relay.published + rows)
    && s'.tasks == s.tasks + Messages(rows)
  }

  lemma RelayedNext(cfg: Config, s: Sys, n: nat, s': Sys)
    requires s.relay.joined && s.relay.position <= n < |s.db.outbox| && Relayed(s, n, s')
    ensures Relayed(s, n + 1, Apply(cfg, s', RelayNext))
  {
    var (rows, e) := (s.db.outbox[s.relay.position..n], s.db.outbox[n]);
    assert s.db.outbox[s.relay.position..n + 1] == rows + [e];
    assert Messages(rows + [e]) == Messages(rows) + [Created(e)];
    assert s.relay.published + (rows + [e]) == (s.relay.published + rows) + [e];
    assert s.tasks + (Messages(rows) + [Created(e)]) == (s.tasks + Messages(rows)) + [Created(e)];
  }

  /** n - position times RelayNext relays the rows up to n. */
  lemma {:induction false} NextsRelay(cfg: Config, s: Sys, n: nat)
    requires s.relay.joined && s.relay.position <= n <= |s.db.outbox|
    ensures Relayed(s, n, Exec(cfg, s, Nexts(n - s.relay.position)))
    decreases n
  {
    if n == s.relay.position {
      assert s.relay.published + [] == s.relay.published && s.tasks + [] == s.tasks;
    } else {
      NextsRelay(cfg, s, n - 1);
      NextsGrow(cfg, s, n - 1 - s.relay.position);
      RelayedNext(cfg, s, n - 1, Exec(cfg, s, Nexts(n - 1 - s.relay.position)));
    }
  }

  /** Consuming up to offset n is n - position times RelayNext, one order.created for every row on the way. */
  lemma ConsumeIsNexts(cfg: Config, s: Sys, topic: seq<Option<Text>>, n: nat)
    requires CarriesAll(topic, s.db.outbox) && s.relay.joined && s.relay.position <= n <= |topic|
    ensures var s' := Exec(cfg, s, Nexts(n - s.relay.position));
            PassedTo(Serviced(s.relay), topic, n) == Serviced(s'.relay) && Relayed(s, n, s')
  {
    NextsRelay(cfg, s, n);
    PassedPublishes(Serviced(s.relay), topic, s.db.outbox, n);
    PassedKeepsOffsets(Serviced(s.relay), topic, n);
    var rows := s.db.outbox[s.relay.position..n];
    assert Events(s.relay.published + rows) == Events(s.relay.published) + Events(rows);
  }

  lemma {:induction false} PassedKeepsOffsets(r: Relay<Text>, topic: seq<Option<Text>>, n: nat)
    requires r.position <= n <= |topic|
    ensures var after := PassedTo(r, topic, n);
            after == r.(position := n, published := after.published)
    decreases n
  {
    if n > r.position {
      PassedKeepsOffsets(r, topic, n - 1);
    }
  }

  /** No row jams. */
  lemma StopsAtARow(topic: seq<Option<Text>>, rows: seq<OrderCreated>, n: nat)
    requires CarriesAll(topic, rows)
    ensures n < |topic| ==> Read(topic[n]) == Body(Event(rows[n])) && !Jams(Read(topic[n]))
  {
    if n < |topic| {
      RowsArePublishedAsEvents(topic, rows, n);
    }
  }

  /**
   * The service as it consumes rows encoded either way, next to the composed system doing the same: it
   * stops at the end of the outbox or at the first failing publish.
   */
  method ConsumeInStep(
      relay: OutboxRelayService, topic: seq<Option<Text>>, broken: nat, ghost cfg: Config, ghost s: Sys)
    requires relay.Valid(topic) && CarriesAll(topic, s.db.outbox)
    requires relay.connected && s.relay.joined && relay.State() == Serviced(s.relay)
    modifies relay`position, relay`published
    ensures relay.position == |topic| || relay.position == broken
    ensures old(relay.position) <= relay.position <= |topic|
    ensures relay.State() == Serviced(Exec(cfg, s, Nexts(relay.position - old(relay.position))).relay)
  {
    ghost var before := relay.State();
    relay.Consume(topic, broken);
    StopsAtARow(topic, s.db.outbox, relay.position);
    assert relay.State() == PassedTo(before, topic, relay.position);
    ConsumeIsNexts(cfg, s, topic, relay.position);
  }

  /** What the service publishes on the way from offset m to offset n of rows encoded either way. */
  lemma {:induction false} PassedPublishes(r: Relay<Text>, topic: seq<Option<Text>>, rows: seq<OrderCreated>, n: nat)
    requires CarriesAll(topic, rows) && r.position <= n <= |topic|
    ensures PassedTo(r, topic, n).position == n
    ensures PassedTo(r, topic, n).published == r.published + Events(rows[r.position..n])
    decreases n
  {
    if n == r.position {
      assert r.published + [] == r.published;
    } else {
      var (before, row) := (rows[r.position..n - 1], rows[n - 1]);
      PassedPublishes(r, topic, rows, n - 1);
      RowsArePublishedAsEvents(topic, rows, n - 1);
      assert rows[r.position..n] == before + [row];
      EventsGrow(before, row);
      Reassociate(r.published, Events(before), [Event(row)]);
    }
  }

  lemma EventsGrow(rows: seq<OrderCreated>, row: OrderCreated)
    ensures Events(rows + [row]) == Events(rows) + [Event(row)]
  {
  }

  lemma Reassociate<T>(a: seq<T>, b: seq<T>, c: seq<T>)
    ensures (a + b) + c == a + (b + c)
  {
  }

  /**
   * A restart: a group with an offset publishes every row from that offset on once more, a group without one
   * nothing that is in the topic already.
   */
  method RestartAndConsume(
      relay: OutboxRelayService, topic: seq<Option<Text>>, broken: nat, ghost rows: seq<OrderCreated>)
    requires relay.Valid(topic) && !relay.destroyed && CarriesAll(topic, rows)
    modifies relay
    ensures relay.position == |topic| || relay.position == broken
    ensures old(relay.committed).Some? ==>
      var offset := old(relay.committed).value;
      && offset <= relay.position <= |topic|
      && relay.published == old(relay.published) + Events(rows[offset..relay.position])
    ensures old(relay.committed).None? ==> relay.position == |topic| && relay.published == old(relay.published)
  {
    relay.Connect(topic, true);
    ghost var before := relay.State();
    relay.Consume(topic, broken);
    StopsAtARow(topic, rows, relay.position);
    PassedPublishes(before, topic, rows, relay.position);
  }

  /**
   * The same in the composed system: joining again at an offset and reading up to n publishes the rows from
   * the offset to n again, with an order.created for each; joining without one reads from the end.
   */
  lemma JoinResumes(cfg: Config, s: Sys, n: nat)
    requires s.relay.committed.Some? ==> s.relay.committed.value <= |s.db.outbox|
    ensures s.relay.committed.None? ==>
      var joined := Apply(cfg, s, RelayJoin);
      joined == s.(relay := Relay(true, |s.db.outbox|, |s.db.outbox|, None, s.relay.published))
    ensures s.relay.committed.Some? && cfg.repeatCreated && s.relay.committed.value <= n <= |s.db.outbox| ==>
      var offset := s.relay.committed.value;
      var after := Exec(cfg, s, [RelayJoin] + Nexts(n - offset));
      && after.db == s.db && after.relay.position == n
      && after.relay.published == s.relay.published + s.db.outbox[offset..n]
      && after.tasks == s.tasks + Messages(s.db.outbox[offset..n])
  {
    if s.relay.committed.Some? && cfg.repeatCreated && s.relay.committed.value <= n <= |s.db.outbox| {
      var offset := s.relay.committed.value;
      var joined := Apply(cfg, s, RelayJoin);
      assert joined.relay.position == offset;
      assert ([RelayJoin] + Nexts(n - offset))[1..] == Nexts(n - offset);
      NextsRelay(cfg, joined, n);
    }
  }
}
